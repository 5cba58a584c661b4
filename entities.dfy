/** The records exchanged with the backend, as the pages use them. */
module Entities {
  import opened Wrappers
  import opened Js

  /** A user profile (`User`). */
  datatype User = User(
    userId: string,
    email: string,
    name: string,
    bio: string,
    userType: string,
    createdAt: string,
    updatedAt: string)

  /** `Number(user?.userId)`: `NaN` when there is no user. */
  function UserIdNumber(user: Option<User>): (n: JsNumber)
    ensures user.None? ==> n.NaN?
  {
    if user.Some? then ToNumber(user.value.userId) else NaN
  }

  /**
   * `Number(param)` for a route parameter read with `useParams`: a missing
   * parameter is `undefined`, which converts to `NaN`.
   */
  function RouteNumber(param: Option<string>): (n: JsNumber)
    ensures param.None? ==> n.NaN?
    ensures param.Some? ==> n == ToNumber(param.value)
  {
    if param.Some? then ToNumber(param.value) else NaN
  }

  /** A route built with a non-negative integer id reads that id back. */
  lemma RouteNumberOfId(id: nat)
    ensures RouteNumber(Some(Decimal(id))) == Num(id as real)
  {
    DecimalRoundTrip(id);
  }

  /** A map position. */
  datatype Coords = Coords(lat: real, lng: real)

  /** A restaurant location: stored as JSON text, or already an object. */
  datatype Location = LocationText(text: string) | LocationPoint(point: Coords)

  datatype Restaurant = Restaurant(
    restaurantId: int,
    name: string,
    email: string,
    status: string,
    location: Location)

  /** `RestaurantRequestDto`: the location travels as JSON text. */
  datatype RestaurantRequest = RestaurantRequest(name: string, email: string, status: string, location: string)

  datatype Food = Food(
    foodId: int,
    name: string,
    description: string,
    price: real,
    restaurantId: int,
    status: string)

  /** `FoodRequestDto`. */
  datatype FoodRequest = FoodRequest(
    name: string,
    description: string,
    price: real,
    restaurantId: JsNumber,
    status: string)

  datatype FoodRating = FoodRating(
    foodRatingId: int,
    foodId: int,
    userId: int,
    rating: real,
    comment: string,
    ratingDate: string)

  /** What the rating modal hands to `onSave`. */
  datatype RatingData = RatingData(rating: real, comment: string)

  datatype Post = Post(
    postId: int,
    title: string,
    content: string,
    image: string,
    createdDate: string,
    status: string,
    userId: int)

  /** `PostRequestDto`. */
  datatype PostRequest = PostRequest(title: string, content: string, userId: JsNumber, status: string)

  datatype Comment = Comment(commentId: int, postId: int, userId: int, content: string)

  /** A file chosen in an `<input type="file">`. */
  datatype ImageFile = ImageFile(name: string)
}
