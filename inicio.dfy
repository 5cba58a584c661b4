/**
 * The public landing page: a catalogue of foods or of restaurants, narrowed
 * by five text filters that are applied on every render.
 */
module Inicio {
  import opened Wrappers
  import opened Seqs
  import opened Text
  import opened Js
  import opened Entities

  /** A catalogue food (`Food` of the catalogue API); `type` is spelled `kind` here. */
  datatype CatalogueFood = CatalogueFood(
    id: int,
    kind: string,
    name: string,
    rating: real,
    restaurant: string,
    comments: seq<string>,
    influencer: Option<string>)

  /** A catalogue restaurant (`Restaurant` of the catalogue API). */
  datatype CatalogueRestaurant = CatalogueRestaurant(
    id: int,
    name: string,
    rating: real,
    foods: seq<string>,
    comments: seq<string>,
    location: Coords,
    country: Option<string>)

  /** The filter inputs; an empty string means the filter is off. */
  datatype Filters = Filters(search: string, rating: string, kind: string, influencer: string, country: string)

  const NoFilters := Filters("", "", "", "", "")

  /** The `name` attribute of the input that changed. */
  datatype FilterField = Search | Rating | Kind | Influencer | Country

  /** `setFilters(prev => ({ ...prev, [name]: value }))`. */
  function SetField(f: Filters, field: FilterField, value: string): (r: Filters)
    ensures field == Search ==> r == f.(search := value)
    ensures field == Rating ==> r == f.(rating := value)
    ensures field == Kind ==> r == f.(kind := value)
    ensures field == Influencer ==> r == f.(influencer := value)
    ensures field == Country ==> r == f.(country := value)
  {
    match field
    case Search => f.(search := value)
    case Rating => f.(rating := value)
    case Kind => f.(kind := value)
    case Influencer => f.(influencer := value)
    case Country => f.(country := value)
  }

  /** `x >= Number(s)`: never true when the bound is `NaN`. */
  predicate AtLeast(x: real, bound: JsNumber)
    ensures bound.NaN? ==> !AtLeast(x, bound)
    ensures bound.Num? ==> (AtLeast(x, bound) <==> bound.value <= x)
  {
    bound.Num? && x >= bound.value
  }

  /** `a.toLowerCase().includes(b.toLowerCase())`. */
  predicate ContainsIgnoringCase(a: string, b: string)
  {
    Contains(ToLower(a), ToLower(b))
  }

  /** The food filter: every filter that is on must hold. */
  predicate FoodMatches(f: Filters, food: CatalogueFood)
  {
    && (f.search == "" || ContainsIgnoringCase(food.name, f.search))
    && (f.rating == "" || AtLeast(food.rating, ToNumber(f.rating)))
    && (f.kind == "" || food.kind == f.kind)
    && (f.influencer == "" || (food.influencer.Some? && ContainsIgnoringCase(food.influencer.value, f.influencer)))
    && (f.country == "" || Contains(food.restaurant, f.country))
  }

  /** The restaurant filter: type and influencer play no part, and "country" is looked up in the name. */
  predicate RestaurantMatches(f: Filters, r: CatalogueRestaurant)
  {
    && (f.search == "" || ContainsIgnoringCase(r.name, f.search))
    && (f.rating == "" || AtLeast(r.rating, ToNumber(f.rating)))
    && (f.country == "" || Contains(r.name, f.country))
  }

  function FilteredFoods(f: Filters, foods: seq<CatalogueFood>): seq<CatalogueFood>
  {
    Filter(foods, x => FoodMatches(f, x))
  }

  function FilteredRestaurants(f: Filters, restaurants: seq<CatalogueRestaurant>): seq<CatalogueRestaurant>
  {
    Filter(restaurants, x => RestaurantMatches(f, x))
  }

  /** The foods shown are exactly the matching ones, in catalogue order. */
  lemma FilteredFoodsSpec(f: Filters, foods: seq<CatalogueFood>)
    ensures forall i :: 0 <= i < |FilteredFoods(f, foods)| ==>
              FilteredFoods(f, foods)[i] in foods && FoodMatches(f, FilteredFoods(f, foods)[i])
    ensures forall i :: 0 <= i < |foods| && FoodMatches(f, foods[i]) ==> foods[i] in FilteredFoods(f, foods)
    ensures IsSubsequence(FilteredFoods(f, foods), foods)
  {
    FilterIsSubsequence(foods, x => FoodMatches(f, x));
  }

  /** The restaurants shown are exactly the matching ones, in catalogue order. */
  lemma FilteredRestaurantsSpec(f: Filters, restaurants: seq<CatalogueRestaurant>)
    ensures forall i :: 0 <= i < |FilteredRestaurants(f, restaurants)| ==>
              FilteredRestaurants(f, restaurants)[i] in restaurants &&
              RestaurantMatches(f, FilteredRestaurants(f, restaurants)[i])
    ensures forall i :: 0 <= i < |restaurants| && RestaurantMatches(f, restaurants[i]) ==>
              restaurants[i] in FilteredRestaurants(f, restaurants)
    ensures IsSubsequence(FilteredRestaurants(f, restaurants), restaurants)
  {
    FilterIsSubsequence(restaurants, x => RestaurantMatches(f, x));
  }

  /** With every filter off, the whole catalogue is shown. */
  lemma NoFiltersShowAll(foods: seq<CatalogueFood>, restaurants: seq<CatalogueRestaurant>)
    ensures FilteredFoods(NoFilters, foods) == foods
    ensures FilteredRestaurants(NoFilters, restaurants) == restaurants
  {
    FilterKeepsAll(foods, x => FoodMatches(NoFilters, x));
    FilterKeepsAll(restaurants, x => RestaurantMatches(NoFilters, x));
  }

  /** The type and influencer inputs do not affect the restaurant list. */
  lemma RestaurantsIgnoreFoodFilters(f: Filters, kind: string, influencer: string, restaurants: seq<CatalogueRestaurant>)
    ensures FilteredRestaurants(f.(kind := kind, influencer := influencer), restaurants)
            == FilteredRestaurants(f, restaurants)
  {
    var g := f.(kind := kind, influencer := influencer);
    FilterCongruent(restaurants, x => RestaurantMatches(g, x), x => RestaurantMatches(f, x));
  }

  /** With the influencer filter on, every food shown names an influencer. */
  lemma InfluencerFilterNeedsInfluencer(f: Filters, foods: seq<CatalogueFood>)
    requires f.influencer != ""
    ensures forall i :: 0 <= i < |FilteredFoods(f, foods)| ==> FilteredFoods(f, foods)[i].influencer.Some?
  {
    FilteredFoodsSpec(f, foods);
  }

  /** The name search does not depend on the case of ASCII letters in the query. */
  lemma SearchIgnoresCase(f: Filters, foods: seq<CatalogueFood>, restaurants: seq<CatalogueRestaurant>)
    ensures FilteredFoods(f.(search := ToLower(f.search)), foods) == FilteredFoods(f, foods)
    ensures FilteredRestaurants(f.(search := ToLower(f.search)), restaurants) == FilteredRestaurants(f, restaurants)
  {
    var g := f.(search := ToLower(f.search));
    ToLowerIdempotent(f.search);
    assert g.search == "" <==> f.search == "";
    FilterCongruent(foods, x => FoodMatches(g, x), x => FoodMatches(f, x));
    FilterCongruent(restaurants, x => RestaurantMatches(g, x), x => RestaurantMatches(f, x));
  }

  /** Switching one filter off never hides anything that was shown, nor changes the order. */
  lemma ClearingWidens(f: Filters, field: FilterField, foods: seq<CatalogueFood>, restaurants: seq<CatalogueRestaurant>)
    ensures IsSubsequence(FilteredFoods(f, foods), FilteredFoods(SetField(f, field, ""), foods))
    ensures IsSubsequence(FilteredRestaurants(f, restaurants), FilteredRestaurants(SetField(f, field, ""), restaurants))
  {
    var g := SetField(f, field, "");
    FilterMonotone(foods, x => FoodMatches(f, x), x => FoodMatches(g, x));
    FilterMonotone(restaurants, x => RestaurantMatches(f, x), x => RestaurantMatches(g, x));
  }

  /**
   * A minimum rating typed with a decimal point is compared as that decimal:
   * with `i.f` in the rating box, a food or restaurant is shown exactly when
   * its rating is at least `i + 0.f`.
   */
  lemma DecimalMinimumRating(i: string, fr: string, food: CatalogueFood, r: CatalogueRestaurant)
    requires i != [] && AllDigits(i) && AllDigits(fr)
    ensures FoodMatches(NoFilters.(rating := i + "." + fr), food) <==> food.rating >= DigitsValue(i) as real + Fraction(fr)
    ensures RestaurantMatches(NoFilters.(rating := i + "." + fr), r) <==> r.rating >= DigitsValue(i) as real + Fraction(fr)
  {
    PointLiteral(i, fr);
  }

  /** Typing more into the search box never shows anything new, and keeps the order. */
  lemma LongerSearchNarrows(f: Filters, more: string, foods: seq<CatalogueFood>, restaurants: seq<CatalogueRestaurant>)
    ensures IsSubsequence(FilteredFoods(f.(search := f.search + more), foods), FilteredFoods(f, foods))
    ensures IsSubsequence(FilteredRestaurants(f.(search := f.search + more), restaurants), FilteredRestaurants(f, restaurants))
  {
    var g := f.(search := f.search + more);
    ToLowerAppend(f.search, more);
    forall name: string | g.search == "" || ContainsIgnoringCase(name, g.search)
      ensures f.search == "" || ContainsIgnoringCase(name, f.search)
    {
      if f.search != "" {
        ContainsPrefix(ToLower(name), ToLower(f.search), ToLower(more));
      }
    }
    FilterMonotone(foods, x => FoodMatches(g, x), x => FoodMatches(f, x));
    FilterMonotone(restaurants, x => RestaurantMatches(g, x), x => RestaurantMatches(f, x));
  }

  /** Which catalogue is on screen. */
  datatype View = Comidas | Restaurantes

  /** The catalogue request of the loading effect, with its bearer token. */
  datatype CatalogueRequest = GetFoods(bearer: string) | GetRestaurants(bearer: string)

  class InicioPage {
    /** `localStorage.getItem('token') || ''`, read once. */
    const token: string
    var view: View
    var foods: seq<CatalogueFood>
    var restaurants: seq<CatalogueRestaurant>
    var filters: Filters

    constructor (store: map<string, string>)
      ensures token == if "token" in store then store["token"] else ""
      ensures view == Comidas && foods == [] && restaurants == [] && filters == NoFilters
    {
      token := if "token" in store then store["token"] else "";
      view, foods, restaurants, filters := Comidas, [], [], NoFilters;
    }

    /** The two view buttons. */
    method SetView(v: View)
      modifies this
      ensures view == v
      ensures foods == old(foods) && restaurants == old(restaurants) && filters == old(filters)
    {
      view := v;
    }

    /**
     * The loading effect: the catalogue of the current view is requested
     * and, when it arrives, replaces that list; the other list is untouched.
     */
    method Load(foodsAnswer: Option<seq<CatalogueFood>>, restaurantsAnswer: Option<seq<CatalogueRestaurant>>)
      returns (request: CatalogueRequest)
      modifies this
      ensures request == if view == Comidas then GetFoods(token) else GetRestaurants(token)
      ensures foods == if view == Comidas && foodsAnswer.Some? then foodsAnswer.value else old(foods)
      ensures restaurants == if view == Restaurantes && restaurantsAnswer.Some? then restaurantsAnswer.value
                             else old(restaurants)
      ensures view == old(view) && filters == old(filters)
    {
      if view == Comidas {
        request := GetFoods(token);
        if foodsAnswer.Some? {
          foods := foodsAnswer.value;
        }
      } else {
        request := GetRestaurants(token);
        if restaurantsAnswer.Some? {
          restaurants := restaurantsAnswer.value;
        }
      }
    }

    /** `handleFilterChange`: only the named filter takes the new value. */
    method HandleFilterChange(field: FilterField, value: string)
      modifies this
      ensures filters == SetField(old(filters), field, value)
      ensures view == old(view) && foods == old(foods) && restaurants == old(restaurants)
    {
      filters := SetField(filters, field, value);
    }
  }
}
