/** The restaurant cards: a name and five stars per restaurant. */
module Cards {

  /** One `<span>` star: its key and whether it has the `filled` class. */
  datatype Star = Star(key: int, filled: bool)

  /** What a card shows of a restaurant. */
  datatype RatedRestaurant = RatedRestaurant(name: string, rating: real)

  /** One card: its key (the list index), the name and the stars. */
  datatype Card = Card(key: int, name: string, stars: seq<Star>)

  /** The stars `renderStars(rating)` produces: star `i` is filled when `i < rating`. */
  function StarsFor(rating: real): seq<Star>
  {
    seq(5, i => Star(i, (i as real) < rating))
  }

  /** Number of filled stars, counted from the end. */
  function CountFilled(stars: seq<Star>): nat
  {
    if stars == [] then 0 else CountFilled(stars[..|stars| - 1]) + (if stars[|stars| - 1].filled then 1 else 0)
  }

  /** `renderStars`: the loop pushes one star per index 0 to 4. */
  method RenderStars(rating: real) returns (stars: seq<Star>)
    ensures stars == StarsFor(rating)
  {
    stars := [];
    var i := 0;
    while i < 5
      invariant 0 <= i <= 5
      invariant stars == StarsFor(rating)[..i]
    {
      stars := stars + [Star(i, (i as real) < rating)];
      i := i + 1;
    }
  }

  /** Always five stars, keyed 0 to 4, and the filled ones come first. */
  lemma StarsShape(rating: real)
    ensures |StarsFor(rating)| == 5
    ensures forall i :: 0 <= i < 5 ==> StarsFor(rating)[i].key == i
    ensures forall i, j :: 0 <= i <= j < 5 && StarsFor(rating)[j].filled ==> StarsFor(rating)[i].filled
  {
  }

  /** For a whole-number rating `n`, the card shows `n` filled stars, capped to 0–5. */
  lemma FilledCountOfWholeRating(n: int)
    ensures CountFilled(StarsFor(n as real)) == if n < 0 then 0 else if n > 5 then 5 else n
  {
    FilledPrefix(n, 5);
    assert StarsFor(n as real)[..5] == StarsFor(n as real);
  }

  lemma {:induction false} FilledPrefix(n: int, k: nat)
    requires k <= 5
    ensures CountFilled(StarsFor(n as real)[..k]) == if n < 0 then 0 else if n > k then k else n
  {
    if k > 0 {
      FilledPrefix(n, k - 1);
      var s := StarsFor(n as real)[..k];
      assert s[..k - 1] == StarsFor(n as real)[..k - 1];
    }
  }

  /** The card list: one card per restaurant, keyed by position, in order. */
  function RenderCards(restaurants: seq<RatedRestaurant>): (cards: seq<Card>)
    ensures |cards| == |restaurants|
    ensures forall i :: 0 <= i < |cards| ==>
              cards[i].key == i && cards[i].name == restaurants[i].name &&
              cards[i].stars == StarsFor(restaurants[i].rating)
  {
    seq(|restaurants|, i requires 0 <= i < |restaurants| => Card(i, restaurants[i].name, StarsFor(restaurants[i].rating)))
  }
}
