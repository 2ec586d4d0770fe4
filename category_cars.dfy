/** The CategoryCars section: one requested category, with "regular" as
    the catch-all bucket for everything that is not luxury, popular or
    premium, and a loose two-way substring match for any other request. */
module CategoryCars {

  import opened Wrappers
  import opened Json
  import opened Text
  import opened Sequences
  import opened Cars
  import opened Listing

  const LoadError := "Failed to load cars"

  /** The filter's test of one record against the lower-cased request. */
  predicate Matches(car: Json, requested: string) {
    match CategoryKey(car)
    case None => false
    case Some(key) =>
      if requested == "regular" then
        key == "regular" || key == "" || !Truthy(Get(Some(car), "category"))
          || (key != "luxury" && key != "popular" && key != "premium")
      else
        key == requested || Contains(key, requested) || Contains(requested, key)
  }

  /** The list the section shows for a response body; `None` where the
      effect throws (unknown shape, unreadable category). */
  function Load(body: Json, category: string, currentYear: int): (r: Option<seq<Car>>)
    ensures r.Some? <==> ExtractCars(body).Some? && Readable(ExtractCars(body).value)
  {
    match ExtractCars(body)
    case None => None
    case Some(cars) => Show(cars, car => Matches(car, Lower(category)), currentYear)
  }

  /** The `fetchCars` effect. */
  method FetchCars(view: View, fetched: Fetch, category: string, currentYear: int)
    modifies view
    ensures !view.loading
    ensures fetched.Received? && Load(fetched.body, category, currentYear).Some? ==>
      view.cars == Load(fetched.body, category, currentYear).value && view.error == old(view.error)
    ensures fetched.Rejected? || Load(fetched.body, category, currentYear).None? ==>
      view.cars == old(view.cars) && view.error == Some(LoadError)
  {
    view.loading := true;
    var outcome := match fetched
      case Received(body) => Load(body, category, currentYear)
      case Rejected => None;
    view.Settle(outcome, LoadError);
  }

  /** For the "regular" request (in any letter case) a readable record
      matches exactly when its category is none of luxury, popular and
      premium; an absent or empty category matches. */
  lemma RegularRequestRule(car: Json, category: string)
    requires Lower(category) == "regular" && CategoryKey(car).Some?
    ensures Matches(car, Lower(category)) <==>
      CategoryKey(car).value !in {"luxury", "popular", "premium"}
  {
  }

  /** For any other request a readable record matches exactly when the
      lower-cased category and request are equal or one contains the other. */
  lemma OtherRequestRule(car: Json, category: string)
    requires Lower(category) != "regular" && CategoryKey(car).Some?
    ensures Matches(car, Lower(category)) <==> LooseMatch(CategoryKey(car).value, Lower(category))
  {
  }

  /** A record without a category is shown under every request. */
  lemma UncategorisedShownEverywhere(car: Json, requested: string)
    requires CategoryKey(car) == Some("")
    ensures Matches(car, requested)
  {
    assert OccursAt(requested, "", 0);
  }

  /** The buckets overlap: a "Luxury Sedan" is shown under both the
      "regular" and the "luxury" request. */
  lemma BucketsOverlap()
    ensures var car := Obj([("category", Str("Luxury Sedan"))]);
      Matches(car, "regular") && Matches(car, "luxury")
  {
    var key := Lower("Luxury Sedan");
    assert key == "luxury sedan";
    assert OccursAt(key, "luxury", 0);
  }

  /** The section shows the transformed records at exactly the positions
      that match the request, in their original order; there are never
      more than the response held. */
  lemma LoadSelects(body: Json, category: string, currentYear: int)
    requires Load(body, category, currentYear).Some?
    ensures var cars := ExtractCars(body).value;
      var r := Load(body, category, currentYear).value;
      var idx := Kept(cars, car => Matches(car, Lower(category)));
      && |r| == |idx| <= |cars|
      && (forall k :: 0 <= k < |idx| ==> idx[k] < |cars| && r[k] == TransformCar(cars[idx[k]], currentYear))
      && (forall k, l :: 0 <= k < l < |idx| ==> idx[k] < idx[l])
      && (forall i :: 0 <= i < |cars| ==> (i in idx <==> Matches(cars[i], Lower(category))))
  {
    ShowSelects(ExtractCars(body).value, car => Matches(car, Lower(category)), currentYear);
  }

  /** The section heading: the `title` property when it is non-empty,
      else the category with its first letter capitalised. */
  function Heading(title: string, category: string): (r: string)
    ensures title != "" ==> r == title
    ensures title == "" ==> Lower(r) == Lower(category) && |r| == |category|
    ensures title == "" && category != "" ==> r[0] == UpperChar(category[0]) && r[1..] == category[1..]
  {
    if title != "" then title
    else
      CapitalizeKeepsLetters(category);
      Capitalize(category)
  }

  const PopularText := "Our most sought-after vehicles for your journey"
  const RegularText := "Reliable and comfortable vehicles for everyday use"
  const LuxuryText := "Experience ultimate comfort and style with our premium vehicles"
  const DefaultText := "Find the perfect vehicle for your needs"

  /** `getCategoryDescription`. */
  function CategoryDescription(category: string): (r: string)
    ensures r in {PopularText, RegularText, LuxuryText, DefaultText}
    ensures Lower(category) == "popular" ==> r == PopularText
    ensures Lower(category) == "regular" ==> r == RegularText
    ensures Lower(category) == "luxury" ==> r == LuxuryText
    ensures r == DefaultText <==> Lower(category) !in {"popular", "regular", "luxury"}
  {
    var key := Lower(category);
    if key == "popular" then PopularText
    else if key == "regular" then RegularText
    else if key == "luxury" then LuxuryText
    else DefaultText
  }

  /** The description ignores letter case, so it is the same for a
      category and for its capitalised heading. */
  lemma DescriptionIgnoresCase(category: string)
    ensures CategoryDescription(Lower(category)) == CategoryDescription(category)
    ensures CategoryDescription(Capitalize(category)) == CategoryDescription(category)
  {
    LowerIdempotent(category);
    CapitalizeKeepsLetters(category);
  }
}
