/** The RegularCars section: every record whose category is neither
    luxury nor popular. */
module RegularCars {

  import opened Wrappers
  import opened Json
  import opened Text
  import opened Sequences
  import opened Cars
  import opened Listing
  import CategoryCars

  const LoadError := "Failed to load regular cars"

  /** The filter's test: the lower-cased category is not "luxury" and not
      "popular" ("premium" counts as regular here). */
  predicate IsRegular(car: Json) {
    match CategoryKey(car)
    case None => false
    case Some(key) => key != "luxury" && key != "popular"
  }

  /** The effect as written: once extraction succeeds, the next statement
      calls `setDebugInfo`, which the component never declares, so it
      throws a ReferenceError before any filtering. */
  function LoadAsWritten(body: Json, currentYear: int): (r: Option<seq<Car>>)
  {
    match ExtractCars(body)
    case None => None
    case Some(cars) => None
  }

  /** The effect as evidently intended, without the undeclared call:
      extract, keep the regular records, transform them. */
  function Load(body: Json, currentYear: int): (r: Option<seq<Car>>)
    ensures r.Some? <==> ExtractCars(body).Some? && Readable(ExtractCars(body).value)
  {
    match ExtractCars(body)
    case None => None
    case Some(cars) => Show(cars, IsRegular, currentYear)
  }

  /** As written, the section never shows a list, even for a body whose
      extraction and filtering succeed, such as an empty array. */
  lemma AsWrittenNeverShows(body: Json, currentYear: int)
    ensures LoadAsWritten(body, currentYear) == None
    ensures LoadAsWritten(Arr([]), currentYear) != Load(Arr([]), currentYear)
  {
    assert Readable([]);
  }

  /** The `fetchCars` effect, with the intended `Load`. */
  method FetchCars(view: View, fetched: Fetch, currentYear: int)
    modifies view
    ensures !view.loading
    ensures fetched.Received? && Load(fetched.body, currentYear).Some? ==>
      view.cars == Load(fetched.body, currentYear).value && view.error == old(view.error)
    ensures fetched.Rejected? || Load(fetched.body, currentYear).None? ==>
      view.cars == old(view.cars) && view.error == Some(LoadError)
  {
    view.loading := true;
    var outcome := match fetched
      case Received(body) => Load(body, currentYear)
      case Rejected => None;
    view.Settle(outcome, LoadError);
  }

  /** The section shows the transformed records at exactly the positions
      whose lower-cased category is neither "luxury" nor "popular" (an
      absent or empty category included), in their original order. */
  lemma LoadSelects(body: Json, currentYear: int)
    requires Load(body, currentYear).Some?
    ensures var cars := ExtractCars(body).value;
      var r := Load(body, currentYear).value;
      var idx := Kept(cars, IsRegular);
      && |r| == |idx| <= |cars|
      && (forall k :: 0 <= k < |idx| ==> idx[k] < |cars| && r[k] == TransformCar(cars[idx[k]], currentYear))
      && (forall k, l :: 0 <= k < l < |idx| ==> idx[k] < idx[l])
      && (forall i :: 0 <= i < |cars| ==>
            (i in idx <==> CategoryKey(cars[i]).value !in {"luxury", "popular"}))
  {
    ShowSelects(ExtractCars(body).value, IsRegular, currentYear);
  }

  /** A "Premium" record is regular here but not under CategoryCars'
      "regular" request. */
  lemma PremiumDiffersFromCategoryCars()
    ensures IsRegular(Obj([("category", Str("Premium"))]))
    ensures !CategoryCars.Matches(Obj([("category", Str("Premium"))]), "regular")
  {
    assert Lower("Premium") == "premium";
  }
}
