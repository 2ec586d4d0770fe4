/** The Economy section, which in fact lists the luxury cars: every record
    whose category contains "luxury". */
module Economy {

  import opened Wrappers
  import opened Json
  import opened Text
  import opened Sequences
  import opened Cars
  import opened Listing

  const LoadError := "Failed to load luxury cars"

  /** The filter's test: the lower-cased category is "luxury" or contains it. */
  predicate IsLuxury(car: Json) {
    match CategoryKey(car)
    case None => false
    case Some(key) => key == "luxury" || Contains(key, "luxury")
  }

  /** The equality test is subsumed by the substring test, and a record
      without a category is never luxury. */
  lemma IsLuxuryMeansContains(car: Json)
    requires CategoryKey(car).Some?
    ensures IsLuxury(car) <==> Contains(CategoryKey(car).value, "luxury")
    ensures CategoryKey(car) == Some("") ==> !IsLuxury(car)
  {
    ContainsBasics(CategoryKey(car).value, "luxury");
  }

  /** The list the section shows; `None` where the effect throws. */
  function Load(body: Json, currentYear: int): (r: Option<seq<Car>>)
    ensures r.Some? <==> ExtractCars(body).Some? && Readable(ExtractCars(body).value)
  {
    match ExtractCars(body)
    case None => None
    case Some(cars) => Show(cars, IsLuxury, currentYear)
  }

  /** The `fetchCars` effect. */
  method FetchCars(view: View, fetched: Fetch, currentYear: int)
    modifies view
    ensures !view.loading
    ensures fetched.Received? && Load(fetched.body, currentYear).Some? ==>
      view.cars == Load(fetched.body, currentYear).value && view.error == old(view.error)
    ensures fetched.Rejected? || Load(fetched.body, currentYear).None? ==>
      view.cars == old(view.cars) && view.error == Some(LoadError)
  {
    view.loading := true;
    var outcome := match fetched
      case Received(body) => Load(body, currentYear)
      case Rejected => None;
    view.Settle(outcome, LoadError);
  }

  /** The section shows the transformed records at exactly the positions
      whose lower-cased category contains "luxury", in their original order. */
  lemma LoadSelects(body: Json, currentYear: int)
    requires Load(body, currentYear).Some?
    ensures var cars := ExtractCars(body).value;
      var r := Load(body, currentYear).value;
      var idx := Kept(cars, IsLuxury);
      && |r| == |idx| <= |cars|
      && (forall k :: 0 <= k < |idx| ==> idx[k] < |cars| && r[k] == TransformCar(cars[idx[k]], currentYear))
      && (forall k, l :: 0 <= k < l < |idx| ==> idx[k] < idx[l])
      && (forall i :: 0 <= i < |cars| ==>
            (i in idx <==> Contains(CategoryKey(cars[i]).value, "luxury")))
  {
    var cars := ExtractCars(body).value;
    ShowSelects(cars, IsLuxury, currentYear);
    forall i | 0 <= i < |cars| ensures IsLuxury(cars[i]) <==> Contains(CategoryKey(cars[i]).value, "luxury") {
      IsLuxuryMeansContains(cars[i]);
    }
  }
}
