/** The PopularCars section: the first six records of the response,
    whatever their category. */
module PopularCars {

  import opened Wrappers
  import opened Json
  import opened Text
  import opened Cars
  import opened Listing

  const LoadError := "Failed to load cars. Please try again later."
  const MaxShown := 6

  /** The records the section starts from: the paginated envelope's list
      when there is one, otherwise `normalizeCarData` of the body. */
  function Source(body: Json): (r: seq<Json>)
  {
    if PaginatedCars(body).Some? then PaginatedCars(body).value else Normalize(body)
  }

  /** The fast path adds nothing: `normalizeCarData` puts the same rule
      first, so the section always starts from `normalizeCarData(body)`. */
  lemma FastPathIsNormalize(body: Json)
    ensures Source(body) == Normalize(body)
  {
  }

  /** The list the section shows: every record transformed, then the
      first six kept. `None` where transforming a `null` record throws. */
  function Load(body: Json, currentYear: int): (r: Option<seq<Car>>)
    ensures r.Some? <==> NoNull(Source(body))
    ensures r.Some? ==>
      && |r.value| == (if |Source(body)| < MaxShown then |Source(body)| else MaxShown)
      && forall i :: 0 <= i < |r.value| ==> r.value[i] == TransformCar(Source(body)[i], currentYear)
  {
    var cars := Source(body);
    if NoNull(cars) then Some(Slice(TransformAll(cars, currentYear), 0, MaxShown)) else None
  }

  /** A body of no recognised shape is not an error: the section shows
      the empty list ("No cars available"). */
  lemma UnknownShapeShowsNothing(currentYear: int)
    ensures Load(Obj([("message", Str("ok"))]), currentYear) == Some([])
    ensures Load(Null, currentYear) == Some([])
  {
    var body := Obj([("message", Str("ok"))]);
    assert OwnValues(body.fields) == [Str("ok")];
    assert ArraysAmong([Str("ok")]) == [];
  }

  /** The `fetchCars` effect. In development builds (`dev`) a failure is
      replaced by the (empty) mock list and the error is cleared. */
  method FetchCars(view: View, fetched: Fetch, currentYear: int, dev: bool)
    modifies view
    ensures !view.loading
    ensures fetched.Received? && Load(fetched.body, currentYear).Some? ==>
      view.cars == Load(fetched.body, currentYear).value && view.error == old(view.error)
    ensures (fetched.Rejected? || Load(fetched.body, currentYear).None?) && !dev ==>
      view.cars == old(view.cars) && view.error == Some(LoadError)
    ensures (fetched.Rejected? || Load(fetched.body, currentYear).None?) && dev ==>
      view.cars == [] && view.error == None
  {
    view.loading := true;
    var outcome := match fetched
      case Received(body) => Load(body, currentYear)
      case Rejected => None;
    if outcome.None? && dev {
      view.error := Some(LoadError);
      view.cars := [];
      view.error := None;
      view.loading := false;
    } else {
      view.Settle(outcome, LoadError);
    }
  }
}
