/**
 * `TripListViewModel` as state transitions. Each asynchronous task is split at its `await`:
 * the transition takes the outcome of the service call (the value returned or the error thrown)
 * and gives the state the task leaves behind.
 */
module TripListViewModel {
  import opened Wrappers
  import opened Model
  import opened ApiErrors
  import TripService

  /** The published state; `error` is the error whose `localizedDescription` is the
      `errorMessage` shown. */
  datatype State = State(trips: seq<Trip>, isLoading: bool, error: Option<ServiceError>)

  const Initial: State := State([], false, None)

  /** `loadTrips` up to the `await`: loading, with any earlier error cleared. */
  function BeginLoad(s: State): (r: State)
    ensures r.isLoading && r.error.None? && r.trips == s.trips
  {
    s.(isLoading := true, error := None)
  }

  /** `loadTrips` after the `await`: the fetched list replaces the old one, or the old list stays
      and the error is recorded; loading ends either way. */
  function FinishLoad(s: State, outcome: Result<seq<Trip>, ServiceError>): (r: State)
    ensures !r.isLoading
    ensures outcome.Ok? ==> r.trips == outcome.value && r.error == s.error
    ensures outcome.Err? ==> r.trips == s.trips && r.error == Some(outcome.error)
  {
    match outcome
    case Ok(trips) => s.(trips := trips, isLoading := false)
    case Err(e) => s.(error := Some(e), isLoading := false)
  }

  /** A whole `loadTrips` with no other task in between. */
  function LoadTrips(s: State, outcome: Result<seq<Trip>, ServiceError>): (r: State)
    ensures outcome.Ok? ==> r == State(outcome.value, false, None)
    ensures outcome.Err? ==> r == State(s.trips, false, Some(outcome.error))
  {
    FinishLoad(BeginLoad(s), outcome)
  }

  /** The first load of a freshly made view model: when it fails, the screen has no trips to
      show and only the error. */
  lemma FirstLoadFailureShowsNoTrips(e: ServiceError)
    ensures LoadTrips(Initial, Err(e)) == State([], false, Some(e))
  {
  }

  /** `createTrip` after the `await`: the trip the service returned is appended, or the error is
      recorded; the loading flag is never touched. */
  function CreateTrip(s: State, outcome: Result<Trip, ServiceError>): (r: State)
    ensures r.isLoading == s.isLoading
    ensures outcome.Ok? ==>
      && |r.trips| == |s.trips| + 1
      && r.trips[..|s.trips|] == s.trips
      && r.trips[|s.trips|] == outcome.value
      && r.error == s.error
    ensures outcome.Err? ==> r.trips == s.trips && r.error == Some(outcome.error)
  {
    match outcome
    case Ok(created) => s.(trips := s.trips + [created])
    case Err(e) => s.(error := Some(e))
  }

  /** What `deleteTrip(at:)` leaves behind, and the id it asked the service to delete, if any. */
  datatype Deletion = Deletion(state: State, requested: Option<string>)

  /**
   * `deleteTrip(at:)`: an index past the end does nothing and calls nothing; otherwise the id of
   * the trip at `index` is sent, and on success exactly that trip is removed, the others keeping
   * their order. `outcome` is what the service call gave (unused when no call is made).
   */
  function DeleteTrip(s: State, index: nat, outcome: Result<(), ServiceError>): (r: Deletion)
    ensures r.requested.None? <==> index >= |s.trips|
    ensures index >= |s.trips| ==> r.state == s
    ensures index < |s.trips| ==> r.requested == Some(s.trips[index].id) && r.state.isLoading == s.isLoading
    ensures index < |s.trips| && outcome.Ok? ==>
      && |r.state.trips| == |s.trips| - 1
      && (forall i :: 0 <= i < index ==> r.state.trips[i] == s.trips[i])
      && (forall i :: index <= i < |r.state.trips| ==> r.state.trips[i] == s.trips[i + 1])
      && multiset(r.state.trips) + multiset{s.trips[index]} == multiset(s.trips)
      && r.state.error == s.error
    ensures index < |s.trips| && outcome.Err? ==> r.state.trips == s.trips && r.state.error == Some(outcome.error)
  {
    if index >= |s.trips| then Deletion(s, None)
    else
      var id := s.trips[index].id;
      match outcome
      case Ok(_) =>
        var trips := s.trips[..index] + s.trips[index + 1..];
        assert s.trips == s.trips[..index] + [s.trips[index]] + s.trips[index + 1..];
        Deletion(s.(trips := trips), Some(id))
      case Err(e) => Deletion(s.(error := Some(e)), Some(id))
  }

  /** Loading through the service: a 404 from the server leaves the list as it was and records
      `invalidResponse`. */
  lemma LoadRejected(s: State, c: Wire.DateCodec, body: Option<Wire.Json>)
    ensures var r := LoadTrips(s, TripService.FetchTrips(c, TripService.Received(TripService.Response(true, 404, body))).result);
      r.trips == s.trips && !r.isLoading && r.error == Some(Api(InvalidResponse))
  {
  }

  /** Creating through the service appends the server's decoded reply, which need not equal the
      trip that was sent. */
  lemma CreateAppendsServerCopy(s: State, c: Wire.DateCodec, trip: Trip, x: TripService.Exchange)
    requires TripService.CreateTrip(c, trip, x).result.Ok?
    ensures var r := CreateTrip(s, TripService.CreateTrip(c, trip, x).result);
      && x.Received?
      && DecodeTrip(c, x.response.body.value) == Ok(r.trips[|s.trips|])
  {
  }

  /** Deleting through the service removes the trip whatever status the server answers with,
      since the service never looks at the response. */
  lemma DeleteIgnoresStatus(s: State, index: nat, status: int, body: Option<Wire.Json>)
    requires index < |s.trips|
    ensures var call := TripService.DeleteTrip(s.trips[index].id, TripService.Received(TripService.Response(true, status, body)));
      var r := DeleteTrip(s, index, call.result);
      && call.sent.value.path == "trips/" + r.requested.value
      && |r.state.trips| == |s.trips| - 1
  {
  }
}
