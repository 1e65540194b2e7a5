/**
 * `FlightSelectionViewModel` as state transitions: construction starts a load at once, and
 * the load's task is split at its `await` as in the trip list's view model.
 */
module FlightSelectionViewModel {
  import opened Wrappers
  import opened Model
  import opened ApiErrors
  import TripService

  /** The published state and the trip whose flights are listed. */
  datatype State = State(
    trip: Trip,
    flights: seq<Flight>,
    isLoading: bool,
    error: Option<ServiceError>,
    selectedFlight: Option<Flight>)

  /** `loadFlights` up to the `await`: the state and the destination passed to `fetchFlights`. */
  datatype Loading = Loading(state: State, destination: Option<string>)

  /** `loadFlights` before the `await`: loading, any earlier error cleared, and the request made
      for the trip's destination. */
  function BeginLoad(s: State): (r: Loading)
    ensures r.state.isLoading && r.state.error.None?
    ensures r.destination == Some(s.trip.destination)
    ensures r.state.trip == s.trip && r.state.flights == s.flights && r.state.selectedFlight == s.selectedFlight
  {
    Loading(s.(isLoading := true, error := None), Some(s.trip.destination))
  }

  /** `loadFlights` after the `await`: the fetched flights replace the old ones, or the old ones
      stay and the error is recorded; loading ends either way and the selection is untouched. */
  function FinishLoad(s: State, outcome: Result<seq<Flight>, ServiceError>): (r: State)
    ensures !r.isLoading
    ensures r.trip == s.trip && r.selectedFlight == s.selectedFlight
    ensures outcome.Ok? ==> r.flights == outcome.value && r.error == s.error
    ensures outcome.Err? ==> r.flights == s.flights && r.error == Some(outcome.error)
  {
    match outcome
    case Ok(flights) => s.(flights := flights, isLoading := false)
    case Err(e) => s.(error := Some(e), isLoading := false)
  }

  /** `init`: a fresh model that has already started loading the trip's flights. */
  function Init(trip: Trip): (r: Loading)
    ensures r.state == State(trip, [], true, None, None)
    ensures r.destination == Some(trip.destination)
  {
    BeginLoad(State(trip, [], false, None, None))
  }

  /** A whole load, through the service, with no other task in between. `urlBuilt` and `x`
      stand for what `URLComponents` and the network do. */
  function LoadFlights(s: State, c: Wire.DateCodec, urlBuilt: bool, x: TripService.Exchange): (r: State)
    ensures !r.isLoading && r.trip == s.trip && r.selectedFlight == s.selectedFlight
    ensures var fetched := TripService.FetchFlights(c, Some(s.trip.destination), urlBuilt, x).result;
      && (fetched.Ok? ==> r.flights == fetched.value && r.error.None?)
      && (fetched.Err? ==> r.flights == s.flights && r.error == Some(fetched.error))
  {
    var l := BeginLoad(s);
    FinishLoad(l.state, TripService.FetchFlights(c, l.destination, urlBuilt, x).result)
  }

  /** The request built for a new model carries a destination query exactly when the trip has
      a non-empty destination. */
  lemma InitQueriesDestination(trip: Trip, c: Wire.DateCodec, x: TripService.Exchange)
    ensures var sent := TripService.FetchFlights(c, Init(trip).destination, true, x).sent.value;
      && (sent.query == [] <==> trip.destination == [])
      && (trip.destination != [] ==> sent.query == [TripService.QueryItem("destination", trip.destination)])
  {
  }

  /** Loading, however it ends, never changes which flight is selected. */
  lemma {:induction false} LoadsKeepSelection(s: State, c: Wire.DateCodec, attempts: seq<(bool, TripService.Exchange)>)
    ensures RepeatLoads(s, c, attempts).selectedFlight == s.selectedFlight
    ensures RepeatLoads(s, c, attempts).trip == s.trip
    decreases |attempts|
  {
    if attempts != [] {
      LoadsKeepSelection(LoadFlights(s, c, attempts[0].0, attempts[0].1), c, attempts[1..]);
    }
  }

  /** `loadFlights` called again and again (it is public), each call running to completion. */
  function RepeatLoads(s: State, c: Wire.DateCodec, attempts: seq<(bool, TripService.Exchange)>): State
    decreases |attempts|
  {
    if attempts == [] then s
    else RepeatLoads(LoadFlights(s, c, attempts[0].0, attempts[0].1), c, attempts[1..])
  }
}
