/** `MultiplexProcessing`: the single entry point that routes a fetched
    response to its handler by endpoint and wraps the handler's error. */
module Multiplexer {

  import opened Failures
  import opened Database
  import opened Bus
  import opened SeasonSessions
  import opened SessionResults
  import opened LapData

  const SeasonSessionsEndpoint := "/data/league/season_sessions"

  /** Which handler a response goes to. */
  datatype Route = ToSessionResults | ToSessionLaps | ToLeagueSeasonSessions | Skip

  /** The endpoint switch: exact matches on three paths, anything else is
      skipped. */
  function RouteOf(endpoint: string): (r: Route)
    ensures r == ToSessionResults <==> endpoint == ResultsGetEndpoint
    ensures r == ToSessionLaps <==> endpoint == LapDataEndpoint
    ensures r == ToLeagueSeasonSessions <==> endpoint == SeasonSessionsEndpoint
  {
    if endpoint == ResultsGetEndpoint then ToSessionResults
    else if endpoint == LapDataEndpoint then ToSessionLaps
    else if endpoint == SeasonSessionsEndpoint then ToLeagueSeasonSessions
    else Skip
  }

  /** A failure wrapped once with the given context. */
  predicate WrappedFailure(r: Outcome, context: string) {
    r.Failure? && r.error.Wrapped? && r.error.context == context
  }

  /** The dispatcher.  A lap-data response must carry its chunk pages: the
      laps handler dereferences them unconditionally. */
  method MultiplexProcessing(store: Store, pub: Publisher, m: ApiResponse, now: Timestamp) returns (r: Outcome)
    requires store.Valid()
    requires m.endpoint == LapDataEndpoint ==> m.chunks.Some?
    modifies store, pub
    ensures store.Valid()
    ensures RouteOf(m.endpoint) == ToSessionResults ==>
              && SessionResultsOutcome(old(store.docs), old(pub.sent), store.docs, pub.sent, m, now, Unwrap(r))
              && (r.Failure? ==> WrappedFailure(r, "failed to process session results"))
    ensures RouteOf(m.endpoint) == ToSessionLaps ==>
              && m.chunks.Some?
              && SessionLapsOutcome(old(store.docs), store.docs, m, now, Unwrap(r))
              && pub.sent == old(pub.sent)
              && (r.Failure? ==> WrappedFailure(r, "failed to process session laps"))
    ensures RouteOf(m.endpoint) == ToLeagueSeasonSessions ==>
              && SeasonSessionsOutcome(old(store.docs), old(pub.sent), store.docs, pub.sent, m, now, Unwrap(r))
              && (r.Failure? ==> WrappedFailure(r, "failed to process league season sessions"))
    ensures RouteOf(m.endpoint) == Skip ==>
              r == Success && store.docs == old(store.docs) && pub.sent == old(pub.sent)
  {
    match RouteOf(m.endpoint)
    case ToSessionResults =>
      var err := ProcessSessionResults(store, pub, m, now);
      r := if err.Failure? then Failure(Wrapped("failed to process session results", err.error)) else Success;
      assert Unwrap(r) == err;
      assert SessionResultsOutcome(old(store.docs), old(pub.sent), store.docs, pub.sent, m, now, Unwrap(r));
    case ToSessionLaps =>
      var err := ProcessSessionLaps(store, m, now);
      r := if err.Failure? then Failure(Wrapped("failed to process session laps", err.error)) else Success;
      assert Unwrap(r) == err;
      assert SessionLapsOutcome(old(store.docs), store.docs, m, now, Unwrap(r));
    case ToLeagueSeasonSessions =>
      var err := ProcessLeagueSeasonSessions(store, pub, m, now);
      r := if err.Failure? then Failure(Wrapped("failed to process league season sessions", err.error)) else Success;
      assert Unwrap(r) == err;
      assert SeasonSessionsOutcome(old(store.docs), old(pub.sent), store.docs, pub.sent, m, now, Unwrap(r));
    case Skip =>
      r := Success;
  }
}
