/** Messages on the bus: fetch requests the handlers emit, responses they
    consume, the already-parsed views of a response body, and the publisher
    as an outbox of emitted requests. */
module Bus {

  import opened Failures
  import opened Database

  /** `bus.ApiRequest`: one unit of crawl work. */
  datatype ApiRequest = ApiRequest(endpoint: string, params: map<string, string>, chunks: bool)

  /** A row of `data/league/season_sessions`. */
  datatype SeasonSession = SeasonSession(subsessionId: int, launchAt: Timestamp, trackId: int)

  /** The fields of `LeagueSeasonSessionsResponse` the season handler reads. */
  datatype SeasonSessionsPayload = SeasonSessionsPayload(sessions: seq<SeasonSession>)

  /** One participant's result row within a sim-session. */
  datatype ResultRow = ResultRow(custId: int)

  /** One sim-session (practice, qualifying, race ...) of a subsession. */
  datatype SimSession = SimSession(simsessionNumber: int, results: seq<ResultRow>)

  /** The fields of `ResultsGetResponse` the session handler reads. */
  datatype ResultsPayload = ResultsPayload(
    subsessionId: int, leagueId: int, seasonId: int, trackId: int,
    sessionResults: seq<SimSession>)

  /** The fields of `ResultsLapDataResponse` the laps handler reads. */
  datatype LapDataPayload = LapDataPayload(
    subsessionId: int, simsessionNumber: int, custId: int, trackId: int, carId: int)

  /** A body decoded as a `map[string]interface{}`: the JSON literal `null`
      sets the target map to nil, an object yields its members. */
  datatype Decoded = Null | Object(members: map<string, Json>)

  /** The map a decoded body leaves behind when the target started nil; a
      nil map reads as the empty map. */
  function Entries(d: Decoded): (r: map<string, Json>)
    ensures d.Null? ==> r == map[]
    ensures d.Object? ==> r == d.members
  {
    match d
    case Null => map[]
    case Object(members) => members
  }

  /** A response body as the handlers see it: for each shape the body is
      decoded into, the decoded value or `None` when `json.Unmarshal` fails.
      `fields` is the body decoded as a `map[string]interface{}`. */
  datatype Body = Body(
    seasonSessions: Option<SeasonSessionsPayload>,
    results: Option<ResultsPayload>,
    lapData: Option<LapDataPayload>,
    fields: Option<Decoded>)

  /** The reassembled chunk pages, decoded as `[]map[string]interface{}`, or
      `None` when they are not a JSON array of objects. */
  datatype ChunkRows = ChunkRows(rows: Option<seq<map<string, Json>>>)

  /** `bus.ApiResponse`; `chunks` is the nil-able `*string`. */
  datatype ApiResponse = ApiResponse(endpoint: string, params: map<string, string>, body: Body, chunks: Option<ChunkRows>)

  /** `msgData.Params[name]`: the empty string when the parameter is missing. */
  function Param(params: map<string, string>, name: string): (r: string)
    ensures name in params ==> r == params[name]
    ensures name !in params ==> r == ""
  {
    if name in params then params[name] else ""
  }

  /** The Pub/Sub publisher of the request topic, seen as the sequence of
      requests handed to it. */
  class Publisher {
    var sent: seq<ApiRequest>

    constructor ()
      ensures sent == []
    {
      sent := [];
    }

    /** `pub.Publish`: the request joins the outbox. */
    method Publish(req: ApiRequest)
      modifies this
      ensures sent == old(sent) + [req]
    {
      sent := sent + [req];
    }

    /** The publish loop of a handler: every request, in order. */
    method PublishAll(reqs: seq<ApiRequest>)
      modifies this
      ensures sent == old(sent) + reqs
    {
      for i := 0 to |reqs|
        invariant sent == old(sent) + reqs[..i]
      {
        Publish(reqs[i]);
      }
    }
  }
}
