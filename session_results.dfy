/** The session results handler: stores a subsession's results, then asks for
    the lap data of every participant of every sim-session. */
module SessionResults {

  import opened Failures
  import opened Decimal
  import opened Database
  import opened Bus
  import opened Documents

  const LapDataEndpoint := "/data/results/lap_data"

  /** `generateSessionDocumentName`: `session_` and the subsession id in
      decimal. */
  function SessionDocumentName(subsessionId: int): (n: string)
    ensures |n| == 8 + |Format(subsessionId)|
    ensures n[..8] == "session_" && n[8..] == Format(subsessionId)
  {
    var n := "session_" + Format(subsessionId);
    assert n[8..] == Format(subsessionId);
    n
  }

  /** The subsession id reads back from the name. */
  lemma SessionDocumentNameReadsBack(subsessionId: int)
    requires IsInt64(subsessionId)
    ensures ParseInt(SessionDocumentName(subsessionId)[8..]) == Some(subsessionId)
  {
    ParseFormat(subsessionId);
  }

  /** Different subsessions never share a document. */
  lemma SessionDocumentNameInjective(subsessionId: int, subsessionId': int)
    requires SessionDocumentName(subsessionId) == SessionDocumentName(subsessionId')
    ensures subsessionId == subsessionId'
  {
    CancelPrefix("session_", Format(subsessionId), Format(subsessionId'));
    FormatInjective(subsessionId, subsessionId');
  }

  function SessionKey(subsessionId: int): Key {
    Key(SessionCollection, SessionKind, SessionDocumentName(subsessionId))
  }

  /** The document get-or-create inserts for a subsession seen for the first time. */
  function InitialSession(subsessionId: int, now: Timestamp): Document {
    FreshDocument(SessionKind, SessionDocumentName(subsessionId), now, SessionSpec(map[]))
  }

  /** `getOrCreateSessionDocument`. */
  method GetOrCreateSessionDocument(store: Store, subsessionId: int, now: Timestamp) returns (r: Result<Document>)
    requires store.Valid()
    modifies store
    ensures store.Valid()
    ensures r.Ok? ==> r.value == Current(old(store.docs), SessionCollection, InitialSession(subsessionId, now))
    ensures r.Ok? ==> r.value.meta.kind == SessionKind && r.value.meta.name == SessionDocumentName(subsessionId)
    ensures r.Ok? ==> store.docs == AfterGetOrCreate(old(store.docs), SessionCollection, InitialSession(subsessionId, now))
    ensures r.Ok? && SessionKey(subsessionId) !in old(store.docs) ==>
              r.value.meta.version == 0 && r.value.meta.labels == LabelMap(map[]) && r.value.spec == SessionSpec(map[])
    ensures r.Err? ==> r.error == Transport
    ensures r.Err? ==> (store.docs == old(store.docs)
                    || store.docs == AfterGetOrCreate(old(store.docs), SessionCollection, InitialSession(subsessionId, now)))
  {
    CurrentIsFiled(store.docs, SessionCollection, InitialSession(subsessionId, now));
    r := GetOrCreate(store, SessionCollection, InitialSession(subsessionId, now));
  }

  /** `saveSessionDocument`. */
  method SaveSessionDocument(store: Store, doc: Document) returns (r: Outcome)
    requires store.Valid()
    requires doc.meta.kind == SessionKind
    modifies store
    ensures store.Valid()
    ensures r.Success? ==> SaveApplied(old(store.docs), store.docs, SessionCollection, doc)
    ensures r.Failure? ==> r.error == Transport || r.error == OptimisticLock
    ensures r == Failure(OptimisticLock) ==> store.docs == old(store.docs)
    ensures r == Failure(Transport) ==>
              store.docs == old(store.docs) || SaveApplied(old(store.docs), store.docs, SessionCollection, doc)
    ensures r == Failure(OptimisticLock) ==>
              KeyOf(SessionCollection, doc) !in old(store.docs)
              || old(store.docs)[KeyOf(SessionCollection, doc)].meta.version != doc.meta.version
  {
    r := Save(store, SessionCollection, SessionKind, doc);
  }

  /** A session document's `Spec.Data`. */
  function SessionData(doc: Document): map<string, Json> {
    if doc.spec.SessionSpec? then doc.spec.data else map[]
  }

  /** `json.Unmarshal(body, &session.Spec.Data)`: decoding an object into a
      map that already exists keeps the entries the body does not mention
      and overwrites the ones it does; decoding `null` sets the map to nil,
      dropping every entry. */
  function MergeData(existing: map<string, Json>, fields: Decoded): (r: map<string, Json>)
    ensures fields.Null? ==> r == map[]
    ensures fields.Object? ==> r.Keys == existing.Keys + fields.members.Keys
    ensures fields.Object? ==> forall k :: k in fields.members ==> r[k] == fields.members[k]
    ensures fields.Object? ==> forall k :: k in existing && k !in fields.members ==> r[k] == existing[k]
  {
    match fields
    case Null => map[]
    case Object(members) => existing + members
  }

  /** The session document as the handler saves it (before the version
      raise): four labels from the payload, the body merged into `Spec.Data`. */
  function ProcessedSession(doc: Document, p: ResultsPayload, fields: Decoded): Document {
    var labels :=
      SetLabel(SetLabel(SetLabel(SetLabel(doc.meta.labels,
        "league_id", p.leagueId), "season_id", p.seasonId), "subsession_id", p.subsessionId), "track_id", p.trackId);
    Document(doc.meta.(labels := labels), SessionSpec(MergeData(SessionData(doc), fields)))
  }

  /** The labels the handler writes hold the payload's ids, whatever labels
      the document had. */
  lemma ProcessedSessionLabels(doc: Document, p: ResultsPayload, fields: Decoded)
    ensures var labels := ProcessedSession(doc, p, fields).meta.labels;
            && labels.LabelMap?
            && labels.entries.Keys == LabelsOf(doc.meta.labels).Keys + {"league_id", "season_id", "subsession_id", "track_id"}
            && labels.entries["league_id"] == p.leagueId && labels.entries["season_id"] == p.seasonId
            && labels.entries["subsession_id"] == p.subsessionId && labels.entries["track_id"] == p.trackId
  {
  }

  /** The request for one participant's laps in one sim-session. */
  function LapRequest(subsessionId: int, simsessionNumber: int, custId: int): ApiRequest {
    ApiRequest(LapDataEndpoint,
      map["subsession_id" := Format(subsessionId), "simsession_number" := Format(simsessionNumber), "cust_id" := Format(custId)],
      true)
  }

  /** One request per result row of a sim-session, in row order. */
  function SimSessionRequests(subsessionId: int, sim: SimSession): seq<ApiRequest> {
    seq(|sim.results|, j requires 0 <= j < |sim.results| => LapRequest(subsessionId, sim.simsessionNumber, sim.results[j].custId))
  }

  /** The fan-out of the nested loop: sim-session by sim-session, row by row. */
  function LapRequests(subsessionId: int, sims: seq<SimSession>): seq<ApiRequest> {
    if sims == [] then []
    else LapRequests(subsessionId, sims[..|sims| - 1]) + SimSessionRequests(subsessionId, sims[|sims| - 1])
  }

  /** The number of (sim-session, result row) pairs. */
  function RowCount(sims: seq<SimSession>): nat {
    if sims == [] then 0 else RowCount(sims[..|sims| - 1]) + |sims[|sims| - 1].results|
  }

  /** The nested request-building loop. */
  method CollectLapRequests(subsessionId: int, sims: seq<SimSession>) returns (reqs: seq<ApiRequest>)
    ensures reqs == LapRequests(subsessionId, sims)
  {
    reqs := [];
    for i := 0 to |sims|
      invariant reqs == LapRequests(subsessionId, sims[..i])
    {
      var sim := sims[i];
      ghost var before := reqs;
      for j := 0 to |sim.results|
        invariant reqs == before + SimSessionRequests(subsessionId, sim)[..j]
      {
        assert SimSessionRequests(subsessionId, sim)[..j + 1]
            == SimSessionRequests(subsessionId, sim)[..j] + [LapRequest(subsessionId, sim.simsessionNumber, sim.results[j].custId)];
        reqs := reqs + [LapRequest(subsessionId, sim.simsessionNumber, sim.results[j].custId)];
      }
      assert SimSessionRequests(subsessionId, sim)[..|sim.results|] == SimSessionRequests(subsessionId, sim);
      assert sims[..i + 1][..i] == sims[..i];
    }
    assert sims[..|sims|] == sims;
  }

  /** Exactly one request per (sim-session, result row) pair. */
  lemma {:induction false} LapRequestsCount(subsessionId: int, sims: seq<SimSession>)
    ensures |LapRequests(subsessionId, sims)| == RowCount(sims)
  {
    if sims != [] {
      LapRequestsCount(subsessionId, sims[..|sims| - 1]);
    }
  }

  /** Row `j` of sim-session `i` is asked for at position
      `RowCount(sims[..i]) + j`: nested iteration order. */
  lemma {:induction false} LapRequestAt(subsessionId: int, sims: seq<SimSession>, i: int, j: int)
    requires 0 <= i < |sims| && 0 <= j < |sims[i].results|
    ensures RowCount(sims[..i]) + j < |LapRequests(subsessionId, sims)|
    ensures LapRequests(subsessionId, sims)[RowCount(sims[..i]) + j]
         == LapRequest(subsessionId, sims[i].simsessionNumber, sims[i].results[j].custId)
  {
    var n := |sims| - 1;
    assert sims[..n] == sims[..|sims| - 1];
    LapRequestsCount(subsessionId, sims[..n]);
    if i < n {
      assert sims[..n][..i] == sims[..i];
      LapRequestAt(subsessionId, sims[..n], i, j);
    } else {
      assert sims[..i] == sims[..n];
    }
  }

  /** Every emitted request asks for chunked lap data of this subsession. */
  lemma {:induction false} LapRequestsShape(subsessionId: int, sims: seq<SimSession>, k: int)
    requires 0 <= k < |LapRequests(subsessionId, sims)|
    ensures LapRequests(subsessionId, sims)[k].endpoint == LapDataEndpoint
    ensures LapRequests(subsessionId, sims)[k].chunks
    ensures LapRequests(subsessionId, sims)[k].params.Keys == {"subsession_id", "simsession_number", "cust_id"}
    ensures LapRequests(subsessionId, sims)[k].params["subsession_id"] == Format(subsessionId)
  {
    var n := |sims| - 1;
    var prefix := LapRequests(subsessionId, sims[..n]);
    if k < |prefix| {
      LapRequestsShape(subsessionId, sims[..n], k);
    }
  }

  /** Two sim-sessions of three participants each: six requests. */
  lemma TwoBySixScenario(subsessionId: int, s1: SimSession, s2: SimSession)
    requires |s1.results| == 3 && |s2.results| == 3
    ensures |LapRequests(subsessionId, [s1, s2])| == 6
  {
    assert [s1, s2][..1] == [s1] && [s1][..0] == [];
    assert RowCount([s1]) == 3;
    assert RowCount([s1, s2]) == 6;
    LapRequestsCount(subsessionId, [s1, s2]);
  }

  /** What one run of the handler does to the documents and the outbox, and
      what it returns. */
  ghost predicate SessionResultsOutcome(
    docs0: map<Key, Document>, sent0: seq<ApiRequest>,
    docs1: map<Key, Document>, sent1: seq<ApiRequest>,
    m: ApiResponse, now: Timestamp, r: Outcome)
  {
    if m.body.results.None? then
      r == Failure(Wrapped("failed to unmarshal API response body", JsonError)) && docs1 == docs0 && sent1 == sent0
    else
      var p := m.body.results.value;
      var initial := InitialSession(p.subsessionId, now);
      var doc := Current(docs0, SessionCollection, initial);
      var created := AfterGetOrCreate(docs0, SessionCollection, initial);
      match r
      case Success =>
        && m.body.fields.Some?
        && docs1 == created[SessionKey(p.subsessionId) := StoredForm(Bumped(ProcessedSession(doc, p, m.body.fields.value)))]
        && sent1 == sent0 + LapRequests(p.subsessionId, p.sessionResults)
      case Failure(e) =>
        && sent1 == sent0
        && (|| (e == Wrapped("failed to get or create session document", Transport) && (docs1 == docs0 || docs1 == created))
            || (e == Wrapped("failed to unmarshal API response body to map", JsonError)
                && m.body.fields.None? && docs1 == created)
            || (e == Wrapped("failed to save session document", Transport)
                && m.body.fields.Some?
                && (|| docs1 == created
                    || docs1 == created[SessionKey(p.subsessionId)
                                          := StoredForm(Bumped(ProcessedSession(doc, p, m.body.fields.value)))])))
  }

  /** `processSessionResults`. */
  method ProcessSessionResults(store: Store, pub: Publisher, m: ApiResponse, now: Timestamp) returns (r: Outcome)
    requires store.Valid()
    modifies store, pub
    ensures store.Valid()
    ensures SessionResultsOutcome(old(store.docs), old(pub.sent), store.docs, pub.sent, m, now, r)
  {
    if m.body.results.None? {
      return Failure(Wrapped("failed to unmarshal API response body", JsonError));
    }
    var p := m.body.results.value;

    var found := GetOrCreateSessionDocument(store, p.subsessionId, now);
    if found.Err? {
      return Failure(Wrapped("failed to get or create session document", found.error));
    }
    var doc := found.value;

    var labels :=
      SetLabel(SetLabel(SetLabel(SetLabel(doc.meta.labels,
        "league_id", p.leagueId), "season_id", p.seasonId), "subsession_id", p.subsessionId), "track_id", p.trackId);
    if m.body.fields.None? {
      return Failure(Wrapped("failed to unmarshal API response body to map", JsonError));
    }
    var updated := Document(doc.meta.(labels := labels), SessionSpec(MergeData(SessionData(doc), m.body.fields.value)));
    assert updated == ProcessedSession(doc, p, m.body.fields.value);

    var saved := SaveSessionDocument(store, updated);
    if saved.Failure? {
      return Failure(Wrapped("failed to save session document", saved.error));
    }

    var reqs := CollectLapRequests(p.subsessionId, p.sessionResults);
    pub.PublishAll(reqs);
    return Success;
  }

  /** A successful run emits one request per (sim-session, result row) pair;
      a failed one emits none. */
  lemma FanOutCount(
    docs0: map<Key, Document>, sent0: seq<ApiRequest>,
    docs1: map<Key, Document>, sent1: seq<ApiRequest>,
    m: ApiResponse, now: Timestamp, r: Outcome)
    requires SessionResultsOutcome(docs0, sent0, docs1, sent1, m, now, r)
    ensures r.Success? ==> |sent1| == |sent0| + RowCount(m.body.results.value.sessionResults)
    ensures r.Failure? ==> sent1 == sent0
  {
    if r.Success? {
      LapRequestsCount(m.body.results.value.subsessionId, m.body.results.value.sessionResults);
    }
  }

  /** A successful run merges the body into the data the session document
      held (a `null` body clears it) and raises the version by one. */
  lemma SessionSuccessData(
    docs0: map<Key, Document>, sent0: seq<ApiRequest>,
    docs1: map<Key, Document>, sent1: seq<ApiRequest>,
    m: ApiResponse, now: Timestamp)
    requires SessionResultsOutcome(docs0, sent0, docs1, sent1, m, now, Success)
    ensures m.body.results.Some? && m.body.fields.Some?
    ensures var key := SessionKey(m.body.results.value.subsessionId);
            var before := if key in docs0 then SessionData(docs0[key]) else map[];
            && key in docs1
            && docs1[key].spec == SessionSpec(MergeData(before, m.body.fields.value))
            && docs1[key].meta.version == (if key in docs0 then Inc32(docs0[key].meta.version) else 1)
  {
  }
}
