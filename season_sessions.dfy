/** The league season sessions handler: records which subsessions of a league
    season have been seen and asks for the results of the ones not recorded
    before. */
module SeasonSessions {

  import opened Failures
  import opened Decimal
  import opened Database
  import opened Bus
  import opened Documents

  const ResultsGetEndpoint := "/data/results/get"

  /** `generateSeasonDocumentName`: `league_`, the league id in decimal,
      `_season_`, the season id in decimal. */
  function SeasonDocumentName(leagueId: int, seasonId: int): (n: string)
    ensures |n| == 7 + |Format(leagueId)| + 8 + |Format(seasonId)|
    ensures n[..7] == "league_" && n[7 + |Format(leagueId)|..|n| - |Format(seasonId)|] == "_season_"
    ensures n[7..7 + |Format(leagueId)|] == Format(leagueId)
    ensures n[|n| - |Format(seasonId)|..] == Format(seasonId)
  {
    FieldsOfJoin("league_", Format(leagueId), "_season_", Format(seasonId));
    "league_" + (Format(leagueId) + ("_season_" + Format(seasonId)))
  }

  /** Both ids of a season document read back from their fields of the name. */
  lemma SeasonDocumentNameReadsBack(leagueId: int, seasonId: int)
    requires IsInt64(leagueId) && IsInt64(seasonId)
    ensures var n := SeasonDocumentName(leagueId, seasonId);
            && ParseInt(n[7..7 + |Format(leagueId)|]) == Some(leagueId)
            && ParseInt(n[|n| - |Format(seasonId)|..]) == Some(seasonId)
  {
    ParseFormat(leagueId);
    ParseFormat(seasonId);
  }

  /** The two decimal fields of a season name are determined by the name. */
  lemma SeasonFieldsDetermined(fl: string, fs: string, fl': string, fs': string)
    requires '_' !in fl && '_' !in fl'
    requires "league_" + (fl + ("_season_" + fs)) == "league_" + (fl' + ("_season_" + fs'))
    ensures fl == fl' && fs == fs'
  {
    CancelPrefix("league_", fl + ("_season_" + fs), fl' + ("_season_" + fs'));
    assert "_season_" + fs == ['_'] + ("season_" + fs);
    assert "_season_" + fs' == ['_'] + ("season_" + fs');
    SplitAtSeparator(fl, "season_" + fs, fl', "season_" + fs', '_');
    CancelPrefix("season_", fs, fs');
  }

  /** Different league seasons never share a document. */
  lemma SeasonDocumentNameInjective(leagueId: int, seasonId: int, leagueId': int, seasonId': int)
    requires SeasonDocumentName(leagueId, seasonId) == SeasonDocumentName(leagueId', seasonId')
    ensures leagueId == leagueId' && seasonId == seasonId'
  {
    SeasonFieldsDetermined(Format(leagueId), Format(seasonId), Format(leagueId'), Format(seasonId'));
    FormatInjective(leagueId, leagueId');
    FormatInjective(seasonId, seasonId');
  }

  function SeasonKey(leagueId: int, seasonId: int): Key {
    Key(SeasonCollection, SeasonKind, SeasonDocumentName(leagueId, seasonId))
  }

  /** The document get-or-create inserts for a season seen for the first time. */
  function InitialSeason(leagueId: int, seasonId: int, now: Timestamp): Document {
    FreshDocument(SeasonKind, SeasonDocumentName(leagueId, seasonId), now, SeasonStatus(map[]))
  }

  /** `getOrCreateSeasonDocument`. */
  method GetOrCreateSeasonDocument(store: Store, leagueId: int, seasonId: int, now: Timestamp) returns (r: Result<Document>)
    requires store.Valid()
    modifies store
    ensures store.Valid()
    ensures r.Ok? ==> r.value == Current(old(store.docs), SeasonCollection, InitialSeason(leagueId, seasonId, now))
    ensures r.Ok? ==> r.value.meta.kind == SeasonKind && r.value.meta.name == SeasonDocumentName(leagueId, seasonId)
    ensures r.Ok? ==> store.docs == AfterGetOrCreate(old(store.docs), SeasonCollection, InitialSeason(leagueId, seasonId, now))
    ensures r.Ok? && SeasonKey(leagueId, seasonId) !in old(store.docs) ==>
              r.value.meta.version == 0 && r.value.meta.labels == LabelMap(map[]) && r.value.spec == SeasonStatus(map[])
    ensures r.Err? ==> r.error == Transport
    ensures r.Err? ==> (store.docs == old(store.docs)
                    || store.docs == AfterGetOrCreate(old(store.docs), SeasonCollection, InitialSeason(leagueId, seasonId, now)))
  {
    CurrentIsFiled(store.docs, SeasonCollection, InitialSeason(leagueId, seasonId, now));
    r := GetOrCreate(store, SeasonCollection, InitialSeason(leagueId, seasonId, now));
  }

  /** `saveSeasonDocument`. */
  method SaveSeasonDocument(store: Store, doc: Document) returns (r: Outcome)
    requires store.Valid()
    requires doc.meta.kind == SeasonKind
    modifies store
    ensures store.Valid()
    ensures r.Success? ==> SaveApplied(old(store.docs), store.docs, SeasonCollection, doc)
    ensures r.Failure? ==> r.error == Transport || r.error == OptimisticLock
    ensures r == Failure(OptimisticLock) ==> store.docs == old(store.docs)
    ensures r == Failure(Transport) ==>
              store.docs == old(store.docs) || SaveApplied(old(store.docs), store.docs, SeasonCollection, doc)
    ensures r == Failure(OptimisticLock) ==>
              KeyOf(SeasonCollection, doc) !in old(store.docs)
              || old(store.docs)[KeyOf(SeasonCollection, doc)].meta.version != doc.meta.version
  {
    r := Save(store, SeasonCollection, SeasonKind, doc);
  }

  /** The subsession ids recorded in a season document's `ParsedSessions`. */
  function ParsedKeys(doc: Document): set<string> {
    if doc.spec.SeasonStatus? then doc.spec.parsedSessions.Keys else {}
  }

  /** The payload's subsession ids, as decimal text, in payload order. */
  function PayloadIds(sessions: seq<SeasonSession>): seq<string> {
    if sessions == [] then []
    else PayloadIds(sessions[..|sessions| - 1]) + [Format(sessions[|sessions| - 1].subsessionId)]
  }

  /** The payload's subsession ids not in `known`, in payload order,
      repetitions included. */
  function Missing(known: set<string>, sessions: seq<SeasonSession>): seq<string> {
    if sessions == [] then []
    else
      var id := Format(sessions[|sessions| - 1].subsessionId);
      Missing(known, sessions[..|sessions| - 1]) + (if id in known then [] else [id])
  }

  /** The missing-subsessions loop. */
  method FindMissingSubsessions(known: set<string>, sessions: seq<SeasonSession>) returns (missing: seq<string>)
    ensures missing == Missing(known, sessions)
  {
    missing := [];
    for i := 0 to |sessions|
      invariant missing == Missing(known, sessions[..i])
    {
      var id := Format(sessions[i].subsessionId);
      assert sessions[..i + 1][..i] == sessions[..i];
      if id !in known {
        missing := missing + [id];
      }
    }
    assert sessions[..|sessions|] == sessions;
  }

  lemma {:induction false} PayloadIdsAt(sessions: seq<SeasonSession>, i: int)
    requires 0 <= i < |sessions|
    ensures |PayloadIds(sessions)| == |sessions|
    ensures PayloadIds(sessions)[i] == Format(sessions[i].subsessionId)
  {
    var n := |sessions| - 1;
    if i < n {
      PayloadIdsAt(sessions[..n], i);
    } else if n > 0 {
      PayloadIdsAt(sessions[..n], 0);
    }
  }

  /** A subsession is requested exactly when it is in the payload and not
      already recorded. */
  lemma {:induction false} MissingMembers(known: set<string>, sessions: seq<SeasonSession>, id: string)
    ensures id in Missing(known, sessions) <==> id !in known && id in PayloadIds(sessions)
  {
    if sessions != [] {
      MissingMembers(known, sessions[..|sessions| - 1], id);
    }
  }

  /** When nothing in the payload is recorded, every payload entry is
      requested, in order and without collapsing repetitions. */
  lemma {:induction false} MissingWhenNoneKnown(known: set<string>, sessions: seq<SeasonSession>)
    requires forall id :: id in PayloadIds(sessions) ==> id !in known
    ensures Missing(known, sessions) == PayloadIds(sessions)
  {
    if sessions != [] {
      MissingWhenNoneKnown(known, sessions[..|sessions| - 1]);
    }
  }

  /** When everything in the payload is recorded, nothing is requested. */
  lemma {:induction false} MissingWhenAllKnown(known: set<string>, sessions: seq<SeasonSession>)
    requires forall id :: id in PayloadIds(sessions) ==> id in known
    ensures Missing(known, sessions) == []
  {
    if sessions != [] {
      MissingWhenAllKnown(known, sessions[..|sessions| - 1]);
    }
  }

  /** The request for one subsession's results. */
  function ResultsRequest(subsessionId: string): ApiRequest {
    ApiRequest(ResultsGetEndpoint, map["subsession_id" := subsessionId, "include_licenses" := "false"], false)
  }

  function ResultsRequests(ids: seq<string>): seq<ApiRequest> {
    seq(|ids|, i requires 0 <= i < |ids| => ResultsRequest(ids[i]))
  }

  /** The request-building loop: one results request per missing id. */
  method BuildResultsRequests(ids: seq<string>) returns (reqs: seq<ApiRequest>)
    ensures |reqs| == |ids|
    ensures forall i :: 0 <= i < |ids| ==> reqs[i].endpoint == ResultsGetEndpoint && !reqs[i].chunks
    ensures forall i :: 0 <= i < |ids| ==>
              reqs[i].params == map["subsession_id" := ids[i], "include_licenses" := "false"]
    ensures reqs == ResultsRequests(ids)
  {
    reqs := [];
    for i := 0 to |ids|
      invariant |reqs| == i
      invariant forall j :: 0 <= j < i ==> reqs[j] == ResultsRequest(ids[j])
    {
      reqs := reqs + [ResultsRequest(ids[i])];
    }
  }

  /** `ParsedSessions` rebuilt from the payload alone; a later row with the
      same id overwrites an earlier one. */
  function SessionsById(sessions: seq<SeasonSession>): map<string, SessionEntry> {
    if sessions == [] then map[]
    else
      var last := sessions[|sessions| - 1];
      SessionsById(sessions[..|sessions| - 1])[Format(last.subsessionId) := SessionEntry(last.launchAt, last.trackId)]
  }

  /** The loop that refills `ParsedSessions`. */
  method CollectParsedSessions(sessions: seq<SeasonSession>) returns (parsed: map<string, SessionEntry>)
    ensures parsed == SessionsById(sessions)
  {
    parsed := map[];
    for i := 0 to |sessions|
      invariant parsed == SessionsById(sessions[..i])
    {
      assert sessions[..i + 1][..i] == sessions[..i];
      parsed := parsed[Format(sessions[i].subsessionId) := SessionEntry(sessions[i].launchAt, sessions[i].trackId)];
    }
    assert sessions[..|sessions|] == sessions;
  }

  /** After processing, the recorded subsessions are exactly the payload's:
      earlier entries the payload does not list are dropped. */
  lemma {:induction false} SessionsByIdKeys(sessions: seq<SeasonSession>)
    ensures forall id :: id in SessionsById(sessions) <==> id in PayloadIds(sessions)
  {
    if sessions != [] {
      SessionsByIdKeys(sessions[..|sessions| - 1]);
    }
  }

  /** The recorded entry of a subsession is that of its last row.  Each
      entry is built from its own row's values; the loop in the source
      takes the address of its range variable, which is one entry per row
      only under the per-iteration loop variables of Go 1.22 and later. */
  lemma {:induction false} SessionsByIdEntry(sessions: seq<SeasonSession>, i: int)
    requires 0 <= i < |sessions|
    requires forall j :: i < j < |sessions| ==> sessions[j].subsessionId != sessions[i].subsessionId
    ensures Format(sessions[i].subsessionId) in SessionsById(sessions)
    ensures SessionsById(sessions)[Format(sessions[i].subsessionId)]
         == SessionEntry(sessions[i].launchAt, sessions[i].trackId)
  {
    var n := |sessions| - 1;
    var prefix := sessions[..n];
    var last := sessions[n];
    assert SessionsById(sessions)
        == SessionsById(prefix)[Format(last.subsessionId) := SessionEntry(last.launchAt, last.trackId)];
    if i < n {
      assert prefix[i] == sessions[i];
      assert forall j :: i < j < |prefix| ==> prefix[j] == sessions[j];
      SessionsByIdEntry(prefix, i);
      if Format(last.subsessionId) == Format(sessions[i].subsessionId) {
        FormatInjective(last.subsessionId, sessions[i].subsessionId);
      }
    }
  }

  /** The season document as the handler saves it (before the version
      raise): labels `league_id` and `season_id` set, `ParsedSessions`
      replaced by the payload's. */
  function ProcessedSeason(doc: Document, leagueId: int, seasonId: int, sessions: seq<SeasonSession>): Document {
    var labels := SetLabel(SetLabel(doc.meta.labels, "league_id", leagueId), "season_id", seasonId);
    Document(doc.meta.(labels := labels), SeasonStatus(SessionsById(sessions)))
  }

  /** What one run of the handler does to the documents and the outbox, and
      what it returns. */
  ghost predicate SeasonSessionsOutcome(
    docs0: map<Key, Document>, sent0: seq<ApiRequest>,
    docs1: map<Key, Document>, sent1: seq<ApiRequest>,
    m: ApiResponse, now: Timestamp, r: Outcome)
  {
    var league := ParseInt(Param(m.params, "league_id"));
    var season := ParseInt(Param(m.params, "season_id"));
    if league.None? then
      r == Failure(Wrapped("invalid league_id parameter", NumError)) && docs1 == docs0 && sent1 == sent0
    else if season.None? then
      r == Failure(Wrapped("invalid season_id parameter", NumError)) && docs1 == docs0 && sent1 == sent0
    else if m.body.seasonSessions.None? then
      r == Failure(Wrapped("failed to unmarshal API response body", JsonError)) && docs1 == docs0 && sent1 == sent0
    else
      var initial := InitialSeason(league.value, season.value, now);
      var doc := Current(docs0, SeasonCollection, initial);
      var created := AfterGetOrCreate(docs0, SeasonCollection, initial);
      var sessions := m.body.seasonSessions.value.sessions;
      var reqs := ResultsRequests(Missing(ParsedKeys(doc), sessions));
      var saved := StoredForm(Bumped(ProcessedSeason(doc, league.value, season.value, sessions)));
      match r
      case Success =>
        docs1 == created[SeasonKey(league.value, season.value) := saved] && sent1 == sent0 + reqs
      case Failure(e) =>
        || (e == Wrapped("failed to get or create season document", Transport)
            && sent1 == sent0 && (docs1 == docs0 || docs1 == created))
        || (e == Wrapped("failed to update season document", Transport)
            && (docs1 == created || docs1 == created[SeasonKey(league.value, season.value) := saved])
            && sent1 == sent0 + reqs)
  }

  /** `processLeagueSeasonSessions`. */
  method ProcessLeagueSeasonSessions(store: Store, pub: Publisher, m: ApiResponse, now: Timestamp) returns (r: Outcome)
    requires store.Valid()
    modifies store, pub
    ensures store.Valid()
    ensures SeasonSessionsOutcome(old(store.docs), old(pub.sent), store.docs, pub.sent, m, now, r)
  {
    var league := ParseInt(Param(m.params, "league_id"));
    if league.None? {
      return Failure(Wrapped("invalid league_id parameter", NumError));
    }
    var season := ParseInt(Param(m.params, "season_id"));
    if season.None? {
      return Failure(Wrapped("invalid season_id parameter", NumError));
    }
    if m.body.seasonSessions.None? {
      return Failure(Wrapped("failed to unmarshal API response body", JsonError));
    }
    var sessions := m.body.seasonSessions.value.sessions;

    var found := GetOrCreateSeasonDocument(store, league.value, season.value, now);
    if found.Err? {
      return Failure(Wrapped("failed to get or create season document", found.error));
    }
    var doc := found.value;

    var missing := FindMissingSubsessions(ParsedKeys(doc), sessions);
    var reqs := BuildResultsRequests(missing);
    pub.PublishAll(reqs);

    var parsed := CollectParsedSessions(sessions);
    var labels := SetLabel(SetLabel(doc.meta.labels, "league_id", league.value), "season_id", season.value);
    var updated := Document(doc.meta.(labels := labels), SeasonStatus(parsed));
    assert updated == ProcessedSeason(doc, league.value, season.value, sessions);

    var saved := SaveSeasonDocument(store, updated);
    if saved.Failure? {
      return Failure(Wrapped("failed to update season document", saved.error));
    }
    return Success;
  }

  /** A response whose parameters lack `league_id` reads it as the empty
      string, which does not parse: the run fails before touching anything. */
  lemma MissingLeagueIdRejected(
    docs0: map<Key, Document>, sent0: seq<ApiRequest>,
    docs1: map<Key, Document>, sent1: seq<ApiRequest>,
    m: ApiResponse, now: Timestamp, r: Outcome)
    requires "league_id" !in m.params
    requires SeasonSessionsOutcome(docs0, sent0, docs1, sent1, m, now, r)
    ensures r == Failure(Wrapped("invalid league_id parameter", NumError))
    ensures docs1 == docs0 && sent1 == sent0
  {
    assert Param(m.params, "league_id") == "";
  }

  /** A season document saved by the handler records every subsession of the
      payload it was saved from. */
  lemma SavedSeasonRequestsNothing(doc: Document, leagueId: int, seasonId: int, sessions: seq<SeasonSession>)
    ensures Missing(ParsedKeys(StoredForm(Bumped(ProcessedSeason(doc, leagueId, seasonId, sessions)))), sessions) == []
  {
    var saved := StoredForm(Bumped(ProcessedSeason(doc, leagueId, seasonId, sessions)));
    assert ParsedKeys(saved) == SessionsById(sessions).Keys;
    SessionsByIdKeys(sessions);
    MissingWhenAllKnown(ParsedKeys(saved), sessions);
  }

  /** Redelivery: when the season document is the one a successful run on
      the same response saved, running the response again requests nothing,
      whatever the outcome. */
  lemma ReplayRequestsNothing(
    prior: Document, leagueId: int, seasonId: int, sessions: seq<SeasonSession>,
    docs1: map<Key, Document>, sent1: seq<ApiRequest>,
    docs2: map<Key, Document>, sent2: seq<ApiRequest>,
    m: ApiResponse, now: Timestamp, r: Outcome)
    requires m.body.seasonSessions == Some(SeasonSessionsPayload(sessions))
    requires SeasonKey(leagueId, seasonId) in docs1
    requires docs1[SeasonKey(leagueId, seasonId)] == StoredForm(Bumped(ProcessedSeason(prior, leagueId, seasonId, sessions)))
    ensures ParseInt(Param(m.params, "league_id")) == Some(leagueId)
            && ParseInt(Param(m.params, "season_id")) == Some(seasonId)
            && SeasonSessionsOutcome(docs1, sent1, docs2, sent2, m, now, r)
            ==> sent2 == sent1
  {
    SavedSeasonRequestsNothing(prior, leagueId, seasonId, sessions);
  }

  /** The dedup scenario: with `a` and `b` recorded and a payload listing
      `a`, `b`, `c`, only `c` is requested, and afterwards all three are
      recorded. */
  lemma DedupScenario(a: SeasonSession, b: SeasonSession, c: SeasonSession)
    requires c.subsessionId != a.subsessionId && c.subsessionId != b.subsessionId
    ensures Missing({Format(a.subsessionId), Format(b.subsessionId)}, [a, b, c]) == [Format(c.subsessionId)]
    ensures SessionsById([a, b, c]).Keys == {Format(a.subsessionId), Format(b.subsessionId), Format(c.subsessionId)}
  {
    if Format(c.subsessionId) == Format(a.subsessionId) { FormatInjective(c.subsessionId, a.subsessionId); }
    if Format(c.subsessionId) == Format(b.subsessionId) { FormatInjective(c.subsessionId, b.subsessionId); }
    var known := {Format(a.subsessionId), Format(b.subsessionId)};
    assert [a, b, c][..2] == [a, b] && [a, b][..1] == [a] && [a][..0] == [];
    assert Missing(known, [a]) == [];
    assert Missing(known, [a, b]) == [];
    assert SessionsById([a]).Keys == {Format(a.subsessionId)};
    assert SessionsById([a, b]).Keys == {Format(a.subsessionId), Format(b.subsessionId)};
  }
}
