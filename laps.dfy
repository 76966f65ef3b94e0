/** The laps handler: stores one participant's laps of one sim-session,
    the summary body together with the reassembled chunk rows. */
module LapData {

  import opened Failures
  import opened Decimal
  import opened Database
  import opened Bus
  import opened Documents

  /** `generateLapsDocumentName`: `laps_` and the three ids in decimal,
      joined by `_`. */
  function LapsDocumentName(subsessionId: int, simsessionNumber: int, custId: int): (n: string)
    ensures |n| == 5 + |Format(subsessionId)| + 1 + |Format(simsessionNumber)| + 1 + |Format(custId)|
    ensures n[..5] == "laps_"
    ensures n[5 + |Format(subsessionId)|] == '_' && n[|n| - |Format(custId)| - 1] == '_'
    ensures n[5..5 + |Format(subsessionId)|] == Format(subsessionId)
    ensures n[5 + |Format(subsessionId)| + 1..|n| - |Format(custId)| - 1] == Format(simsessionNumber)
    ensures n[|n| - |Format(custId)|..] == Format(custId)
  {
    FieldsOfTripleJoin("laps_", Format(subsessionId), '_', Format(simsessionNumber), Format(custId));
    "laps_" + (Format(subsessionId) + (['_'] + (Format(simsessionNumber) + (['_'] + Format(custId)))))
  }

  /** Each id of a laps document reads back from its field of the name. */
  lemma LapsDocumentNameReadsBack(subsessionId: int, simsessionNumber: int, custId: int)
    requires IsInt64(subsessionId) && IsInt64(simsessionNumber) && IsInt64(custId)
    ensures var n := LapsDocumentName(subsessionId, simsessionNumber, custId);
            var i, j := 5 + |Format(subsessionId)|, |n| - |Format(custId)|;
            && ParseInt(n[5..i]) == Some(subsessionId)
            && ParseInt(n[i + 1..j - 1]) == Some(simsessionNumber)
            && ParseInt(n[j..]) == Some(custId)
  {
    ParseFormat(subsessionId);
    ParseFormat(simsessionNumber);
    ParseFormat(custId);
  }

  /** The name determines the (subsession, sim-session, participant) triple:
      two different triples never share a laps document. */
  lemma LapsDocumentNameInjective(sub: int, sim: int, cust: int, sub': int, sim': int, cust': int)
    requires LapsDocumentName(sub, sim, cust) == LapsDocumentName(sub', sim', cust')
    ensures sub == sub' && sim == sim' && cust == cust'
  {
    var tail := "_" + (Format(sim) + ("_" + Format(cust)));
    var tail' := "_" + (Format(sim') + ("_" + Format(cust')));
    CancelPrefix("laps_", Format(sub) + tail, Format(sub') + tail');
    SplitAtSeparator(Format(sub), Format(sim) + ("_" + Format(cust)),
                     Format(sub'), Format(sim') + ("_" + Format(cust')), '_');
    FormatInjective(sub, sub');
    SplitAtSeparator(Format(sim), Format(cust), Format(sim'), Format(cust'), '_');
    FormatInjective(sim, sim');
    FormatInjective(cust, cust');
  }

  function LapsKey(subsessionId: int, simsessionNumber: int, custId: int): Key {
    Key(SessionCollection, LapsKind, LapsDocumentName(subsessionId, simsessionNumber, custId))
  }

  /** The document get-or-create inserts for a triple seen for the first time. */
  function InitialLaps(subsessionId: int, simsessionNumber: int, custId: int, now: Timestamp): Document {
    FreshDocument(LapsKind, LapsDocumentName(subsessionId, simsessionNumber, custId), now, LapsSpec(map[], []))
  }

  /** `getOrCreateLapsDocument`. */
  method GetOrCreateLapsDocument(store: Store, subsessionId: int, simsessionNumber: int, custId: int, now: Timestamp)
    returns (r: Result<Document>)
    requires store.Valid()
    modifies store
    ensures store.Valid()
    ensures r.Ok? ==> r.value == Current(old(store.docs), SessionCollection, InitialLaps(subsessionId, simsessionNumber, custId, now))
    ensures r.Ok? ==> r.value.meta.kind == LapsKind && r.value.meta.name == LapsDocumentName(subsessionId, simsessionNumber, custId)
    ensures r.Ok? ==> store.docs == AfterGetOrCreate(old(store.docs), SessionCollection, InitialLaps(subsessionId, simsessionNumber, custId, now))
    ensures r.Ok? && LapsKey(subsessionId, simsessionNumber, custId) !in old(store.docs) ==>
              r.value.meta.version == 0 && r.value.meta.labels == LabelMap(map[]) && r.value.spec == LapsSpec(map[], [])
    ensures r.Err? ==> r.error == Transport
    ensures r.Err? ==> (store.docs == old(store.docs)
                    || store.docs == AfterGetOrCreate(old(store.docs), SessionCollection, InitialLaps(subsessionId, simsessionNumber, custId, now)))
  {
    CurrentIsFiled(store.docs, SessionCollection, InitialLaps(subsessionId, simsessionNumber, custId, now));
    r := GetOrCreate(store, SessionCollection, InitialLaps(subsessionId, simsessionNumber, custId, now));
  }

  /** `saveLapsDocument`. */
  method SaveLapsDocument(store: Store, doc: Document) returns (r: Outcome)
    requires store.Valid()
    requires doc.meta.kind == LapsKind
    modifies store
    ensures store.Valid()
    ensures r.Success? ==> SaveApplied(old(store.docs), store.docs, SessionCollection, doc)
    ensures r.Failure? ==> r.error == Transport || r.error == OptimisticLock
    ensures r == Failure(OptimisticLock) ==> store.docs == old(store.docs)
    ensures r == Failure(Transport) ==>
              store.docs == old(store.docs) || SaveApplied(old(store.docs), store.docs, SessionCollection, doc)
    ensures r == Failure(OptimisticLock) ==>
              KeyOf(SessionCollection, doc) !in old(store.docs)
              || old(store.docs)[KeyOf(SessionCollection, doc)].meta.version != doc.meta.version
  {
    r := Save(store, SessionCollection, LapsKind, doc);
  }

  /** The five labels the handler writes, on top of what the document had. */
  function LapsLabels(labels: Labels, p: LapDataPayload): Labels {
    SetLabel(SetLabel(SetLabel(SetLabel(SetLabel(labels,
      "subsession_id", p.subsessionId), "simsession_number", p.simsessionNumber),
      "cust_id", p.custId), "track_id", p.trackId), "car_id", p.carId)
  }

  /** The laps document as the handler saves it (before the version raise):
      the five labels, and the body and chunk rows replacing whatever data
      the document held. */
  function ProcessedLaps(doc: Document, p: LapDataPayload, fields: Decoded, rows: seq<map<string, Json>>): Document {
    Document(doc.meta.(labels := LapsLabels(doc.meta.labels, p)), LapsSpec(Entries(fields), rows))
  }

  /** The labels hold the payload's ids whatever labels the document had. */
  lemma LapsLabelsHoldPayload(labels: Labels, p: LapDataPayload)
    ensures var l := LapsLabels(labels, p);
            && l.LabelMap?
            && l.entries.Keys == LabelsOf(labels).Keys + {"subsession_id", "simsession_number", "cust_id", "track_id", "car_id"}
            && l.entries["subsession_id"] == p.subsessionId && l.entries["simsession_number"] == p.simsessionNumber
            && l.entries["cust_id"] == p.custId && l.entries["track_id"] == p.trackId && l.entries["car_id"] == p.carId
  {
  }

  /** What one run of the handler does to the documents, and what it
      returns, given the decoded body and chunk rows of the response. */
  ghost predicate LapsRunOutcome(
    docs0: map<Key, Document>, docs1: map<Key, Document>,
    body: Body, rows: Option<seq<map<string, Json>>>, now: Timestamp, r: Outcome)
  {
    if body.lapData.None? then
      r == Failure(Wrapped("failed to unmarshal API response body", JsonError)) && docs1 == docs0
    else
      var p := body.lapData.value;
      var initial := InitialLaps(p.subsessionId, p.simsessionNumber, p.custId, now);
      var doc := Current(docs0, SessionCollection, initial);
      var created := AfterGetOrCreate(docs0, SessionCollection, initial);
      match r
      case Success =>
        && body.fields.Some? && rows.Some?
        && docs1 == created[LapsKey(p.subsessionId, p.simsessionNumber, p.custId)
                              := StoredForm(Bumped(ProcessedLaps(doc, p, body.fields.value, rows.value)))]
      case Failure(e) =>
        || (e == Wrapped("failed to get or create laps document", Transport) && (docs1 == docs0 || docs1 == created))
        || (e == Wrapped("failed to unmarshal API response body to map", JsonError)
            && body.fields.None? && docs1 == created)
        || (e == Wrapped("failed to unmarshal API response body to chunks map", JsonError)
            && body.fields.Some? && rows.None? && docs1 == created)
        || (e == Wrapped("failed to save laps document", Transport)
            && body.fields.Some? && rows.Some?
            && (|| docs1 == created
                || docs1 == created[LapsKey(p.subsessionId, p.simsessionNumber, p.custId)
                                      := StoredForm(Bumped(ProcessedLaps(doc, p, body.fields.value, rows.value)))]))
  }

  /** The handler reads a response through its body and its chunk rows only. */
  ghost predicate SessionLapsOutcome(
    docs0: map<Key, Document>, docs1: map<Key, Document>,
    m: ApiResponse, now: Timestamp, r: Outcome)
    requires m.chunks.Some?
  {
    LapsRunOutcome(docs0, docs1, m.body, m.chunks.value.rows, now, r)
  }

  /** `processSessionLaps`; the chunk pages are dereferenced before anything
      else, so a response without them is not accepted. */
  method ProcessSessionLaps(store: Store, m: ApiResponse, now: Timestamp) returns (r: Outcome)
    requires store.Valid()
    requires m.chunks.Some?
    modifies store
    ensures store.Valid()
    ensures SessionLapsOutcome(old(store.docs), store.docs, m, now, r)
  {
    var chunkRows := m.chunks.value;
    if m.body.lapData.None? {
      return Failure(Wrapped("failed to unmarshal API response body", JsonError));
    }
    var p := m.body.lapData.value;

    var found := GetOrCreateLapsDocument(store, p.subsessionId, p.simsessionNumber, p.custId, now);
    if found.Err? {
      return Failure(Wrapped("failed to get or create laps document", found.error));
    }
    var doc := found.value;

    var labels := LapsLabels(doc.meta.labels, p);
    if m.body.fields.None? {
      return Failure(Wrapped("failed to unmarshal API response body to map", JsonError));
    }
    if chunkRows.rows.None? {
      return Failure(Wrapped("failed to unmarshal API response body to chunks map", JsonError));
    }
    var updated := Document(doc.meta.(labels := labels), LapsSpec(Entries(m.body.fields.value), chunkRows.rows.value));
    assert updated == ProcessedLaps(doc, p, m.body.fields.value, chunkRows.rows.value);

    var saved := SaveLapsDocument(store, updated);
    if saved.Failure? {
      return Failure(Wrapped("failed to save laps document", saved.error));
    }
    return Success;
  }

  /** The laps document is keyed by the ids inside the body; the request
      parameters echoed in the response play no part. */
  lemma OutcomeIgnoresParams(
    docs0: map<Key, Document>, docs1: map<Key, Document>,
    m: ApiResponse, params: map<string, string>, now: Timestamp, r: Outcome)
    requires m.chunks.Some?
    ensures SessionLapsOutcome(docs0, docs1, m, now, r) <==> SessionLapsOutcome(docs0, docs1, m.(params := params), now, r)
  {
  }

  /** A successful run stores the body and the chunk rows as they are,
      dropping what the document held before, and raises the version by one. */
  lemma LapsSuccessReplacesData(
    docs0: map<Key, Document>, docs1: map<Key, Document>, m: ApiResponse, now: Timestamp)
    requires m.chunks.Some? && m.body.lapData.Some?
    requires SessionLapsOutcome(docs0, docs1, m, now, Success)
    ensures var p := m.body.lapData.value;
            var key := LapsKey(p.subsessionId, p.simsessionNumber, p.custId);
            && key in docs1
            && docs1[key].spec == LapsSpec(Entries(m.body.fields.value), m.chunks.value.rows.value)
            && docs1[key].meta.version == (if key in docs0 then Inc32(docs0[key].meta.version) else 1)
            && docs1[key].meta.labels == LapsLabels(Current(docs0, SessionCollection, InitialLaps(p.subsessionId, p.simsessionNumber, p.custId, now)).meta.labels, p)
  {
    var p := m.body.lapData.value;
    LapsLabelsHoldPayload(Current(docs0, SessionCollection, InitialLaps(p.subsessionId, p.simsessionNumber, p.custId, now)).meta.labels, p);
  }

  /** As written, a run that creates the laps document and then fails with
      the created document as the only change (the save fails before the
      server applies it, the driver reports an error on an insert it did
      apply, or the body or the chunk pages do not decode) leaves a version-0
      document without labels behind; the driver
      reads its labels back as a nil map, so the next delivery of the same
      response reaches the label assignment of the handler with a nil map,
      outside what `SetLabelAsWritten` is defined for. */
  lemma UnsavedCreateLeavesNilLabels(
    docs0: map<Key, Document>, docs1: map<Key, Document>,
    m: ApiResponse, now: Timestamp, later: Timestamp, e: Error)
    requires m.chunks.Some? && m.body.lapData.Some?
    requires LapsKey(m.body.lapData.value.subsessionId, m.body.lapData.value.simsessionNumber, m.body.lapData.value.custId) !in docs0
    requires SessionLapsOutcome(docs0, docs1, m, now, Failure(e))
    requires var p := m.body.lapData.value;
             docs1 == AfterGetOrCreate(docs0, SessionCollection, InitialLaps(p.subsessionId, p.simsessionNumber, p.custId, now))
    ensures var p := m.body.lapData.value;
            var doc := Current(docs1, SessionCollection, InitialLaps(p.subsessionId, p.simsessionNumber, p.custId, later));
            && LapsKey(p.subsessionId, p.simsessionNumber, p.custId) in docs1
            && doc.meta.version == 0
            && !doc.meta.labels.LabelMap?
  {
    var p := m.body.lapData.value;
    FreshLabelsReadBackNil(InitialLaps(p.subsessionId, p.simsessionNumber, p.custId, now));
  }

  /** With the nil map treated as empty, the redelivery writes the same
      labels as a first delivery would have. */
  lemma RedeliveryLabelsAsFirstTime(p: LapDataPayload, now: Timestamp)
    ensures var initial := InitialLaps(p.subsessionId, p.simsessionNumber, p.custId, now);
            LapsLabels(StoredForm(initial).meta.labels, p) == LapsLabels(initial.meta.labels, p)
  {
    var initial := InitialLaps(p.subsessionId, p.simsessionNumber, p.custId, now);
    SetLabelSurvivesRoundTrip(initial, "subsession_id", p.subsessionId);
  }
}
