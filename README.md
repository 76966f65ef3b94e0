# iRacing scraper response processing, modelled in Dafny

This project models the response-processing core of the iRacing scraper. A
fetched API response (`bus.ApiResponse`) reaches `MultiplexProcessing`. That
function routes it by endpoint to one of three handlers:

- **League season sessions** (`/data/league/season_sessions`) reads the
  season document. It asks for the results of every listed subsession that
  is not yet recorded in `ParsedSessions`. Then it records the listed
  subsessions and saves the document.
- **Session results** (`/data/results/get`) stores the results body in the
  subsession's document. After a successful save it asks for the lap data
  of every (sim-session, participant) pair.
- **Session laps** (`/data/results/lap_data`) stores the lap summary and the
  reassembled chunk rows in a per-participant laps document.

All three go through the MongoDB document store (`DB.GetOne`, `DB.Create`,
`DB.Update`). Writes use optimistic concurrency: the in-memory version is
raised by one, and the replace only succeeds while the stored document still
carries the previous version.

How the model is built:

- The store is a class whose `docs` map is keyed by (collection, kind, name).
  Every store call may also fail with a transport error; which calls fail is
  left open by the model. An insert or replace that fails this way may or
  may not have been applied by the server, since the driver can report an
  error after the write took effect.
- The publisher is a class holding the sequence of requests handed to it.
- Each handler is a method. Its contract is a predicate that relates the
  documents and the outbox before and after the run, the message, the clock
  reading and the returned error. The predicate covers every error path
  with its exact wrapping text.
- The loops inside the handlers are methods proved against recursive
  specification functions:
  - the missing-subsession scan;
  - the request builders;
  - the `ParsedSessions` refill;
  - the nested lap-data fan-out.
- Two details of the Go runtime are written out: `Meta.Version` is an `int32`
  with wrap-around, and `fmt` `%d` / `strconv.ParseInt(s, 10, 64)` behave as
  in Go.
- The labels field is tagged `omitempty`, so a document stored with an empty
  labels map reads back with a nil one. `Database.StoredForm` models this.

In these places the model follows the code as written:

- The season handler replaces `ParsedSessions` with the entries of the current
  payload; it does not merge them with the recorded ones (`SeasonSessions.SessionsByIdKeys`).
- The laps handler takes the subsession, sim-session and participant ids from
  the response body, not from the request parameters (`LapData.OutcomeIgnoresParams`).
- Get-or-create does not re-read after a failed insert; it returns the error.
- The session handler decodes the body into the existing `Spec.Data` map.
  Go's `json.Unmarshal` keeps the entries an object body does not mention,
  so the data is merged, not overwritten. A body that is the JSON literal
  `null` sets the map to nil instead, which clears the data
  (`SessionResults.MergeData`).
- Endpoints are matched as the full paths `/data/results/get`,
  `/data/results/lap_data` and `/data/league/season_sessions`.
- `pkg/bus/structs.go` declares no `Chunks` fields. The handlers use
  `ApiRequest.Chunks` and `ApiResponse.Chunks`, and the model follows the
  handlers.

## Model

| member | source | states |
|---|---|---|
| Failures.Unwrap | pkg/processing/multiplexer.go:18-33 | Unwrapping keeps success and failure apart, and recovers the cause of an error wrapped with `%w`. |
| Decimal.Format | pkg/processing/session.go:115-117 | The `%d` text of an integer is non-empty, has no `_`, and starts with a digit exactly when the integer is not negative. `Decimal.ParseFormat` and `Decimal.FormatInjective` are its partners. |
| Decimal.ParseInt | pkg/processing/season-sessions.go:79-87 | A parameter that parses is a 64-bit integer; the empty string (a missing parameter) does not parse. |
| Decimal.ParseFormat | pkg/processing/season-sessions.go:79-87 | Parsing the `%d` text of any 64-bit integer gives back that integer. |
| Decimal.FormatInjective | pkg/processing/season-sessions.go:110-111 | Different integers have different `%d` texts, so dedup by text is dedup by id. |
| Database.Inc32 | pkg/processing/season-sessions.go:70 | `Version += 1` on an `int32` is `+1` below the maximum, and `Version - 1` undoes it even at wrap-around. |
| Database.StoredForm | pkg/database/structs.go:5-12 | A stored document reads back unchanged, except that a nil or empty labels map reads back nil. The creation time is kept as an opaque value. |
| Database.Insert | pkg/database/connection.go:56-66 | Insertion succeeds iff no document has the key. On failure it reports `DocumentExists` and changes nothing. On success it adds only that key. |
| Database.Replace | pkg/database/connection.go:68-80 | The replace succeeds iff the key exists with the expected version. Otherwise it reports `OptimisticLock` and changes nothing. No other document changes. |
| Database.SecondSaveFromSameVersionConflicts | pkg/database/connection.go:68-80 | When two writers save from the same version, the second one is refused and its document is not stored (no lost update). |
| Database.Store.GetOne | pkg/database/connection.go:43-54 | Returns the stored document with the requested kind and name in the given collection, `NotFound` when there is none, or a transport error. It changes nothing. |
| Database.Store.Create | pkg/database/connection.go:56-66 | Either a transport error, with the insert applied or not, or exactly the effect and the result of `Insert`. |
| Database.Store.Update | pkg/database/connection.go:68-80 | Either a transport error, with the replace applied or not, or exactly the effect and the result of `Replace` filtered by kind, name and version. |
| Bus.Param | pkg/processing/season-sessions.go:79 | Reading a parameter gives its value when present and the empty string (Go's zero value) when missing. `SeasonSessions.MissingLeagueIdRejected` is its partner. |
| Bus.Entries | pkg/processing/laps.go:97-98 | A `null` body decodes to a nil map, which reads as empty; an object decodes to its members. |
| Bus.Publisher.Publish | pkg/processing/session.go:132-137 | The request joins the end of the outbox. |
| Bus.Publisher.PublishAll | pkg/processing/season-sessions.go:137-142 | Every request joins the outbox, in order. |
| Documents.SetLabelAsWritten | pkg/processing/season-sessions.go:163-164 | The label assignment as written: defined only on a non-nil map; sets the key, keeps the other labels and adds no other key. |
| Documents.SetLabel | pkg/processing/laps.go:91-95 | The corrected assignment: the labels are the old ones plus the key, which maps to the value. It agrees with the as-written one whenever that one is defined. |
| Documents.FreshLabelsReadBackNil | pkg/processing/season-sessions.go:43-57 | A freshly created document with its empty labels map reads back from the store with a nil map. |
| Documents.SetLabelSurvivesRoundTrip | pkg/database/structs.go:11 | With the corrected assignment, writing a label gives the same map on the in-memory document and on the one read back. |
| Documents.FreshDocument | pkg/processing/session.go:37-47 | A new document has version 0, the deterministic kind and name, the clock reading, empty labels and the empty spec. |
| Documents.GetOrCreateIdempotent | pkg/processing/session.go:29-59 | Get-or-create adds at most the one key; a second call for the same key changes nothing and returns what the first stored. |
| Documents.AppliedInsertIsAfterGetOrCreate | pkg/database/connection.go:56-63 | An insert applied before a driver error leaves exactly the store of a successful get-or-create, which differs from the store before. |
| Documents.CurrentIsFiled | pkg/database/connection.go:43-45 | The document read under a kind and name carries that kind and name. |
| Documents.GetOrCreate | pkg/processing/session.go:29-59 | Returns the stored document, or inserts and returns the initial one when it is absent. Any error is a transport error, and after it the store is either unchanged or holds the inserted document (an insert applied before the driver error). |
| Documents.Bumped | pkg/processing/session.go:61-64 | The saved document differs from the read one only in its version, raised by one with `int32` wrap-around. |
| Documents.Save | pkg/processing/session.go:61-64 | A successful save found the read version in the store and stored the document with the raised version. `OptimisticLock` changes nothing and means the key is absent or the version differs. A transport error leaves the store unchanged or with the save applied. |
| SeasonSessions.SeasonDocumentName | pkg/processing/season-sessions.go:31-33 | The name is `league_`, the league id's `%d` text, `_season_` and the season id's `%d` text, each at its position. `SeasonDocumentNameReadsBack` and `SeasonDocumentNameInjective` are its partners. |
| SeasonSessions.SeasonDocumentNameReadsBack | pkg/processing/season-sessions.go:31-33 | Both 64-bit ids parse back from their fields of the name. |
| SeasonSessions.SeasonDocumentNameInjective | pkg/processing/season-sessions.go:31-33 | Different (league, season) pairs never share a season document. |
| SeasonSessions.GetOrCreateSeasonDocument | pkg/processing/season-sessions.go:35-67 | Get-or-create of the season document, which starts at version 0 with an empty `ParsedSessions`. |
| SeasonSessions.SaveSeasonDocument | pkg/processing/season-sessions.go:69-72 | The versioned save in the seasons collection. |
| SeasonSessions.FindMissingSubsessions | pkg/processing/season-sessions.go:102-113 | The loop returns exactly `Missing`: the payload's ids not already recorded, in payload order. |
| SeasonSessions.PayloadIdsAt | pkg/processing/season-sessions.go:109-111 | The payload ids are the `%d` texts of the rows, one per row, in order. |
| SeasonSessions.MissingMembers | pkg/processing/season-sessions.go:102-113 | An id is requested iff it is in the payload and not already recorded. |
| SeasonSessions.MissingWhenNoneKnown | pkg/processing/season-sessions.go:108-113 | When nothing is recorded, every payload row is requested, in order and with repetitions. |
| SeasonSessions.MissingWhenAllKnown | pkg/processing/season-sessions.go:108-113 | When everything is recorded, nothing is requested. |
| SeasonSessions.BuildResultsRequests | pkg/processing/season-sessions.go:119-135 | One `/data/results/get` request per missing id, in order, each with `subsession_id` and `include_licenses` set to `false`. |
| SeasonSessions.CollectParsedSessions | pkg/processing/season-sessions.go:154-160 | The refill loop builds exactly `SessionsById` of the payload. |
| SeasonSessions.SessionsByIdKeys | pkg/processing/season-sessions.go:154-160 | After processing, the recorded ids are exactly the payload's. |
| SeasonSessions.SessionsByIdEntry | pkg/processing/season-sessions.go:155-160 | A subsession's recorded launch time and track are those of its last row. |
| SeasonSessions.ProcessLeagueSeasonSessions | pkg/processing/season-sessions.go:74-173 | Invalid `league_id`/`season_id` or an undecodable body change nothing. Otherwise the missing results requests are published, then the season document is saved with both labels and the payload's sessions. Each failure carries its wrapped error and the store and outbox it leaves; a failed save may have been applied by the server. |
| SeasonSessions.MissingLeagueIdRejected | pkg/processing/season-sessions.go:79-82 | A response without a `league_id` parameter fails with the wrapped parse error and changes neither the store nor the outbox. |
| SeasonSessions.SavedSeasonRequestsNothing | pkg/processing/season-sessions.go:102-113 | A season document as the handler saves it records every payload subsession, so the same payload finds nothing missing. |
| SeasonSessions.ReplayRequestsNothing | pkg/processing/season-sessions.go:102-113 | Redelivering a response onto the season document that its successful run saved publishes no request, whatever the outcome. |
| SeasonSessions.DedupScenario | pkg/processing/season-sessions.go:102-160 | With `a` and `b` recorded and the payload `a, b, c`, only `c` is requested, and afterwards all three are recorded. |
| SessionResults.SessionDocumentName | pkg/processing/session.go:25-27 | The name is `session_` followed by the subsession id's `%d` text. `SessionDocumentNameReadsBack` and `SessionDocumentNameInjective` are its partners. |
| SessionResults.SessionDocumentNameReadsBack | pkg/processing/session.go:25-27 | A 64-bit subsession id parses back from the name. |
| SessionResults.SessionDocumentNameInjective | pkg/processing/session.go:25-27 | Different subsessions never share a session document. |
| SessionResults.GetOrCreateSessionDocument | pkg/processing/session.go:29-59 | Get-or-create of the session document, which starts at version 0 with empty data. |
| SessionResults.SaveSessionDocument | pkg/processing/session.go:61-64 | The versioned save of session documents. |
| SessionResults.MergeData | pkg/processing/session.go:93-96 | Decoding an object into the existing map keeps the entries the body lacks and takes the body's value for every key it has. Decoding `null` leaves the empty (nil) map. |
| SessionResults.ProcessedSessionLabels | pkg/processing/session.go:87-91 | The saved labels are the old ones plus `league_id`, `season_id`, `subsession_id` and `track_id`, holding the payload's values. |
| SessionResults.CollectLapRequests | pkg/processing/session.go:110-130 | The nested loop builds exactly `LapRequests`: sim-session by sim-session, row by row. |
| SessionResults.LapRequestsCount | pkg/processing/session.go:110-130 | Exactly one request per (sim-session, result row) pair. |
| SessionResults.LapRequestAt | pkg/processing/session.go:110-130 | Row `j` of sim-session `i` is requested at position `RowCount(sims[..i]) + j`, for that row's participant. |
| SessionResults.LapRequestsShape | pkg/processing/session.go:112-120 | Every request is a chunked `/data/results/lap_data` request for this subsession with exactly the three parameters. |
| SessionResults.TwoBySixScenario | pkg/processing/session.go:110-130 | Two sim-sessions of three participants each give six requests. |
| SessionResults.ProcessSessionResults | pkg/processing/session.go:66-150 | An undecodable body changes nothing. Otherwise the session document is fetched or created, labelled, merged with the body (cleared by a `null` body) and saved, and only after a successful save are the lap requests published. Each failure carries its wrapped error and publishes nothing; a failed save may have been applied by the server. |
| SessionResults.SessionSuccessData | pkg/processing/session.go:93-104 | After success the session document holds the body merged into its previous data (cleared by a `null` body), with its version one above the previous (1 for a new document). |
| SessionResults.FanOutCount | pkg/processing/session.go:98-147 | A successful run publishes one request per (sim-session, row) pair; a failed run publishes none. |
| LapData.LapsDocumentName | pkg/processing/laps.go:24-26 | The name is `laps_` and the `%d` texts of the subsession, sim-session and participant ids, separated by `_`, each at its position. `LapsDocumentNameReadsBack` and `LapsDocumentNameInjective` are its partners. |
| LapData.LapsDocumentNameReadsBack | pkg/processing/laps.go:24-26 | All three 64-bit ids parse back from their fields of the name. |
| LapData.LapsDocumentNameInjective | pkg/processing/laps.go:24-26 | Different (subsession, sim-session, participant) triples never share a laps document. |
| LapData.GetOrCreateLapsDocument | pkg/processing/laps.go:28-58 | Get-or-create of the laps document in the sessions collection, which starts at version 0 with empty data and chunks. |
| LapData.SaveLapsDocument | pkg/processing/laps.go:60-63 | The versioned save of laps documents. |
| LapData.LapsLabelsHoldPayload | pkg/processing/laps.go:91-95 | The saved labels are the old ones plus the five ids, holding the payload's values. |
| LapData.ProcessSessionLaps | pkg/processing/laps.go:65-121 | An undecodable body changes nothing. Otherwise the laps document is fetched or created; a map or chunk decode failure leaves it as created, and a failed save leaves it as created or, when the server applied the write, as saved; on success it holds the labels, the body and the chunk rows with its version raised. |
| LapData.OutcomeIgnoresParams | pkg/processing/laps.go:78-85 | The handler's effect does not depend on the request parameters echoed in the response. |
| LapData.LapsSuccessReplacesData | pkg/processing/laps.go:109-116 | After success the document holds exactly the new body (empty for a `null` body) and chunk rows, its version is one above the previous (1 for a new document), and its labels hold the ids. |
| LapData.UnsavedCreateLeavesNilLabels | pkg/processing/laps.go:85-119 | A run that creates the document and then fails with the created document as its only change leaves a version-0 document whose labels read back nil. The run can fail because the save was not applied, because the driver reported an error on an insert it applied, or because the body or the chunks did not decode. |
| LapData.RedeliveryLabelsAsFirstTime | pkg/processing/laps.go:91-95 | With the corrected assignment, a redelivery writes the same labels as a first delivery. |
| Multiplexer.RouteOf | pkg/processing/multiplexer.go:16-38 | Each of the three endpoints routes to its own handler, matched exactly; every other endpoint is skipped. |
| Multiplexer.MultiplexProcessing | pkg/processing/multiplexer.go:13-41 | The routed handler's full contract holds of the unwrapped result, and its error is wrapped with that route's context. The laps route publishes nothing. An unknown endpoint succeeds and changes nothing. |

## Left out

- `Connect` and `Disconnect` (pkg/database/connection.go:17-41): driver setup and teardown; the store starts from an existing map.
- Chunk reassembly happens inside the iRacing API client library, which is not part of this model. The laps handler receives the reassembled rows, already decoded or marked as undecodable.
- JSON decoding is not modelled from text. A response body arrives as its typed views, its generic map view (`null` or an object) and its chunk rows, each present or absent, and the model does not relate them. JSON values are kept opaque, and empty and nil maps or slices inside a spec are one value.
- The `continue` after a failed `json.Marshal` of a request is left out: marshalling a request of strings and a boolean cannot fail.
- Publish confirmations (`result.Get`) only log, so every publish is modelled as handed to the outbox. Logging is left out.
- The clock (`time.Now().UTC()`) is a `now` parameter. Timestamps are opaque, so the truncation of `CreatedAt` to milliseconds when BSON stores it is not tracked.
- Concurrency is left out. The model is sequential, so a concurrent writer cannot win a race. `DocumentExists` inside get-or-create and `OptimisticLock` inside a save therefore cannot occur in the handlers. `Database.Insert`, `Database.Replace` and `Database.SecondSaveFromSameVersionConflicts` state how the store detects those races.
- Documents.GetOrCreate: its contract lists only transport errors. `DocumentExists` needs a concurrent creator, as said above.
- Documents.Save: on a failed save its handlers' contracts list only transport errors. `OptimisticLock` needs a concurrent writer.
- Database.Store.Update requires the document's kind and name to equal the filter's. This holds because every handler saves the document it read.
- ProcessLeagueSeasonSessions (`SeasonSessions`): labels are set with the corrected assignment `Documents.SetLabel`. As written, the assignment at pkg/processing/season-sessions.go:163 panics when the stored season document reads back with nil labels, which happens after a run created it and then failed with only the creation applied. That is a save that failed before the server applied it, or a driver error on an insert the server did apply (`Documents.AppliedInsertIsAfterGetOrCreate`). The model's run continues there instead (see Findings).
- ProcessSessionResults (`SessionResults`): labels are set with the corrected assignment. As written, the assignment at pkg/processing/session.go:88 panics on a stored session document whose labels read back nil, which happens after a run created it and then failed with only the creation applied. That is a failure to decode the body as a map, a save that failed before the server applied it, or a driver error on an insert the server did apply (`Documents.AppliedInsertIsAfterGetOrCreate`). The model's run continues there instead (see Findings).
- ProcessSessionLaps (`LapData`): labels are set with the corrected assignment. As written, the assignment at pkg/processing/laps.go:91 panics on a stored laps document whose labels read back nil, which happens after a run created it and then failed with only the creation applied. That is a failure to decode the body as a map or the chunks, a save that failed before the server applied it, or a driver error on an insert the server did apply (`LapData.UnsavedCreateLeavesNilLabels`). The model's run continues there instead (see Findings).
- LapData.ProcessSessionLaps requires the response to carry chunk pages. The Go handler dereferences `Chunks` unconditionally and panics on nil.
- Multiplexer.MultiplexProcessing: it calls the three handlers, so it inherits their corrected label assignment. Where the Go dispatcher would panic on a redelivered document with nil labels, the model's dispatch continues. It also requires a lap-data response to carry chunk pages, for the same reason as the laps handler.
- The collection and kind constants are declared elsewhere in `pkg/processing`, and their values are not part of this model. The model only relies on laps and session documents sharing one collection.
- The entry points and tools (`main.go`, `cmd/`, `tools/`, `pkg/iracing`, `pkg/firestore`) are outside the core.

## Findings

| source | as written | input that shows it | evidently intended | confidence | as-written member | corrected member |
|---|---|---|---|---|---|---|
| pkg/processing/laps.go:91-95 (also session.go:88-91, season-sessions.go:163-164) | The handlers assign labels into the map read back from the store. A document that was created but never saved is stored without its empty labels map (`omitempty`) and reads back with a nil map. Assigning into it panics. | A lap-data response seen for the first time: the handler creates the laps document, and the save fails with a driver error before the server applies it. The redelivery of the same response reads that version-0 document back. | A nil labels map is treated as empty, so the redelivery writes the same labels as a first delivery. | not executed; medium | Documents.SetLabelAsWritten, LapData.UnsavedCreateLeavesNilLabels | Documents.SetLabel, LapData.RedeliveryLabelsAsFirstTime |
