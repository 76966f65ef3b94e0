/** The optimistic-concurrency document store: an in-memory stand-in for the
    MongoDB collections behind `DB.GetOne`, `DB.Create` and `DB.Update`.
    Documents are keyed by (collection, kind, name); the model assumes the
    unique index on (kind, name) that makes inserts fail with
    `DocumentExists`. */
module Database {

  import opened Failures

  /** Go's `int32`, the type of `Meta.Version`. */
  type Int32 = x: int | -0x8000_0000 <= x < 0x8000_0000

  /** `v += 1` on an `int32`: two's-complement wrap-around at the top. */
  function Inc32(v: Int32): (w: Int32)
    ensures v < 0x7fff_ffff ==> w == v + 1
    ensures Dec32(w) == v
  {
    if v == 0x7fff_ffff then -0x8000_0000 else v + 1
  }

  /** `v - 1` on an `int32`: two's-complement wrap-around at the bottom. */
  function Dec32(v: Int32): (w: Int32)
    ensures v > -0x8000_0000 ==> w == v - 1
  {
    if v == -0x8000_0000 then 0x7fff_ffff else v - 1
  }

  /** An instant such as `time.Now().UTC()`; only compared for equality. */
  type Timestamp = nat

  /** A JSON value kept verbatim, as a decoded `interface{}` is stored. */
  datatype Json = Json(text: string)

  /** A Go `map[string]interface{}` of labels, which may be nil.  Every label
      value the pipeline writes is an `int64`. */
  datatype Labels = NilLabels | LabelMap(entries: map<string, int>)

  /** One entry of a season's `ParsedSessions`: when the subsession was
      launched and on which track. */
  datatype SessionEntry = SessionEntry(launchAt: Timestamp, trackId: int)

  /** The entity-specific part of a document: a season's `Status`, a
      session's `Spec` or a laps document's `Spec`. */
  datatype Spec =
    | SeasonStatus(parsedSessions: map<string, SessionEntry>)
    | SessionSpec(data: map<string, Json>)
    | LapsSpec(data: map<string, Json>, chunks: seq<map<string, Json>>)

  datatype Meta = Meta(version: Int32, createdAt: Timestamp, kind: string, name: string, labels: Labels)

  datatype Document = Document(meta: Meta, spec: Spec)

  datatype Key = Key(collection: string, kind: string, name: string)

  function KeyOf(collection: string, doc: Document): Key {
    Key(collection, doc.meta.kind, doc.meta.name)
  }

  /** Every document is filed under its own kind and name. */
  predicate WellFiled(docs: map<Key, Document>) {
    forall k :: k in docs ==> docs[k].meta.kind == k.kind && docs[k].meta.name == k.name
  }

  /** What a document reads back as after the driver has stored it.  The
      labels field is tagged `omitempty`, so a nil or empty labels map is not
      written, and decoding a document without the field leaves the map nil.
      The other fields survive unchanged (an empty and a nil map or slice are
      one value here).  BSON keeps `CreatedAt` only to the millisecond; the
      model does not track that truncation, since timestamps are opaque
      values that nothing here computes with. */
  function StoredForm(doc: Document): (s: Document)
    ensures s.meta.version == doc.meta.version && s.meta.kind == doc.meta.kind && s.meta.name == doc.meta.name
    ensures s.meta.createdAt == doc.meta.createdAt && s.spec == doc.spec
    ensures s.meta.labels.LabelMap? <==> doc.meta.labels.LabelMap? && doc.meta.labels.entries != map[]
    ensures s.meta.labels.LabelMap? ==> s.meta.labels == doc.meta.labels
  {
    var labels := doc.meta.labels;
    var kept := if labels.LabelMap? && labels.entries != map[] then labels else NilLabels;
    doc.(meta := doc.meta.(labels := kept))
  }

  /** The effect of `InsertOne` on the documents when the driver reports no
      transport error. */
  function Insert(docs: map<Key, Document>, collection: string, doc: Document): (res: (map<Key, Document>, Outcome))
    ensures res.1.Success? <==> KeyOf(collection, doc) !in docs
    ensures res.1.Failure? ==> res.1.error == DocumentExists && res.0 == docs
    ensures res.1.Success? ==> KeyOf(collection, doc) in res.0 && res.0[KeyOf(collection, doc)] == StoredForm(doc)
    ensures res.0.Keys == docs.Keys + {KeyOf(collection, doc)}
    ensures forall k :: k in docs ==> res.0[k] == docs[k]
  {
    var key := KeyOf(collection, doc);
    if key in docs then (docs, Failure(DocumentExists)) else (docs[key := StoredForm(doc)], Success)
  }

  /** The effect of `ReplaceOne` with the filter {kind, name, version} when
      the driver reports no transport error. */
  function Replace(docs: map<Key, Document>, key: Key, version: Int32, doc: Document): (res: (map<Key, Document>, Outcome))
    ensures res.1.Success? <==> key in docs && docs[key].meta.version == version
    ensures res.1.Failure? ==> res.1.error == OptimisticLock && res.0 == docs
    ensures res.0.Keys == docs.Keys
    ensures res.1.Success? ==> res.0[key] == StoredForm(doc)
    ensures forall k :: k in docs && k != key ==> res.0[k] == docs[k]
  {
    if key in docs && docs[key].meta.version == version then (docs[key := StoredForm(doc)], Success)
    else (docs, Failure(OptimisticLock))
  }

  /** Two writers that read the same version and both save: whichever saves
      second is told about the conflict and its document is not stored. */
  lemma SecondSaveFromSameVersionConflicts(docs: map<Key, Document>, key: Key, version: Int32, first: Document, second: Document)
    requires key in docs && docs[key].meta.version == version
    requires first.meta.version != version
    ensures var (afterFirst, r1) := Replace(docs, key, version, first);
            r1 == Success && Replace(afterFirst, key, version, second) == (afterFirst, Failure(OptimisticLock))
  {
  }

  class Store {
    var docs: map<Key, Document>

    ghost predicate Valid()
      reads this
    {
      WellFiled(docs)
    }

    constructor ()
      ensures Valid() && docs == map[]
    {
      docs := map[];
    }

    /** `DB.GetOne`: the document of the collection whose kind and name are
        the arguments, `NotFound` when there is none, or a transport error. */
    method GetOne(collection: string, kind: string, name: string) returns (r: Result<Document>)
      requires Valid()
      ensures r.Ok? ==> Key(collection, kind, name) in docs && r.value == docs[Key(collection, kind, name)]
      ensures r.Ok? ==> r.value.meta.kind == kind && r.value.meta.name == name
      ensures Key(collection, kind, name) in docs ==> r == Ok(docs[Key(collection, kind, name)]) || r == Err(Transport)
      ensures Key(collection, kind, name) !in docs ==> r == Err(NotFound) || r == Err(Transport)
    {
      var fault: bool :| true;
      var key := Key(collection, kind, name);
      if fault {
        r := Err(Transport);
      } else if key in docs {
        r := Ok(docs[key]);
      } else {
        r := Err(NotFound);
      }
    }

    /** `DB.Create`: inserts the document unless one with its kind and name
        is already in the collection.  A driver error may be reported before
        the server applied the insert or after it did. */
    method Create(collection: string, doc: Document) returns (r: Outcome)
      requires Valid()
      modifies this
      ensures Valid()
      ensures || (r == Failure(Transport) && (docs == old(docs) || docs == Insert(old(docs), collection, doc).0))
              || (docs, r) == Insert(old(docs), collection, doc)
    {
      var fault: bool :| true;
      var applied: bool :| true;
      var res := Insert(docs, collection, doc);
      if !fault || applied {
        docs := res.0;
      }
      r := if fault then Failure(Transport) else res.1;
    }

    /** `DB.Update`: replaces the document only if its kind, name and version
        are the arguments; `OptimisticLock` when nothing matches.  A driver
        error may be reported before the server applied the replace or after
        it did. */
    method Update(collection: string, kind: string, name: string, version: Int32, doc: Document) returns (r: Outcome)
      requires Valid()
      requires doc.meta.kind == kind && doc.meta.name == name
      modifies this
      ensures Valid()
      ensures || (r == Failure(Transport)
                  && (docs == old(docs) || docs == Replace(old(docs), Key(collection, kind, name), version, doc).0))
              || (docs, r) == Replace(old(docs), Key(collection, kind, name), version, doc)
    {
      var fault: bool :| true;
      var applied: bool :| true;
      var res := Replace(docs, Key(collection, kind, name), version, doc);
      if !fault || applied {
        docs := res.0;
      }
      r := if fault then Failure(Transport) else res.1;
    }
  }
}
