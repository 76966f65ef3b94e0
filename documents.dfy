/** What the three handlers share: where their documents live, how labels are
    written, the get-or-create pattern and the versioned save. */
module Documents {

  import opened Failures
  import opened Database

  // These constants are declared elsewhere in `pkg/processing` and their
  // values are not part of this model; the properties proved below do not
  // depend on them, only on laps and session documents sharing one
  // collection.
  const SeasonCollection := "seasons"
  const SessionCollection := "sessions"
  const SeasonKind := "season"
  const SessionKind := "session"
  const LapsKind := "laps"

  /** The entries of a labels map; a nil map has none. */
  function LabelsOf(labels: Labels): map<string, int> {
    if labels.LabelMap? then labels.entries else map[]
  }

  /** `doc.Meta.Labels[key] = value` as the handlers write it: assigning into
      a nil Go map panics, so the map must have been made. */
  function SetLabelAsWritten(labels: Labels, key: string, value: int): (r: Labels)
    requires labels.LabelMap?
    ensures r.LabelMap? && r.entries.Keys == labels.entries.Keys + {key}
    ensures r.entries[key] == value
    ensures forall k :: k in labels.entries && k != key ==> k in r.entries && r.entries[k] == labels.entries[k]
  {
    LabelMap(labels.entries[key := value])
  }

  /** Setting a label on a document that may have been read back with a nil
      labels map: the nil map is first made empty. */
  function SetLabel(labels: Labels, key: string, value: int): (r: Labels)
    ensures r.LabelMap? && r.entries.Keys == LabelsOf(labels).Keys + {key}
    ensures r.entries[key] == value
    ensures forall k :: k in LabelsOf(labels) && k != key ==> r.entries[k] == LabelsOf(labels)[k]
    ensures labels.LabelMap? ==> r == SetLabelAsWritten(labels, key, value)
  {
    LabelMap(LabelsOf(labels)[key := value])
  }

  /** A freshly created document carries an empty labels map; once stored
      and read back it carries a nil one, on which the as-written label
      assignment is not defined. */
  lemma FreshLabelsReadBackNil(doc: Document)
    requires doc.meta.labels == LabelMap(map[])
    ensures StoredForm(doc).meta.labels == NilLabels
  {
  }

  /** Setting a label gives the same map whether the document is the one in
      memory or the one the store hands back. */
  lemma SetLabelSurvivesRoundTrip(doc: Document, key: string, value: int)
    ensures SetLabel(StoredForm(doc).meta.labels, key, value) == SetLabel(doc.meta.labels, key, value)
  {
  }

  /** A new document of the given kind and name: version 0, no labels. */
  function FreshDocument(kind: string, name: string, now: Timestamp, spec: Spec): (d: Document)
    ensures d.meta.version == 0 && d.meta.labels == LabelMap(map[])
    ensures d.meta.kind == kind && d.meta.name == name && d.meta.createdAt == now && d.spec == spec
  {
    Document(Meta(0, now, kind, name, LabelMap(map[])), spec)
  }

  /** The document get-or-create hands back: the stored one, or the initial
      one it inserts. */
  function Current(docs: map<Key, Document>, collection: string, initial: Document): Document {
    var key := KeyOf(collection, initial);
    if key in docs then docs[key] else initial
  }

  /** The documents after a successful get-or-create. */
  function AfterGetOrCreate(docs: map<Key, Document>, collection: string, initial: Document): map<Key, Document> {
    var key := KeyOf(collection, initial);
    if key in docs then docs else docs[key := StoredForm(initial)]
  }

  /** Get-or-create creates at most one document, under the initial document's
      key, and a second call for the same key changes nothing and hands back
      what the first one stored. */
  lemma GetOrCreateIdempotent(docs: map<Key, Document>, collection: string, initial: Document, initial': Document)
    requires KeyOf(collection, initial') == KeyOf(collection, initial)
    ensures var after := AfterGetOrCreate(docs, collection, initial);
            && after.Keys == docs.Keys + {KeyOf(collection, initial)}
            && AfterGetOrCreate(after, collection, initial') == after
            && Current(after, collection, initial') == after[KeyOf(collection, initial)]
  {
  }

  /** An insert the server applied before the driver reported an error
      leaves exactly the store a successful get-or-create leaves, which
      differs from the store before: a failed get-or-create may have
      created the document. */
  lemma AppliedInsertIsAfterGetOrCreate(docs: map<Key, Document>, collection: string, initial: Document)
    requires KeyOf(collection, initial) !in docs
    ensures Insert(docs, collection, initial).0 == AfterGetOrCreate(docs, collection, initial)
    ensures AfterGetOrCreate(docs, collection, initial) != docs
  {
    assert KeyOf(collection, initial) in AfterGetOrCreate(docs, collection, initial);
  }

  /** A document read under a key has that key's kind and name. */
  lemma CurrentIsFiled(docs: map<Key, Document>, collection: string, initial: Document)
    requires WellFiled(docs)
    ensures Current(docs, collection, initial).meta.kind == initial.meta.kind
    ensures Current(docs, collection, initial).meta.name == initial.meta.name
  {
  }

  /** The get-or-create pattern: read the document; when it is not found,
      insert the initial one and use it.  Any other read error and any insert
      error is returned as it is, without a second read. */
  method GetOrCreate(store: Store, collection: string, initial: Document) returns (r: Result<Document>)
    requires store.Valid()
    modifies store
    ensures store.Valid()
    ensures r.Ok? ==> r.value == Current(old(store.docs), collection, initial)
    ensures r.Ok? ==> store.docs == AfterGetOrCreate(old(store.docs), collection, initial)
    ensures r.Err? ==> r.error == Transport
    ensures r.Err? ==> store.docs == old(store.docs) || store.docs == AfterGetOrCreate(old(store.docs), collection, initial)
  {
    var found := store.GetOne(collection, initial.meta.kind, initial.meta.name);
    if found.Ok? {
      return found;
    }
    if found.error != NotFound {
      return Err(found.error);
    }
    var created := store.Create(collection, initial);
    if created.Failure? {
      return Err(created.error);
    }
    return Ok(initial);
  }

  /** The document with its version raised by one (`Meta.Version += 1`). */
  function Bumped(doc: Document): (d: Document)
    ensures d.meta.version == Inc32(doc.meta.version)
    ensures d.meta.version != doc.meta.version
    ensures d.spec == doc.spec && d.meta.kind == doc.meta.kind && d.meta.name == doc.meta.name
    ensures d.meta.labels == doc.meta.labels && d.meta.createdAt == doc.meta.createdAt
  {
    doc.(meta := doc.meta.(version := Inc32(doc.meta.version)))
  }

  /** The effect of a save that the server applied: the stored document
      still carried the version read, and now holds the raised one. */
  ghost predicate SaveApplied(docs0: map<Key, Document>, docs1: map<Key, Document>, collection: string, doc: Document) {
    && KeyOf(collection, doc) in docs0
    && docs0[KeyOf(collection, doc)].meta.version == doc.meta.version
    && docs1 == docs0[KeyOf(collection, doc) := StoredForm(Bumped(doc))]
  }

  /** The save pattern: raise the in-memory version by one and replace the
      stored document only if it still carries the version before the raise.
      A transport error may come after the server applied the replace. */
  method Save(store: Store, collection: string, kind: string, doc: Document) returns (r: Outcome)
    requires store.Valid()
    requires doc.meta.kind == kind
    modifies store
    ensures store.Valid()
    ensures r.Success? ==> SaveApplied(old(store.docs), store.docs, collection, doc)
    ensures r.Failure? ==> r.error == Transport || r.error == OptimisticLock
    ensures r == Failure(OptimisticLock) ==> store.docs == old(store.docs)
    ensures r == Failure(Transport) ==>
              store.docs == old(store.docs) || SaveApplied(old(store.docs), store.docs, collection, doc)
    ensures r == Failure(OptimisticLock) ==>
              KeyOf(collection, doc) !in old(store.docs)
              || old(store.docs)[KeyOf(collection, doc)].meta.version != doc.meta.version
  {
    var saved := Bumped(doc);
    r := store.Update(collection, kind, saved.meta.name, Dec32(saved.meta.version), saved);
  }
}
