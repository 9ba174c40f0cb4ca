/**
 The document store kept in one object (`e2e/helpers/documentStore.ts`). The counters of calls
 and the hook that makes writes fail are left out. Entries, heads and histories are plain
 objects, so a look-up of a document named like a method of all objects finds that method.
 */
module MemoryStore {
  import opened Options
  import opened Blobs
  import opened Documents

  /** An append to such a name stores an entry without a snapshot; no read answers it, so it is empty here. */
  datatype Entry = Entry(meta: Meta, snapshot: Bytes)
  datatype EntryHead = EntryHead(number: Count, version: Option<string>, changes: seq<Bytes>)
  datatype Memory = Memory(entries: map<string, Entry>, heads: map<string, EntryHead>, histories: map<string,
                           seq<Public>>)

  const EMPTY := Memory(map[], map[], map[])

  /** The methods every object inherits whose names are document ids. */
  const INHERITED: set<string> :=
    {"constructor", "hasOwnProperty", "isPrototypeOf", "propertyIsEnumerable", "toLocaleString", "toString", "valueOf"}

  predicate Plain(doc: string) { doc !in INHERITED }

  // ---- each command as a function of the state ----

  /** Whether a look-up of the history finds one, or finds nothing, and no method. */
  predicate HasHistory(m: Memory, doc: string) { doc in m.histories || Plain(doc) }

  function HistoryOf(m: Memory, doc: string): seq<Public> {
    if doc in m.histories then m.histories[doc] else []
  }

  /** A method has neither a number nor a version, and no changes to copy. */
  function HeadOf(m: Memory, doc: string): EntryHead {
    if doc in m.heads then m.heads[doc] else EntryHead(if Plain(doc) then Number(0) else Undefined, None, [])
  }

  predicate HasChanges(m: Memory, doc: string) { doc in m.heads || Plain(doc) }

  function Plus1(n: Count): Count { if n.Number? then Number(n.value + 1) else NaN }

  /** `===` with a base that may be absent. */
  predicate IsBase(n: Count, base: Option<int>) {
    match n
    case Number(value) => base == Some(value)
    case NaN => false
    case Undefined => base == None
  }

  function Record(m: Memory, doc: string, input: Input, stamp: Stamp): (Memory, Public) {
    var history, head := HistoryOf(m, doc), HeadOf(m, doc);
    var version := VersionOf(input, head.version);
    if history != [] && Truthy(version).Some? && history[|history| - 1].version == version then
      (m, history[|history| - 1])
    else
      var checkpoint := Public(stamp.id, stamp.now, input.origin, Truthy(input.author), Truthy(input.title), Truthy(version),
                               if doc in m.heads || !Plain(doc) then Some(head.number) else None, false);
      (m.(histories := m.histories[doc := Last(history + [checkpoint])]), checkpoint)
  }

  function ReadOf(m: Memory, doc: string, headOnly: bool): Answer {
    if doc !in m.entries then if Plain(doc) then Nothing else Threw
    else
      var stored, head := m.entries[doc], HeadOf(m, doc);
      if headOnly then Head(stored.meta, head.number, head.version)
      else if !HasChanges(m, doc) then Threw
      else Stored(stored.meta, stored.snapshot, head.changes, head.number, head.version, true, None)
  }

  /** The entry of a write that has passed the checks of root and id, and how the write ends if it ends there. */
  function Put(m: Memory, w: Write): (r: (Memory, Option<Answer>))
    ensures r.1.Some? && r.1.value.Refused? ==> r.0 == m
  {
    var head := HeadOf(m, w.doc);
    if !NamesItself(w) then (m, Some(Refused(OtherDocument)))
    else if w.changes.Some? then
      if (w.doc !in m.entries && Plain(w.doc)) || !IsBase(head.number, w.baseSeq) then (m, Some(Refused(Conflict)))
      else
        var snapshot := if w.doc in m.entries then m.entries[w.doc].snapshot else [];
        var m' := m.(entries := m.entries[w.doc := Entry(w.meta.value, snapshot)]);
        if !HasChanges(m, w.doc) then (m', Some(Threw))
        else (m'.(heads := m.heads[w.doc := EntryHead(Plus1(head.number), w.version, head.changes + [w.changes.value])]), None)
    else if w.snapshot == None then (m, Some(Refused(NoSnapshot)))
    else (Memory(m.entries[w.doc := Entry(w.meta.value, w.snapshot.value)],
                 m.heads[w.doc := EntryHead(Plus1(head.number), w.version, [])],
                 if w.newLineage then m.histories - {w.doc} else m.histories), None)
  }

  function WriteOf(m: Memory, w: Write, stamp: Stamp): (Memory, Answer) {
    var (put, ended) := Put(m, w);
    if ended.Some? then (put, ended.value)
    else if w.checkpoint.Some? && !HasHistory(put, w.doc) then (put, Threw)
    else
      var head := HeadOf(put, w.doc);
      var recorded := if w.checkpoint.Some? then Some(Record(put, w.doc, w.checkpoint.value, stamp)) else None;
      (if recorded.Some? then recorded.value.0 else put,
       Written(head.number, head.version, |head.changes| >= 64, if recorded.Some? then Some(recorded.value.1) else None))
  }

  function Find(history: seq<Public>, id: nat): Option<Public> {
    if history == [] then None else if history[0].id == id then Some(history[0]) else Find(history[1..], id)
  }

  function Step(active: string, m: Memory, expected: string, call: Call, stamp: Stamp): (Memory, Answer) {
    var error := Checked(active, expected, DocOf(call));
    if error.Some? then (m, Refused(error.value))
    else
      match call
      case ReadStore(doc, headOnly) => (m, ReadOf(m, doc, headOnly))
      case WriteStore(w) => WriteOf(m, w, stamp)
      case ReadHistory(doc) => (m, if HasHistory(m, doc) then Checkpoints(Reversed(HistoryOf(m, doc))) else Threw)
      case RecordCheckpoint(doc, input) =>
        if !HasHistory(m, doc) then (m, Threw)
        else var (m', checkpoint) := Record(m, doc, input, stamp); (m', One(checkpoint, None))
      case ReadCheckpoint(doc, id) =>
        var found := Find(HistoryOf(m, doc), id);
        (m, if !HasHistory(m, doc) then Threw else if found == None then Nothing else One(found.value, None))
      case DeleteStore(doc) => (Memory(m.entries - {doc}, m.heads - {doc}, m.histories - {doc}), Nothing)
  }

  // ---- the object ----

  class Store {
    const root: string
    var entries: map<string, Entry>
    var heads: map<string, EntryHead>
    var histories: map<string, seq<Public>>

    ghost function State(): Memory
      reads this
    {
      Memory(entries, heads, histories)
    }

    constructor (root: string)
      ensures this.root == root && State() == EMPTY
    {
      this.root := root;
      entries, heads, histories := map[], map[], map[];
    }

    /** `head`, as every command looks it up. */
    method HeadAt(doc: string) returns (head: EntryHead)
      ensures head == HeadOf(State(), doc)
    {
      if doc in heads { return heads[doc]; }
      return EntryHead(if Plain(doc) then Number(0) else Undefined, None, []);
    }

    /** `record`; an inherited method in place of the history cannot be copied. */
    method RecordAt(doc: string, input: Input, stamp: Stamp) returns (checkpoint: Option<Public>)
      modifies this`histories
      ensures if HasHistory(old(State()), doc) then checkpoint.Some? && (State(), checkpoint.value) == Record(old(State()), doc, input, stamp)
              else checkpoint == None && State() == old(State())
    {
      if doc !in histories && !Plain(doc) { return None; }
      var history := if doc in histories then histories[doc] else [];
      var version := input.version;
      if version == None && doc in heads { version := heads[doc].version; }
      if history != [] && Truthy(version).Some? && history[|history| - 1].version == version {
        return Some(history[|history| - 1]);
      }
      var number := if doc in heads then Some(heads[doc].number) else if Plain(doc) then None else Some(Undefined);
      var added := Public(stamp.id, stamp.now, input.origin, Truthy(input.author), Truthy(input.title), Truthy(version), number, false);
      histories := histories[doc := Last(history + [added])];
      return Some(added);
    }

    method ReadDocumentStore(expected: string, doc: string, headOnly: bool, stamp: Stamp) returns (answer: Answer)
      ensures (State(), answer) == Step(root, State(), expected, ReadStore(doc, headOnly), stamp)
    {
      var error := Checked(root, expected, doc);
      if error.Some? { return Refused(error.value); }
      if doc !in entries { return if Plain(doc) then Nothing else Threw; }
      var head := HeadAt(doc);
      if headOnly { return Head(entries[doc].meta, head.number, head.version); }
      if doc !in heads && !Plain(doc) { return Threw; }
      return Stored(entries[doc].meta, entries[doc].snapshot, head.changes, head.number, head.version, true, None);
    }

    method WriteDocumentStore(expected: string, w: Write, stamp: Stamp) returns (answer: Answer)
      modifies this
      ensures (State(), answer) == Step(root, old(State()), expected, WriteStore(w), stamp)
    {
      hide Record;
      var error := Checked(root, expected, w.doc);
      if error.Some? { return Refused(error.value); }
      if w.meta == None || w.meta.value.docId != w.doc { return Refused(OtherDocument); }
      var head := HeadAt(w.doc);
      if w.changes.Some? {
        var found := w.doc in entries || !Plain(w.doc);
        if !found || !IsBase(head.number, w.baseSeq) { return Refused(Conflict); }
        entries := entries[w.doc := Entry(w.meta.value, if w.doc in entries then entries[w.doc].snapshot else [])];
        if w.doc !in heads && !Plain(w.doc) { return Threw; }
        heads := heads[w.doc := EntryHead(Plus1(head.number), w.version, head.changes + [w.changes.value])];
      } else {
        if w.snapshot == None { return Refused(NoSnapshot); }
        entries := entries[w.doc := Entry(w.meta.value, w.snapshot.value)];
        heads := heads[w.doc := EntryHead(Plus1(head.number), w.version, [])];
        if w.newLineage { histories := histories - {w.doc}; }
      }
      assert (State(), None) == Put(old(State()), w);
      head := heads[w.doc];
      answer := Written(head.number, head.version, |head.changes| >= 64, None);
      if w.checkpoint.Some? {
        var recorded := RecordAt(w.doc, w.checkpoint.value, stamp);
        answer := if recorded == None then Threw else answer.(recorded := recorded);
      }
    }

    method ReadDocumentHistory(expected: string, doc: string, stamp: Stamp) returns (answer: Answer)
      ensures (State(), answer) == Step(root, State(), expected, ReadHistory(doc), stamp)
    {
      var error := Checked(root, expected, doc);
      if error.Some? { return Refused(error.value); }
      if doc !in histories && !Plain(doc) { return Threw; }
      return Checkpoints(Reversed(if doc in histories then histories[doc] else []));
    }

    method RecordDocumentCheckpoint(expected: string, doc: string, input: Input, stamp: Stamp) returns (answer: Answer)
      modifies this`histories
      ensures (State(), answer) == Step(root, old(State()), expected, RecordCheckpoint(doc, input), stamp)
    {
      hide Record;
      var error := Checked(root, expected, doc);
      if error.Some? { return Refused(error.value); }
      var checkpoint := RecordAt(doc, input, stamp);
      return if checkpoint == None then Threw else One(checkpoint.value, None);
    }

    method ReadDocumentCheckpoint(expected: string, doc: string, id: nat, stamp: Stamp) returns (answer: Answer)
      ensures (State(), answer) == Step(root, State(), expected, ReadCheckpoint(doc, id), stamp)
    {
      var error := Checked(root, expected, doc);
      if error.Some? { return Refused(error.value); }
      if doc !in histories && !Plain(doc) { return Threw; }
      var history := if doc in histories then histories[doc] else [];
      var i := 0;
      assert history[0..] == history;
      while i < |history|
        invariant 0 <= i <= |history| && Find(history, id) == Find(history[i..], id)
      {
        assert history[i..][1..] == history[i + 1..];
        if history[i].id == id { return One(history[i], None); }
        i := i + 1;
      }
      return Nothing;
    }

    method DeleteDocumentStore(expected: string, doc: string, stamp: Stamp) returns (answer: Answer)
      modifies this
      ensures (State(), answer) == Step(root, old(State()), expected, DeleteStore(doc), stamp)
    {
      var error := Checked(root, expected, doc);
      if error.Some? { return Refused(error.value); }
      entries, heads, histories := entries - {doc}, heads - {doc}, histories - {doc};
      return Nothing;
    }
  }

  // ---- the log it keeps ----

  /** Entries have heads, which count; under an inherited name nothing counts. */
  ghost predicate Consistent(m: Memory) {
    && (forall doc :: Plain(doc) ==> (doc in m.entries <==> doc in m.heads))
    && (forall doc :: doc in m.heads ==> Counts(doc, m.heads[doc]))
  }

  predicate Counts(doc: string, head: EntryHead) {
    if Plain(doc) then head.number.Number? && head.number.value > |head.changes| else head.number == NaN
  }

  function LogOf(m: Memory, doc: string): Option<Log> {
    var head := HeadOf(m, doc);
    if doc !in m.entries || !head.number.Number? || head.number.value < |head.changes| then None
    else Some(Log(m.entries[doc].meta, m.entries[doc].snapshot, head.number.value - |head.changes|, head.changes, head.version, None))
  }

  /** A write brings its changes or a snapshot; without either, this store refuses it. */
  predicate Brings(call: Call) { call.WriteStore? ==> call.write.changes.Some? || call.write.snapshot.Some? }

  predicate WithoutBlobs(call: Call) { call.WriteStore? ==> call.write.blobs == None }

  /** A read answers the log, all of it, exactly for a document that is not named like an inherited method. */
  lemma ReadsLog(m: Memory, doc: string, headOnly: bool)
    requires Consistent(m)
    ensures ReadOf(m, doc, headOnly) == Answered(LogOf(m, doc), headOnly) <==> Plain(doc)
  {
    hide INHERITED, Plain;
    assert doc in m.heads ==> Counts(doc, m.heads[doc]);
  }

  /** No other answer of a read is that of any log. */
  lemma InheritedReadsNoLog(m: Memory, doc: string, headOnly: bool, log: Option<Log>)
    requires Consistent(m) && !Plain(doc)
    ensures ReadOf(m, doc, headOnly) != Answered(log, headOnly)
  {
    hide INHERITED, Plain;
    assert doc in m.heads ==> Counts(doc, m.heads[doc]);
  }

  lemma RecordKeepsLogs(m: Memory, doc: string, input: Input, stamp: Stamp)
    ensures var m' := Record(m, doc, input, stamp).0; m'.entries == m.entries && m'.heads == m.heads
    ensures var m' := Record(m, doc, input, stamp).0; forall other :: other != doc ==> HistoryOf(m', other) == HistoryOf(m, other)
  {
  }

  /** What a store holds of one entry. */
  predicate SameAt(m: Memory, m': Memory, doc: string) {
    && (doc in m'.entries <==> doc in m.entries) && (doc in m.entries ==> m'.entries[doc] == m.entries[doc])
    && (doc in m'.heads <==> doc in m.heads) && (doc in m.heads ==> m'.heads[doc] == m.heads[doc])
    && HistoryOf(m', doc) == HistoryOf(m, doc)
  }

  /** A call on one entry leaves every other entry as it is. */
  lemma OthersStay(active: string, m: Memory, expected: string, call: Call, stamp: Stamp, other: string)
    requires other != DocOf(call)
    ensures SameAt(m, Step(active, m, expected, call, stamp).0, other)
  {
    hide Record, INHERITED, Plain, Put, ValidId;
    match call
    case WriteStore(w) =>
      PutOthersStay(m, w, other);
      if w.checkpoint.Some? { RecordKeepsLogs(Put(m, w).0, w.doc, w.checkpoint.value, stamp); }
    case RecordCheckpoint(doc, input) => RecordKeepsLogs(m, doc, input, stamp);
    case _ =>
  }

  lemma PutOthersStay(m: Memory, w: Write, other: string)
    requires other != w.doc
    ensures SameAt(m, Put(m, w).0, other)
  {
    hide INHERITED, Plain;
  }

  lemma SameLog(m: Memory, m': Memory, doc: string)
    requires SameAt(m, m', doc)
    ensures LogOf(m', doc) == LogOf(m, doc)
  {
    hide INHERITED, Plain;
  }

  /** Reading or storing the document `constructor`, as valid an id as any, finds the method of that name. */
  lemma ConstructorIsFound(active: string, m: Memory, w: Write, stamp: Stamp)
    requires m == EMPTY && w.doc == "constructor"
    requires NamesItself(w) && w.changes == None && w.snapshot.Some? && w.checkpoint == None
    ensures ValidId(w.doc) && !Plain(w.doc)
    ensures Step(active, m, "", ReadStore(w.doc, false), stamp).1 == Threw
    ensures Step(active, m, "", WriteStore(w), stamp).1 == Written(NaN, w.version, false, None)
  {
    assert ValidId(w.doc) && !Plain(w.doc);
    hide ValidId, Plain;
  }

  /** The commands act on the log of their entry as `Served` says, and on no other entry. */
  lemma StepServesLog(active: string, m: Memory, expected: string, call: Call, stamp: Stamp, doc: string)
    requires Consistent(m) && WithoutBlobs(call) && Brings(call)
    ensures var m' := Step(active, m, expected, call, stamp).0;
      Consistent(m')
      && (Plain(doc) ==>
        LogOf(m', doc) == if doc == DocOf(call) && Checked(active, expected, doc) == None then Served(LogOf(m, doc), call) else LogOf(m, doc))
  {
    hide Record, INHERITED, Plain;
    match call
    case WriteStore(w) =>
      var put := Put(m, w).0;
      PutServesLog(m, w, doc);
      if w.checkpoint.Some? { RecordKeepsLogs(put, w.doc, w.checkpoint.value, stamp); }
    case RecordCheckpoint(other, input) => RecordKeepsLogs(m, other, input, stamp);
    case _ =>
  }

  lemma PutServesLog(m: Memory, w: Write, doc: string)
    requires Consistent(m) && w.blobs == None && (w.changes.Some? || w.snapshot.Some?)
    ensures var m' := Put(m, w).0;
      Consistent(m')
      && (Plain(doc) ==> LogOf(m', doc) == if doc == w.doc then Served(LogOf(m, doc), WriteStore(w)) else LogOf(m, doc))
    ensures Plain(w.doc) ==> (Put(m, w).1 == None <==> NamesItself(w) && Accepts(LogOf(m, w.doc), w))
  {
    hide INHERITED, Plain;
    assert w.doc in m.heads ==> Counts(w.doc, m.heads[w.doc]);
    assert Plain(w.doc) && w.doc in m.entries ==> Number(HeadSeq(LogOf(m, w.doc))) == m.heads[w.doc].number;
  }
}
