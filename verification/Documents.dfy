/**
 What both document stores speak of: the calls, their answers, and the log of one entry, a
 snapshot and the changes appended after it, which both stores keep in their own way.
 Base64 and JSON are left out: contents are bytes, and a value printed and parsed is itself.
 */
module Documents {
  import opened Options
  import opened Blobs

  /** A JavaScript number that counts, or the lack of one. */
  datatype Count = Number(value: nat) | NaN | Undefined

  datatype Meta = Meta(docId: string, rest: string)

  /** What a caller says of a checkpoint, and what a store answers of one. */
  datatype Input = Input(origin: string, author: Option<string>, title: Option<string>, version: Option<string>,
                         time: Option<int>)
  datatype Public = Public(id: nat, time: int, origin: string, author: Option<string>, title: Option<string>,
                           version: Option<string>, number: Option<Count>, hasBlobs: bool)

  /** The identifier generated and the time read during a call. */
  datatype Stamp = Stamp(id: nat, now: int)

  datatype Write = Write(doc: string, meta: Option<Meta>, changes: Option<Bytes>, baseSeq: Option<int>,
                         snapshot: Option<Bytes>,
                         version: Option<string>, newLineage: bool, blobs: Option<Bytes>, checkpoint: Option<Input>)

  datatype Call =
    | ReadStore(doc: string, headOnly: bool)
    | WriteStore(write: Write)
    | ReadHistory(doc: string)
    | RecordCheckpoint(doc: string, input: Input)
    | ReadCheckpoint(doc: string, id: nat)
    | DeleteStore(doc: string)

  function DocOf(call: Call): string {
    if call.WriteStore? then call.write.doc else call.doc
  }

  datatype Error = WorkspaceChanged | InvalidId | OtherDocument | Conflict | NoSnapshot

  /** `Threw`: an exception that is none of a store's own refusals. */
  datatype Answer =
    | Refused(error: Error)
    | Threw
    | Nothing
    | Head(meta: Meta, number: Count, version: Option<string>)
    | Stored(meta: Meta, snapshot: Bytes, changes: seq<Bytes>, number: Count, version: Option<string>, complete: bool, blobs: Option<Bytes>)
    | Written(number: Count, version: Option<string>, compact: bool, recorded: Option<Public>)
    | Checkpoints(newestFirst: seq<Public>)
    | One(checkpoint: Public, bundle: Option<Bytes>)

  // ---- document ids ----

  predicate AlphaNumeric(c: char) { 'A' <= c <= 'Z' || 'a' <= c <= 'z' || '0' <= c <= '9' }

  predicate IdChar(c: char) { AlphaNumeric(c) || c == ':' || c == '_' || c == '-' }

  predicate ValidId(id: string) {
    1 <= |id| <= 128 && AlphaNumeric(id[0]) && forall i :: 0 <= i < |id| ==> IdChar(id[i])
  }

  /** The directory of an entry: colons are escaped. */
  function DirName(id: string): (r: string)
    ensures id != [] ==> r != []
  {
    if id == [] then [] else (if id[0] == ':' then "%3A" else [id[0]]) + DirName(id[1..])
  }

  /** Different documents have different directories. */
  lemma {:induction false} DirNameIsInjective(a: string, b: string)
    requires forall i :: 0 <= i < |a| ==> IdChar(a[i])
    requires forall i :: 0 <= i < |b| ==> IdChar(b[i])
    requires DirName(a) == DirName(b)
    ensures a == b
  {
    if a != [] && b != [] {
      assert DirName(a)[0] == (if a[0] == ':' then '%' else a[0]);
      assert DirName(b)[0] == (if b[0] == ':' then '%' else b[0]);
      var skip := if a[0] == ':' then 3 else 1;
      assert DirName(a)[skip..] == DirName(a[1..]) && DirName(b)[skip..] == DirName(b[1..]);
      DirNameIsInjective(a[1..], b[1..]);
      assert a == [a[0]] + a[1..] && b == [b[0]] + b[1..];
    }
  }

  /** The checks every call starts with; an empty or absent root is not compared. */
  function Checked(active: string, expected: string, doc: string): Option<Error> {
    if expected != "" && expected != active then Some(WorkspaceChanged)
    else if !ValidId(doc) then Some(InvalidId)
    else None
  }

  // ---- the log of an entry ----

  /** `first`: the number of the snapshot; the changes are numbered after it. */
  datatype Log = Log(meta: Meta, snapshot: Bytes, first: nat, changes: seq<Bytes>, version: Option<string>,
                     blobs: Option<Bytes>)

  function HeadSeq(log: Option<Log>): nat {
    if log == None then 0 else log.value.first + |log.value.changes|
  }

  /** Only an append is guarded, by the number of the head. */
  predicate Accepts(log: Option<Log>, w: Write) {
    w.changes.Some? ==> log.Some? && w.baseSeq == Some(HeadSeq(log))
  }

  /** The log after an accepted write. */
  function Appended(log: Option<Log>, w: Write): Log
    requires Accepts(log, w) && w.meta.Some?
  {
    if w.changes.Some? then
      log.value.(meta := w.meta.value, changes := log.value.changes + [w.changes.value], version := w.version,
                 blobs := if w.blobs.Some? then w.blobs else log.value.blobs)
    else
      Log(w.meta.value, if w.snapshot.Some? then w.snapshot.value else [], HeadSeq(log) + 1, [], w.version, w.blobs)
  }

  predicate NamesItself(w: Write) { w.meta.Some? && w.meta.value.docId == w.doc }

  /** The log after a call on its entry, with a valid root and id. */
  function Served(log: Option<Log>, call: Call): Option<Log> {
    if call.WriteStore? && NamesItself(call.write) && Accepts(log, call.write) then Some(Appended(log, call.write))
    else if call.DeleteStore? then None
    else log
  }

  /** What a complete read of a log answers. */
  function Answered(log: Option<Log>, headOnly: bool): Answer {
    if log == None then Nothing
    else
      var l := log.value;
      if headOnly then Head(l.meta, Number(HeadSeq(log)), l.version)
      else Stored(l.meta, l.snapshot, l.changes, Number(HeadSeq(log)), l.version, true, l.blobs)
  }

  // ---- checkpoints ----

  const KEPT := 200

  function Last<T>(history: seq<T>): (r: seq<T>)
    ensures |r| <= KEPT
  {
    if |history| > KEPT then history[|history| - KEPT..] else history
  }

  function Reversed<T>(s: seq<T>): (r: seq<T>)
    ensures |r| == |s| && forall i :: 0 <= i < |r| ==> r[i] == s[|s| - 1 - i]
  {
    seq(|s|, i requires 0 <= i < |s| => s[|s| - 1 - i])
  }

  /** JavaScript's test of an optional string: an empty one counts as absent. */
  function Truthy(s: Option<string>): Option<string> {
    if s == Some("") then None else s
  }

  /** The version a checkpoint is taken at. */
  function VersionOf(input: Input, head: Option<string>): Option<string> {
    if input.version.Some? then input.version else head
  }
}
