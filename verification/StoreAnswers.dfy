/**
 What both document stores check before anything else, and what they record, said of the call
 and the entry: roots and ids, checkpoints and the history kept, the head of an accepted write,
 and entries of format 1.
 */
module StoreAnswers {
  import opened Options
  import opened Blobs
  import opened Documents
  import CrashSafety
  import FileStore
  import MemoryStore

  // ---- roots and ids ----

  /** The call names a workspace, and not the active one. */
  predicate OtherRoot(active: string, expected: string) { expected != "" && expected != active }

  predicate LetterOrDigit(c: char) { 'A' <= c <= 'Z' || 'a' <= c <= 'z' || '0' <= c <= '9' }

  /** 1 to 128 letters, digits, `:`, `_` and `-`, of which the first is a letter or a digit. */
  predicate ProperId(id: string) {
    0 < |id| && |id| < 129 && LetterOrDigit(id[0])
    && forall i :: 0 <= i < |id| ==> LetterOrDigit(id[i]) || id[i] in {':', '_', '-'}
  }

  lemma ChecksAre(active: string, expected: string, doc: string)
    ensures Checked(active, expected, doc)
      == if OtherRoot(active, expected) then Some(WorkspaceChanged) else if !ProperId(doc) then Some(InvalidId) else None
  {
  }

  /** The document a call names. */
  function Named(call: Call): string {
    match call
    case ReadStore(doc, _) => doc
    case WriteStore(w) => w.doc
    case ReadHistory(doc) => doc
    case RecordCheckpoint(doc, _) => doc
    case ReadCheckpoint(doc, _) => doc
    case DeleteStore(doc) => doc
  }

  /**
   The files refuse a call for another workspace, and only such a call for that reason; and of the
   others those with an improper id, and only those for that reason; a refused call changes nothing.
   */
  lemma FilesCheckFirst(sha: Hash, active: string, dirs: FileStore.Dirs, expected: string, call: Call, stamp: Stamp)
    ensures var r := FileStore.Step(sha, active, dirs, expected, call, stamp);
      (r.1 == Refused(WorkspaceChanged) <==> OtherRoot(active, expected))
      && (r.1 == Refused(InvalidId) <==> !OtherRoot(active, expected) && !ProperId(Named(call)))
      && (OtherRoot(active, expected) || !ProperId(Named(call)) ==> r.0 == dirs)
  {
    hide Checked, FileStore.ReadOf, FileStore.Recorded, FileStore.Ops, FileStore.NextManifest, FileStore.Find, ProperId;
    ChecksAre(active, expected, DocOf(call));
    FileReadIsNoRefusal(sha, FileStore.DirOf(dirs, DirName(DocOf(call))), Named(call));
  }

  lemma FileReadIsNoRefusal(sha: Hash, dir: FileStore.Dir, doc: string)
    ensures !FileStore.ReadOf(sha, dir, doc, true).Refused? && !FileStore.ReadOf(sha, dir, doc, false).Refused?
  {
  }

  /** The store in memory refuses the same calls for the same reasons. */
  lemma MemoryChecksFirst(active: string, m: MemoryStore.Memory, expected: string, call: Call, stamp: Stamp)
    ensures var r := MemoryStore.Step(active, m, expected, call, stamp);
      (r.1 == Refused(WorkspaceChanged) <==> OtherRoot(active, expected))
      && (r.1 == Refused(InvalidId) <==> !OtherRoot(active, expected) && !ProperId(Named(call)))
      && (OtherRoot(active, expected) || !ProperId(Named(call)) ==> r.0 == m)
  {
    hide Checked, MemoryStore.Record, MemoryStore.Plain, MemoryStore.INHERITED, ProperId;
    ChecksAre(active, expected, DocOf(call));
  }

  /** Directories: every colon of an id is escaped, and nothing else. */
  lemma {:induction false} DirNameIs(id: string, rest: string)
    ensures DirName(id + rest) == DirName(id) + DirName(rest)
    ensures |id| == 1 ==> DirName(id) == if id[0] == ':' then "%3A" else id
  {
    if id == [] {
      assert id + rest == rest;
    } else {
      assert (id + rest)[1..] == id[1..] + rest;
      DirNameIs(id[1..], rest);
    }
  }

  // ---- writes ----

  /** A write stores only what names its own document, and both stores say so. */
  lemma WritesNameTheirDocument(sha: Hash, active: string, dirs: FileStore.Dirs, m: MemoryStore.Memory,
                                expected: string, w: Write, stamp: Stamp)
    requires !OtherRoot(active, expected) && ProperId(w.doc)
    ensures var named := w.meta.Some? && w.meta.value.docId == w.doc;
      var f, r := FileStore.Step(sha, active, dirs, expected, WriteStore(w), stamp), MemoryStore.Step(active, m, expected, WriteStore(w), stamp);
      (f.1 == Refused(OtherDocument) <==> !named) && (!named ==> f.0 == dirs)
      && (r.1 == Refused(OtherDocument) <==> !named) && (!named ==> r.0 == m)
  {
    hide Checked, FileStore.Plan, FileStore.Recorded, FileStore.NextManifest, MemoryStore.Record, MemoryStore.Plain,
      MemoryStore.INHERITED, ProperId;
    ChecksAre(active, expected, w.doc);
  }

  /** An append is accepted exactly on the head of an entry, and a snapshot always: the refusal of the files. */
  lemma FilesConflictExactly(sha: Hash, active: string, dirs: FileStore.Dirs, expected: string, w: Write, stamp: Stamp)
    requires !OtherRoot(active, expected) && ProperId(w.doc) && w.meta.Some? && w.meta.value.docId == w.doc
    ensures var manifest := FileStore.DirOf(dirs, DirName(w.doc)).manifest;
      FileStore.Step(sha, active, dirs, expected, WriteStore(w), stamp).1 == Refused(Conflict)
      <==> w.changes.Some? && !(manifest.Some? && manifest.value.Current? && w.baseSeq == Some(manifest.value.head))
  {
    hide Checked, FileStore.Plan, FileStore.Recorded, FileStore.NextManifest, ProperId;
    ChecksAre(active, expected, w.doc);
  }

  /** What an accepted write answers is the head of the log after it, and that 64 changes ask to be compacted. */
  lemma FilesAnswerHead(sha: Hash, dir: FileStore.Dir, log: Option<Log>, w: Write, stamp: Stamp)
    requires CrashSafety.Commits(sha, dir.manifest, log) && NamesItself(w) && Accepts(log, w)
    ensures var a, l := FileStore.WriteAnswer(sha, dir, w, stamp), Appended(log, w);
      a.Written? && a.number == Number(l.first + |l.changes|) && a.version == w.version
      && (a.compact <==> |l.changes| >= 64) && (a.recorded.Some? <==> w.checkpoint.Some?)
  {
    hide FileStore.NextManifest, FileStore.Recorded;
    CrashSafety.NextDescribes(sha, dir, log, w);
  }

  lemma MemoryAnswersHead(m: MemoryStore.Memory, w: Write, stamp: Stamp)
    requires MemoryStore.Consistent(m) && MemoryStore.Plain(w.doc) && w.blobs == None
    requires (w.changes.Some? || w.snapshot.Some?)
    requires NamesItself(w) && Accepts(MemoryStore.LogOf(m, w.doc), w)
    ensures var a, l := MemoryStore.WriteOf(m, w, stamp).1, Appended(MemoryStore.LogOf(m, w.doc), w);
      a.Written? && a.number == Number(l.first + |l.changes|) && a.version == w.version
      && (a.compact <==> |l.changes| >= 64) && (a.recorded.Some? <==> w.checkpoint.Some?)
  {
    hide MemoryStore.INHERITED, MemoryStore.Plain, MemoryStore.Record;
    MemoryStore.PutServesLog(m, w, w.doc);
    assert w.doc in m.heads ==> MemoryStore.Counts(w.doc, m.heads[w.doc]);
  }

  // ---- checkpoints ----

  /** The version a checkpoint is taken at: the one given, or else the head's; an empty one is none. */
  function TakenAt(given: Option<string>, head: Option<string>): Option<string> {
    if given.Some? then (if given.value == "" then None else given)
    else if head.Some? && head.value != "" then head else None
  }

  /** One more, and the oldest goes when there are 200. */
  predicate Kept<T(==)>(before: seq<T>, after: seq<T>, added: T) {
    after == (if |before| >= 200 then before[|before| - 199..] else before) + [added]
  }

  lemma LastIsKept<T>(before: seq<T>, added: T)
    ensures Kept(before, Last(before + [added]), added)
  {
    var all := before + [added];
    if |all| > KEPT { assert all[|all| - KEPT..] == before[|before| - 199..] + [added]; }
  }

  /**
   A checkpoint at the version of the last one is that one; another one takes origin, author and
   label from the call, its version from the call or the head, and its number from the head.
   */
  lemma MemoryRecords(active: string, m: MemoryStore.Memory, expected: string, doc: string, input: Input, stamp: Stamp)
    requires !OtherRoot(active, expected) && ProperId(doc) && MemoryStore.Plain(doc)
    ensures var r := MemoryStore.Step(active, m, expected, RecordCheckpoint(doc, input), stamp);
      var history := if doc in m.histories then m.histories[doc] else [];
      var at := TakenAt(input.version, if doc in m.heads then m.heads[doc].version else None);
      r.1.One? && r.1.bundle == None
      && if history != [] && at.Some? && history[|history| - 1].version == at
         then r.0 == m && r.1.checkpoint == history[|history| - 1]
         else r.1.checkpoint == Public(stamp.id, stamp.now, input.origin, if input.author == Some("") then None else input.author,
                                       if input.title == Some("") then None else input.title, at,
                                       if doc in m.heads then Some(m.heads[doc].number) else None, false)
              && doc in r.0.histories && Kept(history, r.0.histories[doc], r.1.checkpoint)
  {
    hide Checked, ProperId, MemoryStore.INHERITED, MemoryStore.Plain, Last, Kept;
    ChecksAre(active, expected, doc);
    var history := if doc in m.histories then m.histories[doc] else [];
    LastIsKept(history, MemoryStore.Step(active, m, expected, RecordCheckpoint(doc, input), stamp).1.checkpoint);
  }

  /** What the checkpoint of a call on the files is, with the blobs of the head. */
  lemma FilesRecord(sha: Hash, active: string, dirs: FileStore.Dirs, expected: string, doc: string, input: Input,
                    stamp: Stamp)
    requires !OtherRoot(active, expected) && ProperId(doc)
    ensures var r := FileStore.Step(sha, active, dirs, expected, RecordCheckpoint(doc, input), stamp);
      var dir, dir' := FileStore.DirOf(dirs, DirName(doc)), FileStore.DirOf(r.0, DirName(doc));
      var head := if dir.manifest.Some? && dir.manifest.value.Current? then dir.manifest else None;
      var history, at := dir.history, TakenAt(input.version, if head.Some? then head.value.version else None);
      r.1.One? && dir' == dir.(history := dir'.history)
      && if history != [] && at.Some? && history[|history| - 1].version == at
         then dir' == dir && SaysOf(r.1.checkpoint, history[|history| - 1])
         else dir'.history != [] && Kept(history, dir'.history, dir'.history[|dir'.history| - 1])
              && SaysOf(r.1.checkpoint, dir'.history[|dir'.history| - 1])
              && dir'.history[|dir'.history| - 1]
                == FileStore.Checkpoint(stamp.id, if input.time.Some? then input.time.value else stamp.now, input.origin, input.author, input.title,
                                        at, if head.Some? then Some(head.value.head) else None, if head.Some? then head.value.blobs else None)
  {
    hide Checked, ProperId, Kept, SaysOf, TakenAt, FileStore.Recorded, FileStore.PublicOf;
    ChecksAre(active, expected, doc);
    var dir := FileStore.DirOf(dirs, DirName(doc));
    var put := FileStore.Recorded(dir.history, FileStore.CurrentOf(dir), input, stamp);
    RecordedIs(dir.history, FileStore.CurrentOf(dir), input, stamp);
    PublicSays(put.1);
    if put.0.Some? {
      KeptEnds(dir.history, put.0.value, put.1);
      FileStore.ApplyOne(dir, FileStore.PutHistory(put.0.value));
    }
  }

  lemma RecordedIs(history: seq<FileStore.Checkpoint>, head: Option<FileStore.Manifest>, input: Input, stamp: Stamp)
    requires head.Some? ==> head.value.Current?
    ensures var r := FileStore.Recorded(history, head, input, stamp);
      var at := TakenAt(input.version, if head.Some? then head.value.version else None);
      if history != [] && at.Some? && history[|history| - 1].version == at then r == (None, history[|history| - 1])
      else r.0.Some? && Kept(history, r.0.value, r.1) && r.1 == FileStore.Checkpoint(
        stamp.id, if input.time.Some? then input.time.value else stamp.now, input.origin, input.author, input.title,
        at, if head.Some? then Some(head.value.head) else None, if head.Some? then head.value.blobs else None)
  {
    hide Last, Kept;
    LastIsKept(history, FileStore.Recorded(history, head, input, stamp).1);
  }

  lemma PublicSays(c: FileStore.Checkpoint)
    ensures SaysOf(FileStore.PublicOf(c), c)
  {
  }

  lemma KeptEnds<T>(before: seq<T>, after: seq<T>, added: T)
    requires Kept(before, after, added)
    ensures after != [] && after[|after| - 1] == added
  {
  }

  /** All of a checkpoint but its blobs, of which only their presence is said. */
  predicate SaysOf(p: Public, c: FileStore.Checkpoint) {
    && p.id == c.id && p.time == c.time && p.origin == c.origin && p.author == c.author && p.title == c.title
    && p.version == c.version
    && (p.number.Some? <==> c.number.Some?) && (c.number.Some? ==> p.number == Some(Number(c.number.value)))
    && (p.hasBlobs <==> c.blobs.Some?)
  }

  // ---- format 1 ----

  /**
   An entry of format 1 is read whole, as number 0, exactly while its files have their hashes and it
   names its document.
   */
  lemma LegacyIsRead(sha: Hash, dir: FileStore.Dir, doc: string)
    requires dir.manifest.Some? && dir.manifest.value.Legacy?
    ensures var m, whole, head := dir.manifest.value, FileStore.ReadOf(sha, dir, doc, false), FileStore.ReadOf(sha, dir, doc, true);
      var there := dir.snapshot.Some? && m.snapshotSha == sha(dir.snapshot.value) && m.meta.docId == doc;
      var bundle := m.blobsSha == None || (dir.legacy.Some? && m.blobsSha == Some(sha(dir.legacy.value)));
      head == (if there then Head(m.meta, Number(0), None) else Nothing)
      && whole == if there && bundle
                  then Stored(m.meta, dir.snapshot.value, [], Number(0), None, true, if m.blobsSha.Some? then dir.legacy else None)
                  else Nothing
  {
  }
}
