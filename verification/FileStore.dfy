/**
 The document store kept as files (`e2e/helpers/desktopHost.ts`), format 2: `snapshot.bin`,
 `changes/<number>.bin`, `blobs/<hash>`, `history.json`, and the manifest `meta.json`. One
 directory holds one entry. A write is a list of file writes and removals, carried out one by
 one; the manifest comes after the files it names. Sizes in the manifest are never read back.
 */
module FileStore {
  import opened Options
  import opened Blobs
  import opened Documents

  datatype Change = Change(number: nat, sha: Bytes)

  /** Format 1 has one file of blobs and no numbers; it is only read. */
  datatype Manifest =
    | Legacy(meta: Meta, snapshotSha: Bytes, blobsSha: Option<Bytes>)
    | Current(meta: Meta, snapshotSha: Bytes, snapshotNumber: nat, changes: seq<Change>, head: nat, version: Option<string>, blobs: Option<BlobRecord>)

  datatype Checkpoint = Checkpoint(id: nat, time: int, origin: string, author: Option<string>, title: Option<string>,
                                   version: Option<string>, number: Option<nat>, blobs: Option<BlobRecord>)

  /** The files of one entry. A manifest that does not parse counts as absent, and so does such a history. */
  datatype Dir = Dir(manifest: Option<Manifest>, snapshot: Option<Bytes>, changes: map<nat, Bytes>, blobs: Files,
                     legacy: Option<Bytes>, history: seq<Checkpoint>)

  const BARE := Dir(None, None, map[], map[], None, [])

  // ---- one file operation ----

  datatype Op =
    | PutBlob(name: Bytes, data: Bytes)
    | PutChange(number: nat, data: Bytes)
    | PutSnapshot(data: Bytes)
    | PutManifest(manifest: Manifest)
    | PutHistory(history: seq<Checkpoint>)
    | RemoveChanges
    | RemoveLegacy
    | RemoveHistory
    | RemoveAll

  function Apply(dir: Dir, op: Op): Dir {
    match op
    case PutBlob(name, data) => dir.(blobs := dir.blobs[name := data])
    case PutChange(number, data) => dir.(changes := dir.changes[number := data])
    case PutSnapshot(data) => dir.(snapshot := Some(data))
    case PutManifest(manifest) => dir.(manifest := Some(manifest))
    case PutHistory(history) => dir.(history := history)
    case RemoveChanges => dir.(changes := map[])
    case RemoveLegacy => dir.(legacy := None)
    case RemoveHistory => dir.(history := [])
    case RemoveAll => BARE
  }

  function ApplyAll(dir: Dir, ops: seq<Op>): Dir
    decreases |ops|
  {
    if ops == [] then dir else ApplyAll(Apply(dir, ops[0]), ops[1..])
  }

  lemma {:induction false} ApplyAllAppend(dir: Dir, ops: seq<Op>, more: seq<Op>)
    ensures ApplyAll(dir, ops + more) == ApplyAll(ApplyAll(dir, ops), more)
    decreases |ops|
  {
    if ops == [] {
      assert ops + more == more;
    } else {
      assert (ops + more)[1..] == ops[1..] + more;
      ApplyAllAppend(Apply(dir, ops[0]), ops[1..], more);
    }
  }

  // ---- what a write does, as a list ----

  function BlobOps(sha: Hash, contents: seq<Bytes>): (r: seq<Op>)
    ensures |r| == |contents| && forall i :: 0 <= i < |r| ==> r[i] == PutBlob(sha(contents[i]), contents[i])
  {
    seq(|contents|, i requires 0 <= i < |contents| => PutBlob(sha(contents[i]), contents[i]))
  }

  function CurrentOf(dir: Dir): Option<Manifest> {
    if dir.manifest.Some? && dir.manifest.value.Current? then dir.manifest else None
  }

  predicate Refuses(dir: Dir, w: Write) {
    w.changes.Some? && (CurrentOf(dir) == None || w.baseSeq != Some(CurrentOf(dir).value.head))
  }

  /** The manifest a write puts. */
  function NextManifest(sha: Hash, dir: Dir, w: Write): (r: Manifest)
    requires w.meta.Some? && !Refuses(dir, w)
    ensures r.Current?
  {
    var blobs := if w.blobs.Some? then Some(RecordOf(sha, w.blobs.value)) else None;
    if w.changes.Some? then
      var m := CurrentOf(dir).value;
      m.(meta := w.meta.value, changes := m.changes + [Change(m.head + 1, sha(w.changes.value))], head := m.head + 1,
         version := w.version, blobs := if blobs.Some? then blobs else m.blobs)
    else
      var number := (if CurrentOf(dir).Some? then CurrentOf(dir).value.head else 0) + 1;
      Current(w.meta.value, sha(SnapshotOf(w)), number, [], number, w.version, blobs)
  }

  /** A snapshot that is not given is empty. */
  function SnapshotOf(w: Write): Bytes {
    if w.snapshot.Some? then w.snapshot.value else []
  }

  function FirstOps(sha: Hash, w: Write): seq<Op> {
    if w.blobs.Some? then BlobOps(sha, Contents(sha, w.blobs.value)) else []
  }

  /** The data files of an accepted write, before its manifest. */
  function DataOps(dir: Dir, w: Write): seq<Op>
    requires !Refuses(dir, w)
  {
    if w.changes.Some? then [PutChange(CurrentOf(dir).value.head + 1, w.changes.value)]
    else SnapshotOps(SnapshotOf(w), w.newLineage)
  }

  function SnapshotOps(snapshot: Bytes, newLineage: bool): seq<Op> {
    [PutSnapshot(snapshot), RemoveChanges, RemoveLegacy] + (if newLineage then [RemoveHistory] else [])
  }

  /** The history a write or a record puts, with what it answers; `None` for a version already recorded last. */
  function Recorded(history: seq<Checkpoint>, manifest: Option<Manifest>, input: Input,
                    stamp: Stamp): (r: (Option<seq<Checkpoint>>, Checkpoint))
    requires manifest.Some? ==> manifest.value.Current?
  {
    var version := VersionOf(input, if manifest.Some? then manifest.value.version else None);
    if history != [] && Truthy(version).Some? && history[|history| - 1].version == version then
      (None, history[|history| - 1])
    else
      var checkpoint := Checkpoint(stamp.id, if input.time.Some? then input.time.value else stamp.now, input.origin, input.author, input.title,
                                   Truthy(version), if manifest.Some? then Some(manifest.value.head) else None,
                                   if manifest.Some? then manifest.value.blobs else None);
      (Some(Last(history + [checkpoint])), checkpoint)
  }

  function PublicOf(c: Checkpoint): Public {
    Public(c.id, c.time, c.origin, c.author, c.title, c.version, if c.number == None then None else Some(Number(c.number.value)), c.blobs.Some?)
  }

  function PublicsOf(history: seq<Checkpoint>): (r: seq<Public>)
    ensures |r| == |history| && forall i :: 0 <= i < |r| ==> r[i] == PublicOf(history[i])
  {
    seq(|history|, i requires 0 <= i < |history| => PublicOf(history[i]))
  }

  /** The history of an entry when an accepted write has put its manifest. */
  function HistoryThen(dir: Dir, w: Write): seq<Checkpoint> {
    if w.changes == None && w.newLineage then [] else dir.history
  }

  function LastOps(sha: Hash, dir: Dir, w: Write, stamp: Stamp): seq<Op>
    requires w.meta.Some? && !Refuses(dir, w)
  {
    if w.checkpoint == None then []
    else
      var history := Recorded(HistoryThen(dir, w), Some(NextManifest(sha, dir, w)), w.checkpoint.value, stamp).0;
      if history == None then [] else [PutHistory(history.value)]
  }

  /** The blobs that are there have no part in what else a write does. */
  lemma BlobsDoNotMatter(sha: Hash, dir: Dir, dir': Dir, w: Write)
    requires dir' == dir.(blobs := dir'.blobs) && w.meta.Some?
    ensures (Refuses(dir', w) <==> Refuses(dir, w)) && HistoryThen(dir', w) == HistoryThen(dir, w)
    ensures !Refuses(dir, w) ==>
      DataOps(dir', w) == DataOps(dir, w) && NextManifest(sha, dir', w) == NextManifest(sha, dir, w)
  {
  }

  lemma RefusesIs(dir: Dir, w: Write)
    ensures Refuses(dir, w)
      <==> w.changes.Some? && (CurrentOf(dir) == None || w.baseSeq != Some(CurrentOf(dir).value.head))
  {
  }

  /** Every file operation of a write that names its own document. */
  function Plan(sha: Hash, dir: Dir, w: Write, stamp: Stamp): seq<Op>
    requires NamesItself(w)
  {
    if Refuses(dir, w) then FirstOps(sha, w)
    else FirstOps(sha, w) + DataOps(dir, w) + [PutManifest(NextManifest(sha, dir, w))] + LastOps(sha, dir, w, stamp)
  }

  lemma PlanInTwo(sha: Hash, dir: Dir, w: Write, stamp: Stamp)
    requires NamesItself(w) && !Refuses(dir, w)
    ensures Plan(sha, dir, w, stamp)
      == FirstOps(sha, w) + DataOps(dir, w) + ([PutManifest(NextManifest(sha, dir, w))] + LastOps(sha, dir, w, stamp))
  {
    hide FirstOps, DataOps, NextManifest, LastOps, Refuses;
  }

  function WriteAnswer(sha: Hash, dir: Dir, w: Write, stamp: Stamp): Answer {
    if !NamesItself(w) then Refused(OtherDocument)
    else if Refuses(dir, w) then Refused(Conflict)
    else
      var m := NextManifest(sha, dir, w);
      Written(Number(m.head), m.version, |m.changes| >= 64,
              if w.checkpoint == None then None
              else Some(PublicOf(Recorded(HistoryThen(dir, w), Some(m), w.checkpoint.value, stamp).1)))
  }

  /** The file operations of any call. */
  function Ops(sha: Hash, dir: Dir, call: Call, stamp: Stamp): seq<Op> {
    match call
    case WriteStore(w) => if NamesItself(w) then Plan(sha, dir, w, stamp) else []
    case RecordCheckpoint(_, input) =>
      var history := Recorded(dir.history, CurrentOf(dir), input, stamp).0;
      if history == None then [] else [PutHistory(history.value)]
    case DeleteStore(_) => [RemoveAll]
    case _ => []
  }

  // ---- reading ----

  /** The changes the manifest lists, up to the first that is missing or has another hash. */
  function Verified(sha: Hash, files: map<nat, Bytes>, changes: seq<Change>): (r: seq<Bytes>)
    ensures |r| <= |changes|
  {
    if changes == [] || changes[0].number !in files || sha(files[changes[0].number]) != changes[0].sha then []
    else [files[changes[0].number]] + Verified(sha, files, changes[1..])
  }

  lemma VerifiedNext(sha: Hash, files: map<nat, Bytes>, records: seq<Change>, changes: seq<Bytes>)
    requires records != []
    ensures changes + Verified(sha, files, records) ==
      if records[0].number !in files || sha(files[records[0].number]) != records[0].sha then changes
      else changes + [files[records[0].number]] + Verified(sha, files, records[1..])
  {
  }

  function ReadOf(sha: Hash, dir: Dir, doc: string, headOnly: bool): Answer {
    if dir.manifest == None || dir.snapshot == None then Nothing
    else
      var m, snapshot := dir.manifest.value, dir.snapshot.value;
      if m.snapshotSha != sha(snapshot) || m.meta.docId != doc then Nothing
      else if headOnly then if m.Legacy? then Head(m.meta, Number(0), None) else Head(m.meta, Number(m.head), m.version)
      else if m.Legacy? then
        if m.blobsSha.Some? && (dir.legacy == None || m.blobsSha.value != sha(dir.legacy.value)) then Nothing
        else Stored(m.meta, snapshot, [], Number(0), None, true, if m.blobsSha.Some? then dir.legacy else None)
      else
        var changes := Verified(sha, dir.changes, m.changes);
        if |changes| < |m.changes| then
          Stored(m.meta, snapshot, changes, Number(m.snapshotNumber + |changes|), None, false, None)
        else
          var bundle := if m.blobs.Some? then Blobs.Read(sha, dir.blobs, m.blobs.value) else None;
          Stored(m.meta, snapshot, changes, Number(m.head), m.version, m.blobs.Some? ==> bundle.Some?, bundle)
  }

  function Find(history: seq<Checkpoint>, id: nat): Option<Checkpoint> {
    if history == [] then None else if history[0].id == id then Some(history[0]) else Find(history[1..], id)
  }

  /** What a call whose root and id are valid answers. */
  function AnswerOf(sha: Hash, dir: Dir, call: Call, stamp: Stamp): Answer {
    match call
    case ReadStore(doc, headOnly) => ReadOf(sha, dir, doc, headOnly)
    case WriteStore(w) => WriteAnswer(sha, dir, w, stamp)
    case ReadHistory(_) => Checkpoints(Reversed(PublicsOf(dir.history)))
    case RecordCheckpoint(_, input) => One(PublicOf(Recorded(dir.history, CurrentOf(dir), input, stamp).1), None)
    case ReadCheckpoint(_, id) =>
      var found := Find(dir.history, id);
      if found == None then Nothing
      else One(PublicOf(found.value), if found.value.blobs.Some? then Blobs.Read(sha, dir.blobs, found.value.blobs.value) else None)
    case DeleteStore(_) => Nothing
  }

  // ---- the whole store ----

  type Dirs = map<string, Dir>

  function DirOf(dirs: Dirs, name: string): Dir {
    if name in dirs then dirs[name] else BARE
  }

  function PutOps(dirs: Dirs, name: string, ops: seq<Op>): (r: Dirs)
    ensures DirOf(r, name) == ApplyAll(DirOf(dirs, name), ops)
    ensures forall other :: other != name ==> DirOf(r, other) == DirOf(dirs, other)
  {
    if ops == [] then dirs else dirs[name := ApplyAll(DirOf(dirs, name), ops)]
  }

  lemma PutOpsAppend(dirs: Dirs, name: string, ops: seq<Op>, more: seq<Op>)
    ensures PutOps(PutOps(dirs, name, ops), name, more) == PutOps(dirs, name, ops + more)
  {
    ApplyAllAppend(DirOf(dirs, name), ops, more);
    assert ops == [] ==> ops + more == more;
    assert more == [] ==> ops + more == ops;
  }

  function Step(sha: Hash, active: string, dirs: Dirs, expected: string, call: Call, stamp: Stamp): (Dirs, Answer) {
    var error := Checked(active, expected, DocOf(call));
    if error.Some? then (dirs, Refused(error.value))
    else
      var name := DirName(DocOf(call));
      var dir := DirOf(dirs, name);
      (PutOps(dirs, name, Ops(sha, dir, call, stamp)), AnswerOf(sha, dir, call, stamp))
  }

  /** Storing blobs touches nothing but `blobs/`. */
  lemma {:induction false} BlobOpsPut(sha: Hash, dir: Dir, contents: seq<Bytes>)
    ensures ApplyAll(dir, BlobOps(sha, contents)) == dir.(blobs := PutAll(sha, dir.blobs, contents))
    decreases |contents|
  {
    if contents != [] {
      assert BlobOps(sha, contents)[1..] == BlobOps(sha, contents[1..]);
      BlobOpsPut(sha, Apply(dir, PutBlob(sha(contents[0]), contents[0])), contents[1..]);
    }
  }

  lemma ApplyOne(dir: Dir, op: Op)
    ensures ApplyAll(dir, [op]) == Apply(dir, op)
  {
    assert [op][1..] == [];
  }

  lemma ApplyThree(dir: Dir, a: Op, b: Op, c: Op)
    ensures ApplyAll(dir, [a, b, c]) == Apply(Apply(Apply(dir, a), b), c)
  {
    hide Apply;
    assert [a, b, c][1..] == [b, c] && [b, c][1..] == [c];
    ApplyOne(Apply(Apply(dir, a), b), c);
    assert ApplyAll(Apply(dir, a), [b, c]) == ApplyAll(Apply(Apply(dir, a), b), [c]);
  }

  lemma DataOpsPut(dir: Dir, w: Write)
    requires !Refuses(dir, w)
    ensures ApplyAll(dir, DataOps(dir, w)) ==
      if w.changes.Some? then dir.(changes := dir.changes[CurrentOf(dir).value.head + 1 := w.changes.value])
      else dir.(snapshot := Some(SnapshotOf(w)), changes := map[], legacy := None, history := HistoryThen(dir, w))
  {
    hide ApplyAll;
    if w.changes.Some? {
      ApplyOne(dir, DataOps(dir, w)[0]);
    } else {
      var three := [PutSnapshot(SnapshotOf(w)), RemoveChanges, RemoveLegacy];
      ApplyThree(dir, PutSnapshot(SnapshotOf(w)), RemoveChanges, RemoveLegacy);
      if w.newLineage {
        ApplyAllAppend(dir, three, [RemoveHistory]);
        ApplyOne(ApplyAll(dir, three), RemoveHistory);
      } else {
        assert three + [] == three;
      }
    }
  }

  // ---- the handlers, one file operation at a time ----

  class Store {
    const root: string
    const sha: Hash
    var dirs: Dirs

    constructor (root: string, sha: Hash)
      ensures this.root == root && this.sha == sha && dirs == map[]
    {
      this.root, this.sha, dirs := root, sha, map[];
    }

    /** One file written or removed. */
    method Do(name: string, op: Op)
      modifies this`dirs
      ensures dirs == PutOps(old(dirs), name, [op]) && DirOf(dirs, name) == Apply(DirOf(old(dirs), name), op)
    {
      ApplyOne(DirOf(dirs, name), op);
      dirs := dirs[name := Apply(DirOf(dirs, name), op)];
    }

    method StoreBlobs(name: string, bundle: Bytes) returns (record: BlobRecord)
      requires IsHash(sha)
      modifies this`dirs
      ensures dirs == PutOps(old(dirs), name, BlobOps(sha, Contents(sha, bundle))) && record == RecordOf(sha, bundle)
    {
      hide Parsed, Apply;
      var whole, blobs := Parse(sha, bundle);
      if whole {
        Do(name, PutBlob(sha(bundle), bundle));
        assert BlobOps(sha, Contents(sha, bundle)) == [PutBlob(sha(bundle), bundle)];
        return Whole(sha(bundle));
      }
      var names: seq<Bytes> := [];
      ghost var ops := BlobOps(sha, Contents(sha, bundle));
      var i := 0;
      while i < |blobs|
        invariant 0 <= i <= |blobs| == |ops| && |names| == i
        invariant dirs == PutOps(old(dirs), name, ops[..i])
        invariant forall j :: 0 <= j < i ==> names[j] == blobs[j].0
      {
        ghost var before := dirs;
        Do(name, PutBlob(blobs[i].0, blobs[i].1));
        PutOpsAppend(old(dirs), name, ops[..i], [ops[i]]);
        assert ops[..i] + [ops[i]] == ops[..i + 1];
        names := names + [blobs[i].0];
        i := i + 1;
      }
      assert ops[..i] == ops;
      assert names == Names(sha, Contents(sha, bundle));
      return Parts(names);
    }

    /** `recordCheckpoint`. */
    method RecordAt(name: string, input: Input, manifest: Option<Manifest>,
                    stamp: Stamp) returns (checkpoint: Checkpoint, ghost ops: seq<Op>)
      requires manifest.Some? ==> manifest.value.Current?
      modifies this`dirs
      ensures var r := Recorded(DirOf(old(dirs), name).history, manifest, input, stamp);
        checkpoint == r.1 && ops == (if r.0 == None then [] else [PutHistory(r.0.value)]) && dirs == PutOps(old(dirs), name, ops)
    {
      hide Last;
      ops := [];
      var history := DirOf(dirs, name).history;
      var version := if input.version.Some? then input.version else if manifest.Some? then manifest.value.version else None;
      if history != [] && Truthy(version).Some? && history[|history| - 1].version == version {
        return history[|history| - 1], ops;
      }
      var time := if input.time.Some? then input.time.value else stamp.now;
      var number := if manifest.Some? then Some(manifest.value.head) else None;
      var blobs := if manifest.Some? then manifest.value.blobs else None;
      checkpoint := Checkpoint(stamp.id, time, input.origin, input.author, input.title, Truthy(version), number, blobs);
      ops := [PutHistory(Last(history + [checkpoint]))];
      Do(name, PutHistory(Last(history + [checkpoint])));
    }

    method WriteDocumentStore(expected: string, w: Write, stamp: Stamp) returns (answer: Answer)
      requires IsHash(sha)
      modifies this`dirs
      ensures (dirs, answer) == Step(sha, root, old(dirs), expected, WriteStore(w), stamp)
    {
      var error := Checked(root, expected, w.doc);
      if error.Some? { return Refused(error.value); }
      if !NamesItself(w) { return Refused(OtherDocument); }
      answer := WriteEntry(DirName(w.doc), w, stamp);
    }

    method WriteEntry(name: string, w: Write, stamp: Stamp) returns (answer: Answer)
      requires IsHash(sha) && NamesItself(w)
      modifies this`dirs
      ensures dirs == PutOps(old(dirs), name, Plan(sha, DirOf(old(dirs), name), w, stamp))
      ensures answer == WriteAnswer(sha, DirOf(old(dirs), name), w, stamp)
    {
      hide FirstOps, RecordOf, Recorded, Apply, PutOps, PublicOf, ApplyAll, NextManifest, DataOps, HistoryThen, Refuses;
      ghost var dir := DirOf(dirs, name);
      var manifest := CurrentOf(DirOf(dirs, name));
      var blobs := PutBlobs(name, w);
      BlobsDoNotMatter(sha, dir, DirOf(dirs, name), w);
      RefusesIs(dir, w);
      if w.changes.Some? && (manifest == None || w.baseSeq != Some(manifest.value.head)) { return Refused(Conflict); }
      var next := PutData(name, w, manifest, blobs);
      ghost var before := FirstOps(sha, w) + DataOps(dir, w);
      PutOpsAppend(old(dirs), name, FirstOps(sha, w), DataOps(dir, w));
      ghost var last := [PutManifest(next)] + LastOps(sha, dir, w, stamp);
      answer := PutNext(name, w, next, stamp);
      PutOpsAppend(old(dirs), name, before, last);
      PlanInTwo(sha, dir, w, stamp);
    }

    /** The blobs of a write come first, whether or not it is accepted. */
    method PutBlobs(name: string, w: Write) returns (blobs: Option<BlobRecord>)
      requires IsHash(sha)
      modifies this`dirs
      ensures dirs == PutOps(old(dirs), name, FirstOps(sha, w))
      ensures blobs == if w.blobs.Some? then Some(RecordOf(sha, w.blobs.value)) else None
      ensures DirOf(dirs, name) == DirOf(old(dirs), name).(blobs := DirOf(dirs, name).blobs)
    {
      hide Contents, RecordOf, Apply;
      blobs := None;
      if w.blobs.Some? {
        var record := StoreBlobs(name, w.blobs.value);
        blobs := Some(record);
        BlobOpsPut(sha, DirOf(old(dirs), name), Contents(sha, w.blobs.value));
      }
    }

    /** The manifest of an accepted write, then its checkpoint. */
    method PutNext(name: string, w: Write, next: Manifest, stamp: Stamp) returns (answer: Answer)
      requires next.Current?
      modifies this`dirs
      ensures var recorded := if w.checkpoint == None then None else Some(Recorded(DirOf(old(dirs), name).history, Some(next), w.checkpoint.value, stamp));
        answer == Written(Number(next.head), next.version, |next.changes| >= 64, if recorded == None then None else Some(PublicOf(recorded.value.1)))
        && dirs == PutOps(old(dirs), name, [PutManifest(next)]
                     + (if recorded == None || recorded.value.0 == None then [] else [PutHistory(recorded.value.0.value)]))
    {
      hide Recorded, ApplyAll;
      Do(name, PutManifest(next));
      answer := Written(Number(next.head), next.version, |next.changes| >= 64, None);
      ghost var last: seq<Op> := [];
      if w.checkpoint.Some? {
        var checkpoint;
        checkpoint, last := RecordAt(name, w.checkpoint.value, Some(next), stamp);
        answer := answer.(recorded := Some(PublicOf(checkpoint)));
      }
      PutOpsAppend(old(dirs), name, [PutManifest(next)], last);
    }

    /** The data files of an accepted write, and the manifest to put after them. */
    method PutData(name: string, w: Write, manifest: Option<Manifest>,
                   blobs: Option<BlobRecord>) returns (next: Manifest)
      requires w.meta.Some? && manifest == CurrentOf(DirOf(dirs, name)) && !Refuses(DirOf(dirs, name), w)
      requires blobs == if w.blobs.Some? then Some(RecordOf(sha, w.blobs.value)) else None
      modifies this`dirs
      ensures dirs == PutOps(old(dirs), name, DataOps(DirOf(old(dirs), name), w))
      ensures next == NextManifest(sha, DirOf(old(dirs), name), w)
      ensures DirOf(dirs, name).history == HistoryThen(DirOf(old(dirs), name), w)
    {
      hide RecordOf, ApplyAll;
      DataOpsPut(DirOf(dirs, name), w);
      if w.changes.Some? {
        var number := manifest.value.head + 1;
        Do(name, PutChange(number, w.changes.value));
        next := manifest.value.(meta := w.meta.value, changes := manifest.value.changes + [Change(number, sha(w.changes.value))],
                                head := number, version := w.version);
        if blobs.Some? { next := next.(blobs := blobs); }
      } else {
        var number := (if manifest.Some? then manifest.value.head else 0) + 1;
        ReplaceSnapshot(name, SnapshotOf(w), w.newLineage);
        next := Current(w.meta.value, sha(SnapshotOf(w)), number, [], number, w.version, blobs);
      }
    }

    method ReplaceSnapshot(name: string, snapshot: Bytes, newLineage: bool)
      modifies this`dirs
      ensures dirs == PutOps(old(dirs), name, SnapshotOps(snapshot, newLineage))
    {
      hide Apply, ApplyAll;
      ghost var three := [PutSnapshot(snapshot), RemoveChanges, RemoveLegacy];
      Do(name, PutSnapshot(snapshot));
      Do(name, RemoveChanges);
      PutOpsAppend(old(dirs), name, [PutSnapshot(snapshot)], [RemoveChanges]);
      assert [PutSnapshot(snapshot)] + [RemoveChanges] == [PutSnapshot(snapshot), RemoveChanges];
      Do(name, RemoveLegacy);
      PutOpsAppend(old(dirs), name, [PutSnapshot(snapshot), RemoveChanges], [RemoveLegacy]);
      assert [PutSnapshot(snapshot), RemoveChanges] + [RemoveLegacy] == three;
      ghost var tail: seq<Op> := if newLineage then [RemoveHistory] else [];
      if newLineage { Do(name, RemoveHistory); }
      PutOpsAppend(old(dirs), name, three, tail);
      assert three + tail == SnapshotOps(snapshot, newLineage);
    }

    method ReadDocumentStore(expected: string, doc: string, headOnly: bool, stamp: Stamp) returns (answer: Answer)
      ensures (dirs, answer) == Step(sha, root, dirs, expected, ReadStore(doc, headOnly), stamp)
    {
      var error := Checked(root, expected, doc);
      if error.Some? { return Refused(error.value); }
      var dir := DirOf(dirs, DirName(doc));
      if dir.manifest == None || dir.snapshot == None { return Nothing; }
      var m, snapshot := dir.manifest.value, dir.snapshot.value;
      if m.snapshotSha != sha(snapshot) || m.meta.docId != doc { return Nothing; }
      if headOnly {
        return if m.Legacy? then Head(m.meta, Number(0), None) else Head(m.meta, Number(m.head), m.version);
      }
      if m.Legacy? {
        if m.blobsSha.Some? && (dir.legacy == None || m.blobsSha.value != sha(dir.legacy.value)) { return Nothing; }
        return Stored(m.meta, snapshot, [], Number(0), None, true, if m.blobsSha.Some? then dir.legacy else None);
      }
      var whole, changes := ReadChanges(dir.changes, m.changes);
      if !whole { return Stored(m.meta, snapshot, changes, Number(m.snapshotNumber + |changes|), None, false, None); }
      var bundle: Option<Bytes> := None;
      if m.blobs.Some? { bundle := ReadBlobs(sha, dir.blobs, m.blobs.value); }
      return Stored(m.meta, snapshot, changes, Number(m.head), m.version, m.blobs.Some? ==> bundle.Some?, bundle);
    }

    method ReadChanges(files: map<nat, Bytes>, records: seq<Change>) returns (whole: bool, changes: seq<Bytes>)
      ensures changes == Verified(sha, files, records) && (whole <==> |changes| == |records|)
    {
      changes := [];
      var i := 0;
      assert records[0..] == records;
      assert [] + Verified(sha, files, records) == Verified(sha, files, records);
      while i < |records|
        invariant 0 <= i <= |records| && |changes| == i
        invariant changes + Verified(sha, files, records[i..]) == Verified(sha, files, records)
      {
        var record := records[i];
        VerifiedNext(sha, files, records[i..], changes);
        assert records[i..][1..] == records[i + 1..];
        if record.number !in files || sha(files[record.number]) != record.sha {
          return false, changes;
        }
        changes := changes + [files[record.number]];
        i := i + 1;
      }
      assert changes + [] == changes;
      return true, changes;
    }

    method ReadDocumentHistory(expected: string, doc: string, stamp: Stamp) returns (answer: Answer)
      ensures (dirs, answer) == Step(sha, root, dirs, expected, ReadHistory(doc), stamp)
    {
      var error := Checked(root, expected, doc);
      if error.Some? { return Refused(error.value); }
      return Checkpoints(Reversed(PublicsOf(DirOf(dirs, DirName(doc)).history)));
    }

    method RecordDocumentCheckpoint(expected: string, doc: string, input: Input, stamp: Stamp) returns (answer: Answer)
      modifies this`dirs
      ensures (dirs, answer) == Step(sha, root, old(dirs), expected, RecordCheckpoint(doc, input), stamp)
    {
      hide Recorded;
      var error := Checked(root, expected, doc);
      if error.Some? { return Refused(error.value); }
      var manifest := CurrentOf(DirOf(dirs, DirName(doc)));
      var checkpoint, ops := RecordAt(DirName(doc), input, manifest, stamp);
      return One(PublicOf(checkpoint), None);
    }

    method ReadDocumentCheckpoint(expected: string, doc: string, id: nat, stamp: Stamp) returns (answer: Answer)
      ensures (dirs, answer) == Step(sha, root, dirs, expected, ReadCheckpoint(doc, id), stamp)
    {
      var error := Checked(root, expected, doc);
      if error.Some? { return Refused(error.value); }
      var dir := DirOf(dirs, DirName(doc));
      var found := Find(dir.history, id);
      if found == None { return Nothing; }
      var bundle: Option<Bytes> := None;
      if found.value.blobs.Some? { bundle := ReadBlobs(sha, dir.blobs, found.value.blobs.value); }
      return One(PublicOf(found.value), bundle);
    }

    method DeleteDocumentStore(expected: string, doc: string, stamp: Stamp) returns (answer: Answer)
      modifies this`dirs
      ensures (dirs, answer) == Step(sha, root, old(dirs), expected, DeleteStore(doc), stamp)
    {
      var error := Checked(root, expected, doc);
      if error.Some? { return Refused(error.value); }
      Do(DirName(doc), RemoveAll);
      return Nothing;
    }
  }
}
