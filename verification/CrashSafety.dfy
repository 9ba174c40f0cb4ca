/**
 What the files of an entry hold after any run of calls, each of which may be cut off between
 two of its file operations, or inside the removal of a directory. The hash is taken to be
 free of collisions among the contents that the run writes.
 */
module CrashSafety {
  import opened Options
  import opened Blobs
  import opened Documents
  import opened FileStore
  import LogRuns

  /** A call that ran to its end, or one cut off after `at` operations with the files `left`. */
  datatype Event =
    | Done(call: Call, stamp: Stamp)
    | Cut(call: Call, stamp: Stamp, at: nat, left: Dir)

  /** Part of a removal has been done: some of the files are gone, none has changed. */
  ghost predicate PartlyRemoved(dir: Dir, op: Op, left: Dir) {
    match op
    case RemoveChanges => left == dir.(changes := left.changes) && forall n :: n in left.changes ==> n in dir.changes && left.changes[n] == dir.changes[n]
    case RemoveAll =>
      && (left.manifest == None || left.manifest == dir.manifest)
      && (left.snapshot == None || left.snapshot == dir.snapshot)
      && (left.legacy == None || left.legacy == dir.legacy)
      && (left.history == [] || left.history == dir.history)
      && (forall n :: n in left.changes ==> n in dir.changes && left.changes[n] == dir.changes[n])
      && Kept(left.blobs, dir.blobs)
    case _ => left == dir
  }

  ghost predicate Possible(sha: Hash, dir: Dir, e: Event) {
    e.Cut? ==>
      var ops := Ops(sha, dir, e.call, e.stamp);
      e.at < |ops| && PartlyRemoved(ApplyAll(dir, ops[..e.at]), ops[e.at], e.left)
  }

  function After(sha: Hash, dir: Dir, e: Event): Dir {
    if e.Cut? then e.left else ApplyAll(dir, Ops(sha, dir, e.call, e.stamp))
  }

  /** Whether the call took effect: its manifest was put, or removed. */
  predicate TookEffect(sha: Hash, dir: Dir, e: Event) {
    e.Done?
    || (e.call.WriteStore? && NamesItself(e.call.write) && !Refuses(dir, e.call.write)
        && e.at > |FirstOps(sha, e.call.write)| + |DataOps(dir, e.call.write)|)
    || (e.call.DeleteStore? && e.left.manifest == None)
  }

  /** A call cut off either took effect on the log of its entry or left it. */
  function LogAfter(sha: Hash, dir: Dir, log: Option<Log>, e: Event): Option<Log> {
    if TookEffect(sha, dir, e) then Served(log, e.call) else log
  }

  ghost predicate Runs(sha: Hash, dir: Dir, events: seq<Event>)
    decreases |events|
  {
    events == [] || (Possible(sha, dir, events[0]) && Runs(sha, After(sha, dir, events[0]), events[1..]))
  }

  function DirAfter(sha: Hash, dir: Dir, events: seq<Event>): Dir
    decreases |events|
  {
    if events == [] then dir else DirAfter(sha, After(sha, dir, events[0]), events[1..])
  }

  function LogAfterAll(sha: Hash, dir: Dir, log: Option<Log>, events: seq<Event>): Option<Log>
    decreases |events|
  {
    if events == [] then log
    else LogAfterAll(sha, After(sha, dir, events[0]), LogAfter(sha, dir, log, events[0]), events[1..])
  }

  // ---- the manifest describes the log ----

  /** Change `i` has the number of the snapshot plus `i + 1`, and the head is the number of the last one. */
  ghost predicate Describes(sha: Hash, m: Manifest, l: Log) {
    && m.Current? && m.meta == l.meta && m.version == l.version
    && m.snapshotSha == sha(l.snapshot) && m.snapshotNumber == l.first
    && |m.changes| == |l.changes| && m.head == l.first + |l.changes|
    && (forall i :: 0 <= i < |m.changes| ==> m.changes[i] == Change(l.first + i + 1, sha(l.changes[i])))
    && m.blobs == if l.blobs == None then None else Some(RecordOf(sha, l.blobs.value))
  }

  ghost predicate Commits(sha: Hash, manifest: Option<Manifest>, log: Option<Log>) {
    if log == None then manifest == None else manifest.Some? && Describes(sha, manifest.value, log.value)
  }

  ghost predicate LogIn(sha: Hash, log: Option<Log>, all: set<Bytes>) {
    log.Some? ==>
      && log.value.snapshot in all && (forall c :: c in log.value.changes ==> c in all)
      && (log.value.blobs.Some? ==> forall c :: c in Contents(sha, log.value.blobs.value) ==> c in all)
  }

  ghost predicate FilesIn(sha: Hash, dir: Dir, all: set<Bytes>) {
    && (dir.snapshot.Some? ==> dir.snapshot.value in all)
    && (forall n :: n in dir.changes ==> dir.changes[n] in all)
    && WellNamed(sha, dir.blobs, all)
  }

  /** What holds whatever was cut off. */
  ghost predicate Inv(sha: Hash, all: set<Bytes>, dir: Dir, log: Option<Log>) {
    Commits(sha, dir.manifest, log) && LogIn(sha, log, all) && FilesIn(sha, dir, all)
  }

  ghost predicate WritesIn(sha: Hash, w: Write, all: set<Bytes>) {
    && (w.changes.Some? ==> w.changes.value in all) && (w.changes == None ==> SnapshotOf(w) in all)
    && (w.blobs.Some? ==> forall c :: c in Contents(sha, w.blobs.value) ==> c in all)
  }

  ghost predicate CallIn(sha: Hash, call: Call, all: set<Bytes>) {
    call.WriteStore? ==> WritesIn(sha, call.write, all)
  }

  // ---- every operation but the manifest's keeps the log ----

  ghost predicate Ordinary(sha: Hash, op: Op, all: set<Bytes>) {
    match op
    case PutBlob(name, data) => name == sha(data) && data in all
    case PutChange(_, data) => data in all
    case PutSnapshot(data) => data in all
    case PutManifest(_) => false
    case RemoveAll => false
    case _ => true
  }

  ghost predicate AllOrdinary(sha: Hash, ops: seq<Op>, all: set<Bytes>) {
    forall op :: op in ops ==> Ordinary(sha, op, all)
  }

  lemma {:induction false} OrdinaryKeepsInv(sha: Hash, all: set<Bytes>, dir: Dir, log: Option<Log>, ops: seq<Op>)
    requires Inv(sha, all, dir, log) && AllOrdinary(sha, ops, all)
    ensures Inv(sha, all, ApplyAll(dir, ops), log) && ApplyAll(dir, ops).manifest == dir.manifest
    decreases |ops|
  {
    hide Commits, LogIn;
    if ops != [] {
      assert Ordinary(sha, ops[0], all);
      OrdinaryKeepsInv(sha, all, Apply(dir, ops[0]), log, ops[1..]);
    }
  }

  lemma WriteOpsAreOrdinary(sha: Hash, all: set<Bytes>, dir: Dir, w: Write)
    requires WritesIn(sha, w, all)
    ensures AllOrdinary(sha, FirstOps(sha, w), all)
    ensures !Refuses(dir, w) ==> AllOrdinary(sha, DataOps(dir, w), all)
  {
    hide Contents;
    forall op | op in FirstOps(sha, w) ensures Ordinary(sha, op, all) {
      var contents := Contents(sha, w.blobs.value);
      var i :| 0 <= i < |contents| && op == BlobOps(sha, contents)[i];
    }
  }

  /** The new manifest describes the new log. */
  lemma NextDescribes(sha: Hash, dir: Dir, log: Option<Log>, w: Write)
    requires Commits(sha, dir.manifest, log) && NamesItself(w)
    ensures Refuses(dir, w) <==> !Accepts(log, w)
    ensures !Refuses(dir, w) ==> Describes(sha, NextManifest(sha, dir, w), Appended(log, w))
  {
    hide RecordOf;
    if w.changes.Some? && !Refuses(dir, w) {
      assert dir.manifest.value.head == log.value.first + |log.value.changes|;
    }
  }

  lemma AppendedIn(sha: Hash, all: set<Bytes>, log: Option<Log>, w: Write)
    requires LogIn(sha, log, all) && WritesIn(sha, w, all) && NamesItself(w) && Accepts(log, w)
    ensures LogIn(sha, Some(Appended(log, w)), all)
  {
    hide Contents;
  }

  /** Where a write was cut off: in its blobs, in its data files, or after its manifest. */
  lemma PlanPrefix(sha: Hash, dir: Dir, w: Write, stamp: Stamp, at: nat)
    requires NamesItself(w) && !Refuses(dir, w) && at <= |Plan(sha, dir, w, stamp)|
    ensures var first, data, ops := FirstOps(sha, w), DataOps(dir, w), Plan(sha, dir, w, stamp);
      ApplyAll(dir, ops[..at]) ==
        if at <= |first| then ApplyAll(dir, first[..at])
        else if at <= |first| + |data| then ApplyAll(ApplyAll(dir, first), data[..at - |first|])
        else ApplyAll(Apply(ApplyAll(ApplyAll(dir, first), data), PutManifest(NextManifest(sha, dir, w))),
                      LastOps(sha, dir, w, stamp)[..at - |first| - |data| - 1])
  {
    hide FirstOps, DataOps, NextManifest, LastOps, Refuses, Apply;
    var first, data, manifest, last := FirstOps(sha, w), DataOps(dir, w), [PutManifest(NextManifest(sha, dir, w))], LastOps(sha, dir, w, stamp);
    var ops := first + data + manifest + last;
    if at <= |first| {
      assert ops[..at] == first[..at];
    } else if at <= |first| + |data| {
      assert ops[..at] == first + data[..at - |first|];
      ApplyAllAppend(dir, first, data[..at - |first|]);
    } else {
      var k := at - |first| - |data| - 1;
      assert ops[..at] == first + (data + (manifest + last[..k]));
      ApplyAllAppend(dir, first, data + (manifest + last[..k]));
      ApplyAllAppend(ApplyAll(dir, first), data, manifest + last[..k]);
      ApplyAllAppend(ApplyAll(ApplyAll(dir, first), data), manifest, last[..k]);
      ApplyOne(ApplyAll(ApplyAll(dir, first), data), PutManifest(NextManifest(sha, dir, w)));
    }
  }

  /** The log after the first `at` operations of a write. */
  function LogAt(sha: Hash, dir: Dir, log: Option<Log>, w: Write, at: nat): Option<Log>
    requires NamesItself(w)
  {
    if !Refuses(dir, w) && Accepts(log, w) && at > |FirstOps(sha, w)| + |DataOps(dir, w)| then Some(Appended(log, w))
    else log
  }

  lemma PrefixIsOrdinary(sha: Hash, all: set<Bytes>, ops: seq<Op>, at: nat)
    requires AllOrdinary(sha, ops, all) && at <= |ops|
    ensures AllOrdinary(sha, ops[..at], all)
  {
  }

  lemma WriteKeepsInv(sha: Hash, all: set<Bytes>, dir: Dir, log: Option<Log>, w: Write, stamp: Stamp, at: nat)
    requires Inv(sha, all, dir, log) && WritesIn(sha, w, all) && NamesItself(w) && at <= |Plan(sha, dir, w, stamp)|
    ensures Inv(sha, all, ApplyAll(dir, Plan(sha, dir, w, stamp)[..at]), LogAt(sha, dir, log, w, at))
  {
    hide Describes, LogIn, FilesIn, NextManifest, Apply;
    WriteOpsAreOrdinary(sha, all, dir, w);
    NextDescribes(sha, dir, log, w);
    var first := FirstOps(sha, w);
    if Refuses(dir, w) {
      PrefixIsOrdinary(sha, all, first, at);
      OrdinaryKeepsInv(sha, all, dir, log, first[..at]);
    } else {
      PlanPrefix(sha, dir, w, stamp, at);
      WriteKeepsInvInParts(sha, all, dir, log, w, stamp, at);
    }
  }

  lemma WriteKeepsInvInParts(sha: Hash, all: set<Bytes>, dir: Dir, log: Option<Log>, w: Write, stamp: Stamp, at: nat)
    requires Inv(sha, all, dir, log) && WritesIn(sha, w, all) && NamesItself(w) && !Refuses(dir, w) && Accepts(log, w)
    requires at <= |Plan(sha, dir, w, stamp)|
    ensures var first, data := FirstOps(sha, w), DataOps(dir, w);
      if at <= |first| then Inv(sha, all, ApplyAll(dir, first[..at]), log)
      else if at <= |first| + |data| then Inv(sha, all, ApplyAll(ApplyAll(dir, first), data[..at - |first|]), log)
      else Inv(sha, all, ApplyAll(Apply(ApplyAll(ApplyAll(dir, first), data), PutManifest(NextManifest(sha, dir, w))),
                                  LastOps(sha, dir, w, stamp)[..at - |first| - |data| - 1]), Some(Appended(log, w)))
  {
    hide Describes, LogIn, FilesIn, NextManifest, FirstOps, DataOps, Appended, Recorded;
    var first, data := FirstOps(sha, w), DataOps(dir, w);
    WriteOpsAreOrdinary(sha, all, dir, w);
    OrdinaryKeepsInv(sha, all, dir, log, first);
    var dir1 := ApplyAll(dir, first);
    if at <= |first| {
      PrefixIsOrdinary(sha, all, first, at);
      OrdinaryKeepsInv(sha, all, dir, log, first[..at]);
    } else if at <= |first| + |data| {
      PrefixIsOrdinary(sha, all, data, at - |first|);
      OrdinaryKeepsInv(sha, all, dir1, log, data[..at - |first|]);
    } else {
      OrdinaryKeepsInv(sha, all, dir1, log, data);
      NextDescribes(sha, dir, log, w);
      AppendedIn(sha, all, log, w);
      var dir2 := ApplyAll(dir1, data);
      var dir3 := Apply(dir2, PutManifest(NextManifest(sha, dir, w)));
      ManifestKeepsFiles(sha, all, dir2, NextManifest(sha, dir, w));
      var last := LastOps(sha, dir, w, stamp)[..at - |first| - |data| - 1];
      OrdinaryKeepsInv(sha, all, dir3, Some(Appended(log, w)), last);
    }
  }

  lemma ManifestKeepsFiles(sha: Hash, all: set<Bytes>, dir: Dir, m: Manifest)
    requires FilesIn(sha, dir, all)
    ensures FilesIn(sha, Apply(dir, PutManifest(m)), all)
  {
  }

  /** A removal cut off takes files away and nothing else. */
  lemma PartlyRemovedKeepsInv(sha: Hash, all: set<Bytes>, dir: Dir, log: Option<Log>, op: Op, left: Dir)
    requires Inv(sha, all, dir, log) && PartlyRemoved(dir, op, left)
    ensures Inv(sha, all, left, if left.manifest == None then None else log)
  {
    hide Describes;
    assert log == None <==> dir.manifest == None;
  }

  lemma PartlyRemovedKeepsManifest(sha: Hash, dir: Dir, op: Op, left: Dir)
    requires PartlyRemoved(dir, op, left) && op != RemoveAll
    ensures left.manifest == dir.manifest
  {
  }

  lemma PlanRemovesNoManifest(sha: Hash, dir: Dir, w: Write, stamp: Stamp)
    requires NamesItself(w)
    ensures RemoveAll !in Plan(sha, dir, w, stamp)
  {
    hide Contents, NextManifest, Recorded;
  }

  /** Whatever happens to a call, the manifest goes on describing the log. */
  lemma EventKeepsInv(sha: Hash, all: set<Bytes>, dir: Dir, log: Option<Log>, e: Event)
    requires Inv(sha, all, dir, log) && Possible(sha, dir, e) && CallIn(sha, e.call, all)
    ensures Inv(sha, all, After(sha, dir, e), LogAfter(sha, dir, log, e))
  {
    hide Inv, Plan, Apply, Refuses, WritesIn, Appended, Recorded, FirstOps, DataOps;
    var ops := Ops(sha, dir, e.call, e.stamp);
    match e.call
    case WriteStore(w) =>
      if NamesItself(w) { WriteEventKeepsInv(sha, all, dir, log, e, w); }
    case RecordCheckpoint(_, _) =>
      OrdinaryKeepsInv(sha, all, dir, log, ops);
      if e.Cut? { assert ops[..e.at] == []; }
    case DeleteStore(_) => DeleteKeepsInv(sha, all, dir, log, e);
    case _ =>
  }

  lemma DeleteKeepsInv(sha: Hash, all: set<Bytes>, dir: Dir, log: Option<Log>, e: Event)
    requires Inv(sha, all, dir, log) && Possible(sha, dir, e) && e.call.DeleteStore?
    ensures Inv(sha, all, After(sha, dir, e), LogAfter(sha, dir, log, e))
  {
    if e.Cut? {
      assert [RemoveAll][..e.at] == [];
      PartlyRemovedKeepsInv(sha, all, dir, log, RemoveAll, e.left);
    } else {
      ApplyOne(dir, RemoveAll);
    }
  }

  lemma WriteEventKeepsInv(sha: Hash, all: set<Bytes>, dir: Dir, log: Option<Log>, e: Event, w: Write)
    requires Inv(sha, all, dir, log) && Possible(sha, dir, e) && e.call == WriteStore(w) && NamesItself(w)
    requires WritesIn(sha, w, all)
    ensures Inv(sha, all, After(sha, dir, e), LogAfter(sha, dir, log, e))
  {
    hide Describes, LogIn, FilesIn, Plan, Apply, WritesIn, Appended, FirstOps, DataOps;
    var ops := Plan(sha, dir, w, e.stamp);
    NextDescribes(sha, dir, log, w);
    var at := if e.Cut? then e.at else |ops|;
    assert ops[..|ops|] == ops;
    if !Refuses(dir, w) { PlanLength(sha, dir, w, e.stamp); }
    WriteKeepsInv(sha, all, dir, log, w, e.stamp, at);
    if e.Cut? {
      var before, log' := ApplyAll(dir, ops[..at]), LogAt(sha, dir, log, w, at);
      PlanRemovesNoManifest(sha, dir, w, e.stamp);
      assert ops[at] in ops;
      PartlyRemovedKeepsInv(sha, all, before, log', ops[at], e.left);
      PartlyRemovedKeepsManifest(sha, before, ops[at], e.left);
    }
  }

  lemma PlanLength(sha: Hash, dir: Dir, w: Write, stamp: Stamp)
    requires NamesItself(w) && !Refuses(dir, w)
    ensures |Plan(sha, dir, w, stamp)| > |FirstOps(sha, w)| + |DataOps(dir, w)|
  {
    hide FirstOps, DataOps, NextManifest, LastOps;
  }

  // ---- what is read ----

  /** Nothing, or the log's own snapshot with the first of its changes; the whole log when complete. */
  predicate PartOf(a: Answer, l: Log) {
    a == Nothing
    || (a.Stored? && a.meta == l.meta && a.snapshot == l.snapshot && a.changes <= l.changes && a.number == Number(l.first + |a.changes|)
        && (if a.complete then a == Answered(Some(l), false)
            else a.blobs == None && a.version == (if |a.changes| < |l.changes| then None else l.version)))
  }

  lemma {:induction false} VerifiedIsPrefix(sha: Hash, all: set<Bytes>, files: map<nat, Bytes>, records: seq<Change>,
                                            changes: seq<Bytes>)
    requires Distinguishes(sha, all) && (forall n :: n in files ==> files[n] in all)
    requires forall c :: c in changes ==> c in all
    requires |records| == |changes| && forall i :: 0 <= i < |records| ==> records[i].sha == sha(changes[i])
    ensures Verified(sha, files, records) <= changes
  {
    if records != [] {
      VerifiedIsPrefix(sha, all, files, records[1..], changes[1..]);
      assert changes == [changes[0]] + changes[1..];
    }
  }

  lemma {:induction false} ReadPartsIsBundle(sha: Hash, all: set<Bytes>, files: Files, contents: seq<Bytes>)
    requires Distinguishes(sha, all) && WellNamed(sha, files, all) && forall c :: c in contents ==> c in all
    requires ReadParts(sha, files, Names(sha, contents)).Some?
    ensures ReadParts(sha, files, Names(sha, contents)) == Some(Bundle(sha, contents))
  {
    if contents != [] {
      assert Names(sha, contents)[1..] == Names(sha, contents[1..]);
      ReadPartsIsBundle(sha, all, files, contents[1..]);
    }
  }

  /** A bundle that can be read at all is the one that was stored. */
  lemma ReadIsBundle(sha: Hash, all: set<Bytes>, files: Files, bundle: Bytes)
    requires Distinguishes(sha, all) && WellNamed(sha, files, all)
    requires forall c :: c in Contents(sha, bundle) ==> c in all
    requires Blobs.Read(sha, files, RecordOf(sha, bundle)).Some?
    ensures Blobs.Read(sha, files, RecordOf(sha, bundle)) == Some(bundle)
  {
    if Parsed(sha, bundle) == None {
      assert Contents(sha, bundle)[0] == bundle;
    } else {
      ReadPartsIsBundle(sha, all, files, Contents(sha, bundle));
      BundleOfParsed(sha, bundle);
    }
  }

  /** A read never mixes bytes of two writes. */
  lemma ReadIsPart(sha: Hash, all: set<Bytes>, dir: Dir, log: Option<Log>, doc: string)
    requires Inv(sha, all, dir, log) && Distinguishes(sha, all)
    ensures log == None ==> ReadOf(sha, dir, doc, false) == Nothing && ReadOf(sha, dir, doc, true) == Nothing
    ensures log.Some? ==> PartOf(ReadOf(sha, dir, doc, false), log.value)
    ensures log.Some? ==> ReadOf(sha, dir, doc, true) in {Nothing, Answered(log, true)}
  {
    hide Contents, RecordOf, Verified, Blobs.Read;
    if log.Some? && ReadOf(sha, dir, doc, false) != Nothing {
      var l, m := log.value, dir.manifest.value;
      VerifiedIsPrefix(sha, all, dir.changes, m.changes, l.changes);
      if l.blobs.Some? && Blobs.Read(sha, dir.blobs, RecordOf(sha, l.blobs.value)).Some? {
        ReadIsBundle(sha, all, dir.blobs, l.blobs.value);
      }
    }
  }

  // ---- entries whose files are all there ----

  ghost predicate Readable(sha: Hash, files: Files, bundle: Option<Bytes>) {
    bundle.Some? ==> Blobs.Read(sha, files, RecordOf(sha, bundle.value)) == bundle
  }

  ghost predicate Intact(sha: Hash, dir: Dir, log: Option<Log>) {
    log.Some? ==>
      && dir.snapshot == Some(log.value.snapshot) && Readable(sha, dir.blobs, log.value.blobs)
      && forall i: nat :: i < |log.value.changes| ==> HasChange(dir, log.value.first + i + 1, log.value.changes[i])
  }

  predicate HasChange(dir: Dir, number: nat, data: Bytes) { number in dir.changes && dir.changes[number] == data }

  lemma {:induction false} VerifiedAll(sha: Hash, dir: Dir, records: seq<Change>, changes: seq<Bytes>)
    requires |records| == |changes| && forall i :: 0 <= i < |records| ==> records[i].sha == sha(changes[i])
    requires forall i :: 0 <= i < |records| ==> HasChange(dir, records[i].number, changes[i])
    ensures Verified(sha, dir.changes, records) == changes
  {
    if records != [] {
      VerifiedAll(sha, dir, records[1..], changes[1..]);
      assert HasChange(dir, records[0].number, changes[0]);
      assert changes == [changes[0]] + changes[1..];
    }
  }

  lemma IntactReadsAll(sha: Hash, dir: Dir, log: Option<Log>, doc: string, headOnly: bool)
    requires Commits(sha, dir.manifest, log) && Intact(sha, dir, log) && (log.Some? ==> log.value.meta.docId == doc)
    ensures ReadOf(sha, dir, doc, headOnly) == Answered(log, headOnly)
  {
    hide RecordOf, Verified, Blobs.Read;
    if log.Some? {
      var l, m := log.value, dir.manifest.value;
      forall i | 0 <= i < |m.changes| ensures HasChange(dir, m.changes[i].number, l.changes[i]) {
        assert HasChange(dir, l.first + i + 1, l.changes[i]);
      }
      VerifiedAll(sha, dir, m.changes, l.changes);
    }
  }

  lemma {:induction false} OpsKeepBlobs(sha: Hash, all: set<Bytes>, dir: Dir, ops: seq<Op>)
    requires Distinguishes(sha, all) && WellNamed(sha, dir.blobs, all)
    requires forall op :: op in ops ==> op.PutManifest? || Ordinary(sha, op, all)
    ensures Kept(dir.blobs, ApplyAll(dir, ops).blobs)
    decreases |ops|
  {
    if ops != [] {
      assert ops[0].PutManifest? || Ordinary(sha, ops[0], all);
      var next := Apply(dir, ops[0]);
      assert Kept(dir.blobs, next.blobs) && WellNamed(sha, next.blobs, all);
      OpsKeepBlobs(sha, all, next, ops[1..]);
    }
  }

  lemma PlanIsMild(sha: Hash, all: set<Bytes>, dir: Dir, w: Write, stamp: Stamp)
    requires NamesItself(w) && WritesIn(sha, w, all)
    ensures forall op :: op in Plan(sha, dir, w, stamp) ==> op.PutManifest? || Ordinary(sha, op, all)
  {
    hide WritesIn, FirstOps, DataOps, NextManifest, Recorded;
    WriteOpsAreOrdinary(sha, all, dir, w);
  }

  /** Only a delete takes away a blob: no other call, cut off or not, changes or removes one. */
  lemma EventKeepsBlobs(sha: Hash, all: set<Bytes>, dir: Dir, e: Event)
    requires Distinguishes(sha, all) && WellNamed(sha, dir.blobs, all) && Possible(sha, dir, e)
    requires CallIn(sha, e.call, all)
    requires !e.call.DeleteStore?
    ensures Kept(dir.blobs, After(sha, dir, e).blobs)
  {
    hide Plan, WritesIn, Recorded, Apply;
    var ops := Ops(sha, dir, e.call, e.stamp);
    if e.call.WriteStore? && NamesItself(e.call.write) { PlanIsMild(sha, all, dir, e.call.write, e.stamp); }
    if e.Cut? {
      OpsKeepBlobs(sha, all, dir, ops[..e.at]);
      assert ops[e.at] in ops;
      assert Ordinary(sha, RemoveAll, all) == false;
    } else {
      OpsKeepBlobs(sha, all, dir, ops);
    }
  }

  lemma SameFilesIntact(sha: Hash, dir: Dir, dir': Dir, log: Option<Log>)
    requires Intact(sha, dir, log) && dir'.snapshot == dir.snapshot && dir'.changes == dir.changes
    requires dir'.blobs == dir.blobs
    ensures Intact(sha, dir', log)
  {
  }

  /** `dir1` has the blobs of `dir` and of the write, and is the same otherwise. */
  ghost predicate PutsBlobs(sha: Hash, dir: Dir, dir1: Dir, w: Write) {
    dir1 == dir.(blobs := dir1.blobs) && Kept(dir.blobs, dir1.blobs) && Readable(sha, dir1.blobs, w.blobs)
  }

  /** The blobs of a write are there before its manifest is. */
  lemma FirstOpsPutBlobs(sha: Hash, all: set<Bytes>, dir: Dir, w: Write)
    requires Distinguishes(sha, all) && WellNamed(sha, dir.blobs, all) && WritesIn(sha, w, all)
    ensures PutsBlobs(sha, dir, ApplyAll(dir, FirstOps(sha, w)), w)
  {
    hide Contents, RecordOf, Blobs.Read;
    if w.blobs.Some? {
      var contents := Contents(sha, w.blobs.value);
      BlobOpsPut(sha, dir, contents);
      PutAllKeeps(sha, dir.blobs, contents, all);
      StoredBundleReadsBack(sha, dir.blobs, w.blobs.value, all);
    }
  }

  lemma DataOpsMakeIntact(sha: Hash, dir: Dir, dir1: Dir, log: Option<Log>, w: Write)
    requires Commits(sha, dir.manifest, log) && NamesItself(w) && !Refuses(dir, w) && Accepts(log, w)
    requires PutsBlobs(sha, dir, dir1, w)
    requires w.changes.Some? ==> Intact(sha, dir, log)
    ensures Intact(sha, ApplyAll(dir1, DataOps(dir, w)), Some(Appended(log, w)))
  {
    hide RecordOf, Blobs.Read, ApplyAll, Intact;
    DataOpsPut(dir1, w);
    assert DataOps(dir1, w) == DataOps(dir, w);
    var dir2 := ApplyAll(dir1, DataOps(dir, w));
    if w.changes.Some? {
      AppendMakesIntact(sha, dir, dir2, log.value, w);
    } else {
      SnapshotMakesIntact(sha, dir2, log, w);
    }
  }

  lemma SnapshotMakesIntact(sha: Hash, dir: Dir, log: Option<Log>, w: Write)
    requires w.meta.Some? && w.changes == None && Readable(sha, dir.blobs, w.blobs)
    requires dir.snapshot == Some(SnapshotOf(w))
    ensures Intact(sha, dir, Some(Appended(log, w)))
  {
    hide Readable;
  }

  lemma AppendMakesIntact(sha: Hash, dir: Dir, dir': Dir, l: Log, w: Write)
    requires w.meta.Some? && w.changes.Some? && Accepts(Some(l), w) && Intact(sha, dir, Some(l))
    requires Kept(dir.blobs, dir'.blobs) && Readable(sha, dir'.blobs, w.blobs) && dir'.snapshot == dir.snapshot
    requires dir'.changes == dir.changes[HeadSeq(Some(l)) + 1 := w.changes.value]
    ensures Intact(sha, dir', Some(Appended(Some(l), w)))
  {
    hide RecordOf, Blobs.Read;
    if l.blobs.Some? { KeptReads(sha, dir.blobs, dir'.blobs, RecordOf(sha, l.blobs.value)); }
    var l' := Appended(Some(l), w);
    forall i: nat | i < |l'.changes| ensures HasChange(dir', l'.first + i + 1, l'.changes[i]) {
      if i < |l.changes| { assert HasChange(dir, l.first + i + 1, l.changes[i]); }
    }
  }

  /** Once its manifest is put, every file a write names is there. */
  lemma WriteMakesIntact(sha: Hash, dir: Dir, log: Option<Log>, w: Write, stamp: Stamp, at: nat)
    requires Commits(sha, dir.manifest, log) && NamesItself(w) && !Refuses(dir, w) && Accepts(log, w)
    requires PutsBlobs(sha, dir, ApplyAll(dir, FirstOps(sha, w)), w)
    requires |FirstOps(sha, w)| + |DataOps(dir, w)| < at <= |Plan(sha, dir, w, stamp)|
    requires w.changes.Some? ==> Intact(sha, dir, log)
    ensures Intact(sha, ApplyAll(dir, Plan(sha, dir, w, stamp)[..at]), Some(Appended(log, w)))
  {
    hide Intact, PutsBlobs, Appended, FirstOps, DataOps, NextManifest, Recorded, Describes;
    PlanPrefix(sha, dir, w, stamp, at);
    var dir1 := ApplyAll(dir, FirstOps(sha, w));
    DataOpsMakeIntact(sha, dir, dir1, log, w);
    var dir2 := ApplyAll(dir1, DataOps(dir, w));
    var dir3 := Apply(dir2, PutManifest(NextManifest(sha, dir, w)));
    var last := LastOps(sha, dir, w, stamp)[..at - |FirstOps(sha, w)| - |DataOps(dir, w)| - 1];
    if last != [] { ApplyOne(dir3, last[0]); assert last == [last[0]]; }
    SameFilesIntact(sha, dir2, ApplyAll(dir3, last), Some(Appended(log, w)));
  }

  /** Calls that run to their end keep every file in place; an accepted snapshot puts them in place. */
  lemma DoneKeepsIntact(sha: Hash, all: set<Bytes>, dir: Dir, log: Option<Log>, e: Event)
    requires Inv(sha, all, dir, log) && Distinguishes(sha, all) && CallIn(sha, e.call, all) && e.Done?
    requires Intact(sha, dir, log) || (e.call.WriteStore? && NamesItself(e.call.write) && e.call.write.changes == None)
    ensures Intact(sha, After(sha, dir, e), LogAfter(sha, dir, log, e))
  {
    hide Intact, WritesIn, Appended, Describes, Plan, Recorded, Apply, FirstOps, DataOps, PutsBlobs;
    var ops := Ops(sha, dir, e.call, e.stamp);
    match e.call
    case WriteStore(w) =>
      if NamesItself(w) {
        NextDescribes(sha, dir, log, w);
        if Refuses(dir, w) {
          RefusedKeepsIntact(sha, all, dir, log, w);
          assert ops == FirstOps(sha, w) by { RefusedPlan(sha, dir, w, e.stamp); }
        } else {
          PlanLength(sha, dir, w, e.stamp);
          FirstOpsPutBlobs(sha, all, dir, w);
          WriteMakesIntact(sha, dir, log, w, e.stamp, |ops|);
          assert ops[..|ops|] == ops;
        }
      }
    case RecordCheckpoint(_, _) =>
      if ops != [] { ApplyOne(dir, ops[0]); RecordKeepsIntact(sha, dir, log, ops[0]); }
    case DeleteStore(_) => NoneIsIntact(sha, After(sha, dir, e));
    case _ =>
  }

  lemma RefusedPlan(sha: Hash, dir: Dir, w: Write, stamp: Stamp)
    requires NamesItself(w) && Refuses(dir, w)
    ensures Plan(sha, dir, w, stamp) == FirstOps(sha, w)
  {
  }

  lemma NoneIsIntact(sha: Hash, dir: Dir)
    ensures Intact(sha, dir, None)
  {
  }

  lemma RecordKeepsIntact(sha: Hash, dir: Dir, log: Option<Log>, op: Op)
    requires Intact(sha, dir, log) && op.PutHistory?
    ensures Intact(sha, Apply(dir, op), log)
  {
    SameFilesIntact(sha, dir, Apply(dir, op), log);
  }

  lemma RefusedKeepsIntact(sha: Hash, all: set<Bytes>, dir: Dir, log: Option<Log>, w: Write)
    requires Intact(sha, dir, log) && Distinguishes(sha, all) && WellNamed(sha, dir.blobs, all) && WritesIn(sha, w, all)
    ensures Intact(sha, ApplyAll(dir, FirstOps(sha, w)), log)
  {
    hide RecordOf, Blobs.Read, WritesIn, FirstOps;
    FirstOpsPutBlobs(sha, all, dir, w);
    var dir1 := ApplyAll(dir, FirstOps(sha, w));
    if log.Some? {
      if log.value.blobs.Some? { KeptReads(sha, dir.blobs, dir1.blobs, RecordOf(sha, log.value.blobs.value)); }
      forall i: nat | i < |log.value.changes| ensures HasChange(dir1, log.value.first + i + 1, log.value.changes[i]) {
        assert HasChange(dir, log.value.first + i + 1, log.value.changes[i]);
      }
    }
  }

  // ---- whole runs ----

  predicate IsSnapshot(call: Call) { call.WriteStore? && NamesItself(call.write) && call.write.changes == None }

  /**
   Whether every file is sure to be in place: until a call is cut off, and again from the next
   snapshot or delete on.
   */
  predicate Whole(whole: bool, events: seq<Event>)
    decreases |events|
  {
    if events == [] then whole
    else Whole(events[0].Done? && (whole || IsSnapshot(events[0].call) || events[0].call.DeleteStore?), events[1..])
  }

  ghost predicate CallsIn(sha: Hash, events: seq<Event>, doc: string, all: set<Bytes>) {
    forall i :: 0 <= i < |events| ==> CallIn(sha, events[i].call, all) && DocOf(events[i].call) == doc
  }

  predicate NamedFor(log: Option<Log>, doc: string) { log.Some? ==> log.value.meta.docId == doc }

  lemma {:induction false} RunKeepsInv(sha: Hash, all: set<Bytes>, dir: Dir, log: Option<Log>, events: seq<Event>,
                                       doc: string, whole: bool)
    requires Runs(sha, dir, events) && Distinguishes(sha, all) && CallsIn(sha, events, doc, all)
    requires Inv(sha, all, dir, log) && NamedFor(log, doc) && (whole ==> Intact(sha, dir, log))
    ensures var dir', log' := DirAfter(sha, dir, events), LogAfterAll(sha, dir, log, events);
      Inv(sha, all, dir', log') && NamedFor(log', doc) && (Whole(whole, events) ==> Intact(sha, dir', log'))
    decreases |events|
  {
    if events != [] {
      hide Inv, Possible, Intact, Appended, After, CallIn;
      var e := events[0];
      assert CallIn(sha, e.call, all) && DocOf(e.call) == doc;
      EventKeepsInv(sha, all, dir, log, e);
      EventKeepsName(sha, dir, log, e, doc);
      if e.Done? && e.call.DeleteStore? { NoneIsIntact(sha, After(sha, dir, e)); }
      else if e.Done? && (whole || IsSnapshot(e.call)) { DoneKeepsIntact(sha, all, dir, log, e); }
      assert CallsIn(sha, events[1..], doc, all);
      RunKeepsInv(sha, all, After(sha, dir, e), LogAfter(sha, dir, log, e), events[1..], doc,
                  e.Done? && (whole || IsSnapshot(e.call) || e.call.DeleteStore?));
    }
  }

  lemma EventKeepsName(sha: Hash, dir: Dir, log: Option<Log>, e: Event, doc: string)
    requires NamedFor(log, doc) && DocOf(e.call) == doc
    ensures NamedFor(LogAfter(sha, dir, log, e), doc)
  {
  }

  /** A read gives nothing or part of the log; and all of it when the files are `whole`. */
  ghost predicate ReadsSafely(sha: Hash, dir: Dir, log: Option<Log>, doc: string, whole: bool) {
    && (log == None ==> ReadOf(sha, dir, doc, false) == Nothing)
    && (log.Some? ==> PartOf(ReadOf(sha, dir, doc, false), log.value))
    && (ReadOf(sha, dir, doc, true) == Nothing || ReadOf(sha, dir, doc, true) == Answered(log, true))
    && (whole ==> forall headOnly :: ReadOf(sha, dir, doc, headOnly) == Answered(log, headOnly))
  }

  /**
   However a run of calls is cut off and goes on, the entry has one log, to which each call was
   done or not done at all; a read gives part of that log or nothing; and it gives all of it
   when no call since the last snapshot or delete was cut off.
   */
  lemma CrashSafe(sha: Hash, all: set<Bytes>, dir: Dir, log: Option<Log>, events: seq<Event>, doc: string)
    requires Inv(sha, all, dir, log) && Intact(sha, dir, log) && NamedFor(log, doc)
    requires Runs(sha, dir, events) && Distinguishes(sha, all) && CallsIn(sha, events, doc, all)
    ensures ReadsSafely(sha, DirAfter(sha, dir, events), LogAfterAll(sha, dir, log, events), doc, Whole(true, events))
  {
    hide Inv, Intact, ReadOf, PartOf, Runs, Answered;
    RunKeepsInv(sha, all, dir, log, events, doc, true);
    var dir', log' := DirAfter(sha, dir, events), LogAfterAll(sha, dir, log, events);
    ReadIsPart(sha, all, dir', log', doc);
    if Whole(true, events) {
      InvCommits(sha, all, dir', log');
      IntactReadsAll(sha, dir', log', doc, false);
      IntactReadsAll(sha, dir', log', doc, true);
    }
  }

  lemma BareIsWhole(sha: Hash, all: set<Bytes>, doc: string)
    ensures Inv(sha, all, BARE, None) && Intact(sha, BARE, None) && NamedFor(None, doc) && BundlesRead(sha, BARE)
  {
  }

  /** So it is for every run that starts with no files at all. */
  lemma CrashSafeFromNothing(sha: Hash, all: set<Bytes>, dir: Dir, log: Option<Log>, events: seq<Event>, doc: string)
    requires dir == BARE && log == None
    requires Runs(sha, dir, events) && Distinguishes(sha, all) && CallsIn(sha, events, doc, all)
    ensures ReadsSafely(sha, DirAfter(sha, dir, events), LogAfterAll(sha, dir, log, events), doc, Whole(true, events))
  {
    hide ReadsSafely, Inv, Intact, Runs;
    BareIsWhole(sha, all, doc);
    CrashSafe(sha, all, dir, log, events, doc);
  }

  lemma InvCommits(sha: Hash, all: set<Bytes>, dir: Dir, log: Option<Log>)
    requires Inv(sha, all, dir, log)
    ensures Commits(sha, dir.manifest, log)
  {
  }

  /** The log before each event and after the last. */
  function LogsOf(sha: Hash, dir: Dir, log: Option<Log>, events: seq<Event>): (r: seq<Option<Log>>)
    ensures |r| == |events| + 1 && r[0] == log
    decreases |events|
  {
    [log] + if events == [] then [] else LogsOf(sha, After(sha, dir, events[0]), LogAfter(sha, dir, log, events[0]), events[1..])
  }

  function CallsOf(events: seq<Event>): (r: seq<Call>)
    ensures |r| == |events| && forall i :: 0 <= i < |r| ==> r[i] == events[i].call
  {
    seq(|events|, i requires 0 <= i < |events| => events[i].call)
  }

  /**
   So what holds of the log over any run holds of files that calls were cut off from: of two appends
   on one base, one wins.
   */
  lemma {:induction false} CutRunsFollow(sha: Hash, dir: Dir, log: Option<Log>, events: seq<Event>)
    ensures LogRuns.Follows(LogsOf(sha, dir, log, events), CallsOf(events))
    decreases |events|
  {
    if events != [] {
      hide TookEffect, After, Served;
      var rest := events[1..];
      var dir1, log1 := After(sha, dir, events[0]), LogAfter(sha, dir, log, events[0]);
      CutRunsFollow(sha, dir1, log1, rest);
      var logs, calls := LogsOf(sha, dir, log, events), CallsOf(events);
      forall i: nat | i < |calls| ensures LogRuns.Took(logs, calls, i) {
        if i > 0 { assert LogRuns.Took(LogsOf(sha, dir1, log1, rest), CallsOf(rest), i - 1); }
      }
    }
  }

  /** The files before each event and after the last. */
  function DirsOf(sha: Hash, dir: Dir, events: seq<Event>): (r: seq<Dir>)
    ensures |r| == |events| + 1 && r[0] == dir
    decreases |events|
  {
    [dir] + if events == [] then [] else DirsOf(sha, After(sha, dir, events[0]), events[1..])
  }

  lemma {:induction false} RunCommits(sha: Hash, all: set<Bytes>, dir: Dir, log: Option<Log>, events: seq<Event>,
                                      doc: string, i: nat)
    requires Inv(sha, all, dir, log) && Distinguishes(sha, all) && i <= |events|
    requires Runs(sha, dir, events) && CallsIn(sha, events, doc, all)
    ensures Commits(sha, DirsOf(sha, dir, events)[i].manifest, LogsOf(sha, dir, log, events)[i])
    decreases |events|
  {
    hide Inv, Possible, After, LogAfter, CallIn, Commits;
    InvCommits(sha, all, dir, log);
    if i > 0 {
      var e := events[0];
      assert CallIn(sha, e.call, all);
      EventKeepsInv(sha, all, dir, log, e);
      assert CallsIn(sha, events[1..], doc, all);
      RunCommits(sha, all, After(sha, dir, e), LogAfter(sha, dir, log, e), events[1..], doc, i - 1);
    }
  }

  /** The append at `i` put a manifest: its base is the head before, and one more the head after. */
  ghost predicate PutOnBase(dirs: seq<Dir>, i: nat, base: int)
    requires i + 1 < |dirs|
  {
    var before, after := dirs[i].manifest, dirs[i + 1].manifest;
    before.Some? && before.value.Current? && before.value.head == base && after.Some? && after.value.Current? && after.value.head == base + 1
  }

  /** A log has one manifest that describes it, so an event that changes the manifest changes the log. */
  lemma ChangedManifest(sha: Hash, before: Option<Manifest>, after: Option<Manifest>, log: Option<Log>,
                        log': Option<Log>)
    requires Commits(sha, before, log) && Commits(sha, after, log') && before != after
    ensures log != log'
  {
    if log.Some? && log == log' { SameManifest(sha, before.value, after.value, log.value); }
  }

  lemma SameManifest(sha: Hash, m: Manifest, n: Manifest, l: Log)
    requires Describes(sha, m, l) && Describes(sha, n, l)
    ensures m == n
  {
    assert m.changes == n.changes;
  }

  lemma AppendPuts(sha: Hash, dirs: seq<Dir>, logs: seq<Option<Log>>, calls: seq<Call>, i: nat, base: int)
    requires |dirs| == |logs| == |calls| + 1 && i < |calls| && LogRuns.Took(logs, calls, i)
    requires LogRuns.Appends(calls[i], base)
    requires Commits(sha, dirs[i].manifest, logs[i]) && Commits(sha, dirs[i + 1].manifest, logs[i + 1])
    requires dirs[i + 1].manifest != dirs[i].manifest
    ensures logs[i + 1] != logs[i] && PutOnBase(dirs, i, base)
  {
    ChangedManifest(sha, dirs[i].manifest, dirs[i + 1].manifest, logs[i], logs[i + 1]);
  }

  /**
   Of two appends on one base, whatever is cut off, at most one puts its manifest, over one with
   that base for its head, unless a delete comes between them.
   */
  lemma AppendWinsOnceOnFiles(sha: Hash, all: set<Bytes>, dir: Dir, log: Option<Log>, events: seq<Event>, doc: string,
                              i: nat, j: nat, base: int)
    requires Inv(sha, all, dir, log) && Distinguishes(sha, all) && Runs(sha, dir, events)
    requires CallsIn(sha, events, doc, all)
    requires i < j < |events| && LogRuns.Appends(events[i].call, base) && LogRuns.Appends(events[j].call, base)
    requires var dirs := DirsOf(sha, dir, events); dirs[i + 1].manifest != dirs[i].manifest && dirs[j + 1].manifest != dirs[j].manifest
    ensures PutOnBase(DirsOf(sha, dir, events), i, base) && PutOnBase(DirsOf(sha, dir, events), j, base)
    ensures exists k :: i < k < j && events[k].call.DeleteStore?
  {
    hide LogsOf, DirsOf, Inv, Commits, Runs, CallsIn, PutOnBase, LogRuns.Took, LogRuns.Appends;
    var calls, dirs, logs := CallsOf(events), DirsOf(sha, dir, events), LogsOf(sha, dir, log, events);
    CutRunsFollow(sha, dir, log, events);
    forall k | k in {i, i + 1, j, j + 1} ensures Commits(sha, dirs[k].manifest, logs[k]) { RunCommits(sha, all, dir, log, events, doc, k); }
    assert LogRuns.Took(logs, calls, i) && LogRuns.Took(logs, calls, j);
    AppendPuts(sha, dirs, logs, calls, i, base);
    AppendPuts(sha, dirs, logs, calls, j, base);
    LogRuns.AppendWinsOnce(logs, calls, i, j, base);
    var k :| i < k < j && calls[k].DeleteStore?;
    assert events[k].call.DeleteStore?;
  }

  /** An entry of format 1 is read, takes no append, and becomes format 2 with its next snapshot, as number 1. */
  lemma LegacyIsReadOnly(sha: Hash, dir: Dir, w: Write, stamp: Stamp)
    requires dir.manifest.Some? && dir.manifest.value.Legacy? && NamesItself(w)
    ensures w.changes.Some? ==> WriteAnswer(sha, dir, w, stamp) == Refused(Conflict)
    ensures w.changes.Some? ==>
      ApplyAll(dir, Plan(sha, dir, w, stamp)) == dir.(blobs := ApplyAll(dir, Plan(sha, dir, w, stamp)).blobs)
    ensures w.changes == None ==> NextManifest(sha, dir, w).head == 1 && NextManifest(sha, dir, w).changes == []
  {
    hide Contents;
    if w.changes.Some? && w.blobs.Some? { BlobOpsPut(sha, dir, Contents(sha, w.blobs.value)); }
  }

  // ---- one write cut off in an entry that was whole ----

  /** The first of the old changes, under the old meta and snapshot, and said to be incomplete. */
  predicate StartOf(a: Answer, before: Answer) {
    a.Stored? && before.Stored? && !a.complete && a.meta == before.meta && a.snapshot == before.snapshot
    && a.changes < before.changes && a.version == None && a.blobs == None
  }

  /**
   A write cut off anywhere leaves the old entry, the new one, the start of the old one marked
   incomplete, or nothing.
   */
  lemma CutWriteGivesOldOrNew(sha: Hash, all: set<Bytes>, dir: Dir, log: Option<Log>, w: Write, stamp: Stamp, at: nat,
                              left: Dir)
    requires Inv(sha, all, dir, log) && Distinguishes(sha, all) && Intact(sha, dir, log) && WritesIn(sha, w, all)
    requires NamedFor(log, w.doc)
    requires Possible(sha, dir, Cut(WriteStore(w), stamp, at, left))
    ensures var old_, new_ := ReadOf(sha, dir, w.doc, false), ReadOf(sha, ApplyAll(dir, Ops(sha, dir, WriteStore(w), stamp)), w.doc, false);
      var a := ReadOf(sha, left, w.doc, false);
      a == old_ || a == new_ || a == Nothing || StartOf(a, old_)
  {
    var cut := Cut(WriteStore(w), stamp, at, left);
    if TookEffect(sha, dir, cut) {
      CutLateGivesNew(sha, all, dir, log, w, stamp, at, left);
    } else {
      hide Inv, Intact, Possible, ReadOf, WritesIn, Plan;
      InvCommits(sha, all, dir, log);
      IntactReadsAll(sha, dir, log, w.doc, false);
      EventKeepsInv(sha, all, dir, log, cut);
      ReadIsPart(sha, all, left, log, w.doc);
      if log.Some? {
        BlobsStayReadable(sha, all, dir, log, cut);
        IncompleteIsShort(sha, all, left, log, w.doc);
      }
    }
  }

  lemma CutLateGivesNew(sha: Hash, all: set<Bytes>, dir: Dir, log: Option<Log>, w: Write, stamp: Stamp, at: nat,
                        left: Dir)
    requires Inv(sha, all, dir, log) && Distinguishes(sha, all) && Intact(sha, dir, log) && WritesIn(sha, w, all)
    requires NamedFor(log, w.doc)
    requires Possible(sha, dir, Cut(WriteStore(w), stamp, at, left))
    requires TookEffect(sha, dir, Cut(WriteStore(w), stamp, at, left))
    ensures ReadOf(sha, left, w.doc, false)
      == ReadOf(sha, ApplyAll(dir, Ops(sha, dir, WriteStore(w), stamp)), w.doc, false)
  {
    hide Inv, Intact, Possible, ReadOf, WritesIn, Plan, Appended, FirstOps, DataOps;
    var cut, done := Cut(WriteStore(w), stamp, at, left), Done(WriteStore(w), stamp);
    DoneIsPossible(sha, dir, WriteStore(w), stamp);
    InvCommits(sha, all, dir, log);
    NextDescribes(sha, dir, log, w);
    var log' := Served(log, WriteStore(w));
    EventKeepsInv(sha, all, dir, log, cut);
    EventKeepsInv(sha, all, dir, log, done);
    EventKeepsName(sha, dir, log, done, w.doc);
    DoneKeepsIntact(sha, all, dir, log, done);
    CutAfterManifestIsIntact(sha, all, dir, log, w, stamp, at, left);
    InvCommits(sha, all, left, log');
    InvCommits(sha, all, After(sha, dir, done), log');
    IntactReadsAll(sha, left, log', w.doc, false);
    IntactReadsAll(sha, After(sha, dir, done), log', w.doc, false);
  }

  lemma DoneIsPossible(sha: Hash, dir: Dir, call: Call, stamp: Stamp)
    ensures Possible(sha, dir, Done(call, stamp))
  {
  }

  lemma CutNamesItself(sha: Hash, dir: Dir, w: Write, stamp: Stamp, at: nat, left: Dir)
    requires Possible(sha, dir, Cut(WriteStore(w), stamp, at, left))
    ensures NamesItself(w) && at < |Plan(sha, dir, w, stamp)|
    ensures Ops(sha, dir, WriteStore(w), stamp) == Plan(sha, dir, w, stamp)
    ensures PartlyRemoved(ApplyAll(dir, Plan(sha, dir, w, stamp)[..at]), Plan(sha, dir, w, stamp)[at], left)
  {
  }

  lemma CutAfterManifestIsIntact(sha: Hash, all: set<Bytes>, dir: Dir, log: Option<Log>, w: Write, stamp: Stamp,
                                 at: nat, left: Dir)
    requires Inv(sha, all, dir, log) && Distinguishes(sha, all) && Intact(sha, dir, log) && WritesIn(sha, w, all)
    requires Possible(sha, dir, Cut(WriteStore(w), stamp, at, left))
    requires TookEffect(sha, dir, Cut(WriteStore(w), stamp, at, left))
    requires NamesItself(w) && Accepts(log, w)
    ensures Intact(sha, left, Some(Appended(log, w)))
  {
    hide Intact, Possible, Appended, WritesIn, FirstOps, DataOps, NextManifest, Recorded, Describes, PutsBlobs;
    CutNamesItself(sha, dir, w, stamp, at, left);
    FirstOpsPutBlobs(sha, all, dir, w);
    WriteMakesIntact(sha, dir, log, w, stamp, at);
    assert Plan(sha, dir, w, stamp)[at] in LastOps(sha, dir, w, stamp);
  }

  lemma BlobsStayReadable(sha: Hash, all: set<Bytes>, dir: Dir, log: Option<Log>, e: Event)
    requires Inv(sha, all, dir, log) && Distinguishes(sha, all) && Intact(sha, dir, log) && CallIn(sha, e.call, all)
    requires Possible(sha, dir, e) && !e.call.DeleteStore? && log.Some?
    ensures Readable(sha, After(sha, dir, e).blobs, log.value.blobs)
  {
    hide Possible, CallIn, Describes, LogIn, RecordOf, Blobs.Read;
    EventKeepsBlobs(sha, all, dir, e);
    if log.value.blobs.Some? {
      KeptReads(sha, dir.blobs, After(sha, dir, e).blobs, RecordOf(sha, log.value.blobs.value));
    }
  }

  lemma IncompleteIsShort(sha: Hash, all: set<Bytes>, dir: Dir, log: Option<Log>, doc: string)
    requires Inv(sha, all, dir, log) && log.Some? && Readable(sha, dir.blobs, log.value.blobs)
    ensures var a := ReadOf(sha, dir, doc, false); a.Stored? && !a.complete ==> |a.changes| < |log.value.changes|
  {
    hide RecordOf, Blobs.Read, Verified, LogIn, FilesIn;
  }

  // ---- bundles of kept checkpoints ----

  /** In a run with no delete, a bundle that can be read once reads the same ever after. */
  lemma {:induction false} KeptBundlesStay(sha: Hash, all: set<Bytes>, dir: Dir, log: Option<Log>, events: seq<Event>,
                                           doc: string, record: BlobRecord)
    requires Runs(sha, dir, events) && Distinguishes(sha, all) && CallsIn(sha, events, doc, all)
    requires Inv(sha, all, dir, log)
    requires forall i :: 0 <= i < |events| ==> !events[i].call.DeleteStore?
    requires Blobs.Read(sha, dir.blobs, record).Some?
    ensures Blobs.Read(sha, DirAfter(sha, dir, events).blobs, record) == Blobs.Read(sha, dir.blobs, record)
    decreases |events|
  {
    if events != [] {
      hide Possible, Commits, After, CallIn, Blobs.Read;
      var e := events[0];
      assert CallIn(sha, e.call, all);
      EventKeepsInv(sha, all, dir, log, e);
      EventKeepsBlobs(sha, all, dir, e);
      KeptReads(sha, dir.blobs, After(sha, dir, e).blobs, record);
      assert CallsIn(sha, events[1..], doc, all);
      KeptBundlesStay(sha, all, After(sha, dir, e), LogAfter(sha, dir, log, e), events[1..], doc, record);
    }
  }

  ghost predicate CanRead(sha: Hash, files: Files, record: Option<BlobRecord>) {
    record.Some? ==> Blobs.Read(sha, files, record.value).Some?
  }

  ghost predicate HistoryReads(sha: Hash, files: Files, history: seq<Checkpoint>) {
    forall c :: c in history ==> CanRead(sha, files, c.blobs)
  }

  /** The bundle of the manifest and of every checkpoint kept can be read. */
  ghost predicate BundlesRead(sha: Hash, dir: Dir) {
    (CurrentOf(dir).Some? ==> CanRead(sha, dir.blobs, CurrentOf(dir).value.blobs)) && HistoryReads(sha, dir.blobs, dir.history)
  }

  lemma KeptCanRead(sha: Hash, files: Files, files': Files, record: Option<BlobRecord>)
    requires Kept(files, files') && CanRead(sha, files, record)
    ensures CanRead(sha, files', record)
  {
    if record.Some? { KeptReads(sha, files, files', record.value); }
  }

  lemma KeptHistoryReads(sha: Hash, files: Files, files': Files, history: seq<Checkpoint>)
    requires Kept(files, files') && HistoryReads(sha, files, history)
    ensures HistoryReads(sha, files', history)
  {
    forall c | c in history ensures CanRead(sha, files', c.blobs) { KeptCanRead(sha, files, files', c.blobs); }
  }

  /** `dir'` has the blobs of `dir` and perhaps more, its manifest, and its history or none. */
  ghost predicate SameButData(dir: Dir, dir': Dir) {
    Kept(dir.blobs, dir'.blobs) && dir'.manifest == dir.manifest && (dir'.history == dir.history || dir'.history == [])
  }

  lemma {:induction false} OpsKeepHistory(sha: Hash, all: set<Bytes>, dir: Dir, ops: seq<Op>)
    requires forall op :: op in ops ==> Ordinary(sha, op, all) && !op.PutHistory?
    ensures var dir' := ApplyAll(dir, ops); dir'.manifest == dir.manifest && (dir'.history == dir.history || dir'.history == [])
    decreases |ops|
  {
    if ops != [] {
      assert Ordinary(sha, ops[0], all) && !ops[0].PutHistory?;
      OpsKeepHistory(sha, all, Apply(dir, ops[0]), ops[1..]);
    }
  }

  lemma DataKeepsBundles(sha: Hash, all: set<Bytes>, dir: Dir, ops: seq<Op>)
    requires Distinguishes(sha, all) && WellNamed(sha, dir.blobs, all) && BundlesRead(sha, dir)
    requires forall op :: op in ops ==> Ordinary(sha, op, all) && !op.PutHistory?
    ensures SameButData(dir, ApplyAll(dir, ops)) && BundlesRead(sha, ApplyAll(dir, ops))
  {
    hide CanRead, Apply;
    OpsKeepBlobs(sha, all, dir, ops);
    OpsKeepHistory(sha, all, dir, ops);
    var dir' := ApplyAll(dir, ops);
    KeptHistoryReads(sha, dir.blobs, dir'.blobs, dir.history);
    if CurrentOf(dir).Some? { KeptCanRead(sha, dir.blobs, dir'.blobs, CurrentOf(dir).value.blobs); }
  }

  lemma NoHistoryYet(sha: Hash, all: set<Bytes>, dir: Dir, w: Write)
    requires WritesIn(sha, w, all)
    ensures forall op :: op in FirstOps(sha, w) ==> Ordinary(sha, op, all) && !op.PutHistory?
    ensures !Refuses(dir, w) ==> forall op :: op in DataOps(dir, w) ==> Ordinary(sha, op, all) && !op.PutHistory?
  {
    hide Contents, WritesIn;
    WriteOpsAreOrdinary(sha, all, dir, w);
  }

  lemma HistoryPutReads(sha: Hash, files: Files, history: seq<Checkpoint>, manifest: Option<Manifest>, input: Input,
                        stamp: Stamp)
    requires manifest.Some? ==> manifest.value.Current? && CanRead(sha, files, manifest.value.blobs)
    requires HistoryReads(sha, files, history)
    ensures var put := Recorded(history, manifest, input, stamp).0; put.Some? ==> HistoryReads(sha, files, put.value)
  {
    hide Blobs.Read;
    var r := Recorded(history, manifest, input, stamp);
    if r.0.Some? {
      var all := history + [r.1];
      assert CanRead(sha, files, r.1.blobs);
      forall c | c in Last(all) ensures CanRead(sha, files, c.blobs) { assert c in all; }
    }
  }

  lemma WriteKeepsBundles(sha: Hash, all: set<Bytes>, dir: Dir, w: Write, stamp: Stamp, at: nat)
    requires Distinguishes(sha, all) && WellNamed(sha, dir.blobs, all) && BundlesRead(sha, dir) && WritesIn(sha, w, all)
    requires NamesItself(w) && at <= |Plan(sha, dir, w, stamp)|
    ensures BundlesRead(sha, ApplyAll(dir, Plan(sha, dir, w, stamp)[..at]))
  {
    hide BundlesRead, CanRead, Ordinary, WritesIn, FirstOps, DataOps, NextManifest, LastOps, Apply;
    NoHistoryYet(sha, all, dir, w);
    var first, ops := FirstOps(sha, w), Plan(sha, dir, w, stamp);
    if Refuses(dir, w) {
      DataKeepsBundles(sha, all, dir, first[..at]);
    } else {
      PlanPrefix(sha, dir, w, stamp, at);
      var data := DataOps(dir, w);
      if at <= |first| {
        DataKeepsBundles(sha, all, dir, first[..at]);
      } else {
        DataKeepsBundles(sha, all, dir, first);
        var dir1 := ApplyAll(dir, first);
        FirstKeepsNames(sha, all, dir, w);
        if at <= |first| + |data| {
          DataKeepsBundles(sha, all, dir1, data[..at - |first|]);
        } else {
          DataKeepsBundles(sha, all, dir1, data);
          LateKeepsBundles(sha, all, dir, w, stamp, at - |first| - |data| - 1);
        }
      }
    }
  }

  lemma FirstKeepsNames(sha: Hash, all: set<Bytes>, dir: Dir, w: Write)
    requires Distinguishes(sha, all) && WellNamed(sha, dir.blobs, all) && WritesIn(sha, w, all)
    ensures WellNamed(sha, ApplyAll(dir, FirstOps(sha, w)).blobs, all)
  {
    hide Contents;
    if w.blobs.Some? {
      BlobOpsPut(sha, dir, Contents(sha, w.blobs.value));
      PutAllKeeps(sha, dir.blobs, Contents(sha, w.blobs.value), all);
    }
  }

  lemma LateKeepsBundles(sha: Hash, all: set<Bytes>, dir: Dir, w: Write, stamp: Stamp, k: nat)
    requires Distinguishes(sha, all) && WellNamed(sha, dir.blobs, all) && BundlesRead(sha, dir) && WritesIn(sha, w, all)
    requires NamesItself(w) && !Refuses(dir, w) && k <= |LastOps(sha, dir, w, stamp)|
    ensures var m, last := NextManifest(sha, dir, w), LastOps(sha, dir, w, stamp);
      BundlesRead(sha, ApplyAll(Apply(ApplyAll(ApplyAll(dir, FirstOps(sha, w)), DataOps(dir, w)), PutManifest(m)), last[..k]))
  {
    hide CanRead, WritesIn, FirstOps, DataOps, NextManifest, Recorded, ApplyAll;
    FirstOpsPutBlobs(sha, all, dir, w);
    var dir1 := ApplyAll(dir, FirstOps(sha, w));
    DataOpsPut(dir1, w);
    assert DataOps(dir1, w) == DataOps(dir, w) by { SameData(dir, dir1, w); }
    var m, last := NextManifest(sha, dir, w), LastOps(sha, dir, w, stamp)[..k];
    NextReads(sha, dir, dir1.blobs, w);
    KeptHistoryReads(sha, dir.blobs, dir1.blobs, dir.history);
    var dir3 := Apply(ApplyAll(dir1, DataOps(dir, w)), PutManifest(m));
    assert dir3.blobs == dir1.blobs && dir3.history == HistoryThen(dir, w);
    if w.checkpoint.Some? { HistoryPutReads(sha, dir1.blobs, HistoryThen(dir, w), Some(m), w.checkpoint.value, stamp); }
    if last != [] { ApplyOne(dir3, last[0]); assert last == [last[0]]; } else { ApplyNone(dir3); }
  }

  lemma SameData(dir: Dir, dir1: Dir, w: Write)
    requires dir1 == dir.(blobs := dir1.blobs) && !Refuses(dir, w)
    ensures !Refuses(dir1, w) && DataOps(dir1, w) == DataOps(dir, w)
  {
  }

  lemma ApplyNone(dir: Dir)
    ensures ApplyAll(dir, []) == dir
  {
  }

  lemma NextReads(sha: Hash, dir: Dir, files: Files, w: Write)
    requires NamesItself(w) && !Refuses(dir, w) && BundlesRead(sha, dir) && Kept(dir.blobs, files)
    requires Readable(sha, files, w.blobs)
    ensures CanRead(sha, files, NextManifest(sha, dir, w).blobs)
  {
    hide RecordOf, Blobs.Read, HistoryReads;
    if CurrentOf(dir).Some? { KeptCanRead(sha, dir.blobs, files, CurrentOf(dir).value.blobs); }
  }

  /** No call but a delete, cut off or not, makes a kept bundle unreadable. */
  lemma EventKeepsBundles(sha: Hash, all: set<Bytes>, dir: Dir, log: Option<Log>, e: Event)
    requires Inv(sha, all, dir, log) && Distinguishes(sha, all) && BundlesRead(sha, dir) && CallIn(sha, e.call, all)
    requires Possible(sha, dir, e) && !e.call.DeleteStore?
    ensures BundlesRead(sha, After(sha, dir, e))
  {
    hide BundlesRead, Commits, LogIn, Plan, WritesIn, Apply, Recorded;
    var ops := Ops(sha, dir, e.call, e.stamp);
    var at := if e.Cut? then e.at else |ops|;
    assert ops[..|ops|] == ops;
    if e.call.WriteStore? && NamesItself(e.call.write) {
      WriteKeepsBundles(sha, all, dir, e.call.write, e.stamp, at);
      if e.Cut? {
        PlanRemovesNoManifest(sha, dir, e.call.write, e.stamp);
        assert ops[at] in ops;
        CutKeepsBundles(sha, ApplyAll(dir, ops[..at]), ops[at], e.left);
      }
    } else if e.call.RecordCheckpoint? {
      if e.Cut? { CutKeepsBundles(sha, ApplyAll(dir, ops[..at]), ops[at], e.left); assert ops[..at] == []; }
      else { RecordKeepsBundles(sha, dir, e.call.input, e.stamp, ops); }
    }
  }

  lemma RecordKeepsBundles(sha: Hash, dir: Dir, input: Input, stamp: Stamp, ops: seq<Op>)
    requires BundlesRead(sha, dir)
    requires var put := Recorded(dir.history, CurrentOf(dir), input, stamp).0; ops == if put == None then [] else [PutHistory(put.value)]
    ensures BundlesRead(sha, ApplyAll(dir, ops))
  {
    hide CanRead, Recorded;
    HistoryPutReads(sha, dir.blobs, dir.history, CurrentOf(dir), input, stamp);
    if ops != [] { ApplyOne(dir, ops[0]); }
  }

  lemma CutKeepsBundles(sha: Hash, dir: Dir, op: Op, left: Dir)
    requires BundlesRead(sha, dir) && op != RemoveAll && PartlyRemoved(dir, op, left)
    ensures BundlesRead(sha, left)
  {
  }

  /** In any run with no delete, every checkpoint kept can give its bundle back. */
  lemma {:induction false} KeptCheckpointsRead(sha: Hash, all: set<Bytes>, dir: Dir, log: Option<Log>,
                                               events: seq<Event>, doc: string)
    requires Runs(sha, dir, events) && Distinguishes(sha, all) && CallsIn(sha, events, doc, all)
    requires Inv(sha, all, dir, log)
    requires forall i :: 0 <= i < |events| ==> !events[i].call.DeleteStore?
    requires BundlesRead(sha, dir)
    ensures BundlesRead(sha, DirAfter(sha, dir, events))
    decreases |events|
  {
    if events != [] {
      hide Possible, Inv, After, CallIn, BundlesRead;
      var e := events[0];
      assert CallIn(sha, e.call, all);
      EventKeepsInv(sha, all, dir, log, e);
      EventKeepsBundles(sha, all, dir, log, e);
      assert CallsIn(sha, events[1..], doc, all);
      KeptCheckpointsRead(sha, all, After(sha, dir, e), LogAfter(sha, dir, log, e), events[1..], doc);
    }
  }

  /** So it is for every run that starts with no files at all. */
  lemma KeptCheckpointsReadFromNothing(sha: Hash, all: set<Bytes>, dir: Dir, log: Option<Log>, events: seq<Event>,
                                       doc: string)
    requires dir == BARE && log == None
    requires Runs(sha, dir, events) && Distinguishes(sha, all) && CallsIn(sha, events, doc, all)
    requires forall i :: 0 <= i < |events| ==> !events[i].call.DeleteStore?
    ensures BundlesRead(sha, DirAfter(sha, dir, events))
  {
    hide Inv, Runs, BundlesRead;
    BareIsWhole(sha, all, doc);
    KeptCheckpointsRead(sha, all, dir, log, events, doc);
  }
}
