/**
 The two stores side by side: given the same calls without blobs, they accept and refuse the
 same ones and answer the same, exactly when every call brings changes or a snapshot and none
 looks up a document named like a method of all objects. Left out of the comparison are times,
 and authors and labels that are empty, which only the files keep.
 */
module StoresAgree {
  import opened Options
  import opened Blobs
  import opened Documents
  import opened CrashSafety
  import FileStore
  import MemoryStore
  import LogRuns

  // ---- what is compared ----

  function ErasedPublic(p: Public): Public {
    p.(time := 0, author := Truthy(p.author), title := Truthy(p.title))
  }

  function ErasedAll(s: seq<Public>): (r: seq<Public>)
    ensures |r| == |s| && forall i :: 0 <= i < |r| ==> r[i] == ErasedPublic(s[i])
  {
    seq(|s|, i requires 0 <= i < |s| => ErasedPublic(s[i]))
  }

  function Erased(a: Answer): Answer {
    match a
    case Written(_, _, _, Some(recorded)) => a.(recorded := Some(ErasedPublic(recorded)))
    case Checkpoints(s) => Checkpoints(ErasedAll(s))
    case One(c, bundle) => One(ErasedPublic(c), bundle)
    case _ => a
  }

  ghost predicate SameHistory(files: seq<FileStore.Checkpoint>, memory: seq<Public>) {
    |files| == |memory| && forall i :: 0 <= i < |files| ==> SameCheckpoint(files[i], memory[i])
  }

  ghost predicate SameCheckpoint(f: FileStore.Checkpoint, m: Public) {
    f.blobs == None && ErasedPublic(FileStore.PublicOf(f)) == ErasedPublic(m)
  }

  ghost predicate SameEntry(sha: Hash, m: MemoryStore.Memory, doc: string, dir: FileStore.Dir) {
    var log := MemoryStore.LogOf(m, doc);
    && Commits(sha, dir.manifest, log) && Intact(sha, dir, log) && NamedFor(log, doc)
    && SameHistory(dir.history, MemoryStore.HistoryOf(m, doc))
  }

  /** Nothing has been stored under the name of an inherited method. */
  ghost predicate Untouched(m: MemoryStore.Memory) {
    forall doc :: !MemoryStore.Plain(doc) ==> doc !in m.entries && doc !in m.heads && doc !in m.histories
  }

  ghost predicate Same(sha: Hash, m: MemoryStore.Memory, dirs: FileStore.Dirs) {
    MemoryStore.Consistent(m) && Untouched(m) && forall doc :: ValidId(doc) ==> SameEntry(sha, m, doc, FileStore.DirOf(dirs, DirName(doc)))
  }

  // ---- reads ----

  lemma ReadsAgree(sha: Hash, m: MemoryStore.Memory, doc: string, dir: FileStore.Dir, headOnly: bool)
    requires MemoryStore.Consistent(m) && SameEntry(sha, m, doc, dir) && MemoryStore.Plain(doc)
    ensures FileStore.ReadOf(sha, dir, doc, headOnly) == MemoryStore.ReadOf(m, doc, headOnly)
  {
    hide Intact, Commits, SameHistory, FileStore.ReadOf;
    IntactReadsAll(sha, dir, MemoryStore.LogOf(m, doc), doc, headOnly);
    MemoryStore.ReadsLog(m, doc, headOnly);
  }

  lemma {:induction false} FindsAgree(files: seq<FileStore.Checkpoint>, memory: seq<Public>, id: nat)
    requires SameHistory(files, memory)
    ensures var f, p := FileStore.Find(files, id), MemoryStore.Find(memory, id);
      (f == None <==> p == None) && (f.Some? ==> SameCheckpoint(f.value, p.value) && f.value in files)
  {
    if files != [] {
      assert SameCheckpoint(files[0], memory[0]);
      FindsAgree(files[1..], memory[1..], id);
    }
  }

  lemma HistoriesAgree(files: seq<FileStore.Checkpoint>, memory: seq<Public>)
    requires SameHistory(files, memory)
    ensures ErasedAll(Reversed(FileStore.PublicsOf(files))) == ErasedAll(Reversed(memory))
  {
    var f, m := Reversed(FileStore.PublicsOf(files)), Reversed(memory);
    forall i | 0 <= i < |f| ensures ErasedPublic(f[i]) == ErasedPublic(m[i]) {
      assert SameCheckpoint(files[|files| - 1 - i], memory[|files| - 1 - i]);
    }
  }

  // ---- checkpoints ----

  /** What a checkpoint takes from the head of an entry is the same in both stores. */
  ghost predicate SameHead(m: MemoryStore.Memory, doc: string, manifest: Option<FileStore.Manifest>) {
    (manifest.Some? <==> doc in m.heads)
    && (manifest.Some? ==> manifest.value.Current? && manifest.value.blobs == None
                           && manifest.value.version == m.heads[doc].version
                           && Number(manifest.value.head) == m.heads[doc].number)
  }

  lemma CommitsSameHead(sha: Hash, m: MemoryStore.Memory, doc: string, manifest: Option<FileStore.Manifest>)
    requires MemoryStore.Consistent(m) && Commits(sha, manifest, MemoryStore.LogOf(m, doc)) && MemoryStore.Plain(doc)
    ensures SameHead(m, doc, manifest)
  {
    hide MemoryStore.INHERITED, MemoryStore.Plain;
    assert doc in m.heads ==> MemoryStore.Counts(doc, m.heads[doc]);
  }

  lemma RecordsAgree(m: MemoryStore.Memory, doc: string, history: seq<FileStore.Checkpoint>,
                     manifest: Option<FileStore.Manifest>,
                     input: Input, stamp: Stamp)
    requires SameHead(m, doc, manifest) && SameHistory(history, MemoryStore.HistoryOf(m, doc)) && MemoryStore.Plain(doc)
    ensures var r, f := MemoryStore.Record(m, doc, input, stamp), FileStore.Recorded(history, manifest, input, stamp);
      SameCheckpoint(f.1, r.1) && SameHistory(if f.0 == None then history else f.0.value, MemoryStore.HistoryOf(r.0, doc))
  {
    hide Last;
    var memory := MemoryStore.HistoryOf(m, doc);
    var r, f := MemoryStore.Record(m, doc, input, stamp), FileStore.Recorded(history, manifest, input, stamp);
    if history != [] { assert SameCheckpoint(history[|history| - 1], memory[|memory| - 1]); }
    if f.0.Some? {
      assert r.0.histories == m.histories[doc := Last(memory + [r.1])];
      LastAgree(history + [f.1], memory + [r.1]);
    }
  }

  lemma LastAgree(history: seq<FileStore.Checkpoint>, memory: seq<Public>)
    requires |history| == |memory| && forall i :: 0 <= i < |history| ==> SameCheckpoint(history[i], memory[i])
    ensures SameHistory(Last(history), Last(memory))
  {
    hide SameCheckpoint;
    var skip := if |history| > KEPT then |history| - KEPT else 0;
    forall i | 0 <= i < |Last(history)| ensures SameCheckpoint(Last(history)[i], Last(memory)[i]) {
      assert SameCheckpoint(history[skip + i], memory[skip + i]);
    }
  }

  // ---- writes ----

  /** What an accepted write without blobs leaves of the manifest and the history. */
  lemma WriteLeaves(sha: Hash, dir: FileStore.Dir, w: Write, stamp: Stamp)
    requires NamesItself(w) && !FileStore.Refuses(dir, w) && w.blobs == None
    ensures var dir', m := FileStore.ApplyAll(dir, FileStore.Plan(sha, dir, w, stamp)), FileStore.NextManifest(sha, dir, w);
      var history := FileStore.HistoryThen(dir, w);
      dir'.manifest == Some(m)
      && dir'.history == if w.checkpoint == None then history
                         else var put := FileStore.Recorded(history, Some(m), w.checkpoint.value, stamp).0; if put == None then history else put.value
  {
    hide FileStore.Plan, FileStore.DataOps, FileStore.NextManifest, FileStore.Recorded, FileStore.Refuses;
    var ops := FileStore.Plan(sha, dir, w, stamp);
    assert ops[..|ops|] == ops;
    PlanLength(sha, dir, w, stamp);
    PlanPrefix(sha, dir, w, stamp, |ops|);
    PlanEnds(sha, dir, w, stamp);
    FileStore.DataOpsPut(dir, w);
    var last := FileStore.LastOps(sha, dir, w, stamp);
    assert last[..|last|] == last;
    var dir3 := FileStore.Apply(FileStore.ApplyAll(dir, FileStore.DataOps(dir, w)), FileStore.PutManifest(FileStore.NextManifest(sha, dir, w)));
    if last != [] { FileStore.ApplyOne(dir3, last[0]); }
  }

  lemma PlanEnds(sha: Hash, dir: FileStore.Dir, w: Write, stamp: Stamp)
    requires NamesItself(w) && !FileStore.Refuses(dir, w) && w.blobs == None
    ensures |FileStore.Plan(sha, dir, w, stamp)|
      == |FileStore.DataOps(dir, w)| + 1 + |FileStore.LastOps(sha, dir, w, stamp)|
    ensures FileStore.FirstOps(sha, w) == []
  {
    hide FileStore.DataOps, FileStore.NextManifest, FileStore.LastOps;
  }

  /** How a write ends in the files before it is put. */
  function EndedInFiles(dir: FileStore.Dir, w: Write): Option<Answer> {
    if !NamesItself(w) then Some(Refused(OtherDocument)) else if FileStore.Refuses(dir, w) then Some(Refused(Conflict)) else None
  }

  /**
   Both stores refuse a write for the same reason, or accept it, except that an append without
   a base passes for the first one under the name of an inherited method.
   */
  lemma RefusalsAgree(sha: Hash, m: MemoryStore.Memory, dir: FileStore.Dir, w: Write)
    requires MemoryStore.Consistent(m) && Untouched(m)
    requires SameEntry(sha, m, w.doc, dir) && (w.changes.Some? || w.snapshot.Some?) && w.blobs == None
    ensures MemoryStore.Put(m, w).1 == EndedInFiles(dir, w)
      <==> MemoryStore.Plain(w.doc) || !NamesItself(w) || w.changes == None || w.baseSeq.Some?
  {
    hide Intact, SameHistory, Describes, MemoryStore.INHERITED, MemoryStore.Plain;
    if NamesItself(w) {
      NextDescribes(sha, dir, MemoryStore.LogOf(m, w.doc), w);
      MemoryStore.PutServesLog(m, w, w.doc);
    }
  }

  /** After an accepted write the entries are the same again, before its checkpoint. */
  lemma EntriesAgree(sha: Hash, m: MemoryStore.Memory, dir: FileStore.Dir, w: Write, stamp: Stamp)
    requires MemoryStore.Consistent(m) && Untouched(m) && MemoryStore.Plain(w.doc)
    requires SameEntry(sha, m, w.doc, dir) && (w.changes.Some? || w.snapshot.Some?) && w.blobs == None
    requires NamesItself(w) && !FileStore.Refuses(dir, w)
    ensures var put, log := MemoryStore.Put(m, w).0, MemoryStore.LogOf(m, w.doc);
      Accepts(log, w) && MemoryStore.Consistent(put) && MemoryStore.LogOf(put, w.doc) == Some(Appended(log, w))
      && Describes(sha, FileStore.NextManifest(sha, dir, w), Appended(log, w))
      && Intact(sha, FileStore.ApplyAll(dir, FileStore.Plan(sha, dir, w, stamp)), Some(Appended(log, w)))
      && SameHistory(FileStore.HistoryThen(dir, w), MemoryStore.HistoryOf(put, w.doc))
  {
    hide Intact, SameCheckpoint, Describes, FileStore.Plan, Appended, FileStore.NextManifest, FileStore.DataOps;
    var log := MemoryStore.LogOf(m, w.doc);
    NextDescribes(sha, dir, log, w);
    MemoryStore.PutServesLog(m, w, w.doc);
    RefusalsAgree(sha, m, dir, w);
    var ops := FileStore.Plan(sha, dir, w, stamp);
    assert ops[..|ops|] == ops;
    PlanLength(sha, dir, w, stamp);
    PlanEnds(sha, dir, w, stamp);
    PutsNoBlobs(sha, dir, w);
    WriteMakesIntact(sha, dir, log, w, stamp, |ops|);
    HistoriesThen(sha, m, dir, w);
  }

  lemma PutsNoBlobs(sha: Hash, dir: FileStore.Dir, w: Write)
    requires w.blobs == None
    ensures PutsBlobs(sha, dir, FileStore.ApplyAll(dir, FileStore.FirstOps(sha, w)), w)
  {
  }

  lemma HistoriesThen(sha: Hash, m: MemoryStore.Memory, dir: FileStore.Dir, w: Write)
    requires SameHistory(dir.history, MemoryStore.HistoryOf(m, w.doc)) && MemoryStore.Put(m, w).1 == None
    ensures SameHistory(FileStore.HistoryThen(dir, w), MemoryStore.HistoryOf(MemoryStore.Put(m, w).0, w.doc))
  {
  }

  lemma WritesAgree(sha: Hash, m: MemoryStore.Memory, dir: FileStore.Dir, w: Write, stamp: Stamp)
    requires MemoryStore.Consistent(m) && Untouched(m) && MemoryStore.Plain(w.doc)
    requires SameEntry(sha, m, w.doc, dir) && (w.changes.Some? || w.snapshot.Some?) && w.blobs == None
    ensures var r := MemoryStore.WriteOf(m, w, stamp);
      SameEntry(sha, r.0, w.doc, FileStore.ApplyAll(dir, FileStore.Ops(sha, dir, WriteStore(w), stamp)))
      && Erased(FileStore.WriteAnswer(sha, dir, w, stamp)) == Erased(r.1)
  {
    hide Intact, SameHistory, Describes, FileStore.Plan, Appended, FileStore.NextManifest, FileStore.Recorded,
      MemoryStore.Record, MemoryStore.Put, MemoryStore.INHERITED, MemoryStore.Plain, FileStore.HistoryThen;
    RefusalsAgree(sha, m, dir, w);
    if NamesItself(w) && FileStore.Refuses(dir, w) {
      RefusedPlan(sha, dir, w, stamp);
      PlanIsNothing(dir, sha, w);
    } else if NamesItself(w) {
      var put, log := MemoryStore.Put(m, w).0, MemoryStore.LogOf(m, w.doc);
      EntriesAgree(sha, m, dir, w, stamp);
      WriteLeaves(sha, dir, w, stamp);
      NamesAppended(log, w);
      HeadsAgree(sha, put, FileStore.NextManifest(sha, dir, w), Appended(log, w), w.doc);
      if w.checkpoint.Some? {
        MemoryStore.RecordKeepsLogs(put, w.doc, w.checkpoint.value, stamp);
        CommitsSameHead(sha, put, w.doc, Some(FileStore.NextManifest(sha, dir, w)));
        RecordsAgree(put, w.doc, FileStore.HistoryThen(dir, w), Some(FileStore.NextManifest(sha, dir, w)), w.checkpoint.value, stamp);
      }
    }
  }

  lemma PlanIsNothing(dir: FileStore.Dir, sha: Hash, w: Write)
    requires w.blobs == None
    ensures FileStore.ApplyAll(dir, FileStore.FirstOps(sha, w)) == dir
  {
  }

  lemma NamesAppended(log: Option<Log>, w: Write)
    requires NamesItself(w) && Accepts(log, w)
    ensures Appended(log, w).meta.docId == w.doc
  {
  }

  lemma HeadsAgree(sha: Hash, m: MemoryStore.Memory, next: FileStore.Manifest, l: Log, doc: string)
    requires MemoryStore.Consistent(m) && MemoryStore.LogOf(m, doc) == Some(l) && Describes(sha, next, l)
    ensures var head := MemoryStore.HeadOf(m, doc);
      head.number == Number(next.head) && head.version == next.version && |head.changes| == |next.changes|
  {
  }

  // ---- any call ----

  /** The store in memory refuses a write that brings neither changes nor a snapshot. */
  predicate Comparable(call: Call) { MemoryStore.Brings(call) && MemoryStore.WithoutBlobs(call) }

  lemma EntryCallsAgree(sha: Hash, active: string, m: MemoryStore.Memory, dir: FileStore.Dir, expected: string,
                        call: Call, stamp: Stamp)
    requires MemoryStore.Consistent(m) && Untouched(m) && MemoryStore.Plain(DocOf(call))
    requires SameEntry(sha, m, DocOf(call), dir) && Comparable(call)
    requires Checked(active, expected, DocOf(call)) == None
    ensures var r := MemoryStore.Step(active, m, expected, call, stamp);
      SameEntry(sha, r.0, DocOf(call), FileStore.ApplyAll(dir, FileStore.Ops(sha, dir, call, stamp)))
      && Erased(FileStore.AnswerOf(sha, dir, call, stamp)) == Erased(r.1)
  {
    hide MemoryStore.INHERITED, MemoryStore.Plain;
    match call
    case ReadStore(doc, headOnly) => hide Commits, Intact; ReadsAgree(sha, m, doc, dir, headOnly);
    case WriteStore(w) => hide SameEntry; WritesAgree(sha, m, dir, w, stamp);
    case ReadHistory(doc) => hide Commits, Intact; HistoriesAgree(dir.history, MemoryStore.HistoryOf(m, doc));
    case RecordCheckpoint(doc, input) => RecordCallsAgree(sha, active, m, dir, expected, call, stamp);
    case ReadCheckpoint(doc, id) => hide Commits, Intact; FindsAgree(dir.history, MemoryStore.HistoryOf(m, doc), id);
    case DeleteStore(doc) => FileStore.ApplyOne(dir, FileStore.RemoveAll);
  }

  lemma RecordCallsAgree(sha: Hash, active: string, m: MemoryStore.Memory, dir: FileStore.Dir, expected: string,
                         call: Call, stamp: Stamp)
    requires MemoryStore.Consistent(m) && MemoryStore.Plain(DocOf(call))
    requires SameEntry(sha, m, DocOf(call), dir) && call.RecordCheckpoint?
    requires Checked(active, expected, DocOf(call)) == None
    ensures var r := MemoryStore.Step(active, m, expected, call, stamp);
      SameEntry(sha, r.0, DocOf(call), FileStore.ApplyAll(dir, FileStore.Ops(sha, dir, call, stamp)))
      && Erased(FileStore.AnswerOf(sha, dir, call, stamp)) == Erased(r.1)
  {
    hide Intact, SameHistory, Describes, FileStore.Recorded, MemoryStore.Record;
    var doc, ops := call.doc, FileStore.Ops(sha, dir, call, stamp);
    MemoryStore.RecordKeepsLogs(m, doc, call.input, stamp);
    CommitsSameHead(sha, m, doc, dir.manifest);
    RecordsAgree(m, doc, dir.history, dir.manifest, call.input, stamp);
    assert FileStore.CurrentOf(dir) == dir.manifest;
    if ops != [] {
      FileStore.ApplyOne(dir, ops[0]);
      RecordKeepsIntact(sha, dir, MemoryStore.LogOf(m, doc), ops[0]);
    }
  }

  /** A call that finds what it looks for, or that ends before it would use an inherited method. */
  predicate LooksUpWell(active: string, expected: string, call: Call) {
    Checked(active, expected, DocOf(call)).Some? || MemoryStore.Plain(DocOf(call)) || call.DeleteStore?
    || (call.WriteStore? && (!NamesItself(call.write) || (call.write.changes.Some? && call.write.baseSeq.Some?)))
  }

  /**
   One call on both stores: the same answer, exactly when it looks up well, and then the stores are
   the same again.
   */
  lemma StepAgrees(sha: Hash, active: string, m: MemoryStore.Memory, dirs: FileStore.Dirs, expected: string, call: Call,
                   stamp: Stamp)
    requires Same(sha, m, dirs) && Comparable(call)
    ensures var r, f := MemoryStore.Step(active, m, expected, call, stamp), FileStore.Step(sha, active, dirs, expected, call, stamp);
      (Erased(f.1) == Erased(r.1) <==> LooksUpWell(active, expected, call))
      && (LooksUpWell(active, expected, call) ==> Same(sha, r.0, f.0))
  {
    hide SameEntry, FileStore.Ops, FileStore.AnswerOf, Erased, MemoryStore.INHERITED, MemoryStore.Plain, Untouched;
    if Checked(active, expected, DocOf(call)) == None {
      var doc := DocOf(call);
      var r, f := MemoryStore.Step(active, m, expected, call, stamp), FileStore.Step(sha, active, dirs, expected, call, stamp);
      MemoryStore.StepServesLog(active, m, expected, call, stamp, doc);
      if MemoryStore.Plain(doc) {
        EntryCallsAgree(sha, active, m, FileStore.DirOf(dirs, DirName(doc)), expected, call, stamp);
      } else {
        InheritedCallsDiffer(sha, active, m, FileStore.DirOf(dirs, DirName(doc)), expected, call, stamp);
      }
      if LooksUpWell(active, expected, call) {
        StaysUntouched(active, m, expected, call, stamp);
        forall other | ValidId(other) ensures SameEntry(sha, r.0, other, FileStore.DirOf(f.0, DirName(other))) {
          if other != doc {
            if DirName(other) == DirName(doc) { DirNameIsInjective(other, doc); }
            OtherEntry(sha, active, m, expected, call, stamp, other, FileStore.DirOf(dirs, DirName(other)));
          }
        }
      }
    }
  }

  lemma StaysUntouched(active: string, m: MemoryStore.Memory, expected: string, call: Call, stamp: Stamp)
    requires Untouched(m) && LooksUpWell(active, expected, call)
    ensures Untouched(MemoryStore.Step(active, m, expected, call, stamp).0)
  {
    hide MemoryStore.INHERITED, MemoryStore.Plain, MemoryStore.Record, ValidId;
    match call
    case WriteStore(w) => if w.checkpoint.Some? { RecordTouches(MemoryStore.Put(m, w).0, w.doc, w.checkpoint.value, stamp); }
    case RecordCheckpoint(doc, input) => RecordTouches(m, doc, input, stamp);
    case _ =>
  }

  lemma RecordTouches(m: MemoryStore.Memory, doc: string, input: Input, stamp: Stamp)
    ensures var m' := MemoryStore.Record(m, doc, input, stamp).0;
      m'.entries == m.entries && m'.heads == m.heads && m'.histories.Keys <= m.histories.Keys + {doc}
  {
  }

  /**
   Under the name of an inherited method, nothing is stored in the files and every use of the method
   is another answer.
   */
  lemma InheritedCallsDiffer(sha: Hash, active: string, m: MemoryStore.Memory, dir: FileStore.Dir, expected: string,
                             call: Call, stamp: Stamp)
    requires MemoryStore.Consistent(m) && Untouched(m) && !MemoryStore.Plain(DocOf(call))
    requires SameEntry(sha, m, DocOf(call), dir) && Comparable(call)
    requires Checked(active, expected, DocOf(call)) == None
    ensures var r := MemoryStore.Step(active, m, expected, call, stamp);
      (Erased(FileStore.AnswerOf(sha, dir, call, stamp)) == Erased(r.1) <==> LooksUpWell(active, expected, call))
      && (LooksUpWell(active, expected, call) ==>
        SameEntry(sha, r.0, DocOf(call), FileStore.ApplyAll(dir, FileStore.Ops(sha, dir, call, stamp))))
  {
    hide MemoryStore.INHERITED, MemoryStore.Plain, ValidId;
    if call.DeleteStore? { FileStore.ApplyOne(dir, FileStore.RemoveAll); }
  }

  lemma OtherEntry(sha: Hash, active: string, m: MemoryStore.Memory, expected: string, call: Call, stamp: Stamp,
                   other: string, dir: FileStore.Dir)
    requires SameEntry(sha, m, other, dir) && other != DocOf(call)
    ensures SameEntry(sha, MemoryStore.Step(active, m, expected, call, stamp).0, other, dir)
  {
    hide Commits, Intact, SameHistory, MemoryStore.LogOf, MemoryStore.Step;
    MemoryStore.OthersStay(active, m, expected, call, stamp, other);
    MemoryStore.SameLog(m, MemoryStore.Step(active, m, expected, call, stamp).0, other);
  }

  // ---- what is answered alike ----

  /** A call that looks up well and brings its contents, or is refused before they are looked at. */
  predicate Alike(active: string, expected: string, call: Call) {
    LooksUpWell(active, expected, call)
    && (MemoryStore.Brings(call) || Checked(active, expected, DocOf(call)).Some? || !NamesItself(call.write))
  }

  /**
   A call without blobs is answered alike exactly when it looks up well and brings its contents, or
   is refused before they are looked at.
   */
  lemma AlikeExactlyWhenBrought(sha: Hash, active: string, m: MemoryStore.Memory, dirs: FileStore.Dirs,
                                expected: string, call: Call, stamp: Stamp)
    requires Same(sha, m, dirs) && MemoryStore.WithoutBlobs(call)
    ensures var r, f := MemoryStore.Step(active, m, expected, call, stamp), FileStore.Step(sha, active, dirs, expected, call, stamp);
      (Erased(f.1) == Erased(r.1) <==> Alike(active, expected, call)) && (Alike(active, expected, call) ==> Same(sha, r.0, f.0))
  {
    hide Same, LooksUpWell;
    if MemoryStore.Brings(call) {
      StepAgrees(sha, active, m, dirs, expected, call, stamp);
    } else {
      UnbroughtDiffers(sha, active, m, dirs, expected, call, stamp);
    }
  }

  /** The store in memory refuses what the files take for an empty snapshot. */
  lemma UnbroughtDiffers(sha: Hash, active: string, m: MemoryStore.Memory, dirs: FileStore.Dirs, expected: string,
                         call: Call, stamp: Stamp)
    requires !MemoryStore.Brings(call)
    ensures var r, f := MemoryStore.Step(active, m, expected, call, stamp), FileStore.Step(sha, active, dirs, expected, call, stamp);
      if Checked(active, expected, DocOf(call)).Some? || !NamesItself(call.write)
      then r.1.Refused? && f.1 == r.1 && r.0 == m && f.0 == dirs && LooksUpWell(active, expected, call)
      else r.1 == Refused(NoSnapshot) && f.1.Written?
  {
    hide FileStore.Recorded, FileStore.NextManifest, FileStore.PublicOf, ValidId;
    if Checked(active, expected, DocOf(call)) == None && !NamesItself(call.write) {
      var dir := FileStore.DirOf(dirs, DirName(DocOf(call)));
      assert FileStore.Ops(sha, dir, call, stamp) == [];
    }
  }

  // ---- whole runs ----

  datatype Turn = Turn(expected: string, call: Call, stamp: Stamp)

  function MemoryAnswers(active: string, m: MemoryStore.Memory, turns: seq<Turn>): seq<Answer>
    decreases |turns|
  {
    if turns == [] then []
    else
      var r := MemoryStore.Step(active, m, turns[0].expected, turns[0].call, turns[0].stamp);
      [Erased(r.1)] + MemoryAnswers(active, r.0, turns[1..])
  }

  function FileAnswers(sha: Hash, active: string, dirs: FileStore.Dirs, turns: seq<Turn>): seq<Answer>
    decreases |turns|
  {
    if turns == [] then []
    else
      var r := FileStore.Step(sha, active, dirs, turns[0].expected, turns[0].call, turns[0].stamp);
      [Erased(r.1)] + FileAnswers(sha, active, r.0, turns[1..])
  }

  lemma {:induction false} RunsAgree(sha: Hash, active: string, m: MemoryStore.Memory, dirs: FileStore.Dirs,
                                     turns: seq<Turn>)
    requires Same(sha, m, dirs) && forall t :: t in turns ==> MemoryStore.WithoutBlobs(t.call)
    ensures FileAnswers(sha, active, dirs, turns) == MemoryAnswers(active, m, turns)
      <==> forall t :: t in turns ==> Alike(active, t.expected, t.call)
    decreases |turns|
  {
    if turns != [] {
      hide Same, Alike, Erased, MemoryStore.Step, FileStore.Step, MemoryStore.WithoutBlobs;
      var t := turns[0];
      assert turns == [t] + turns[1..];
      assert MemoryStore.WithoutBlobs(t.call);
      AlikeExactlyWhenBrought(sha, active, m, dirs, t.expected, t.call, t.stamp);
      var r, f := MemoryStore.Step(active, m, t.expected, t.call, t.stamp), FileStore.Step(sha, active, dirs, t.expected, t.call, t.stamp);
      var memory, files := MemoryAnswers(active, r.0, turns[1..]), FileAnswers(sha, active, f.0, turns[1..]);
      SameFirst(Erased(f.1), files, Erased(r.1), memory);
      if Alike(active, t.expected, t.call) {
        RunsAgree(sha, active, r.0, f.0, turns[1..]);
      }
    }
  }

  lemma SameFirst<T>(a: T, s: seq<T>, b: T, t: seq<T>)
    ensures [a] + s == [b] + t <==> a == b && s == t
  {
    if [a] + s == [b] + t {
      assert ([a] + s)[0] == a && ([b] + t)[0] == b;
      assert s == ([a] + s)[1..] && t == ([b] + t)[1..];
    }
  }

  lemma EmptyStoresAreSame(sha: Hash)
    ensures Same(sha, MemoryStore.EMPTY, map[])
  {
  }

  /** From empty stores, a sequence of calls without blobs is answered alike exactly when each of its calls is alike. */
  lemma StoresAnswerAlike(sha: Hash, active: string, m: MemoryStore.Memory, dirs: FileStore.Dirs, turns: seq<Turn>)
    requires m == MemoryStore.EMPTY && dirs == map[]
    requires forall t :: t in turns ==> MemoryStore.WithoutBlobs(t.call)
    ensures FileAnswers(sha, active, dirs, turns) == MemoryAnswers(active, m, turns)
      <==> forall t :: t in turns ==> Alike(active, t.expected, t.call)
  {
    hide Alike;
    EmptyStoresAreSame(sha);
    RunsAgree(sha, active, m, dirs, turns);
  }

  /** Reading or storing the document `constructor` in the files finds an entry like any other. */
  lemma ConstructorDiffers(sha: Hash, active: string, m: MemoryStore.Memory, dirs: FileStore.Dirs, w: Write,
                           stamp: Stamp)
    requires m == MemoryStore.EMPTY && dirs == map[] && w.doc == "constructor"
    requires NamesItself(w) && w.changes == None && w.snapshot.Some? && w.blobs == None && w.checkpoint == None
    ensures MemoryStore.Step(active, m, "", ReadStore(w.doc, false), stamp).1 == Threw
    ensures FileStore.Step(sha, active, dirs, "", ReadStore(w.doc, false), stamp).1 == Nothing
    ensures MemoryStore.Step(active, m, "", WriteStore(w), stamp).1 == Written(NaN, w.version, false, None)
    ensures FileStore.Step(sha, active, dirs, "", WriteStore(w), stamp).1 == Written(Number(1), w.version, false, None)
  {
    hide MemoryStore.Step, ValidId, FileStore.DataOps;
    MemoryStore.ConstructorIsFound(active, m, w, stamp);
  }

  function MemoryAfter(active: string, m: MemoryStore.Memory, turns: seq<Turn>): MemoryStore.Memory
    decreases |turns|
  {
    if turns == [] then m
    else MemoryAfter(active, MemoryStore.Step(active, m, turns[0].expected, turns[0].call, turns[0].stamp).0, turns[1..])
  }

  /** The calls on one entry that pass the checks of root and id. */
  function CallsOn(active: string, turns: seq<Turn>, doc: string): seq<Call>
    decreases |turns|
  {
    if turns == [] then []
    else
      (if DocOf(turns[0].call) == doc && Checked(active, turns[0].expected, doc) == None then [turns[0].call] else [])
      + CallsOn(active, turns[1..], doc)
  }

  /**
   After any run an entry answers its own log, what the calls on it served, in order, exactly if it
   is not named like an inherited method.
   */
  lemma EntriesAnswerTheirLogs(active: string, m: MemoryStore.Memory, turns: seq<Turn>, doc: string, headOnly: bool)
    requires MemoryStore.Consistent(m) && forall t :: t in turns ==> Comparable(t.call)
    ensures var log := LogRuns.ServedAll(MemoryStore.LogOf(m, doc), CallsOn(active, turns, doc));
      MemoryStore.ReadOf(MemoryAfter(active, m, turns), doc, headOnly) == Answered(log, headOnly) <==> MemoryStore.Plain(doc)
  {
    hide MemoryStore.ReadOf, MemoryStore.Consistent, Answered;
    LogsAreServed(active, m, turns, doc);
    var m' := MemoryAfter(active, m, turns);
    MemoryStore.ReadsLog(m', doc, headOnly);
    if !MemoryStore.Plain(doc) {
      MemoryStore.InheritedReadsNoLog(m', doc, headOnly, LogRuns.ServedAll(MemoryStore.LogOf(m, doc), CallsOn(active, turns, doc)));
    }
  }

  lemma {:induction false} LogsAreServed(active: string, m: MemoryStore.Memory, turns: seq<Turn>, doc: string)
    requires MemoryStore.Consistent(m) && forall t :: t in turns ==> Comparable(t.call)
    ensures var m' := MemoryAfter(active, m, turns);
      MemoryStore.Consistent(m')
      && (MemoryStore.Plain(doc) ==> MemoryStore.LogOf(m', doc) == LogRuns.ServedAll(MemoryStore.LogOf(m, doc), CallsOn(active, turns, doc)))
    decreases |turns|
  {
    hide MemoryStore.Step, MemoryStore.LogOf, MemoryStore.Consistent, Served, Checked;
    if turns != [] {
      var t := turns[0];
      assert Comparable(t.call);
      var m' := MemoryStore.Step(active, m, t.expected, t.call, t.stamp).0;
      MemoryStore.StepServesLog(active, m, t.expected, t.call, t.stamp, doc);
      LogsAreServed(active, m', turns[1..], doc);
      var calls := CallsOn(active, turns, doc);
      if DocOf(t.call) == doc && Checked(active, t.expected, doc) == None {
        assert calls == [t.call] + CallsOn(active, turns[1..], doc);
        assert calls[1..] == CallsOn(active, turns[1..], doc);
      } else {
        assert calls == CallsOn(active, turns[1..], doc);
      }
    }
  }

  // ---- where they differ ----

  /** A new checkpoint has the same author and label in both stores exactly when neither is empty. */
  lemma AlikeExactlyWhenNamed(m: MemoryStore.Memory, doc: string, history: seq<FileStore.Checkpoint>,
                              manifest: Option<FileStore.Manifest>,
                              input: Input, stamp: Stamp)
    requires SameHead(m, doc, manifest) && SameHistory(history, MemoryStore.HistoryOf(m, doc))
    requires MemoryStore.HasHistory(m, doc)
    requires FileStore.Recorded(history, manifest, input, stamp).0.Some?
    ensures var p, f := MemoryStore.Record(m, doc, input, stamp).1, FileStore.PublicOf(FileStore.Recorded(history, manifest, input, stamp).1);
      f.author == p.author && f.title == p.title <==> input.author != Some("") && input.title != Some("")
  {
    var memory := MemoryStore.HistoryOf(m, doc);
    if history != [] { assert SameCheckpoint(history[|history| - 1], memory[|memory| - 1]); }
  }
}
