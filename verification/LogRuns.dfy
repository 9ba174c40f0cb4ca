/**
 The log of one entry over whole runs of calls, each of which took effect or did not: a call
 is refused, or cut off, or served as `Served` says.
 */
module LogRuns {
  import opened Options
  import opened Blobs
  import opened Documents

  ghost predicate Follows(logs: seq<Option<Log>>, calls: seq<Call>) {
    |logs| == |calls| + 1 && forall i :: 0 <= i < |calls| ==> Took(logs, calls, i)
  }

  ghost predicate Took(logs: seq<Option<Log>>, calls: seq<Call>, i: nat)
    requires |logs| == |calls| + 1 && i < |calls|
  {
    logs[i + 1] == logs[i] || logs[i + 1] == Served(logs[i], calls[i])
  }

  predicate Appends(call: Call, base: int) {
    call.WriteStore? && NamesItself(call.write) && call.write.changes.Some? && call.write.baseSeq == Some(base)
  }

  /** The number of the head never falls while nothing is deleted. */
  lemma {:induction false} HeadGrows(logs: seq<Option<Log>>, calls: seq<Call>, i: nat, j: nat)
    requires Follows(logs, calls) && i <= j <= |calls|
    requires forall k :: i <= k < j ==> !calls[k].DeleteStore?
    ensures HeadSeq(logs[i]) <= HeadSeq(logs[j])
    decreases j
  {
    if i < j {
      HeadGrows(logs, calls, i, j - 1);
      assert Took(logs, calls, j - 1);
    }
  }

  /** Of the appends made on one base, at most one takes effect between two deletes. */
  lemma AppendWinsOnce(logs: seq<Option<Log>>, calls: seq<Call>, i: nat, j: nat, base: int)
    requires Follows(logs, calls) && i < j < |calls|
    requires Appends(calls[i], base) && Appends(calls[j], base) && logs[i + 1] != logs[i] && logs[j + 1] != logs[j]
    ensures exists k :: i < k < j && calls[k].DeleteStore?
  {
    assert Took(logs, calls, i) && Took(logs, calls, j);
    assert HeadSeq(logs[i + 1]) == base + 1 && HeadSeq(logs[j]) == base;
    if forall k :: i + 1 <= k < j ==> !calls[k].DeleteStore? {
      HeadGrows(logs, calls, i + 1, j);
    }
  }

  // ---- calls that all run to their end ----

  function ServedAll(log: Option<Log>, calls: seq<Call>): Option<Log>
    decreases |calls|
  {
    if calls == [] then log else ServedAll(Served(log, calls[0]), calls[1..])
  }

  /** The change of a call, when it is an append that is accepted. */
  function AcceptedOf(log: Option<Log>, call: Call): seq<Bytes> {
    if call.WriteStore? && NamesItself(call.write) && call.write.changes.Some? && Accepts(log, call.write)
    then [call.write.changes.value] else []
  }

  function Accepted(log: Option<Log>, calls: seq<Call>): seq<Bytes>
    decreases |calls|
  {
    if calls == [] then [] else AcceptedOf(log, calls[0]) + Accepted(Served(log, calls[0]), calls[1..])
  }

  predicate Replaces(call: Call) { call.DeleteStore? || (call.WriteStore? && NamesItself(call.write) && call.write.changes == None) }

  lemma ServedAppends(l: Log, call: Call)
    requires !Replaces(call)
    ensures var next := Served(Some(l), call);
      next.Some? && next.value.snapshot == l.snapshot && next.value.first == l.first && next.value.changes == l.changes + AcceptedOf(Some(l), call)
  {
    assert l.changes + [] == l.changes;
  }

  lemma {:induction false} AppendsAfter(l: Log, calls: seq<Call>)
    requires forall k :: 0 <= k < |calls| ==> !Replaces(calls[k])
    ensures var after := ServedAll(Some(l), calls);
      after.Some? && after.value.snapshot == l.snapshot && after.value.first == l.first
      && after.value.changes == l.changes + Accepted(Some(l), calls)
    decreases |calls|
  {
    hide Served, AcceptedOf, Replaces;
    if calls == [] {
      assert l.changes + [] == l.changes;
    } else {
      assert !Replaces(calls[0]);
      ServedAppends(l, calls[0]);
      AppendsAfter(Served(Some(l), calls[0]).value, calls[1..]);
    }
  }

  /** An entry is its last snapshot and the changes accepted since, in order, numbered on from the snapshot. */
  lemma LastSnapshotAndSince(log: Option<Log>, w: Write, since: seq<Call>)
    requires NamesItself(w) && w.changes == None
    requires forall k :: 0 <= k < |since| ==> !Replaces(since[k])
    ensures var after := ServedAll(log, [WriteStore(w)] + since);
      after.Some? && after.value.snapshot == (if w.snapshot.Some? then w.snapshot.value else [])
      && after.value.first == HeadSeq(log) + 1 && after.value.changes == Accepted(Served(log, WriteStore(w)), since)
  {
    var calls := [WriteStore(w)] + since;
    assert calls[1..] == since;
    AppendsAfter(Appended(log, w), since);
  }

  /** With a delete between them two appends on one base both win: numbering starts again. */
  lemma DeleteRestartsNumbers(meta: Meta, change: Bytes)
    ensures var doc := meta.docId;
      var snapshot := Write(doc, Some(meta), None, None, Some([]), None, false, None, None);
      var append := Write(doc, Some(meta), Some(change), Some(1), None, None, false, None, None);
      var first := ServedAll(None, [WriteStore(snapshot)]);
      var second := ServedAll(first, [WriteStore(append), DeleteStore(doc), WriteStore(snapshot)]);
      Accepts(first, append) && Accepts(second, append) && first == second
  {
    var doc := meta.docId;
    var snapshot := WriteStore(Write(doc, Some(meta), None, None, Some([]), None, false, None, None));
    var append := WriteStore(Write(doc, Some(meta), Some(change), Some(1), None, None, false, None, None));
    var first := Served(None, snapshot);
    assert ServedAll(None, [snapshot]) == ServedAll(first, []) by { assert [snapshot][1..] == []; }
    var calls := [append, DeleteStore(doc), snapshot];
    assert calls[1..] == [DeleteStore(doc), snapshot] && calls[1..][1..] == [snapshot] && [snapshot][1..] == [];
    assert ServedAll(first, calls) == ServedAll(Served(first, append), calls[1..]);
    assert ServedAll(Served(first, append), calls[1..]) == ServedAll(None, [snapshot]);
  }
}
