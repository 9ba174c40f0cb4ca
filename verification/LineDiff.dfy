/** The single changed block of lines between two texts (`lineDiff` in `e2e/helpers/noteKit.ts`). */
module LineDiff {
  import opened Text

  /** `b` is `a` with the lines between its first `start` and last `tail` ones replaced. */
  ghost predicate Replaces(a: seq<string>, b: seq<string>, start: nat, tail: nat, removed: seq<string>,
                           added: seq<string>) {
    start + tail <= |a|
    && a == a[..start] + removed + a[|a| - tail..]
    && b == a[..start] + added + a[|a| - tail..]
  }

  /** The block keeps as many lines as possible: it ends at its sides, or it fills a text. */
  ghost predicate Tight(a: seq<string>, b: seq<string>, start: nat, tail: nat) {
    start + tail <= |a| && start + tail <= |b|
    && (start == |a| || start == |b| || a[start] != b[start])
    && (start + tail == |a| || start + tail == |b| || a[|a| - 1 - tail] != b[|b| - 1 - tail])
  }

  lemma TightIsMinimal(a: seq<string>, b: seq<string>, start: nat, tail: nat, removed: seq<string>, added: seq<string>,
                       start': nat, tail': nat, removed': seq<string>, added': seq<string>)
    requires Replaces(a, b, start, tail, removed, added) && Tight(a, b, start, tail)
    requires Replaces(a, b, start', tail', removed', added')
    ensures |removed| <= |removed'| && |added| <= |added'|
  {
    assert |removed'| == |a| - start' - tail' && |added'| == |b| - start' - tail';
    assert forall k :: 0 <= k < start' ==> a[k] == b[k];
    assert forall k :: |a| - tail' <= k < |a| ==> a[k] == b[k - |a| + |b|];
  }

  /** No replacement of a single block removes or adds fewer lines. */
  ghost predicate Minimal(a: seq<string>, b: seq<string>, removed: seq<string>, added: seq<string>) {
    forall start, tail, removed', added' :: Replaces(a, b, start, tail, removed', added')
      ==> |removed| <= |removed'| && |added| <= |added'|
  }

  method LineDiff(before: string, after: string)
    returns (removed: seq<string>, added: seq<string>, ghost start: nat, ghost tail: nat)
    ensures var a, b := Split(before, '\n'), Split(after, '\n');
      Replaces(a, b, start, tail, removed, added) && Minimal(a, b, removed, added)
    ensures removed == [] && added == [] <==> before == after
  {
    hide Split, Replaces, Minimal;
    var a := Split(before, '\n');
    var b := Split(after, '\n');
    var from := 0;
    while from < |a| && from < |b| && a[from] == b[from]
      invariant 0 <= from <= |a| && from <= |b|
      invariant forall k :: 0 <= k < from ==> a[k] == b[k]
    {
      from := from + 1;
    }
    var endA, endB := |a|, |b|;
    while endA > from && endB > from && a[endA - 1] == b[endB - 1]
      invariant from <= endA <= |a| && from <= endB <= |b|
      invariant |a| - endA == |b| - endB
      invariant forall k :: endA <= k < |a| ==> a[k] == b[k - |a| + |b|]
    {
      endA := endA - 1;
      endB := endB - 1;
    }
    removed, added := a[from..endA], b[from..endB];
    start, tail := from, |a| - endA;
    Found(a, b, from, endA, endB);
    Ends(before, after, a, b, start, tail, removed, added);
  }

  lemma Found(a: seq<string>, b: seq<string>, from: nat, endA: nat, endB: nat)
    requires from <= endA <= |a| && from <= endB <= |b| && |a| - endA == |b| - endB
    requires forall k :: 0 <= k < from ==> a[k] == b[k]
    requires forall k :: endA <= k < |a| ==> a[k] == b[k - |a| + |b|]
    requires Tight(a, b, from, |a| - endA)
    ensures Replaces(a, b, from, |a| - endA, a[from..endA], b[from..endB])
    ensures Minimal(a, b, a[from..endA], b[from..endB])
  {
    assert a == a[..from] + a[from..endA] + a[endA..];
    assert b == a[..from] + b[from..endB] + a[endA..];
    forall start, tail, removed', added' | Replaces(a, b, start, tail, removed', added')
      ensures |a[from..endA]| <= |removed'| && |b[from..endB]| <= |added'|
    {
      TightIsMinimal(a, b, from, |a| - endA, a[from..endA], b[from..endB], start, tail, removed', added');
    }
  }

  lemma Ends(before: string, after: string, a: seq<string>, b: seq<string>, start: nat, tail: nat, removed: seq<string>,
             added: seq<string>)
    requires a == Split(before, '\n') && b == Split(after, '\n')
    requires Replaces(a, b, start, tail, removed, added) && Tight(a, b, start, tail)
    ensures removed == [] && added == [] <==> before == after
  {
    JoinSplit(before, '\n');
    JoinSplit(after, '\n');
    if before == after {
      assert a[..|a|] + [] + a[|a| - 0..] == a;
      TightIsMinimal(a, b, start, tail, removed, added, |a|, 0, [], []);
    }
  }
}
