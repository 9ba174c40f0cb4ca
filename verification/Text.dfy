/** Lines, blanks and decimal numbers of strings. */
module Text {
  // ---- lines ----

  function Split(s: string, c: char): (r: seq<string>)
    ensures |r| > 0
    ensures forall i :: 0 <= i < |r| ==> c !in r[i]
  {
    if s == "" then [""]
    else Cons(s[0], c, Split(s[1..], c))
  }

  /** The parts of a text that starts with `x`, given those of its rest. */
  function Cons(x: char, c: char, parts: seq<string>): (r: seq<string>)
    requires |parts| > 0 && forall i :: 0 <= i < |parts| ==> c !in parts[i]
    ensures |r| > 0 && forall i :: 0 <= i < |r| ==> c !in r[i]
  {
    if x == c then [""] + parts else [[x] + parts[0]] + parts[1..]
  }

  function Join(parts: seq<string>, c: char): string
    requires |parts| > 0
  {
    if |parts| == 1 then parts[0] else parts[0] + [c] + Join(parts[1..], c)
  }

  lemma {:induction false} JoinSplit(s: string, c: char)
    ensures Join(Split(s, c), c) == s
  {
    if s != "" {
      JoinSplit(s[1..], c);
      var rest := Split(s[1..], c);
      if s[0] == c {
        assert ([""] + rest)[1..] == rest;
      } else if |rest| > 1 {
        assert ([[s[0]] + rest[0]] + rest[1..])[1..] == rest[1..];
      }
    }
  }

  /** A part without the separator, then the separator: the part is the first one. */
  lemma {:induction false} SplitFirst(part: string, s: string, c: char)
    requires c !in part
    ensures Split(part + [c] + s, c) == [part] + Split(s, c)
  {
    var whole := part + [c] + s;
    if part == "" {
      assert whole[1..] == s;
    } else {
      SplitFirst(part[1..], s, c);
      assert whole[1..] == part[1..] + [c] + s;
      assert [part[0]] + part[1..] == part;
    }
  }

  lemma {:induction false} SplitOne(part: string, c: char)
    requires c !in part
    ensures Split(part, c) == [part]
  {
    if part != "" {
      SplitOne(part[1..], c);
      assert [part[0]] + part[1..] == part;
    }
  }

  lemma {:induction false} SplitJoin(parts: seq<string>, c: char)
    requires |parts| > 0 && forall i :: 0 <= i < |parts| ==> c !in parts[i]
    ensures Split(Join(parts, c), c) == parts
  {
    if |parts| == 1 {
      SplitOne(parts[0], c);
    } else {
      SplitJoin(parts[1..], c);
      SplitFirst(parts[0], Join(parts[1..], c), c);
    }
  }

  lemma SplitCons(x: char, s: string, c: char)
    ensures Split([x] + s, c) == Cons(x, c, Split(s, c))
  {
    assert ([x] + s)[1..] == s;
  }

  /** Only the last, unfinished part changes when text is appended. */
  lemma {:induction false} SplitAppend(s: string, t: string, c: char)
    ensures var head := Split(s, c);
      Split(s + t, c) == head[..|head| - 1] + Split(head[|head| - 1] + t, c)
  {
    if s == "" {
      assert s + t == t && "" + t == t;
    } else {
      var x, rest := s[0], Split(s[1..], c);
      var last := rest[|rest| - 1];
      SplitAppend(s[1..], t, c);
      assert s == [x] + s[1..] && s + t == [x] + (s[1..] + t);
      SplitCons(x, s[1..], c);
      SplitCons(x, s[1..] + t, c);
      SplitCons(x, last + t, c);
      assert [x] + last + t == [x] + (last + t);
      Extended(x, c, rest, Split(last + t, c));
    }
  }

  lemma Extended(x: char, c: char, rest: seq<string>, more: seq<string>)
    requires |rest| > 0 && forall i :: 0 <= i < |rest| ==> c !in rest[i]
    requires |more| > 0 && forall i :: 0 <= i < |more| ==> c !in more[i]
    ensures var head := Cons(x, c, rest);
      Cons(x, c, rest[..|rest| - 1] + more)
      == head[..|head| - 1] + (if x != c && |rest| == 1 then Cons(x, c, more) else more)
  {
  }

  // ---- blanks ----

  /** The white space `String.prototype.trim` removes, on one UTF-16 unit. */
  predicate Space(c: char) {
    var u := c as int;
    9 <= u <= 13 || u == 0x20 || u == 0xa0 || u == 0x1680 || 0x2000 <= u <= 0x200a
    || u == 0x2028 || u == 0x2029 || u == 0x202f || u == 0x205f || u == 0x3000 || u == 0xfeff
  }

  predicate Blank(s: string) { forall i :: 0 <= i < |s| ==> Space(s[i]) }

  function TrimStart(s: string): (r: string)
    ensures r == "" || !Space(r[0])
    ensures |r| <= |s| && r == s[|s| - |r|..]
  {
    if s == "" || !Space(s[0]) then s else TrimStart(s[1..])
  }

  function TrimEnd(s: string): (r: string)
    ensures r == "" || !Space(r[|r| - 1])
    ensures r <= s
  {
    if s == "" || !Space(s[|s| - 1]) then s else TrimEnd(s[..|s| - 1])
  }

  function Trim(s: string): (r: string)
    ensures r == "" || (!Space(r[0]) && !Space(r[|r| - 1]))
  {
    TrimEnd(TrimStart(s))
  }

  predicate Trimmed(s: string) { s == "" || (!Space(s[0]) && !Space(s[|s| - 1])) }

  /** Trimming changes exactly the strings that have a blank at an end, and shortens them. */
  lemma TrimChanges(s: string)
    ensures Trimmed(Trim(s)) && |Trim(s)| <= |s| && (Trim(s) == s <==> Trimmed(s))
    ensures (|Trim(s)| == |s| ==> Trim(s) == s)
  {
  }

  /** `t` is `s` without the blanks at its ends. */
  ghost predicate TrimsTo(s: string, t: string) {
    Trimmed(t) && exists before, after :: Blank(before) && Blank(after) && s == before + t + after
  }

  lemma {:induction false} TakenIsSpace(s: string, i: nat)
    requires i < |s| - |TrimStart(s)|
    ensures Space(s[i])
  {
    hide Space;
    if i > 0 { TakenIsSpace(s[1..], i - 1); }
  }

  lemma StartIsSpace(s: string) returns (before: string)
    ensures Blank(before) && s == before + TrimStart(s)
  {
    hide Space, TrimStart;
    before := s[..|s| - |TrimStart(s)|];
    forall i | 0 <= i < |before| ensures Space(before[i]) { TakenIsSpace(s, i); }
  }

  lemma {:induction false} EndIsSpace(s: string) returns (after: string)
    ensures Blank(after) && s == TrimEnd(s) + after
  {
    hide Space;
    if s != "" && Space(s[|s| - 1]) {
      var rest := EndIsSpace(s[..|s| - 1]);
      after := rest + [s[|s| - 1]];
      assert s == s[..|s| - 1] + [s[|s| - 1]];
      assert (TrimEnd(s[..|s| - 1]) + rest) + [s[|s| - 1]] == TrimEnd(s[..|s| - 1]) + after;
    } else {
      after := "";
    }
  }

  /** Trimming takes blanks and nothing else, at the ends and nowhere else. */
  lemma TrimIs(s: string)
    ensures TrimsTo(s, Trim(s))
  {
    TrimChanges(s);
    var before := StartIsSpace(s);
    var after := EndIsSpace(TrimStart(s));
    hide Space, Blank, TrimStart, TrimEnd, Trimmed;
    assert Trim(s) == TrimEnd(TrimStart(s));
    hide Trim;
    Joined(before, Trim(s), after);
    assert s == before + Trim(s) + after;
  }

  lemma Joined(a: string, b: string, c: string)
    ensures a + (b + c) == a + b + c
  {
  }

  lemma {:induction false} StartSkips(before: string, s: string)
    requires Blank(before)
    ensures TrimStart(before + s) == TrimStart(s)
  {
    hide Space;
    if before == "" {
      assert before + s == s;
    } else {
      assert (before + s)[1..] == before[1..] + s;
      StartSkips(before[1..], s);
    }
  }

  lemma {:induction false} EndSkips(s: string, after: string)
    requires Blank(after)
    ensures TrimEnd(s + after) == TrimEnd(s)
  {
    hide Space;
    if after == "" {
      assert s + after == s;
    } else {
      assert (s + after)[..|s + after| - 1] == s + after[..|after| - 1];
      EndSkips(s, after[..|after| - 1]);
    }
  }

  /** There is only one such text. */
  lemma TrimIsOnly(s: string, t: string)
    requires TrimsTo(s, t)
    ensures t == Trim(s)
  {
    hide Space;
    var before, after :| Blank(before) && Blank(after) && s == before + t + after;
    Joined(before, t, after);
    StartSkips(before, t + after);
    if t == "" {
      assert t + after == after + "";
      StartSkips(after, "");
    } else {
      assert (t + after)[0] == t[0];
      EndSkips(t, after);
    }
  }

  // ---- decimal numbers ----

  predicate IsDigit(c: char) { '0' <= c <= '9' }
  predicate Digits(s: string) { forall i :: 0 <= i < |s| ==> IsDigit(s[i]) }

  function DigitChar(n: nat): (c: char)
    requires n < 10
    ensures IsDigit(c) && c as int - 48 == n
  {
    (48 + n) as char
  }

  function Decimal(n: nat): (r: string)
    ensures r != "" && Digits(r)
  {
    if n < 10 then [DigitChar(n)] else Decimal(n / 10) + [DigitChar(n % 10)]
  }

  function Value(s: string): nat
    requires Digits(s)
  {
    if s == "" then 0 else 10 * Value(s[..|s| - 1]) + (s[|s| - 1] as int - 48)
  }

  lemma {:induction false} ValueOfDecimal(n: nat)
    ensures Value(Decimal(n)) == n
  {
    if n >= 10 {
      ValueOfDecimal(n / 10);
      var d := Decimal(n / 10);
      assert (d + [DigitChar(n % 10)])[..|d|] == d;
    } else {
      assert [DigitChar(n)][..0] == "";
    }
  }

  lemma DecimalIsInjective(m: nat, n: nat)
    requires Decimal(m) == Decimal(n)
    ensures m == n
  {
    ValueOfDecimal(m);
    ValueOfDecimal(n);
  }
}
