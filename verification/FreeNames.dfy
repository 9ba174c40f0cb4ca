/**
 Free file names: `unused` in `e2e/helpers/kitGrants.ts` and `uniqueName` in
 `e2e/helpers/desktopHost.ts`. Both loops have no bound in the source; they end
 because the candidates are pairwise different and a folder holds finitely many
 names.
 */
module FreeNames {
  import opened Text

  /** `lastIndexOf`, -1 when absent. */
  function LastIndex(s: string, c: char): (i: int)
    ensures -1 <= i < |s|
    ensures i == -1 ==> c !in s
    ensures i >= 0 ==> s[i] == c && c !in s[i + 1..]
  {
    if s == "" then -1
    else if s[|s| - 1] == c then |s| - 1
    else
      var i := LastIndex(s[..|s| - 1], c);
      assert s == s[..|s| - 1] + [s[|s| - 1]];
      assert i >= 0 ==> s[i + 1..] == s[..|s| - 1][i + 1..] + [s[|s| - 1]];
      i
  }

  lemma LastIndexIs(s: string, c: char, i: nat)
    requires i < |s| && s[i] == c && c !in s[i + 1..]
    ensures LastIndex(s, c) == i
  {
    var j := LastIndex(s, c);
    assert j != -1;
    assert forall k :: i < k < |s| ==> s[k] != c by {
      forall k | i < k < |s| ensures s[k] != c { assert s[k] == s[i + 1..][k - i - 1]; }
    }
    assert forall k :: j < k < |s| ==> s[k] != c by {
      forall k | j < k < |s| ensures s[k] != c { assert s[k] == s[j + 1..][k - j - 1]; }
    }
  }

  // ---- a finite set cannot hold the images of more numbers than it has elements ----

  lemma {:induction false} Pigeonhole(ks: set<nat>, f: nat -> string, names: set<string>)
    requires forall k :: k in ks ==> f(k) in names
    requires forall j, k :: j in ks && k in ks && f(j) == f(k) ==> j == k
    ensures |ks| <= |names|
    decreases |ks|
  {
    if ks != {} {
      var k :| k in ks;
      Pigeonhole(ks - {k}, f, names - {f(k)});
    }
  }

  function Below(n: nat): set<nat> { if n <= 1 then {} else Below(n - 1) + {n - 1} }

  lemma {:induction false} BelowIs(n: nat)
    requires n >= 1
    ensures |Below(n)| == n - 1
    ensures forall k :: k in Below(n) <==> 1 <= k < n
  {
    if n > 1 { BelowIs(n - 1); }
  }

  // ---- unused ----

  /** The name split before its last dot, unless that dot is its first character. */
  function Parts(name: string): (r: (string, string))
    ensures r.0 + r.1 == name
  {
    var dot := LastIndex(name, '.');
    if dot > 0 then (name[..dot], name[dot..]) else (name, "")
  }

  function Candidate(name: string, number: nat): string {
    if number == 1 then name else Parts(name).0 + " " + Decimal(number) + Parts(name).1
  }

  function LowerCase(s: string): (r: string)
    ensures |r| == |s|
  {
    seq(|s|, i requires 0 <= i < |s| => if 'A' <= s[i] <= 'Z' then (s[i] as int + 32) as char else s[i])
  }

  function ExtensionOf(name: string): string {
    var dot := LastIndex(name, '.');
    if dot > 0 then LowerCase(name[dot + 1..]) else ""
  }

  predicate LowerOf(lower: char, c: char) {
    lower as int == if 'A' <= c <= 'Z' then c as int + 32 else c as int
  }

  lemma DotAt(base: string, extension: string)
    requires '.' !in extension
    ensures var name := base + "." + extension;
      LastIndex(name, '.') == |base| && name[|base| + 1..] == extension && name[|base|..] == "." + extension
  {
    hide LastIndex;
    var name := base + "." + extension;
    assert name[|base| + 1..] == extension && name[|base|..] == "." + extension;
    LastIndexIs(name, '.', |base|);
  }

  /** The extension is what follows the last dot, in lower case, unless that dot is the first character. */
  lemma ExtensionIs(base: string, extension: string)
    requires '.' !in extension && base != ""
    ensures var r := ExtensionOf(base + "." + extension);
      |r| == |extension| && forall i :: 0 <= i < |r| ==> LowerOf(r[i], extension[i])
  {
    hide LastIndex;
    DotAt(base, extension);
  }

  lemma NoExtension(name: string)
    requires '.' !in name
    ensures ExtensionOf(name) == "" && ExtensionOf("." + name) == "" && ExtName(name) == "" && ExtName("." + name) == ""
    ensures ExtName("..") == ""
  {
    hide LastIndex;
    DotAt("", name);
    assert "" + "." + name == "." + name;
    assert LastIndex(name, '.') == -1;
  }

  lemma CandidatesDiffer(name: string, j: nat, k: nat)
    requires j >= 1 && k >= 1 && Candidate(name, j) == Candidate(name, k)
    ensures j == k
  {
    hide Decimal;
    var (base, extension) := Parts(name);
    if j != 1 && k != 1 {
      NumberedDiffer(base, extension, j, k);
    }
  }

  lemma NumberedDiffer(base: string, extension: string, j: nat, k: nat)
    requires base + " " + Decimal(j) + extension == base + " " + Decimal(k) + extension
    ensures j == k
  {
    var x, y := base + " " + Decimal(j) + extension, base + " " + Decimal(k) + extension;
    assert |Decimal(j)| == |Decimal(k)|;
    assert Decimal(j) == x[|base| + 1..|base| + 1 + |Decimal(j)|];
    assert Decimal(k) == y[|base| + 1..|base| + 1 + |Decimal(k)|];
    DecimalIsInjective(j, k);
  }

  predicate AllTaken(existing: set<string>, name: string, n: nat) {
    forall k :: 1 <= k < n ==> Candidate(name, k) in existing
  }

  /** With n names in the folder, one of the first n + 1 candidates is free. */
  lemma UnusedBound(existing: set<string>, name: string, n: nat)
    requires n >= 1 && AllTaken(existing, name, n)
    ensures n <= |existing| + 1
  {
    hide Candidate, Below;
    BelowIs(n);
    var f := (k: nat) => Candidate(name, k);
    forall j, k | j in Below(n) && k in Below(n) && f(j) == f(k) ensures j == k {
      CandidatesDiffer(name, j, k);
    }
    Pigeonhole(Below(n), f, existing);
  }

  /** The first free candidate from the `n`th on. */
  function UnusedFrom(existing: set<string>, name: string, n: nat): (r: string)
    requires n >= 1 && AllTaken(existing, name, n)
    ensures r !in existing
    ensures exists k :: n <= k <= |existing| + 1 && r == Candidate(name, k) && AllTaken(existing, name, k)
    decreases |existing| + 1 - n
  {
    UnusedBound(existing, name, n);
    if Candidate(name, n) !in existing then Candidate(name, n)
    else
      UnusedBound(existing, name, n + 1);
      UnusedFrom(existing, name, n + 1)
  }

  function Unused(existing: set<string>, name: string): string { UnusedFrom(existing, name, 1) }

  method FindUnused(existing: set<string>, name: string) returns (candidate: string, probes: nat)
    ensures candidate == Unused(existing, name) && candidate !in existing
    ensures candidate == Candidate(name, probes) && AllTaken(existing, name, probes)
    ensures 1 <= probes <= |existing| + 1
  {
    hide Candidate;
    var number := 1;
    while true
      invariant number >= 1 && AllTaken(existing, name, number)
      invariant Unused(existing, name) == UnusedFrom(existing, name, number)
      decreases |existing| + 1 - number
    {
      UnusedBound(existing, name, number);
      candidate := Candidate(name, number);
      if candidate !in existing {
        return candidate, number;
      }
      UnusedBound(existing, name, number + 1);
      number := number + 1;
    }
  }

  lemma LastIndexAppend(s: string, rest: string, c: char)
    requires c !in rest
    ensures LastIndex(s + rest, c) == LastIndex(s, c)
  {
    hide LastIndex;
    var i, all := LastIndex(s, c), s + rest;
    if i >= 0 {
      assert all[i + 1..] == s[i + 1..] + rest;
      LastIndexIs(all, c, i);
    } else {
      forall k | 0 <= k < |all| ensures all[k] != c { assert all[k] == if k < |s| then s[k] else rest[k - |s|]; }
    }
  }

  function Numbered(base: string, number: nat, extension: string): string {
    base + " " + Decimal(number) + extension
  }

  lemma NoDotInNumber(number: nat)
    ensures '.' !in " " + Decimal(number)
  {
    var digits := Decimal(number);
    forall i | 0 <= i < |digits| ensures digits[i] != '.' { assert IsDigit(digits[i]); }
  }

  /** A number before the last dot moves that dot, and nothing after it. */
  lemma NumberedDotted(base: string, number: nat, extension: string)
    requires extension != "" && extension[0] == '.' && '.' !in extension[1..]
    ensures var whole := Numbered(base, number, extension); var at := |whole| - |extension|;
      LastIndex(whole, '.') == at > 0 && whole[at..] == extension && whole[at + 1..] == extension[1..]
  {
    hide LastIndex, Decimal;
    var whole := Numbered(base, number, extension);
    var at := |whole| - |extension|;
    assert whole[at + 1..] == extension[1..] && whole[at..] == extension;
    LastIndexIs(whole, '.', at);
  }

  lemma NumberedPlain(base: string, number: nat)
    ensures LastIndex(Numbered(base, number, ""), '.') == LastIndex(base, '.')
  {
    hide LastIndex, Decimal;
    NoDotInNumber(number);
    assert Numbered(base, number, "") == base + (" " + Decimal(number));
    LastIndexAppend(base, " " + Decimal(number), '.');
  }

  lemma DotParts(name: string)
    requires LastIndex(name, '.') > 0
    ensures var dot := LastIndex(name, '.');
      name[dot..] != "" && name[dot..][0] == '.' && name[dot..][1..] == name[dot + 1..] && '.' !in name[dot + 1..]
  {
    hide LastIndex;
  }

  /** Every candidate keeps the name's extension. */
  lemma CandidateKeepsExtension(name: string, number: nat)
    ensures ExtensionOf(Candidate(name, number)) == ExtensionOf(name)
  {
    hide LastIndex, Decimal, LowerCase, Numbered;
    if number != 1 {
      CandidateIsNumbered(name, number);
      if LastIndex(name, '.') > 0 {
        DotParts(name);
        NumberedDotted(name[..LastIndex(name, '.')], number, name[LastIndex(name, '.')..]);
      } else {
        NumberedPlain(name, number);
      }
    }
  }

  lemma CandidateIsNumbered(name: string, number: nat)
    requires number != 1
    ensures Candidate(name, number) == Numbered(Parts(name).0, number, Parts(name).1)
  {
  }

  /** The part of `unused` the grants rely on: free, same extension, hidden only if the name was. */
  lemma UnusedKeeps(existing: set<string>, name: string)
    requires name != ""
    ensures var r := Unused(existing, name);
      r !in existing && ExtensionOf(r) == ExtensionOf(name) && r != "" && r[0] == name[0]
      && ('/' !in name ==> '/' !in r)
  {
    hide Candidate, ExtensionOf;
    var r := Unused(existing, name);
    var k :| 1 <= k <= |existing| + 1 && r == Candidate(name, k);
    CandidateKeepsExtension(name, k);
    CandidateShape(name, k);
  }

  lemma CandidateShape(name: string, number: nat)
    requires name != ""
    ensures var r := Candidate(name, number);
      r != "" && r[0] == name[0] && forall c :: c in r ==> c in name || c == ' ' || IsDigit(c)
  {
    hide Decimal;
    var (base, extension) := Parts(name);
    assert base != "" && base[0] == name[0];
    assert name == base + extension;
  }

  // ---- uniqueName ----

  /** Node's `path.extname` of one path component. */
  function ExtName(name: string): string {
    var dot := LastIndex(name, '.');
    if dot <= 0 || name == ".." then "" else name[dot..]
  }

  /** Node's `path.extname`: from the last dot on, which is not the first character. */
  lemma ExtNameIs(base: string, extension: string)
    requires '.' !in extension && base != "" && base + "." + extension != ".."
    ensures ExtName(base + "." + extension) == "." + extension
  {
    hide LastIndex;
    DotAt(base, extension);
  }

  function Stem(name: string): (r: string)
    ensures r + ExtName(name) == name
  {
    name[..|name| - |ExtName(name)|]
  }

  /** Node's `path.basename(name, extension)` of one path component. */
  function BaseName(name: string, extension: string): string {
    if extension != "" && |extension| <= |name| && name[|name| - |extension|..] == extension
    then name[..|name| - |extension|] else name
  }

  function NumberedStem(requested: string, index: nat): string {
    if index == 1 then Stem(requested) else Stem(requested) + " " + Decimal(index)
  }

  function NumberedName(requested: string, index: nat): string { NumberedStem(requested, index) + ExtName(requested) }

  predicate Taken(existing: set<string>, requested: string, sibling: bool, index: nat) {
    NumberedName(requested, index) in existing || (sibling && NumberedStem(requested, index) in existing)
  }

  predicate TakenBelow(existing: set<string>, requested: string, sibling: bool, n: nat) {
    forall k :: 1 <= k < n ==> Taken(existing, requested, sibling, k)
  }

  lemma StemsDiffer(requested: string, j: nat, k: nat)
    requires j >= 1 && k >= 1
    requires NumberedStem(requested, j) == NumberedStem(requested, k) || NumberedName(requested, j) == NumberedName(requested, k)
    ensures j == k
  {
    hide Decimal;
    var x, y := NumberedStem(requested, j), NumberedStem(requested, k);
    assert x == NumberedName(requested, j)[..|NumberedName(requested, j)| - |ExtName(requested)|];
    assert y == NumberedName(requested, k)[..|NumberedName(requested, k)| - |ExtName(requested)|];
    assert x == y;
    if j != 1 && k != 1 {
      assert x + "" == y + "";
      NumberedDiffer(Stem(requested), "", j, k);
    }
  }

  lemma NamesBound(ks: set<nat>, existing: set<string>, requested: string)
    requires forall k :: k in ks ==> k >= 1 && NumberedName(requested, k) in existing
    ensures |ks| <= |existing|
  {
    hide NumberedName, NumberedStem;
    forall j, k | j in ks && k in ks && NumberedName(requested, j) == NumberedName(requested, k) ensures j == k {
      StemsDiffer(requested, j, k);
    }
    Pigeonhole(ks, (k: nat) => NumberedName(requested, k), existing);
  }

  lemma StemsBound(ks: set<nat>, existing: set<string>, requested: string)
    requires forall k :: k in ks ==> k >= 1 && NumberedStem(requested, k) in existing
    ensures |ks| <= |existing|
  {
    hide NumberedName, NumberedStem;
    forall j, k | j in ks && k in ks && NumberedStem(requested, j) == NumberedStem(requested, k) ensures j == k {
      StemsDiffer(requested, j, k);
    }
    Pigeonhole(ks, (k: nat) => NumberedStem(requested, k), existing);
  }

  /** Each name in the folder takes at most one candidate as a file and one as its sibling folder. */
  lemma UniqueBound(existing: set<string>, requested: string, sibling: bool, n: nat)
    requires n >= 1 && TakenBelow(existing, requested, sibling, n)
    ensures n <= 2 * |existing| + 1 && (!sibling ==> n <= |existing| + 1)
  {
    hide NumberedName, NumberedStem, Below;
    BelowIs(n);
    var asName := set k | k in Below(n) && NumberedName(requested, k) in existing;
    var asStem := Below(n) - asName;
    NamesBound(asName, existing, requested);
    Partition(Below(n), asName);
    if sibling {
      forall k | k in asStem ensures NumberedStem(requested, k) in existing {
        assert Taken(existing, requested, sibling, k);
      }
      StemsBound(asStem, existing, requested);
    } else {
      forall k | k in Below(n) ensures k in asName {
        assert Taken(existing, requested, sibling, k);
      }
      assert asStem == {};
    }
  }

  lemma Partition(whole: set<nat>, part: set<nat>)
    requires part <= whole
    ensures |part| + |whole - part| == |whole|
  {
    assert whole == part + (whole - part);
  }

  lemma BaseOfNumbered(requested: string, index: nat)
    ensures BaseName(NumberedName(requested, index), ExtName(requested)) == NumberedStem(requested, index)
  {
    var stem, extension := NumberedStem(requested, index), ExtName(requested);
    assert (stem + extension)[|stem|..] == extension && (stem + extension)[..|stem|] == stem;
    assert extension == "" ==> stem + extension == stem;
  }

  method UniqueName(existing: set<string>, requested: string,
                    siblingFolder: bool) returns (candidate: string, probes: nat)
    ensures candidate == NumberedName(requested, probes)
    ensures !Taken(existing, requested, siblingFolder, probes) && TakenBelow(existing, requested, siblingFolder, probes)
    ensures 1 <= probes <= 2 * |existing| + 1 && (!siblingFolder ==> probes <= |existing| + 1)
    ensures ExtName(candidate) == ExtName(requested) <==> requested != ".." || probes == 1
  {
    hide NumberedName, NumberedStem, ExtName, Stem, BaseName;
    var extension, stem := ExtName(requested), Stem(requested);
    candidate := requested;
    var index := 2;
    FirstName(requested);
    while true
      invariant index >= 2 && candidate == NumberedName(requested, index - 1)
      invariant TakenBelow(existing, requested, siblingFolder, index - 1)
      decreases 2 * |existing| + 2 - index
    {
      var candidateStem := BaseName(candidate, extension);
      BaseOfNumbered(requested, index - 1);
      UniqueBound(existing, requested, siblingFolder, index - 1);
      if !(candidate in existing || (siblingFolder && candidateStem in existing)) {
        probes := index - 1;
        KeepsExtensionExactly(requested, probes);
        return;
      }
      UniqueBound(existing, requested, siblingFolder, index);
      LaterName(requested, index);
      candidate := stem + " " + Decimal(index) + extension;
      index := index + 1;
    }
  }

  lemma FirstName(requested: string)
    ensures NumberedName(requested, 1) == requested
  {
  }

  lemma LaterName(requested: string, index: nat)
    requires index != 1
    ensures NumberedName(requested, index) == Numbered(Stem(requested), index, ExtName(requested))
  {
  }

  lemma NumberedKeepsExtension(requested: string, index: nat)
    requires requested != ".."
    ensures ExtName(NumberedName(requested, index)) == ExtName(requested)
  {
    hide LastIndex, Decimal, Numbered;
    if index == 1 {
      FirstName(requested);
    } else {
      LaterName(requested, index);
      NumberedIsNotDots(Stem(requested), index, ExtName(requested));
      if LastIndex(requested, '.') > 0 {
        DotParts(requested);
        NumberedDotted(Stem(requested), index, ExtName(requested));
      } else {
        NumberedPlain(requested, index);
      }
    }
  }

  lemma NumberedIsNotDots(base: string, number: nat, extension: string)
    ensures Numbered(base, number, extension) != ".."
  {
    assert Numbered(base, number, extension)[|base|] == ' ';
  }

  /** Every numbered name has the extension of the requested one, but for `..`: Node gives it none, and `.. 2` one. */
  lemma KeepsExtensionExactly(requested: string, index: nat)
    requires index >= 1
    ensures ExtName(NumberedName(requested, index)) == ExtName(requested) <==> requested != ".." || index == 1
  {
    hide ExtName, NumberedName;
    if requested != ".." {
      NumberedKeepsExtension(requested, index);
    } else if index == 1 {
      FirstName(requested);
    } else {
      DotsLoseExtension(requested, index);
    }
  }

  lemma DotsLoseExtension(dots: string, index: nat)
    requires dots == ".." && index >= 2
    ensures ExtName(dots) == "" && ExtName(NumberedName(dots, index)) == ". " + Decimal(index)
  {
    hide LastIndex, Decimal, Numbered;
    LaterName(dots, index);
    assert Stem(dots) == dots;
    NumberedPlain(dots, index);
    NumberedIsNotDots(dots, index, "");
    LastIndexIs(dots, '.', 1);
    assert Numbered(dots, index, "")[1..] == ". " + Decimal(index) by { NumberedDots(dots, index); }
  }

  lemma NumberedDots(dots: string, index: nat)
    requires dots == ".."
    ensures Numbered(dots, index, "") == ".." + (" " + Decimal(index))
    ensures Numbered(dots, index, "")[1..] == ". " + Decimal(index)
  {
    hide Decimal;
  }

  // ---- the candidates ----

  /** A name with an extension is numbered before it, one without at its end. */
  lemma CandidatesAre(base: string, extension: string, number: nat)
    requires '.' !in extension && base != "" && number >= 2
    ensures Candidate(base + "." + extension, number) == base + " " + Decimal(number) + ("." + extension)
    ensures base + "." + extension != ".." ==>
      NumberedName(base + "." + extension, number) == base + " " + Decimal(number) + ("." + extension)
    ensures '.' !in base ==> Candidate(base, number) == NumberedName(base, number) == base + " " + Decimal(number)
  {
    hide LastIndex, Decimal;
    var name := base + "." + extension;
    DotAt(base, extension);
    assert name[..|base|] == base;
    if name != ".." { ExtNameIs(base, extension); }
    if '.' !in base {
      NoExtension(base);
      assert LastIndex(base, '.') == -1;
      assert base + " " + Decimal(number) + "" == base + " " + Decimal(number);
    }
  }
}
