/**
 Signed runtime paths: `src/services/runtimeAuth.ts` makes them, and the gate in
 `crates/kition-http/src/gate.rs` reads them back. Both use one keyed code of 32
 bytes, given here as a function of the token and the signed text.
 */
module SignedPaths {
  import opened Options
  import opened Text
  import opened Words
  import opened Sha256

  type Code = b: Bytes | |b| == 32 witness seq(32, _ => 0)
  type Mac = (string, string) -> Code

  datatype Scope = File | Folder

  const SIGNED_ROOT := "/_signed/"
  const HOUR_SECONDS := 3600
  const SIGNED_HOURS := 25
  const U64: nat := 0x1_0000_0000_0000_0000

  predicate StartsWith(s: string, prefix: string) { prefix <= s }

  // ---- the renderer ----

  function SignedExpiry(nowMs: int): int { (nowMs / (1000 * HOUR_SECONDS) + SIGNED_HOURS) * HOUR_SECONDS }

  function DecimalInt(n: int): string { if n < 0 then "-" + Decimal(-n) else Decimal(n) }

  predicate LineTerminator(c: char) { c == '\n' || c == '\r' || c as int == 0x2028 || c as int == 0x2029 }

  /** The first index of `?` or `#`, or the length. */
  function SuffixStart(path: string): (i: nat)
    ensures i <= |path|
    ensures forall k :: 0 <= k < i ==> path[k] != '?' && path[k] != '#'
    ensures i < |path| ==> path[i] == '?' || path[i] == '#'
  {
    if path == "" || path[0] == '?' || path[0] == '#' then 0 else 1 + SuffixStart(path[1..])
  }

  /**
   The two groups of `/^([^?#]*)(.*)$/`: `.` matches no line terminator, and without a match the
   whole path is signed.
   */
  function PathParts(path: string): (r: (string, string))
    ensures r.0 + r.1 == path
    ensures StartsWith(path, "/") ==> StartsWith(r.0, "/")
  {
    var i := SuffixStart(path);
    if exists k :: i <= k < |path| && LineTerminator(path[k]) then (path, "") else (path[..i], path[i..])
  }

  function Stamp(expires: int, length: nat, code: Code): string {
    DecimalInt(expires) + "." + Decimal(length) + "." + Hex(code)
  }

  /** The `length` of a JavaScript string: its UTF-16 units. */
  function Units(s: string): nat { if s == "" then 0 else (if s[0] as int < 0x10000 then 1 else 2) + Units(s[1..]) }

  function SignedText(expires: int, scope: string): string { DecimalInt(expires) + "\n" + scope }

  predicate Signs(token: string, path: string, scope: Scope) {
    token != "" && StartsWith(path, "/") && !StartsWith(path, SIGNED_ROOT)
    && (scope == Folder ==> var p := PathParts(path).0; p[|p| - 1] == '/')
  }

  function SignRuntimePath(mac: Mac, token: string, path: string, scope: Scope, now: int): string {
    if !Signs(token, path, scope) then path
    else
      var parts, expires := PathParts(path), SignedExpiry(now);
      SIGNED_ROOT + Stamp(expires, Units(parts.0), mac(token, SignedText(expires, parts.0))) + parts.0 + parts.1
  }

  // ---- the gate ----

  function Find(s: string, c: char): (r: Option<nat>)
    ensures r == None ==> c !in s
    ensures r.Some? ==> r.value < |s| && s[r.value] == c && c !in s[..r.value]
  {
    if s == "" then None
    else if s[0] == c then Some(0)
    else match Find(s[1..], c)
      case None => None
      case Some(i) => assert s[..i + 1] == [s[0]] + s[1..][..i]; Some(i + 1)
  }

  /** `str::parse` for unsigned numbers: decimal digits, with an optional `+`. */
  function ParseU64(s: string): Option<nat> {
    var digits := if StartsWith(s, "+") then s[1..] else s;
    if digits != "" && Digits(digits) && Value(digits) < U64 then Some(Value(digits)) else None
  }

  function HexValue(c: char): Option<Byte> {
    if '0' <= c <= '9' then Some(c as int - 48)
    else if 'a' <= c <= 'f' then Some(c as int - 87)
    else if 'A' <= c <= 'F' then Some(c as int - 55)
    else None
  }

  function HexDecode(s: string): Option<Bytes> {
    if s == "" then Some([])
    else if |s| == 1 then None
    else match (HexValue(s[0]), HexValue(s[1]), HexDecode(s[2..]))
      case (Some(high), Some(low), Some(rest)) =>
        if high < 16 && low < 16 then Some([16 * high + low] + rest) else None
      case _ => None
  }

  /** The bytes of a character in UTF-8. */
  function ByteCount(c: char): nat {
    if c as int < 0x80 then 1 else if c as int < 0x800 then 2 else if c as int < 0x10000 then 3 else 4
  }

  function ByteLength(s: string): nat { if s == "" then 0 else ByteCount(s[0]) + ByteLength(s[1..]) }

  /** `str::get(..length)`: the first `length` bytes, when they are there and end with a character. */
  function Get(s: string, length: nat): (r: Option<string>)
    ensures r.Some? ==> r.value <= s && ByteLength(r.value) == length
  {
    if length == 0 then Some("")
    else if s == "" || ByteCount(s[0]) > length then None
    else match Get(s[1..], length - ByteCount(s[0]))
      case None => None
      case Some(rest) => assert ([s[0]] + rest)[1..] == rest; Some([s[0]] + rest)
  }

  predicate Ascii(s: string) { forall i :: 0 <= i < |s| ==> s[i] as int < 0x80 }

  datatype Parsed = Parsed(expires: nat, length: nat, signature: Bytes, target: string)

  /** The fields of a signed path, before any of them is believed. */
  function ParseSigned(path: string): Option<Parsed> {
    if !StartsWith(path, SIGNED_ROOT) then None
    else
      var rest := path[|SIGNED_ROOT|..];
      match Find(rest, '/')
      case None => None
      case Some(slash) =>
        var stamp, target := rest[..slash], rest[slash..];
        match Find(stamp, '.')
        case None => None
        case Some(dot) =>
          match Find(stamp[dot + 1..], '.')
          case None => None
          case Some(second) =>
            match (ParseU64(stamp[..dot]), ParseU64(stamp[dot + 1..][..second]), HexDecode(stamp[dot + 1..][second + 1..]))
            case (Some(expires), Some(length), Some(signature)) => Some(Parsed(expires, length, signature, target))
            case _ => None
  }

  /** `verify_signed` for `GET` and `HEAD`: the path a signed path names, when its signature holds now. */
  function VerifySigned(mac: Mac, token: string, signable: seq<string>, path: string, now: nat): Option<string> {
    match ParseSigned(path)
    case None => None
    case Some(p) =>
      if p.expires < now || p.length == 0 then None
      else
        match Get(p.target, p.length)
        case None => None
        case Some(scope) =>
          if !(exists i :: 0 <= i < |signable| && StartsWith(scope, signable[i])) then None
          else if p.signature == mac(token, SignedText(p.expires, scope)) then Some(p.target) else None
  }

  // ---- proofs ----

  lemma {:induction false} HexRoundTrip(b: Bytes)
    ensures HexDecode(Hex(b)) == Some(b)
  {
    if b != [] {
      HexRoundTrip(b[1..]);
      HexStep(b);
      assert HexValue(HexDigit(b[0] / 16)) == Some(b[0] / 16);
      assert HexValue(HexDigit(b[0] % 16)) == Some(b[0] % 16);
      assert [b[0]] + b[1..] == b;
    }
  }

  lemma FindAt(before: string, c: char, after: string)
    requires c !in before
    ensures Find(before + [c] + after, c) == Some(|before|)
  {
    var s := before + [c] + after;
    assert s[|before|] == c;
    forall j | |before| < j <= |s| ensures c in s[..j] {
      assert s[..j][|before|] == c;
    }
    forall j | 0 <= j < |before| ensures s[j] != c {
      assert s[j] == before[j];
    }
  }

  lemma ParseDecimal(n: nat)
    requires n < U64
    ensures ParseU64(Decimal(n)) == Some(n)
  {
    ValueOfDecimal(n);
    assert IsDigit(Decimal(n)[0]);
  }

  lemma StampText(expires: nat, length: nat, code: Code)
    ensures '/' !in Stamp(expires, length, code)
    ensures '.' !in Decimal(expires) && '.' !in Decimal(length)
  {
    forall i | 0 <= i < |Decimal(expires)| ensures IsDigit(Decimal(expires)[i]) {}
    forall i | 0 <= i < |Decimal(length)| ensures IsDigit(Decimal(length)[i]) {}
  }

  /** A stamp followed by any text that starts with `/` reads back as exactly its own fields. */
  lemma ParseStamped(expires: nat, length: nat, code: Code, target: string)
    requires expires < U64 && length < U64 && StartsWith(target, "/")
    ensures ParseSigned(SIGNED_ROOT + Stamp(expires, length, code) + target)
      == Some(Parsed(expires, length, code, target))
  {
    hide Find, Hex, HexDecode, Decimal, ParseU64;
    var stamp := Stamp(expires, length, code);
    var path := SIGNED_ROOT + stamp + target;
    StampText(expires, length, code);
    assert path[|SIGNED_ROOT|..] == stamp + ['/'] + target[1..];
    FindAt(stamp, '/', target[1..]);
    assert (stamp + ['/'] + target[1..])[..|stamp|] == stamp && (stamp + ['/'] + target[1..])[|stamp|..] == target;
    StampFields(expires, length, code);
  }

  lemma ThreeFields(first: string, middle: string, last: string)
    requires '.' !in first && '.' !in middle
    ensures var stamp := first + "." + middle + "." + last;
      Find(stamp, '.') == Some(|first|) && stamp[..|first|] == first
      && Find(stamp[|first| + 1..], '.') == Some(|middle|)
      && stamp[|first| + 1..][..|middle|] == middle && stamp[|first| + 1..][|middle| + 1..] == last
  {
    hide Find;
    var stamp, tail := first + "." + middle + "." + last, middle + ['.'] + last;
    assert stamp == first + ['.'] + tail;
    FindAt(first, '.', tail);
    FindAt(middle, '.', last);
    assert stamp[|first| + 1..] == tail && stamp[..|first|] == first;
    assert tail[..|middle|] == middle && tail[|middle| + 1..] == last;
  }

  /** The first text is the expiry, the second the length, the third the signature. */
  ghost predicate HasFields(stamp: string, dot: nat, second: nat, expires: nat, length: nat, code: Code) {
    Find(stamp, '.') == Some(dot) && dot < |stamp| && Find(stamp[dot + 1..], '.') == Some(second) && second < |stamp[dot + 1..]|
    && ParseU64(stamp[..dot]) == Some(expires)
    && ParseU64(stamp[dot + 1..][..second]) == Some(length)
    && HexDecode(stamp[dot + 1..][second + 1..]) == Some(code)
  }

  lemma TextFields(first: string, middle: string, last: string, expires: nat, length: nat, code: Code)
    requires '.' !in first && '.' !in middle
    requires ParseU64(first) == Some(expires) && ParseU64(middle) == Some(length) && HexDecode(last) == Some(code)
    ensures HasFields(first + "." + middle + "." + last, |first|, |middle|, expires, length, code)
  {
    hide Find, HexDecode, ParseU64;
    ThreeFields(first, middle, last);
  }

  lemma StampFields(expires: nat, length: nat, code: Code)
    requires expires < U64 && length < U64
    ensures HasFields(Stamp(expires, length, code), |Decimal(expires)|, |Decimal(length)|, expires, length, code)
  {
    hide Hex, HexDecode, Decimal, ParseU64, HasFields;
    StampText(expires, length, code);
    ParseDecimal(expires);
    ParseDecimal(length);
    HexRoundTrip(code);
    TextFields(Decimal(expires), Decimal(length), Hex(code), expires, length, code);
  }

  // ---- how long the signed part is ----

  lemma {:induction false} GetsPrefix(s: string, rest: string)
    ensures Get(s + rest, ByteLength(s)) == Some(s)
  {
    if s != "" {
      GetsPrefix(s[1..], rest);
      assert (s + rest)[1..] == s[1..] + rest && s == [s[0]] + s[1..];
    }
  }

  /** The renderer counts UTF-16 units, the gate bytes: the same for text in ASCII, and only there. */
  lemma {:induction false} UnitsAreBytes(s: string)
    ensures Units(s) <= ByteLength(s) && (Units(s) == ByteLength(s) <==> Ascii(s))
  {
    if s != "" {
      UnitsAreBytes(s[1..]);
      assert s == [s[0]] + s[1..];
      assert Ascii(s) <==> s[0] as int < 0x80 && Ascii(s[1..]);
    }
  }

  /**
   The gate finds the signed part of a signed path, whatever is appended to it, exactly when it is in
   ASCII, as percent-encoded paths are.
   */
  lemma SignedPartIsRead(path: string, appended: string)
    ensures Get(path + appended, Units(path)) == Some(path) <==> Ascii(path)
  {
    UnitsAreBytes(path);
    GetsPrefix(path, appended);
  }

  lemma {:induction false} SameUnits(p: string, x: string, q: string, y: string)
    requires p + x == q + y && Units(p) == Units(q)
    ensures p == q && x == y
  {
    if p != "" && q != "" {
      assert (p + x)[0] == p[0] == (q + y)[0] == q[0];
      assert (p + x)[1..] == p[1..] + x && (q + y)[1..] == q[1..] + y;
      SameUnits(p[1..], x, q[1..], y);
      assert p == [p[0]] + p[1..] && q == [q[0]] + q[1..];
    } else {
      assert p == "" && q == "" && "" + x == x && "" + y == y;
    }
  }

  /** Two signed paths with anything appended are the same text only when they say the same. */
  lemma SignedPathsAreUnambiguous(e1: nat, c1: Code, p1: string, x1: string, e2: nat, c2: Code, p2: string, x2: string)
    requires e1 < U64 && e2 < U64 && Units(p1) < U64 && Units(p2) < U64
    requires StartsWith(p1, "/") && StartsWith(p2, "/")
    requires SIGNED_ROOT + Stamp(e1, Units(p1), c1) + (p1 + x1) == SIGNED_ROOT + Stamp(e2, Units(p2), c2) + (p2 + x2)
    ensures e1 == e2 && c1 == c2 && p1 == p2 && x1 == x2
  {
    ParseStamped(e1, Units(p1), c1, p1 + x1);
    ParseStamped(e2, Units(p2), c2, p2 + x2);
    SameUnits(p1, x1, p2, x2);
  }

  /**
   The gate reads what the renderer signed: a signed path, percent-encoded, without its
   query and fragment and with any text `appended` to it, names the unsigned path with that
   text, exactly while it has not expired and for the paths the gate may sign.
   */
  lemma SignedPathVerifies(mac: Mac, token: string, signable: seq<string>, path: string, scope: Scope, now: int,
                           appended: string, gateNow: nat)
    requires Signs(token, path, scope) && PathParts(path).1 == "" && Ascii(path)
    requires 0 <= SignedExpiry(now) < U64 && Units(path) < U64
    ensures VerifySigned(mac, token, signable, SignRuntimePath(mac, token, path, scope, now) + appended, gateNow)
      == if gateNow <= SignedExpiry(now) && exists i :: 0 <= i < |signable| && StartsWith(path, signable[i])
         then Some(path + appended) else None
  {
    hide Hex, HexDecode, Decimal, Find, ParseSigned, SuffixStart, Get, Units, Ascii;
    var expires := SignedExpiry(now);
    var code := mac(token, SignedText(expires, path));
    assert PathParts(path).0 == path by { assert path + "" == path; }
    assert SignRuntimePath(mac, token, path, scope, now) + appended
        == SIGNED_ROOT + Stamp(expires, Units(path), code) + (path + appended);
    ParseStamped(expires, Units(path), code, path + appended);
    SignedPartIsRead(path, appended);
    HasUnits(path);
  }

  lemma HasUnits(path: string)
    ensures path != "" ==> Units(path) > 0
  {
  }

  /** The query and the fragment stay behind the signed part, unsigned. */
  lemma SuffixIsKept(mac: Mac, token: string, path: string, scope: Scope, now: int)
    requires Signs(token, path, scope)
    ensures var p := PathParts(path);
      PathParts(p.0).1 == "" && Signs(token, p.0, scope)
      && SignRuntimePath(mac, token, path, scope, now) == SignRuntimePath(mac, token, p.0, scope, now) + p.1
  {
    var p := PathParts(path);
    assert p.0 <= path;
    assert p.1 != "" ==> SuffixStart(p.0) == |p.0|;
    assert PathParts(p.0) == (p.0, "") by { assert p.0 + "" == p.0; }
    var head := SIGNED_ROOT + Stamp(SignedExpiry(now), Units(p.0), mac(token, SignedText(SignedExpiry(now), p.0))) + p.0;
    assert SignRuntimePath(mac, token, p.0, scope, now) == head + "" == head;
  }

  /** A signed path is left as it is, whatever the options. */
  lemma SigningIsIdempotent(mac: Mac, token: string, path: string, s1: Scope, now1: int, s2: Scope, now2: int)
    ensures var once := SignRuntimePath(mac, token, path, s1, now1);
      once != path ==> SignRuntimePath(mac, token, once, s2, now2) == once
    ensures var once := SignRuntimePath(mac, token, path, s1, now1);
      SignRuntimePath(mac, token, once, s1, now2) == (if once == path then SignRuntimePath(mac, token, path, s1, now2) else once)
  {
    hide Hex, Decimal, SuffixStart, Stamp, SignedText;
    if Signs(token, path, s1) {
      var once := SignRuntimePath(mac, token, path, s1, now1);
      var parts := PathParts(path);
      var rest := Stamp(SignedExpiry(now1), Units(parts.0), mac(token, SignedText(SignedExpiry(now1), parts.0))) + parts.0 + parts.1;
      assert once == SIGNED_ROOT + rest;
    }
  }

  /** Signed paths last more than 24 and at most 25 hours, and do not change within an hour. */
  lemma ExpiryWindow(now: int, later: int)
    ensures 24 * HOUR_SECONDS * 1000 < SignedExpiry(now) * 1000 - now <= 25 * HOUR_SECONDS * 1000
    ensures SignedExpiry(now) == SignedExpiry(later) <==> now / 3_600_000 == later / 3_600_000
  {
    assert now == 3_600_000 * (now / 3_600_000) + now % 3_600_000;
  }

  // ---- what is signed, and what the gate lets through ----

  /** What stands before the query and the fragment; a path with a line break behind them is taken whole. */
  lemma PathIsBefore(path: string, rest: string)
    requires '?' !in path && '#' !in path && (rest == "" || rest[0] == '?' || rest[0] == '#')
    requires forall k :: 0 <= k < |rest| ==> !LineTerminator(rest[k])
    ensures PathParts(path + rest) == (path, rest)
  {
    var all := path + rest;
    SuffixIsAt(path, rest);
    hide SuffixStart;
    assert all[..|path|] == path && all[|path|..] == rest;
    forall k | |path| <= k < |all| ensures !LineTerminator(all[k]) { assert all[k] == rest[k - |path|]; }
  }

  lemma {:induction false} SuffixIsAt(path: string, rest: string)
    requires '?' !in path && '#' !in path && (rest == "" || rest[0] == '?' || rest[0] == '#')
    ensures SuffixStart(path + rest) == |path|
  {
    if path == "" {
      assert path + rest == rest;
    } else {
      assert (path + rest)[1..] == path[1..] + rest && (path + rest)[0] == path[0];
      SuffixIsAt(path[1..], rest);
    }
  }

  /**
   With a token, every path from the root that is not signed yet is signed, a folder only when its
   path ends in a slash.
   */
  lemma SignsExactly(mac: Mac, token: string, path: string, scope: Scope, now: int)
    ensures SignRuntimePath(mac, token, path, scope, now) != path
      <==> token != "" && |path| > 0 && path[0] == '/' && path[..if |path| < 9 then |path| else 9] != SIGNED_ROOT
           && (scope == Folder ==> EndsInSlash(PathParts(path).0))
  {
    hide Hex, Decimal, SuffixStart, Stamp, SignedText, Units;
    RootPrefix(path);
    if Signs(token, path, scope) {
      var parts := PathParts(path);
      var rest := Stamp(SignedExpiry(now), Units(parts.0), mac(token, SignedText(SignedExpiry(now), parts.0))) + parts.0 + parts.1;
      assert SignRuntimePath(mac, token, path, scope, now) == SIGNED_ROOT + rest;
    }
  }

  predicate EndsInSlash(s: string) { s != "" && s[|s| - 1] == '/' }

  lemma RootPrefix(path: string)
    ensures StartsWith(path, SIGNED_ROOT) <==> path[..if |path| < 9 then |path| else 9] == SIGNED_ROOT
    ensures StartsWith(path, "/") <==> |path| > 0 && path[0] == '/'
  {
    assert |SIGNED_ROOT| == 9;
  }

  /**
   What the gate lets through was signed for it: the text after the stamp starts with as many bytes
   as the stamp says, which may be signed and have their code for the expiry in the stamp, and that
   has not passed.
   */
  lemma GateAcceptsOnlySigned(mac: Mac, token: string, signable: seq<string>, path: string, now: nat, target: string)
    requires VerifySigned(mac, token, signable, path, now) == Some(target)
    ensures exists stamp :: path == SIGNED_ROOT + stamp + target && StampSays(mac, token, signable, stamp, now, target)
  {
    hide HexDecode, ParseU64, Get, SignedText, ParseSigned;
    var p := ParseSigned(path).value;
    var first, middle, last := StampOf(path, p);
    var stamp := first + "." + middle + "." + last;
    assert Signed(mac, token, signable, first, middle, last, now, target);
    assert StampSays(mac, token, signable, stamp, now, target);
  }

  /** The three texts that a signed path was parsed from. */
  lemma StampOf(path: string, p: Parsed) returns (first: string, middle: string, last: string)
    requires ParseSigned(path) == Some(p)
    ensures path == SIGNED_ROOT + (first + "." + middle + "." + last) + p.target && '.' !in first && '.' !in middle
    ensures ParseU64(first) == Some(p.expires) && ParseU64(middle) == Some(p.length)
    ensures HexDecode(last) == Some(p.signature)
  {
    hide HexDecode, ParseU64, Find;
    var rest := path[|SIGNED_ROOT|..];
    var slash := Find(rest, '/').value;
    var stamp := rest[..slash];
    first, middle, last := DotsSplit(stamp);
    assert path == SIGNED_ROOT + stamp + p.target;
  }

  lemma DotsSplit(stamp: string) returns (first: string, middle: string, last: string)
    requires Find(stamp, '.').Some? && Find(stamp[Find(stamp, '.').value + 1..], '.').Some?
    ensures var dot := Find(stamp, '.').value;
      var second := Find(stamp[dot + 1..], '.').value;
      first == stamp[..dot] && middle == stamp[dot + 1..][..second] && last == stamp[dot + 1..][second + 1..]
      && stamp == first + "." + middle + "." + last && '.' !in first && '.' !in middle
  {
    hide Find;
    var dot := Find(stamp, '.').value;
    var tail := stamp[dot + 1..];
    var second := Find(tail, '.').value;
    first, middle, last := stamp[..dot], tail[..second], tail[second + 1..];
    CutAt(stamp, dot);
    CutAt(tail, second);
    Regrouped(first, middle, last);
  }

  lemma CutAt(s: string, i: nat)
    requires i < |s| && s[i] == '.'
    ensures s == s[..i] + "." + s[i + 1..]
  {
  }

  lemma Regrouped(first: string, middle: string, last: string)
    ensures first + "." + (middle + "." + last) == first + "." + middle + "." + last
  {
  }

  ghost predicate StampSays(mac: Mac, token: string, signable: seq<string>, stamp: string, now: nat, target: string) {
    exists first, middle, last ::
      stamp == first + "." + middle + "." + last && '.' !in first && '.' !in middle && Signed(mac, token, signable, first, middle, last, now, target)
  }

  ghost predicate Signed(mac: Mac, token: string, signable: seq<string>, expires: string, length: string, code: string,
                         now: nat, target: string) {
    && ParseU64(expires).Some? && ParseU64(length).Some? && now <= ParseU64(expires).value && 0 < ParseU64(length).value
    && exists scope :: scope <= target && ByteLength(scope) == ParseU64(length).value && MayBeSigned(signable, scope)
         && HexDecode(code) == Some(mac(token, SignedText(ParseU64(expires).value, scope)))
  }

  ghost predicate MayBeSigned(signable: seq<string>, scope: string) {
    exists i :: 0 <= i < |signable| && signable[i] <= scope
  }

  /** The code covers the expiry and the path: no two of them give one text. */
  lemma SignedTextIsInjective(e1: nat, p1: string, e2: nat, p2: string)
    requires SignedText(e1, p1) == SignedText(e2, p2)
    ensures e1 == e2 && p1 == p2
  {
    hide Decimal, Find;
    NoBreakInDecimal(e1);
    NoBreakInDecimal(e2);
    FindAt(Decimal(e1), '\n', p1);
    FindAt(Decimal(e2), '\n', p2);
    var text := SignedText(e1, p1);
    assert text == Decimal(e1) + ['\n'] + p1 && text == Decimal(e2) + ['\n'] + p2;
    assert |Decimal(e1)| == |Decimal(e2)|;
    assert text[..|Decimal(e1)|] == Decimal(e1) && text[..|Decimal(e2)|] == Decimal(e2);
    assert text[|Decimal(e1)| + 1..] == p1 && text[|Decimal(e2)| + 1..] == p2;
    DecimalIsInjective(e1, e2);
  }

  lemma NoBreakInDecimal(n: nat)
    ensures '\n' !in Decimal(n)
  {
    forall i | 0 <= i < |Decimal(n)| ensures Decimal(n)[i] != '\n' { assert IsDigit(Decimal(n)[i]); }
  }
}
