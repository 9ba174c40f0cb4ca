/**
 Blob bundles (`storeBlobs` and `readBlobs` in `e2e/helpers/desktopHost.ts`): a bundle is
 `(SHA-256 in hex, length as 64 bits, little end first, bytes)` over and over, kept as one
 file per blob under the name of its hash; a bundle of any other form is kept whole.
 The hash is a parameter: 64 bytes long, and free of collisions among the contents named.
 */
module Blobs {
  import opened Options

  type Byte = b: nat | b < 256
  type Bytes = seq<Byte>
  type Hash = Bytes -> Bytes
  /** The files of `blobs/`, by name. */
  type Files = map<Bytes, Bytes>

  /** What the manifest keeps: the hashes of the blobs, or the hash of the whole bundle. */
  datatype BlobRecord = Parts(names: seq<Bytes>) | Whole(name: Bytes)

  ghost predicate IsHash(sha: Hash) { forall b :: |sha(b)| == 64 }

  ghost predicate Distinguishes(sha: Hash, contents: set<Bytes>) {
    forall a, b :: a in contents && b in contents && sha(a) == sha(b) ==> a == b
  }

  // ---- 64-bit lengths ----

  const TWO_64 := 0x1_0000_0000_0000_0000

  function Radix(n: nat): (r: nat)
    ensures n == 0 ==> r == 1
    ensures r > 0
  {
    if n == 0 then 1 else 256 * Radix(n - 1)
  }

  function LittleEndian(value: nat, bytes: nat): (r: Bytes)
    ensures |r| == bytes
  {
    if bytes == 0 then [] else [value % 256] + LittleEndian(value / 256, bytes - 1)
  }

  function Value(bytes: Bytes): nat {
    if bytes == [] then 0 else bytes[0] + 256 * Value(bytes[1..])
  }

  lemma {:induction false} ValueOfLittleEndian(value: nat, bytes: nat)
    requires value < Radix(bytes)
    ensures Value(LittleEndian(value, bytes)) == value
  {
    if bytes > 0 {
      assert LittleEndian(value, bytes)[1..] == LittleEndian(value / 256, bytes - 1);
      ValueOfLittleEndian(value / 256, bytes - 1);
    }
  }

  lemma LowByte(low: Byte, rest: nat)
    ensures (low + 256 * rest) % 256 == low && (low + 256 * rest) / 256 == rest
  {
  }

  lemma {:induction false} LittleEndianOfValue(bytes: Bytes)
    ensures Value(bytes) < Radix(|bytes|) && LittleEndian(Value(bytes), |bytes|) == bytes
  {
    if bytes != [] {
      var rest := Value(bytes[1..]);
      LittleEndianOfValue(bytes[1..]);
      LowByte(bytes[0], rest);
      assert LittleEndian(Value(bytes), |bytes|) == [bytes[0]] + LittleEndian(rest, |bytes| - 1);
    }
  }

  lemma RadixOfEight()
    ensures Radix(8) == TWO_64
  {
    assert Radix(2) == 0x1_0000;
    assert Radix(4) == 0x1_0000_0000;
    assert Radix(6) == 0x1_0000_0000_0000;
  }

  // ---- the form of a bundle ----

  /** One blob of a bundle. */
  function Item(sha: Hash, data: Bytes): Bytes {
    sha(data) + LittleEndian(|data|, 8) + data
  }

  function Bundle(sha: Hash, blobs: seq<Bytes>): Bytes {
    if blobs == [] then [] else Item(sha, blobs[0]) + Bundle(sha, blobs[1..])
  }

  /** The blobs of a bundle that starts `bundle`, `None` for a bundle of any other form. */
  function Parsed(sha: Hash, bundle: Bytes): (r: Option<seq<Bytes>>)
    decreases |bundle|
  {
    if bundle == [] then Some([])
    else if |bundle| < 72 then None
    else
      var size := Value(bundle[64..72]);
      if 72 + size > |bundle| || sha(bundle[72..72 + size]) != bundle[..64] then None
      else
        var rest := Parsed(sha, bundle[72 + size..]);
        if rest == None then None else Some([bundle[72..72 + size]] + rest.value)
  }

  /** The first blob of a parsed bundle is its first item. */
  lemma FirstItem(sha: Hash, bundle: Bytes, size: nat)
    requires 72 + size <= |bundle| && Value(bundle[64..72]) == size && sha(bundle[72..72 + size]) == bundle[..64]
    ensures bundle == Item(sha, bundle[72..72 + size]) + bundle[72 + size..]
  {
    LittleEndianOfValue(bundle[64..72]);
    hide Value, LittleEndian;
    assert bundle == bundle[..64] + bundle[64..72] + bundle[72..72 + size] + bundle[72 + size..];
  }

  /** What is parsed prints back to the same bytes. */
  lemma {:induction false} BundleOfParsed(sha: Hash, bundle: Bytes)
    requires Parsed(sha, bundle).Some?
    ensures Bundle(sha, Parsed(sha, bundle).value) == bundle
    decreases |bundle|
  {
    if bundle != [] {
      hide Value, LittleEndian, Item;
      var size := Value(bundle[64..72]);
      var data, rest := bundle[72..72 + size], bundle[72 + size..];
      BundleOfParsed(sha, rest);
      FirstItem(sha, bundle, size);
      var blobs := Parsed(sha, rest).value;
      assert Parsed(sha, bundle) == Some([data] + blobs);
      assert ([data] + blobs)[1..] == blobs;
      assert Bundle(sha, [data] + blobs) == Item(sha, data) + Bundle(sha, blobs);
    }
  }

  /** What is printed parses back to the same blobs: the form is unambiguous. */
  lemma {:induction false} ParsedOfBundle(sha: Hash, blobs: seq<Bytes>)
    requires IsHash(sha) && forall b :: b in blobs ==> |b| < TWO_64
    ensures Parsed(sha, Bundle(sha, blobs)) == Some(blobs)
  {
    if blobs != [] {
      var data, rest := blobs[0], Bundle(sha, blobs[1..]);
      var bundle := Bundle(sha, blobs);
      ParsedOfBundle(sha, blobs[1..]);
      RadixOfEight();
      ValueOfLittleEndian(|data|, 8);
      assert bundle == sha(data) + LittleEndian(|data|, 8) + data + rest;
      assert bundle[64..72] == LittleEndian(|data|, 8);
      assert bundle[72..72 + |data|] == data && bundle[72 + |data|..] == rest && bundle[..64] == sha(data);
      assert [data] + blobs[1..] == blobs;
    }
  }

  /**
   The loop of `storeBlobs`. A size read as a JavaScript number is exact below 2^53, and no
   Buffer is as long as that, so a rounded one differs from every length as the exact one does.
   */
  method Parse(sha: Hash, bundle: Bytes) returns (whole: bool, blobs: seq<(Bytes, Bytes)>)
    requires IsHash(sha)
    ensures whole <==> Parsed(sha, bundle) == None
    ensures !whole ==> |blobs| == |Parsed(sha, bundle).value|
    ensures !whole ==> forall i :: 0 <= i < |blobs| ==> blobs[i] == (sha(Parsed(sha, bundle).value[i]), Parsed(sha, bundle).value[i])
  {
    hide Parsed, Value;
    blobs, whole := [], false;
    var at := 0;
    ghost var found: seq<Bytes> := [];
    assert bundle[0..] == bundle;
    while at < |bundle|
      invariant 0 <= at <= |bundle| && !whole
      invariant |found| == |blobs| && forall i :: 0 <= i < |blobs| ==> blobs[i] == (sha(found[i]), found[i])
      invariant Parsed(sha, bundle) == Prefixed(found, Parsed(sha, bundle[at..]))
    {
      ParsedAt(sha, bundle, at);
      if at + 72 > |bundle| { whole := true; break; }
      var hash := bundle[at..at + 64];
      var size := Value(bundle[at + 64..at + 72]);
      var data := bundle[at + 72..if at + 72 + size > |bundle| then |bundle| else at + 72 + size];
      if |data| != size || sha(data) != hash {
        whole := true;
        break;
      }
      blobs := blobs + [(hash, data)];
      PrefixedAgain(found, data, Parsed(sha, bundle[at + 72 + size..]));
      found := found + [data];
      at := at + 72 + size;
    }
    if !whole { NothingParses(sha, bundle, at); }
  }

  lemma NothingParses(sha: Hash, bundle: Bytes, at: nat)
    requires at == |bundle|
    ensures Parsed(sha, bundle[at..]) == Some([])
  {
  }

  /** The rest of a bundle from `at` on, read in place. */
  lemma ParsedAt(sha: Hash, bundle: Bytes, at: nat)
    requires at < |bundle|
    ensures at + 72 > |bundle| ==> Parsed(sha, bundle[at..]) == None
    ensures at + 72 <= |bundle| ==>
      var size := Value(bundle[at + 64..at + 72]);
      Parsed(sha, bundle[at..]) ==
        if at + 72 + size > |bundle| || sha(bundle[at + 72..at + 72 + size]) != bundle[at..at + 64] then None
        else
          var rest := Parsed(sha, bundle[at + 72 + size..]);
          if rest == None then None else Some([bundle[at + 72..at + 72 + size]] + rest.value)
  {
    hide Value;
    var rest := bundle[at..];
    if at + 72 <= |bundle| {
      var size := Value(bundle[at + 64..at + 72]);
      assert rest[64..72] == bundle[at + 64..at + 72] && rest[..64] == bundle[at..at + 64];
      if at + 72 + size <= |bundle| {
        assert rest[72..72 + size] == bundle[at + 72..at + 72 + size] && rest[72 + size..] == bundle[at + 72 + size..];
      }
    }
  }

  function Prefixed(found: seq<Bytes>, rest: Option<seq<Bytes>>): (r: Option<seq<Bytes>>)
    ensures found == [] ==> r == rest
  {
    assert rest.Some? ==> [] + rest.value == rest.value;
    if rest == None then None else Some(found + rest.value)
  }

  lemma PrefixedAgain(found: seq<Bytes>, data: Bytes, rest: Option<seq<Bytes>>)
    ensures Prefixed(found, if rest == None then None else Some([data] + rest.value)) == Prefixed(found + [data], rest)
  {
    if rest.Some? {
      assert found + ([data] + rest.value) == (found + [data]) + rest.value;
    }
  }

  // ---- files ----

  /** The contents that storing a bundle writes, in order, each under its own hash. */
  function Contents(sha: Hash, bundle: Bytes): seq<Bytes> {
    var blobs := Parsed(sha, bundle);
    if blobs == None then [bundle] else blobs.value
  }

  function Names(sha: Hash, contents: seq<Bytes>): (r: seq<Bytes>)
    ensures |r| == |contents| && forall i :: 0 <= i < |r| ==> r[i] == sha(contents[i])
  {
    seq(|contents|, i requires 0 <= i < |contents| => sha(contents[i]))
  }

  function RecordOf(sha: Hash, bundle: Bytes): BlobRecord {
    var blobs := Parsed(sha, bundle);
    if blobs == None then Whole(sha(bundle)) else Parts(Names(sha, blobs.value))
  }

  function PutAll(sha: Hash, files: Files, contents: seq<Bytes>): Files
    decreases |contents|
  {
    if contents == [] then files else PutAll(sha, files[sha(contents[0]) := contents[0]], contents[1..])
  }

  function ReadFile(sha: Hash, files: Files, name: Bytes): Option<Bytes> {
    if name in files && sha(files[name]) == name then Some(files[name]) else None
  }

  function ReadParts(sha: Hash, files: Files, names: seq<Bytes>): Option<Bytes> {
    if names == [] then Some([])
    else
      var data, rest := ReadFile(sha, files, names[0]), ReadParts(sha, files, names[1..]);
      if data == None || rest == None then None
      else Some(names[0] + LittleEndian(|data.value|, 8) + data.value + rest.value)
  }

  function Read(sha: Hash, files: Files, record: BlobRecord): Option<Bytes> {
    match record
    case Whole(name) => ReadFile(sha, files, name)
    case Parts(names) => ReadParts(sha, files, names)
  }

  /** `readBlobs`. */
  method ReadBlobs(sha: Hash, files: Files, record: BlobRecord) returns (bundle: Option<Bytes>)
    ensures bundle == Read(sha, files, record)
  {
    if record.Whole? {
      return ReadFile(sha, files, record.name);
    }
    var parts: Bytes := [];
    var i := 0;
    assert record.names[0..] == record.names;
    while i < |record.names|
      invariant 0 <= i <= |record.names|
      invariant Read(sha, files, record) == Joined(parts, ReadParts(sha, files, record.names[i..]))
    {
      var names := record.names[i..];
      assert names[0] == record.names[i] && names[1..] == record.names[i + 1..];
      var data := ReadFile(sha, files, record.names[i]);
      if data == None { return None; }
      var part := record.names[i] + LittleEndian(|data.value|, 8) + data.value;
      JoinedAgain(parts, part, ReadParts(sha, files, names[1..]));
      parts := parts + part;
      i := i + 1;
    }
    assert parts + [] == parts;
    return Some(parts);
  }

  function Joined(parts: Bytes, rest: Option<Bytes>): (r: Option<Bytes>)
    ensures parts == [] ==> r == rest
  {
    assert rest.Some? ==> [] + rest.value == rest.value;
    if rest == None then None else Some(parts + rest.value)
  }

  lemma JoinedAgain(parts: Bytes, part: Bytes, rest: Option<Bytes>)
    ensures Joined(parts, if rest == None then None else Some(part + rest.value)) == Joined(parts + part, rest)
  {
    if rest.Some? {
      assert parts + (part + rest.value) == (parts + part) + rest.value;
    }
  }

  /** Every file is named by the hash of what it holds, and holds one of `contents`. */
  ghost predicate WellNamed(sha: Hash, files: Files, contents: set<Bytes>) {
    forall name :: name in files ==> sha(files[name]) == name && files[name] in contents
  }

  /** Nothing that was there is gone or changed. */
  ghost predicate Kept(files: Files, files': Files) {
    forall name :: name in files ==> name in files' && files'[name] == files[name]
  }

  /** Storing blobs adds files and never changes one: a file of the same name has the same content. */
  lemma {:induction false} PutAllKeeps(sha: Hash, files: Files, contents: seq<Bytes>, all: set<Bytes>)
    requires Distinguishes(sha, all) && WellNamed(sha, files, all) && forall c :: c in contents ==> c in all
    ensures WellNamed(sha, PutAll(sha, files, contents), all) && Kept(files, PutAll(sha, files, contents))
    ensures forall i :: 0 <= i < |contents| ==>
      ReadFile(sha, PutAll(sha, files, contents), sha(contents[i])) == Some(contents[i])
    decreases |contents|
  {
    if contents != [] {
      var put := files[sha(contents[0]) := contents[0]];
      PutAllKeeps(sha, put, contents[1..], all);
      assert Kept(files, put);
      assert sha(contents[0]) in put;
    }
  }

  lemma {:induction false} KeptParts(sha: Hash, files: Files, files': Files, names: seq<Bytes>)
    requires Kept(files, files') && ReadParts(sha, files, names).Some?
    ensures ReadParts(sha, files', names) == ReadParts(sha, files, names)
  {
    if names != [] {
      KeptParts(sha, files, files', names[1..]);
    }
  }

  /** A bundle that can be read stays readable, and the same, while files are only added. */
  lemma KeptReads(sha: Hash, files: Files, files': Files, record: BlobRecord)
    requires Kept(files, files') && Read(sha, files, record).Some?
    ensures Read(sha, files', record) == Read(sha, files, record)
  {
    if record.Parts? {
      KeptParts(sha, files, files', record.names);
    }
  }

  lemma {:induction false} ReadsParts(sha: Hash, files: Files, contents: seq<Bytes>)
    requires forall i :: 0 <= i < |contents| ==> ReadFile(sha, files, sha(contents[i])) == Some(contents[i])
    ensures ReadParts(sha, files, Names(sha, contents)) == Some(Bundle(sha, contents))
  {
    if contents != [] {
      assert Names(sha, contents)[1..] == Names(sha, contents[1..]);
      ReadsParts(sha, files, contents[1..]);
    }
  }

  /** Every byte string, of whatever form, reads back as it was stored. */
  lemma StoredBundleReadsBack(sha: Hash, files: Files, bundle: Bytes, all: set<Bytes>)
    requires Distinguishes(sha, all) && WellNamed(sha, files, all)
    requires forall c :: c in Contents(sha, bundle) ==> c in all
    ensures Read(sha, PutAll(sha, files, Contents(sha, bundle)), RecordOf(sha, bundle)) == Some(bundle)
  {
    var contents := Contents(sha, bundle);
    var files' := PutAll(sha, files, contents);
    PutAllKeeps(sha, files, contents, all);
    if Parsed(sha, bundle) == None {
      assert ReadFile(sha, files', sha(contents[0])) == Some(bundle);
    } else {
      ReadsParts(sha, files', contents);
      BundleOfParsed(sha, bundle);
    }
  }
}
