/** What extension/loader/bundle.go feeds to its hash. A Go string is its octets;
    in this module and in BundleCopy a character stands for one octet. */
module BundleDigest {
  import opened Order

  const MANIFEST := "alva.toml"
  const DIGEST_PREFIX := "alva.bundle.go.v1\0"
  const WORD := 0x1_0000_0000_0000_0000

  datatype Result<T> = Ok(value: T) | Err

  // ------------------------------------------------------------------ frames

  /** `binary.BigEndian.PutUint64`, for the last `width` of the octets. */
  function BigEndian(n: nat, width: nat): (r: string)
    ensures |r| == width
  {
    if width == 0 then "" else BigEndian(n / 256, width - 1) + [(n % 256) as char]
  }

  function Value(s: string): nat {
    if s == "" then 0 else 256 * Value(s[..|s| - 1]) + s[|s| - 1] as nat
  }

  function Power(width: nat): (p: nat)
    ensures p > 0
  {
    if width == 0 then 1 else 256 * Power(width - 1)
  }

  /** An 8-octet big-endian length, then the data. */
  function Framed(data: string): string {
    BigEndian(|data|, 8) + data
  }

  function FramedPairs(pairs: seq<(string, string)>): string {
    if pairs == [] then "" else Framed(pairs[0].0) + Framed(pairs[0].1) + FramedPairs(pairs[1..])
  }

  /** The hash input of the files `names`, in this order. */
  function HashInput(pairs: seq<(string, string)>): string {
    DIGEST_PREFIX + FramedPairs(pairs)
  }

  lemma {:induction false} ValueOfBigEndian(n: nat, width: nat)
    requires n < Power(width)
    ensures Value(BigEndian(n, width)) == n
  {
    if width > 0 {
      var r := BigEndian(n, width);
      assert n / 256 < Power(width - 1);
      ValueOfBigEndian(n / 256, width - 1);
      assert r[..|r| - 1] == BigEndian(n / 256, width - 1);
    }
  }

  lemma WordIsEightOctets()
    ensures Power(8) == WORD
  {
    assert Power(2) == 0x1_0000;
    assert Power(4) == 256 * 256 * Power(2);
    assert Power(6) == 256 * 256 * Power(4);
    assert Power(8) == 256 * 256 * Power(6);
  }

  // ---------------------------------------------------------------- decoding

  /** One frame off the front of `s`, if a whole one is there. */
  function Unframe(s: string): Result<(string, string)> {
    if |s| < 8 || |s| - 8 < Value(s[..8]) then Err
    else Ok((s[8..8 + Value(s[..8])], s[8 + Value(s[..8])..]))
  }

  function DecodePairs(s: string): Result<seq<(string, string)>>
    decreases |s|
  {
    if s == "" then Ok([])
    else
      var name := Unframe(s);
      if name.Err? then Err
      else
        var body := Unframe(name.value.1);
        if body.Err? then Err
        else
          var rest := DecodePairs(body.value.1);
          if rest.Err? then Err else Ok([(name.value.0, body.value.0)] + rest.value)
  }

  /** Reads a hash input back. */
  function Decode(s: string): Result<seq<(string, string)>> {
    if DIGEST_PREFIX <= s then DecodePairs(s[|DIGEST_PREFIX|..]) else Err
  }

  lemma UnframeFramed(data: string, rest: string)
    requires |data| < WORD
    ensures Unframe(Framed(data) + rest) == Ok((data, rest))
  {
    hide Value, BigEndian;
    var s := Framed(data) + rest;
    WordIsEightOctets();
    ValueOfBigEndian(|data|, 8);
    assert s[..8] == BigEndian(|data|, 8);
    assert s[8..8 + |data|] == data && s[8 + |data|..] == rest;
  }

  /** Every list of names and bodies is recovered from its hash input. */
  lemma {:induction false} DecodeFramedPairs(pairs: seq<(string, string)>)
    requires forall p :: p in pairs ==> |p.0| < WORD && |p.1| < WORD
    ensures DecodePairs(FramedPairs(pairs)) == Ok(pairs)
  {
    hide Unframe, Framed;
    if pairs != [] {
      var p := pairs[0];
      assert p in pairs;
      var rest := FramedPairs(pairs[1..]);
      var s := FramedPairs(pairs);
      assert s == Framed(p.0) + (Framed(p.1) + rest);
      UnframeFramed(p.0, Framed(p.1) + rest);
      UnframeFramed(p.1, rest);
      DecodeFramedPairs(pairs[1..]);
      assert |Framed(p.0)| >= 8 by { FramedSize(p.0); }
      assert pairs == [p] + pairs[1..];
    }
  }

  lemma FramedSize(data: string)
    ensures |Framed(data)| == 8 + |data|
  {
  }

  lemma DecodeHashInput(pairs: seq<(string, string)>)
    requires forall p :: p in pairs ==> |p.0| < WORD && |p.1| < WORD
    ensures Decode(HashInput(pairs)) == Ok(pairs)
  {
    DecodeFramedPairs(pairs);
    assert HashInput(pairs)[|DIGEST_PREFIX|..] == FramedPairs(pairs);
  }

  // ---------------------------------------------------------------- snapshots

  /** A staged directory: what reading each file gives, or nothing when it fails. */
  datatype Snapshot = Snapshot(content: map<string, string>, canonical: Result<string>)

  /** The body hashed for a file: the canonical manifest stands for alva.toml. */
  function Body(s: Snapshot, file: string): Result<string> {
    if file == MANIFEST then s.canonical
    else if file in s.content then Ok(s.content[file]) else Err
  }

  function Pairs(s: Snapshot, files: seq<string>): Result<seq<(string, string)>> {
    if files == [] then Ok([])
    else
      var body := Body(s, files[0]);
      if body.Err? then Err
      else
        var rest := Pairs(s, files[1..]);
        if rest.Err? then Err else Ok([(files[0], body.value)] + rest.value)
  }

  /** The hash input of a snapshot whose files were listed in any order. */
  function SnapshotInput(s: Snapshot, files: seq<string>): Result<string> {
    var pairs := Pairs(s, Sort(files));
    if pairs.Err? then Err else Ok(HashInput(pairs.value))
  }

  /** `hash.Hash`: what has been written so far. */
  class Hasher {
    var fed: string

    constructor ()
      ensures fed == ""
    {
      fed := "";
    }

    method Write(data: string)
      modifies this
      ensures fed == old(fed) + data
    {
      fed := fed + data;
    }
  }

  method FrameHash(h: Hasher, data: string)
    modifies h
    ensures h.fed == old(h.fed) + Framed(data)
  {
    h.Write(BigEndian(|data|, 8));
    h.Write(data);
    assert old(h.fed) + BigEndian(|data|, 8) + data == old(h.fed) + Framed(data);
  }

  /** The loop of `digestSnapshot`; the sum of what is returned is the digest. */
  method DigestSnapshot(s: Snapshot, files: seq<string>) returns (input: Result<string>)
    ensures input == SnapshotInput(s, files)
  {
    hide Sort, Framed, BigEndian;
    var sorted := Sort(files);
    var hasher := new Hasher();
    hasher.Write(DIGEST_PREFIX);
    ghost var goal := Pairs(s, sorted);
    ghost var done: seq<(string, string)> := [];
    assert sorted[0..] == sorted && (goal.Ok? ==> [] + goal.value == goal.value);
    for index := 0 to |sorted|
      invariant fresh(hasher) && hasher.fed == HashInput(done)
      invariant goal == Prepend(done, Pairs(s, sorted[index..]))
    {
      var file := sorted[index];
      assert sorted[index..][1..] == sorted[index + 1..];
      FrameHash(hasher, file);
      var data := if file == MANIFEST then s.canonical else if file in s.content then Ok(s.content[file]) else Err;
      if data.Err? { return Err; }
      FrameHash(hasher, data.value);
      FramedPairsAppend(done, (file, data.value));
      PrependMore(done, (file, data.value), Pairs(s, sorted[index + 1..]));
      done := done + [(file, data.value)];
    }
    assert sorted[|sorted|..] == [] && done + [] == done;
    return Ok(hasher.fed);
  }

  function Prepend(done: seq<(string, string)>, rest: Result<seq<(string, string)>>): Result<seq<(string, string)>> {
    if rest.Err? then Err else Ok(done + rest.value)
  }

  lemma PrependMore(done: seq<(string, string)>, p: (string, string), rest: Result<seq<(string, string)>>)
    ensures Prepend(done + [p], rest) == Prepend(done, if rest.Err? then Err else Ok([p] + rest.value))
  {
    if rest.Ok? { assert done + [p] + rest.value == done + ([p] + rest.value); }
  }

  lemma {:induction false} FramedPairsConcat(a: seq<(string, string)>, b: seq<(string, string)>)
    ensures FramedPairs(a + b) == FramedPairs(a) + FramedPairs(b)
  {
    hide Framed;
    if a == [] {
      assert a + b == b;
    } else {
      assert (a + b)[1..] == a[1..] + b;
      FramedPairsConcat(a[1..], b);
    }
  }

  lemma FramedPairsAppend(pairs: seq<(string, string)>, p: (string, string))
    ensures HashInput(pairs + [p]) == HashInput(pairs) + Framed(p.0) + Framed(p.1)
  {
    hide Framed;
    FramedPairsConcat(pairs, [p]);
    assert FramedPairs([p][1..]) == "";
  }

  // ----------------------------------------------------------------- theorems

  /** The order in which the walk listed the files does not matter. */
  lemma ListingOrderIrrelevant(s: Snapshot, files: seq<string>, other: seq<string>)
    requires multiset(files) == multiset(other)
    ensures SnapshotInput(s, files) == SnapshotInput(s, other)
  {
    SortSorted(files);
    SortSorted(other);
    SortedUnique(Sort(files), Sort(other));
  }

  lemma {:induction false} PairsOf(s: Snapshot, files: seq<string>)
    requires Pairs(s, files).Ok?
    ensures var pairs := Pairs(s, files).value;
      |pairs| == |files| && forall i :: 0 <= i < |files| ==> pairs[i].0 == files[i] && Body(s, files[i]) == Ok(pairs[i].1)
  {
    if files != [] { PairsOf(s, files[1..]); }
  }

  /** Sizes the hash can frame: under 2^64 octets. */
  predicate Frameable(s: Snapshot, files: seq<string>) {
    forall f :: f in files ==> |f| < WORD && Body(s, f).Ok? && |Body(s, f).value| < WORD
  }

  /** Equal hash inputs mean the same files with the same bodies: the digest
      input loses nothing but the text of the manifest, for which its canonical
      form stands. */
  lemma SameInputSameFiles(s: Snapshot, files: seq<string>, t: Snapshot, other: seq<string>)
    requires Frameable(s, files) && Frameable(t, other)
    requires SnapshotInput(s, files).Ok? && SnapshotInput(s, files) == SnapshotInput(t, other)
    ensures multiset(files) == multiset(other)
    ensures forall f :: f in files ==> Body(s, f) == Body(t, f)
  {
    hide HashInput, Decode, Body;
    var a, b := Sort(files), Sort(other);
    PairsOf(s, a);
    PairsOf(t, b);
    var p, q := Pairs(s, a).value, Pairs(t, b).value;
    SmallPairs(s, files);
    SmallPairs(t, other);
    DecodeHashInput(p);
    DecodeHashInput(q);
    assert p == q;
    assert a == b;
    forall f | f in files ensures Body(s, f) == Body(t, f) {
      assert f in multiset(a);
      var i :| 0 <= i < |a| && a[i] == f;
    }
  }

  lemma SmallPairs(s: Snapshot, files: seq<string>)
    requires Frameable(s, files) && Pairs(s, Sort(files)).Ok?
    ensures forall p :: p in Pairs(s, Sort(files)).value ==> |p.0| < WORD && |p.1| < WORD
  {
    var a := Sort(files);
    PairsOf(s, a);
    forall i | 0 <= i < |a| ensures a[i] in files {
      assert a[i] in multiset(a);
    }
  }
}
