/** `strings.Split` with a one-element separator, and its inverse. */
module Splitting {

  /** `bytes.IndexByte`, with the length for "not found". */
  function IndexOf<T(==)>(s: seq<T>, d: T): (k: nat)
    ensures k <= |s| && (k < |s| ==> s[k] == d) && forall i :: 0 <= i < k ==> s[i] != d
  {
    if s == [] || s[0] == d then 0 else 1 + IndexOf(s[1..], d)
  }

  /** `strings.Contains` and `bytes.Contains`. */
  predicate Contains<T(==)>(s: seq<T>, part: seq<T>) {
    part <= s || (s != [] && Contains(s[1..], part))
  }

  function Split<T(==)>(s: seq<T>, d: T): (parts: seq<seq<T>>)
    ensures |parts| >= 1
  {
    if s == [] then [[]]
    else if s[0] == d then [[]] + Split(s[1..], d)
    else
      var rest := Split(s[1..], d);
      [[s[0]] + rest[0]] + rest[1..]
  }

  function Join<T>(parts: seq<seq<T>>, d: T): seq<T>
    requires |parts| >= 1
  {
    if |parts| == 1 then parts[0] else parts[0] + [d] + Join(parts[1..], d)
  }

  lemma {:induction false} SplitPieces<T>(s: seq<T>, d: T)
    ensures forall i :: 0 <= i < |Split(s, d)| ==> d !in Split(s, d)[i]
  {
    if s != [] { SplitPieces(s[1..], d); }
  }

  lemma {:induction false} JoinSplit<T>(s: seq<T>, d: T)
    ensures Join(Split(s, d), d) == s
  {
    if s == [] {
    } else {
      var rest := Split(s[1..], d);
      JoinSplit(s[1..], d);
      assert s == [s[0]] + s[1..];
      if s[0] == d {
        assert ([[]] + rest)[1..] == rest;
      } else if |rest| > 1 {
        var r := [[s[0]] + rest[0]] + rest[1..];
        assert r[1..] == rest[1..];
        assert Join(r, d) == [s[0]] + (rest[0] + [d] + Join(rest[1..], d));
      }
    }
  }

  lemma SplitCons<T>(x: T, s: seq<T>, d: T)
    ensures x == d ==> Split([x] + s, d) == [[]] + Split(s, d)
    ensures x != d ==> Split([x] + s, d) == [[x] + Split(s, d)[0]] + Split(s, d)[1..]
  {
    assert ([x] + s)[1..] == s;
  }

  lemma JoinCons<T>(x: T, head: seq<T>, rest: seq<seq<T>>, d: T)
    ensures Join([[x] + head] + rest, d) == [x] + Join([head] + rest, d)
  {
    assert ([[x] + head] + rest)[1..] == rest && ([head] + rest)[1..] == rest;
  }

  /** The separator-free pieces of a text are determined by the text. */
  lemma {:induction false} SplitJoin<T>(parts: seq<seq<T>>, d: T)
    requires |parts| >= 1
    requires forall i :: 0 <= i < |parts| ==> d !in parts[i]
    ensures Split(Join(parts, d), d) == parts
    decreases |parts|, |parts[0]|
  {
    hide Split, Join;
    var rest := parts[1..];
    if parts[0] == [] {
      assert parts == [[]] + rest;
      if rest == [] {
        assert Join(parts, d) == [] by { JoinOne(parts, d); }
        SplitEmpty(d);
      } else {
        JoinMore(parts, d);
        assert [] + [d] == [d];
        SplitJoin(rest, d);
        SplitCons(d, Join(rest, d), d);
      }
    } else {
      var x, head := parts[0][0], parts[0][1..];
      assert parts[0] == [x] + head && parts == [[x] + head] + rest;
      var shorter := [head] + rest;
      forall i | 0 <= i < |shorter| ensures d !in shorter[i] {
        if i > 0 { assert shorter[i] == parts[i]; }
      }
      SplitJoin(shorter, d);
      JoinCons(x, head, rest, d);
      assert x in parts[0];
      SplitCons(x, Join(shorter, d), d);
      assert shorter[1..] == rest;
    }
  }

  lemma JoinOne<T>(parts: seq<seq<T>>, d: T)
    requires |parts| == 1
    ensures Join(parts, d) == parts[0]
  {
  }

  lemma JoinMore<T>(parts: seq<seq<T>>, d: T)
    requires |parts| > 1
    ensures Join(parts, d) == parts[0] + [d] + Join(parts[1..], d)
  {
  }

  lemma SplitEmpty<T>(d: T)
    ensures Split([], d) == [[]]
  {
  }

  lemma {:induction false} JoinPrefix<T>(a: seq<seq<T>>, b: seq<seq<T>>, d: T)
    requires |a| >= 1 && a <= b
    ensures Join(a, d) <= Join(b, d)
  {
    if |a| > 1 {
      JoinPrefix(a[1..], b[1..], d);
      assert a[0] == b[0];
    } else if |b| > 1 {
      assert Join(b, d) == a[0] + ([d] + Join(b[1..], d));
    }
  }
}
