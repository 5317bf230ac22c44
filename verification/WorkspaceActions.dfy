/** `WithExclusiveWorkspaces` of apps/hub/workspace_action.go: how the requested
    paths become a plan, and when owners that take a plan's workspaces one after
    the other can block each other for good. */
module WorkspaceActions {
  import opened Order
  import opened WorkspacePaths
  import opened Wrappers

  // ------------------------------------------------------------------- plan

  predicate Disjoint(a: Path, b: Path) {
    !Overlaps(a, b)
  }

  /** What the acquisition loop is given: disjoint workspaces in byte order. */
  predicate IsPlan(plan: seq<Path>) {
    1 <= |plan| <= 2 &&
    (|plan| == 2 ==> Disjoint(plan[0], plan[1]) && Less(Render(plan[0]), Render(plan[1])))
  }

  /** `slices.Compact`. */
  function Compact(s: seq<string>): (r: seq<string>)
    ensures |r| <= |s| && (s != [] ==> r != [] && r[0] == s[0])
    ensures forall t :: t in r <==> t in s
  {
    if |s| <= 1 then s
    else
      assert s == [s[0]] + s[1..];
      if s[0] == s[1] then Compact(s[1..]) else [s[0]] + Compact(s[1..])
  }

  lemma {:induction false} CompactSorted(s: seq<string>)
    requires Sorted(s)
    ensures Sorted(Compact(s))
    ensures forall i, j :: 0 <= i < j < |Compact(s)| ==> Less(Compact(s)[i], Compact(s)[j])
  {
    if |s| > 1 {
      SortedTail(s);
      CompactSorted(s[1..]);
      if s[0] != s[1] {
        var rest := Compact(s[1..]);
        forall j | 0 <= j < |rest| ensures Less(s[0], rest[j]) {
          assert rest[j] in s[1..];
          SortedHeadLe(s[1..], rest[j]);
          assert Le(s[0], s[1]);
          LessTransitive(s[0], s[1], rest[j]);
        }
      }
    }
  }

  /** The canonicality check of every path. */
  method ReadAll(texts: seq<string>) returns (paths: Option<seq<Path>>)
    ensures paths.None? <==> exists t :: t in texts && Canonical(t).None?
    ensures paths.Some? ==> |paths.value| == |texts| && forall i :: 0 <= i < |texts| ==> Render(paths.value[i]) == texts[i]
  {
    var read: seq<Path> := [];
    for i := 0 to |texts|
      invariant |read| == i
      invariant forall j :: 0 <= j < i ==> Canonical(texts[j]) == Some(read[j])
    {
      if Canonical(texts[i]).None? { return None; }
      read := read + [Canonical(texts[i]).value];
    }
    forall i | 0 <= i < |texts| ensures Render(read[i]) == texts[i] {
      RenderCanonical(texts[i]);
    }
    return Some(read);
  }

  /** The filter of lines 30-37: each path is compared with the last one kept. */
  function Filtered(kept: seq<Path>, rest: seq<Path>): seq<Path>
    decreases |rest|
  {
    if rest == [] then kept
    else if kept != [] && Overlaps(kept[|kept| - 1], rest[0]) then Filtered(kept, rest[1..])
    else Filtered(kept + [rest[0]], rest[1..])
  }

  method Filter(paths: seq<Path>) returns (kept: seq<Path>)
    ensures kept == Filtered([], paths)
  {
    kept := [];
    for i := 0 to |paths|
      invariant Filtered(kept, paths[i..]) == Filtered([], paths)
    {
      assert paths[i..][1..] == paths[i + 1..];
      if !(kept != [] && Overlaps(kept[|kept| - 1], paths[i])) {
        kept := kept + [paths[i]];
      }
    }
  }

  /** With at most two sorted paths, comparing with the last one kept is enough. */
  lemma FilteredIsPlan(paths: seq<Path>)
    requires 1 <= |paths| <= 2
    requires |paths| == 2 ==> Less(Render(paths[0]), Render(paths[1]))
    ensures IsPlan(Filtered([], paths))
    ensures forall p :: p in Filtered([], paths) ==> p in paths
    ensures forall p :: p in paths ==> exists q :: q in Filtered([], paths) && q <= p
  {
    hide Overlaps, Render, Le;
    var first, r := paths[0], Filtered([], paths);
    assert [] + [first] == [first];
    if |paths| == 2 {
      var second := paths[1];
      assert paths == [first, second] && paths[1..] == [second];
      assert Filtered([first], [second]) == if Overlaps(first, second) then [first] else [first, second];
      OverlapIsContainment(first, second);
      if second <= first {
        AncestorSortsFirst(second, first);
        LeAntisymmetric(Render(first), Render(second));
      }
      assert first in r && first <= first && (second in r || first <= second);
    } else {
      assert paths == [first];
      assert first in r && first <= first;
    }
  }

  /** With three, it would not be: "/a", "/a-b", "/a/c" keeps both "/a" and "/a/c". */
  lemma ThreePathsWouldOverlap()
    ensures var a: Path, ab: Path, ac: Path := ["a"], ["a-b"], ["a", "c"];
            && Less(Render(a), Render(ab)) && Less(Render(ab), Render(ac))
            && Filtered([], [a, ab, ac]) == [a, ab, ac] && Overlaps(a, ac)
  {
    hide Render, Less, Overlaps;
    var a: Path, ab: Path, ac: Path := ["a"], ["a-b"], ["a", "c"];
    BytewiseWitness();
    OverlapIsContainment(a, ab);
    OverlapIsContainment(ab, ac);
    OverlapIsContainment(a, ac);
    assert "a" != "a-b" && a[0] == "a" == ac[0] && ab[0] == "a-b";
    assert !Overlaps(a, ab) && !Overlaps(ab, ac);
    FilteredKeeps([], a, [ab, ac]);
    FilteredKeeps([a], ab, [ac]);
    FilteredKeeps([a, ab], ac, []);
    assert [a] + [ab, ac] == [a, ab, ac] && [ab] + [ac] == [ab, ac] && [ac] + [] == [ac];
    assert [] + [a] == [a] && [a] + [ab] == [a, ab] && [a, ab] + [ac] == [a, ab, ac];
  }

  lemma FilteredKeeps(kept: seq<Path>, p: Path, rest: seq<Path>)
    requires kept == [] || !Overlaps(kept[|kept| - 1], p)
    ensures Filtered(kept, [p] + rest) == Filtered(kept + [p], rest)
  {
    assert ([p] + rest)[1..] == rest;
  }

  lemma BytewiseWitness()
    ensures var a: Path, ab: Path, ac: Path := ["a"], ["a-b"], ["a", "c"];
            Less(Render(a), Render(ab)) && Less(Render(ab), Render(ac))
  {
    var a: Path, ab: Path, ac: Path := ["a"], ["a-b"], ["a", "c"];
    assert Render(a) == "/a" && Render(ab) == "/a-b";
    assert ac[1..] == ["c"];
    assert Render(ac) == "/a/c";
    PrefixLe("/a", "/a-b");
    LeCommonPrefix("/a", "-b", "/c");
    assert "/a" + "-b" == "/a-b" && "/a" + "/c" == "/a/c";
  }

  lemma TextsOf(requested: seq<string>)
    requires 1 <= |requested| <= 2
    ensures var texts := Compact(Sort(requested));
            && 1 <= |texts| <= 2
            && (forall t :: t in texts <==> t in requested)
            && (|texts| == 2 ==> Less(texts[0], texts[1]))
  {
    hide Sort, Less;
    SortSorted(requested);
    CompactSorted(Sort(requested));
    forall t ensures t in Sort(requested) <==> t in requested {
      assert t in Sort(requested) <==> t in multiset(Sort(requested));
    }
  }

  ghost predicate Covers(kept: seq<Path>, p: Path) {
    exists q :: q in kept && q <= p
  }

  lemma PlanCovers(requested: seq<string>, texts: seq<string>, paths: seq<Path>, kept: seq<Path>)
    requires forall t :: t in texts <==> t in requested
    requires |paths| == |texts| && forall i :: 0 <= i < |texts| ==> Render(paths[i]) == texts[i]
    requires forall p :: p in kept ==> p in paths
    requires forall p :: p in paths ==> Covers(kept, p)
    ensures forall p :: p in kept ==> Render(p) in requested
    ensures forall t :: t in requested ==> Canonical(t).Some? && Covers(kept, Canonical(t).value)
  {
    hide Canonical, Render, Covers;
    forall p | p in kept ensures Render(p) in requested {
      var i :| 0 <= i < |paths| && paths[i] == p;
      assert texts[i] in texts;
    }
    forall t | t in requested ensures Canonical(t).Some? && Covers(kept, Canonical(t).value) {
      var i :| 0 <= i < |texts| && texts[i] == t;
      CanonicalRender(paths[i]);
      assert paths[i] in paths;
    }
  }

  /** Normalises one or two requested paths; `None` is the rejected request. */
  method Plan(requested: seq<string>) returns (plan: Option<seq<Path>>)
    ensures plan.None? <==> !(1 <= |requested| <= 2) || exists t :: t in requested && Canonical(t).None?
    ensures plan.Some? ==> IsPlan(plan.value)
    ensures plan.Some? ==> forall p :: p in plan.value ==> Render(p) in requested
    ensures plan.Some? ==> forall t :: t in requested ==>
              exists p :: p in plan.value && p <= Canonical(t).value
  {
    hide Canonical, Render, IsPlan, Sort, Compact, Filtered, Less;
    if !(1 <= |requested| <= 2) { return None; }
    var texts := Compact(Sort(requested));
    TextsOf(requested);
    var paths := ReadAll(texts);
    if paths.None? { return None; }
    FilteredIsPlan(paths.value);
    var kept := Filter(paths.value);
    PlanCovers(requested, texts, paths.value, kept);
    return Some(kept);
  }
}
