/** Canonical absolute workspaces and the overlap test of apps/hub/workspace.go.
    A path is the sequence of its components; `Render` is the text the Go code
    stores and sorts. */
module WorkspacePaths {
  import opened Order
  import opened Splitting
  import opened Wrappers

  predicate IsComponent(c: string) {
    c != "" && c != "." && c != ".." && '/' !in c
  }

  type Path = p: seq<string> | forall i :: 0 <= i < |p| ==> IsComponent(p[i])

  function Render(p: Path): (text: string) {
    "/" + if p == [] then "" else Join(p, '/')
  }

  /** `filepath.IsAbs(text) && filepath.Clean(text) == text`, returning the components. */
  function Canonical(text: string): Option<Path> {
    if text == "" || text[0] != '/' then None
    else if |text| == 1 then Some([])
    else
      var parts := Split(text[1..], '/');
      if forall i :: 0 <= i < |parts| ==> IsComponent(parts[i]) then Some(parts) else None
  }

  lemma CanonicalRender(p: Path)
    ensures Canonical(Render(p)) == Some(p)
  {
    if p != [] {
      SplitJoin(p, '/');
      assert Render(p)[1..] == Join(p, '/');
      assert IsComponent(p[0]);
    }
  }

  lemma RenderCanonical(text: string)
    ensures Canonical(text).Some? ==> Render(Canonical(text).value) == text
  {
    if text != "" { JoinSplit(text[1..], '/'); }
  }

  lemma RenderInjective(a: Path, b: Path)
    requires Render(a) == Render(b)
    ensures a == b
  {
    CanonicalRender(a);
    CanonicalRender(b);
  }

  // ---------------------------------------------------------------- overlap

  function CommonLength(a: Path, b: Path): (n: nat)
    ensures n <= |a| && n <= |b| && a[..n] == b[..n]
  {
    if a == [] || b == [] || a[0] != b[0] then 0
    else
      var n := CommonLength(a[1..], b[1..]);
      assert a[..n + 1] == [a[0]] + a[1..][..n] && b[..n + 1] == [b[0]] + b[1..][..n];
      n + 1
  }

  /** `filepath.Rel` of two clean absolute paths: one ".." for each component
      of `base` past the common start, then the rest of `target`. The empty
      sequence stands for ".". */
  function Rel(base: Path, target: Path): seq<string> {
    var n := CommonLength(base, target);
    seq(|base| - n, _ => "..") + target[n..]
  }

  /** `filepath.IsLocal` of a clean relative path. */
  predicate IsLocal(relative: seq<string>) {
    relative != [] && relative[0] != ".."
  }

  predicate Overlaps(a: Path, b: Path) {
    var forward := Rel(a, b);
    forward == [] || IsLocal(forward) ||
    var backward := Rel(b, a);
    backward == [] || IsLocal(backward)
  }

  lemma {:induction false} CommonLengthOfPrefix(a: Path, b: Path)
    ensures CommonLength(a, b) == |a| <==> a <= b
  {
    if a != [] && b != [] && a[0] == b[0] {
      CommonLengthOfPrefix(a[1..], b[1..]);
      assert a <= b <==> a[1..] <= b[1..];
    }
  }

  lemma RelLocal(a: Path, b: Path)
    ensures Rel(a, b) == [] || IsLocal(Rel(a, b)) <==> a <= b
  {
    CommonLengthOfPrefix(a, b);
    var n := CommonLength(a, b);
    if n < |a| {
      assert Rel(a, b)[0] == "..";
    } else if n < |b| {
      assert Rel(a, b)[0] == b[n];
      assert IsComponent(b[n]);
    }
  }

  /** Two workspaces overlap exactly when one contains the other. */
  lemma OverlapIsContainment(a: Path, b: Path)
    ensures Overlaps(a, b) <==> a <= b || b <= a
  {
    RelLocal(a, b);
    RelLocal(b, a);
  }

  lemma OverlapsSymmetric(a: Path, b: Path)
    ensures Overlaps(a, b) == Overlaps(b, a)
  {
    OverlapIsContainment(a, b);
    OverlapIsContainment(b, a);
  }

  /** A workspace sorts no later than what it contains. */
  lemma AncestorSortsFirst(a: Path, b: Path)
    requires a <= b
    ensures Le(Render(a), Render(b))
  {
    if a == [] {
      PrefixLe(Render(a), Render(b));
    } else {
      JoinPrefix(a, b, '/');
      PrefixLe(Render(a), Render(b));
    }
  }
}
