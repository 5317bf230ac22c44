/** The bounded tree walk of extension/loader/bundle.go, `copyTree`, against a
    declarative account of the trees it accepts and what it copies. */
module BundleCopy {
  import opened Order
  import opened Utf8

  const ENTRY_LIMIT := 512
  const FILE_LIMIT := 256
  const BYTE_LIMIT := 0x100_0000
  const FILE_BYTES := 0x80_0000
  const DEPTH_LIMIT := 16

  datatype Node = File(data: string) | Dir(entries: seq<Entry>) | Link | Special

  datatype Entry = Entry(name: string, node: Node)

  /** A file as it is listed and copied: its path and its whole content. */
  datatype Copy = Copy(path: string, data: string)

  // -------------------------------------------------------------- what a tree is

  /** `height`: the directories below, on the deepest path. */
  datatype Totals = Totals(entries: nat, files: nat, bytes: nat, height: nat)

  const NOTHING := Totals(0, 0, 0, 0)

  function Plus(a: Totals, b: Totals): Totals {
    Totals(a.entries + b.entries, a.files + b.files, a.bytes + b.bytes, if a.height < b.height then b.height else a.height)
  }

  function Measure(node: Node): Totals {
    match node
    case File(data) => Totals(0, 1, |data|, 0)
    case Dir(entries) =>
      var t := MeasureAll(entries);
      Totals(|entries| + t.entries, t.files, t.bytes, 1 + t.height)
    case _ => NOTHING
  }

  function MeasureAll(es: seq<Entry>): Totals {
    if es == [] then NOTHING else Plus(Measure(es[0].node), MeasureAll(es[1..]))
  }

  function Octets(s: string): bytes {
    seq(|s|, i requires 0 <= i < |s| => s[i] as int % 256)
  }

  predicate NameOk(name: string) {
    Valid(Octets(name)) && '/' !in name && '\\' !in name && name != "." && name != ".."
  }

  function PathOf(relative: string, name: string): string {
    if relative == "" then name else relative + "/" + name
  }

  /** Only well-named directories and bounded regular files; `works` says
      whether the operating system serves a path while the context is live. */
  predicate Sound(node: Node, path: string, works: string -> bool)
    decreases node
  {
    works(path) &&
    match node
    case File(data) => |data| <= FILE_BYTES
    case Dir(entries) => SoundAll(entries, path, works)
    case _ => false
  }

  predicate SoundAll(es: seq<Entry>, relative: string, works: string -> bool)
    decreases es
  {
    es == [] ||
    (NameOk(es[0].name) && Sound(es[0].node, PathOf(relative, es[0].name), works) && SoundAll(es[1..], relative, works))
  }

  // ----------------------------------------------------------- walking in order

  function InsertEntry(e: Entry, es: seq<Entry>): seq<Entry> {
    if es == [] || Le(e.name, es[0].name) then [e] + es else [es[0]] + InsertEntry(e, es[1..])
  }

  /** `sort.Slice` by name; names in one directory differ, so its order is this one. */
  function SortEntries(es: seq<Entry>): seq<Entry> {
    if es == [] then [] else InsertEntry(es[0], SortEntries(es[1..]))
  }

  lemma {:induction false} InsertKeeps(e: Entry, es: seq<Entry>, relative: string, works: string -> bool)
    ensures |InsertEntry(e, es)| == |es| + 1
    ensures MeasureAll(InsertEntry(e, es)) == Plus(Measure(e.node), MeasureAll(es))
    ensures SoundAll(InsertEntry(e, es), relative, works) == SoundAll([e] + es, relative, works)
  {
    hide Le, NameOk, Sound, Measure;
    if es == [] || Le(e.name, es[0].name) {
      assert ([e] + es)[1..] == es;
    } else {
      InsertKeeps(e, es[1..], relative, works);
      assert ([es[0]] + InsertEntry(e, es[1..]))[1..] == InsertEntry(e, es[1..]);
      assert ([e] + es)[1..] == es && ([e] + es[1..])[1..] == es[1..];
    }
  }

  /** The order of the walk changes neither what is accepted nor any total. */
  lemma {:induction false} SortKeeps(es: seq<Entry>, relative: string, works: string -> bool)
    ensures |SortEntries(es)| == |es|
    ensures MeasureAll(SortEntries(es)) == MeasureAll(es)
    ensures SoundAll(SortEntries(es), relative, works) == SoundAll(es, relative, works)
  {
    hide NameOk, Sound, Measure;
    if es != [] {
      SortKeeps(es[1..], relative, works);
      InsertKeeps(es[0], SortEntries(es[1..]), relative, works);
      assert ([es[0]] + SortEntries(es[1..]))[1..] == SortEntries(es[1..]);
    }
  }

  lemma SortKeepsHeight(es: seq<Entry>)
    ensures MeasureAll(SortEntries(es)) == MeasureAll(es)
  {
    SortKeeps(es, "", _ => true);
  }

  /** The files of a tree in the order of the walk. */
  function Copies(node: Node, path: string): seq<Copy>
    decreases Measure(node).height, 0, 0
  {
    match node
    case File(data) => [Copy(path, data)]
    case Dir(entries) => SortKeepsHeight(entries); CopiesAll(SortEntries(entries), path)
    case _ => []
  }

  function CopiesAll(es: seq<Entry>, relative: string): seq<Copy>
    decreases MeasureAll(es).height, 1, |es|
  {
    if es == [] then [] else Copies(es[0].node, PathOf(relative, es[0].name)) + CopiesAll(es[1..], relative)
  }

  function Paths(copies: seq<Copy>): (r: seq<string>)
    ensures |r| == |copies| && forall i :: 0 <= i < |r| ==> r[i] == copies[i].path
  {
    seq(|copies|, i requires 0 <= i < |copies| => copies[i].path)
  }

  predicate WithinBudget(t: Totals) {
    t.entries <= ENTRY_LIMIT && t.files <= FILE_LIMIT && t.bytes <= BYTE_LIMIT
  }

  /** The trees accepted below a directory at `depth` when `spent` is already used. */
  predicate Accepted(dir: seq<Entry>, relative: string, depth: nat, spent: Totals, works: string -> bool) {
    && works(relative)
    && SoundAll(dir, relative, works)
    && depth + MeasureAll(dir).height <= DEPTH_LIMIT
    && WithinBudget(Plus(spent, Measure(Dir(dir))))
  }

  // ----------------------------------------------------------- the Go object

  /** `copyBudget`, the list of files and the files written to the target. */
  class Walk {
    var entries: nat
    var files: nat
    var bytes: nat
    var listed: seq<string>
    var written: seq<Copy>

    function Spent(): Totals
      reads this
    {
      Totals(entries, files, bytes, 0)
    }

    constructor ()
      ensures Spent() == NOTHING && listed == [] && written == []
    {
      entries, files, bytes, listed, written := 0, 0, 0, [], [];
    }
  }

  /** `File.ReadDir(n)` with `n > 0`: all entries if there are at most `n`, else
      some `n` of them, in no particular order. With `n <= 0` it would read them all. */
  method ReadDir(dir: seq<Entry>, n: int) returns (read: seq<Entry>)
    requires n > 0
    ensures |dir| <= n ==> multiset(read) == multiset(dir)
    ensures |dir| > n ==> |read| == n && multiset(read) <= multiset(dir)
  {
    if |dir| <= n { return dir; }
    assert dir == dir[..n] + dir[n..];
    return dir[..n];
  }

  /** The test `copyTree` applies to one entry of a directory at `depth`. */
  predicate EntryAccepted(e: Entry, relative: string, depth: nat, spent: Totals, works: string -> bool) {
    && NameOk(e.name)
    && Sound(e.node, PathOf(relative, e.name), works)
    && depth + Measure(e.node).height <= DEPTH_LIMIT
    && WithinBudget(Plus(spent, Measure(e.node)))
  }

  function Flat(t: Totals): Totals {
    t.(height := 0)
  }

  method CopyTree(w: Walk, dir: seq<Entry>, relative: string, depth: nat, copying: bool, works: string -> bool)
    returns (ok: bool)
    requires WithinBudget(w.Spent())
    modifies w
    ensures ok <==> Accepted(dir, relative, depth, old(w.Spent()), works)
    ensures ok ==> w.Spent() == Flat(Plus(old(w.Spent()), Measure(Dir(dir)))) && WithinBudget(w.Spent())
    ensures ok ==> |w.listed| - |old(w.listed)| == w.files - old(w.files)
    ensures ok && WellFormed(Dir(dir)) ==>
              && w.listed == old(w.listed) + Paths(CopiesAll(SortEntries(dir), relative))
              && w.written == old(w.written) + if copying then CopiesAll(SortEntries(dir), relative) else []
    decreases DEPTH_LIMIT + 1 - depth, 2
  {
    hide NameOk, Sound, SortEntries, CopiesAll, Paths, SoundAll, MeasureAll, Measure, EntriesAccepted, WellFormed, Siblings;
    MeasureOfDir(dir);
    if depth > DEPTH_LIMIT { return false; }
    if !works(relative) { return false; }
    var entries := ReadDir(dir, 513 - w.entries);
    w.entries := w.entries + |entries|;
    SizeOf(entries);
    SizeOf(dir);
    if w.entries > ENTRY_LIMIT { return false; }
    SameEntries(entries, dir, relative, works);
    if WellFormed(Dir(dir)) { SameOrder(entries, dir); }
    var sorted := SortEntries(entries);
    SortKeeps(entries, relative, works);
    EntriesAcceptedMeans(sorted, relative, depth, w.Spent(), works);
    ok := CopyEntries(w, sorted, relative, depth, copying, works);
  }

  /** The test for the entries of a directory at `depth`, once they are counted. */
  predicate EntriesAccepted(es: seq<Entry>, relative: string, depth: nat, spent: Totals, works: string -> bool) {
    && SoundAll(es, relative, works)
    && depth + MeasureAll(es).height <= DEPTH_LIMIT
    && WithinBudget(Plus(spent, MeasureAll(es)))
  }

  lemma EntriesAcceptedMeans(es: seq<Entry>, relative: string, depth: nat, spent: Totals, works: string -> bool)
    ensures EntriesAccepted(es, relative, depth, spent, works) <==>
      && SoundAll(es, relative, works)
      && depth + MeasureAll(es).height <= DEPTH_LIMIT
      && spent.entries + MeasureAll(es).entries <= ENTRY_LIMIT
      && spent.files + MeasureAll(es).files <= FILE_LIMIT
      && spent.bytes + MeasureAll(es).bytes <= BYTE_LIMIT
  {
  }

  /** The loop over a directory's entries in order of name. */
  method CopyEntries(w: Walk, sorted: seq<Entry>, relative: string, depth: nat, copying: bool, works: string -> bool)
    returns (ok: bool)
    requires WithinBudget(w.Spent()) && depth <= DEPTH_LIMIT
    modifies w
    ensures ok <==> EntriesAccepted(sorted, relative, depth, old(w.Spent()), works)
    ensures ok ==> w.Spent() == Flat(Plus(old(w.Spent()), MeasureAll(sorted))) && WithinBudget(w.Spent())
    ensures ok ==> |w.listed| - |old(w.listed)| == w.files - old(w.files)
    ensures ok && Siblings(sorted) ==>
              && w.listed == old(w.listed) + Paths(CopiesAll(sorted, relative))
              && w.written == old(w.written) + if copying then CopiesAll(sorted, relative) else []
    decreases DEPTH_LIMIT + 1 - depth, 1
  {
    hide NameOk, Sound, Copies, CopiesAll, Paths, SoundAll, MeasureAll, Measure, EntryAccepted, PathOf, WellFormed, Siblings;
    ghost var spent := w.Spent();
    StartOfWalk(sorted, relative, works);
    NoPaths();
    ghost var t, c := MeasureAll(sorted[..0]), CopiesAll(sorted[..0], relative);
    for index := 0 to |sorted|
      invariant t == MeasureAll(sorted[..index]) && c == CopiesAll(sorted[..index], relative)
      invariant w.Spent() == Flat(Plus(spent, t)) && WithinBudget(w.Spent())
      invariant depth + t.height <= DEPTH_LIMIT
      invariant SoundAll(sorted[..index], relative, works)
      invariant |w.listed| - |old(w.listed)| == w.files - old(w.files)
      invariant Siblings(sorted) ==> w.listed == old(w.listed) + Paths(c)
      invariant Siblings(sorted) ==> w.written == old(w.written) + if copying then c else []
    {
      StepOfWalk(sorted, index, relative, works);
      if EntriesAccepted(sorted, relative, depth, spent, works) {
        EveryEntryAccepted(sorted, index, relative, depth, spent, works);
      }
      var copied := CopyEntry(w, sorted[index], relative, depth, copying, works);
      if !copied { return false; }
      ghost var more := Copies(sorted[index].node, PathOf(relative, sorted[index].name));
      EntryAcceptedMeans(sorted[index], relative, depth, Flat(Plus(spent, t)), works);
      PathsConcat(c, more);
      if Siblings(sorted) {
        SiblingIsGood(sorted, sorted[index]);
        assert w.listed == old(w.listed) + (Paths(c) + Paths(more));
        assert copying ==> w.written == old(w.written) + (c + more);
      }
      t, c := Plus(t, Measure(sorted[index].node)), c + more;
    }
    assert sorted[..|sorted|] == sorted;
    return true;
  }

  /** One turn of the loop over a directory's entries. */
  method CopyEntry(w: Walk, entry: Entry, relative: string, depth: nat, copying: bool, works: string -> bool)
    returns (ok: bool)
    requires WithinBudget(w.Spent()) && depth <= DEPTH_LIMIT
    modifies w
    ensures ok <==> EntryAccepted(entry, relative, depth, old(w.Spent()), works)
    ensures ok ==> w.Spent() == Flat(Plus(old(w.Spent()), Measure(entry.node))) && WithinBudget(w.Spent())
    ensures ok ==> |w.listed| - |old(w.listed)| == w.files - old(w.files)
    ensures ok && WellFormed(entry.node) ==>
              && w.listed == old(w.listed) + Paths(Copies(entry.node, PathOf(relative, entry.name)))
              && w.written == old(w.written) + if copying then Copies(entry.node, PathOf(relative, entry.name)) else []
    decreases DEPTH_LIMIT + 1 - depth, 0
  {
    hide NameOk, SortEntries, CopiesAll, MeasureAll, SoundAll, WellFormed;
    var name := entry.name;
    if !NameOk(name) { return false; }
    var path := PathOf(relative, name);
    if !works(path) { return false; }
    if entry.node.Link? { return false; }
    if entry.node.Dir? {
      ok := CopyTree(w, entry.node.entries, path, depth + 1, copying, works);
      return ok;
    }
    if !entry.node.File? { return false; }
    w.files := w.files + 1;
    if w.files > FILE_LIMIT { return false; }
    var data := entry.node.data;
    if |data| > FILE_BYTES { return false; }
    w.bytes := w.bytes + |data|;
    if w.bytes > BYTE_LIMIT { return false; }
    if copying {
      w.written := w.written + [Copy(path, data)];
    }
    w.listed := w.listed + [path];
    assert Paths([Copy(path, data)]) == [path];
    return true;
  }

  lemma SiblingIsGood(es: seq<Entry>, e: Entry)
    requires Siblings(es) && e in es
    ensures WellFormed(e.node)
  {
  }

  // ------------------------------------------------- the order of a directory

  lemma SizeOf(es: seq<Entry>)
    ensures |multiset(es)| == |es|
  {
  }

  function Names(es: seq<Entry>): (r: seq<string>)
    ensures |r| == |es| && forall i :: 0 <= i < |r| ==> r[i] == es[i].name
  {
    seq(|es|, i requires 0 <= i < |es| => es[i].name)
  }

  lemma Middle<T>(p: seq<T>, e: T, q: seq<T>)
    ensures multiset(p + ([e] + q)) - multiset{e} == multiset(p + q)
  {
    assert multiset(p + ([e] + q)) == multiset(p) + (multiset{e} + multiset(q));
    assert multiset(p + q) == multiset(p) + multiset(q);
  }

  /** A permutation with the first entry of the other taken out. */
  lemma TakeOut<T>(a: seq<T>, b: seq<T>) returns (p: seq<T>, q: seq<T>)
    requires a != [] && multiset(a) == multiset(b)
    ensures b == p + ([a[0]] + q) && multiset(a[1..]) == multiset(p + q)
  {
    assert a[0] in multiset(b);
    var k :| 0 <= k < |b| && b[k] == a[0];
    p, q := b[..k], b[k + 1..];
    assert b == p + ([a[0]] + q);
    assert a == [] + ([a[0]] + a[1..]) && [] + a[1..] == a[1..];
    Middle([], a[0], a[1..]);
    Middle(p, a[0], q);
  }

  /** However the directory was read, the same is accepted and counted. */
  lemma {:induction false} SameEntries(a: seq<Entry>, b: seq<Entry>, relative: string, works: string -> bool)
    requires multiset(a) == multiset(b)
    ensures |a| == |b| && multiset(Names(a)) == multiset(Names(b))
    ensures MeasureAll(a) == MeasureAll(b)
    ensures SoundAll(a, relative, works) == SoundAll(b, relative, works)
    decreases |a|
  {
    hide NameOk, Sound, Measure, SoundAll, MeasureAll, Plus, Names, PathOf;
    SizeOf(a);
    SizeOf(b);
    if a != [] {
      var p, q := TakeOut(a, b);
      SameEntries(a[1..], p + q, relative, works);
      MovedFront(p, a[0], q, relative, works);
      MovedFront([], a[0], a[1..], relative, works);
      assert [] + ([a[0]] + a[1..]) == a && [] + a[1..] == a[1..];
    }
  }

  /** An entry may be taken out of the middle and put first. */
  lemma MovedFront(p: seq<Entry>, e: Entry, q: seq<Entry>, relative: string, works: string -> bool)
    ensures MeasureAll(p + ([e] + q)) == Plus(Measure(e.node), MeasureAll(p + q))
    ensures SoundAll(p + ([e] + q), relative, works) <==>
      NameOk(e.name) && Sound(e.node, PathOf(relative, e.name), works) && SoundAll(p + q, relative, works)
    ensures multiset(Names(p + ([e] + q))) == multiset(Names(p + q)) + multiset{e.name}
  {
    hide NameOk, Sound, Measure, SoundAll, MeasureAll, PathOf, Names;
    MovedMeasure(p, e, q);
    SoundConcat(p, [e] + q, relative, works);
    SoundConcat([e], q, relative, works);
    SoundConcat(p, q, relative, works);
    WalkOne(e, relative, works);
    MovedName(p, e, q);
  }

  lemma MovedMeasure(p: seq<Entry>, e: Entry, q: seq<Entry>)
    ensures MeasureAll(p + ([e] + q)) == Plus(Measure(e.node), MeasureAll(p + q))
  {
    hide Measure, MeasureAll;
    MeasureConcat(p, [e] + q);
    MeasureConcat([e], q);
    MeasureConcat(p, q);
    WalkOne(e, "", _ => true);
  }

  lemma NamesConcat(a: seq<Entry>, b: seq<Entry>)
    ensures Names(a + b) == Names(a) + Names(b)
  {
  }

  lemma MovedName(p: seq<Entry>, e: Entry, q: seq<Entry>)
    ensures multiset(Names(p + ([e] + q))) == multiset(Names(p + q)) + multiset{e.name}
  {
    NamesConcat(p, [e] + q);
    NamesConcat(p, q);
    NamesCons(e, q);
    hide Names;
    assert multiset([e.name] + Names(q)) == multiset{e.name} + multiset(Names(q));
  }

  lemma NamesCons(e: Entry, es: seq<Entry>)
    ensures Names([e] + es) == [e.name] + Names(es)
  {
  }

  lemma {:induction false} InsertNames(e: Entry, es: seq<Entry>)
    ensures Names(InsertEntry(e, es)) == Insert(e.name, Names(es))
  {
    hide Le, Names;
    NamesCons(e, es);
    if es != [] {
      assert es == [es[0]] + es[1..];
      NamesCons(es[0], es[1..]);
      if !Le(e.name, es[0].name) {
        InsertNames(e, es[1..]);
        NamesCons(es[0], InsertEntry(e, es[1..]));
      }
    }
  }

  lemma {:induction false} SortNames(es: seq<Entry>)
    ensures Names(SortEntries(es)) == Sort(Names(es))
  {
    hide InsertEntry, Insert;
    if es != [] {
      SortNames(es[1..]);
      assert Names(es)[1..] == Names(es[1..]);
      InsertNames(es[0], SortEntries(es[1..]));
    }
  }

  /** Entries with different names, listed by the same names, are listed alike. */
  lemma SameNames(x: seq<Entry>, y: seq<Entry>)
    requires multiset(x) == multiset(y) && Names(x) == Names(y)
    requires forall i, j :: 0 <= i < j < |y| ==> y[i].name != y[j].name
    ensures x == y
  {
    SizeOf(x);
    SizeOf(y);
    forall i | 0 <= i < |x| ensures x[i] == y[i] {
      assert x[i] in multiset(y);
      var j :| 0 <= j < |y| && y[j] == x[i];
      assert Names(x)[i] == Names(y)[i];
    }
  }

  lemma SiblingsDiffer(es: seq<Entry>)
    ensures WellFormed(Dir(es)) ==> Siblings(es)
    ensures Siblings(es) ==> forall i, j :: 0 <= i < j < |es| ==> es[i].name != es[j].name
  {
  }

  /** Names in a directory differ, so sorting by name forgets the order of reading. */
  lemma SameOrder(a: seq<Entry>, b: seq<Entry>)
    requires multiset(a) == multiset(b) && WellFormed(Dir(b))
    ensures SortEntries(a) == SortEntries(b) && Siblings(SortEntries(b))
  {
    hide SortEntries, Sort, Names, WellFormed, Siblings, SoundAll, MeasureAll, Sorted;
    SameEntries(a, b, "", _ => true);
    SortNames(a);
    SortNames(b);
    SortSorted(Names(a));
    SortSorted(Names(b));
    SortedUnique(Sort(Names(a)), Sort(Names(b)));
    SortMembers(a);
    SortMembers(b);
    SiblingsDiffer(b);
    SortSiblings(b);
    SiblingsDiffer(SortEntries(b));
    SameNames(SortEntries(a), SortEntries(b));
  }

  lemma MeasureOfDir(es: seq<Entry>)
    ensures var t := MeasureAll(es); Measure(Dir(es)) == Totals(|es| + t.entries, t.files, t.bytes, 1 + t.height)
  {
    hide MeasureAll;
  }

  lemma NoPaths()
    ensures Paths([]) == []
  {
  }

  lemma PathsConcat(a: seq<Copy>, b: seq<Copy>)
    ensures Paths(a + b) == Paths(a) + Paths(b)
  {
  }

  lemma EntryAcceptedMeans(e: Entry, relative: string, depth: nat, spent: Totals, works: string -> bool)
    requires EntryAccepted(e, relative, depth, spent, works)
    ensures NameOk(e.name) && Sound(e.node, PathOf(relative, e.name), works) && depth + Measure(e.node).height <= DEPTH_LIMIT
  {
  }

  lemma StartOfWalk(sorted: seq<Entry>, relative: string, works: string -> bool)
    ensures MeasureAll(sorted[..0]) == NOTHING && CopiesAll(sorted[..0], relative) == [] && SoundAll(sorted[..0], relative, works)
  {
  }

  lemma MeasureCons(es: seq<Entry>)
    requires es != []
    ensures MeasureAll(es) == Plus(Measure(es[0].node), MeasureAll(es[1..]))
  {
  }

  lemma PlusAssociative(a: Totals, b: Totals, c: Totals)
    ensures Plus(a, Plus(b, c)) == Plus(Plus(a, b), c)
    ensures Plus(NOTHING, a) == a
  {
  }

  lemma {:induction false} MeasureConcat(a: seq<Entry>, b: seq<Entry>)
    ensures MeasureAll(a + b) == Plus(MeasureAll(a), MeasureAll(b))
  {
    hide Measure, MeasureAll, Plus;
    if a == [] {
      assert a + b == b;
      assert MeasureAll(a) == NOTHING by { MeasureNone(); }
      PlusAssociative(MeasureAll(b), NOTHING, NOTHING);
    } else {
      assert (a + b)[1..] == a[1..] + b;
      MeasureConcat(a[1..], b);
      MeasureCons(a);
      MeasureCons(a + b);
      PlusAssociative(Measure(a[0].node), MeasureAll(a[1..]), MeasureAll(b));
    }
  }

  lemma MeasureNone()
    ensures MeasureAll([]) == NOTHING
  {
  }

  lemma {:induction false} SoundConcat(a: seq<Entry>, b: seq<Entry>, relative: string, works: string -> bool)
    ensures SoundAll(a + b, relative, works) <==> SoundAll(a, relative, works) && SoundAll(b, relative, works)
  {
    hide NameOk, Sound;
    if a == [] {
      assert a + b == b;
    } else {
      assert (a + b)[1..] == a[1..] + b;
      SoundConcat(a[1..], b, relative, works);
    }
  }

  lemma {:induction false} CopiesConcat(a: seq<Entry>, b: seq<Entry>, relative: string)
    ensures CopiesAll(a + b, relative) == CopiesAll(a, relative) + CopiesAll(b, relative)
  {
    hide Copies, MeasureAll, PathOf;
    if a == [] {
      assert a + b == b;
    } else {
      assert (a + b)[1..] == a[1..] + b;
      CopiesConcat(a[1..], b, relative);
    }
  }

  lemma WalkOne(e: Entry, relative: string, works: string -> bool)
    ensures MeasureAll([e]) == Plus(Measure(e.node), NOTHING)
    ensures SoundAll([e], relative, works) <==> NameOk(e.name) && Sound(e.node, PathOf(relative, e.name), works)
    ensures CopiesAll([e], relative) == Copies(e.node, PathOf(relative, e.name))
  {
    hide NameOk, Sound, Measure, Copies;
    assert [e][1..] == [];
  }

  lemma StepOfWalk(sorted: seq<Entry>, i: nat, relative: string, works: string -> bool)
    requires i < |sorted|
    ensures var e := sorted[i]; var path := PathOf(relative, e.name);
      && MeasureAll(sorted[..i + 1]) == Plus(MeasureAll(sorted[..i]), Measure(e.node))
      && CopiesAll(sorted[..i + 1], relative) == CopiesAll(sorted[..i], relative) + Copies(e.node, path)
      && SoundAll(sorted[..i + 1], relative, works)
           == (SoundAll(sorted[..i], relative, works) && NameOk(e.name) && Sound(e.node, path, works))
  {
    hide NameOk, Sound, Measure, Copies, MeasureAll, CopiesAll, SoundAll;
    assert sorted[..i + 1] == sorted[..i] + [sorted[i]];
    MeasureConcat(sorted[..i], [sorted[i]]);
    SoundConcat(sorted[..i], [sorted[i]], relative, works);
    CopiesConcat(sorted[..i], [sorted[i]], relative);
    WalkOne(sorted[i], relative, works);
  }

  /** In an accepted tree every entry is accepted in its turn. */
  lemma EveryEntryAccepted(sorted: seq<Entry>, i: nat, relative: string, depth: nat, spent: Totals, works: string -> bool)
    requires i < |sorted|
    requires EntriesAccepted(sorted, relative, depth, spent, works)
    ensures EntryAccepted(sorted[i], relative, depth, Flat(Plus(spent, MeasureAll(sorted[..i]))), works)
  {
    hide NameOk, Sound, Measure, Copies, MeasureAll, CopiesAll, SoundAll;
    StepOfWalk(sorted, i, relative, works);
    assert sorted == sorted[..i + 1] + sorted[i + 1..];
    MeasureConcat(sorted[..i + 1], sorted[i + 1..]);
    SoundConcat(sorted[..i + 1], sorted[i + 1..], relative, works);
  }

  // --------------------------------------------------------- what is listed

  /** The regular file reached from a node by descending through names. */
  predicate FileAt(node: Node, names: seq<string>, data: string)
    decreases |names|
  {
    match node
    case File(d) => names == [] && d == data
    case Dir(entries) => names != [] && exists e :: e in entries && e.name == names[0] && FileAt(e.node, names[1..], data)
    case _ => false
  }

  /** The path of a sequence of names below `relative`. */
  function Below(relative: string, names: seq<string>): string
    decreases |names|
  {
    if names == [] then relative else Below(PathOf(relative, names[0]), names[1..])
  }

  lemma {:induction false} InsertMembers(e: Entry, es: seq<Entry>)
    ensures multiset(InsertEntry(e, es)) == multiset(es) + multiset{e}
  {
    hide Le;
    if es != [] {
      assert es == [es[0]] + es[1..];
      InsertMembers(e, es[1..]);
    }
  }

  lemma {:induction false} SortMembers(es: seq<Entry>)
    ensures multiset(SortEntries(es)) == multiset(es)
  {
    if es != [] {
      assert es == [es[0]] + es[1..];
      SortMembers(es[1..]);
      InsertMembers(es[0], SortEntries(es[1..]));
    }
  }

  lemma {:induction false} CopiesAllMembers(es: seq<Entry>, relative: string, c: Copy)
    ensures c in CopiesAll(es, relative) <==>
      exists i :: 0 <= i < |es| && c in Copies(es[i].node, PathOf(relative, es[i].name))
    decreases |es|
  {
    hide Copies, MeasureAll, PathOf;
    if es != [] {
      CopiesAllMembers(es[1..], relative, c);
      if c in CopiesAll(es[1..], relative) {
        var i :| 0 <= i < |es[1..]| && c in Copies(es[1..][i].node, PathOf(relative, es[1..][i].name));
        assert c in Copies(es[i + 1].node, PathOf(relative, es[i + 1].name));
      }
      forall i | 0 < i < |es| && c in Copies(es[i].node, PathOf(relative, es[i].name)) ensures c in CopiesAll(es[1..], relative) {
        assert es[1..][i - 1] == es[i];
      }
    }
  }

  lemma {:induction false} HeightBelow(es: seq<Entry>, e: Entry)
    requires e in es
    ensures Measure(e.node).height <= MeasureAll(es).height
  {
    hide Measure;
    if es[0] != e { HeightBelow(es[1..], e); }
  }

  lemma SortedEntry(es: seq<Entry>, e: Entry)
    ensures e in SortEntries(es) <==> e in es
  {
    SortMembers(es);
    assert e in multiset(SortEntries(es)) <==> e in multiset(es);
  }

  /** What is copied from a node is a regular file below it, whole. */
  lemma {:induction false} CopiedIsFile(node: Node, path: string, c: Copy) returns (names: seq<string>)
    requires c in Copies(node, path)
    ensures FileAt(node, names, c.data) && c.path == Below(path, names)
    decreases Measure(node).height
  {
    hide MeasureAll, PathOf, SortEntries, CopiesAll;
    if node.File? {
      names := [];
    } else {
      var sorted := SortEntries(node.entries);
      CopiesAllMembers(sorted, path, c);
      var i :| 0 <= i < |sorted| && c in Copies(sorted[i].node, PathOf(path, sorted[i].name));
      var e := sorted[i];
      SortedEntry(node.entries, e);
      HeightBelow(node.entries, e);
      MeasureOfDir(node.entries);
      var rest := CopiedIsFile(e.node, PathOf(path, e.name), c);
      names := [e.name] + rest;
      assert names[1..] == rest;
    }
  }

  /** Every regular file below a node is copied. */
  lemma {:induction false} FileIsCopied(node: Node, path: string, names: seq<string>, data: string)
    requires FileAt(node, names, data)
    ensures Copy(Below(path, names), data) in Copies(node, path)
    decreases |names|
  {
    hide MeasureAll, PathOf, SortEntries, CopiesAll;
    if node.Dir? {
      var e :| e in node.entries && e.name == names[0] && FileAt(e.node, names[1..], data);
      FileIsCopied(e.node, PathOf(path, e.name), names[1..], data);
      var sorted := SortEntries(node.entries);
      SortedEntry(node.entries, e);
      var i :| 0 <= i < |sorted| && sorted[i] == e;
      CopiesAllMembers(sorted, path, Copy(Below(path, names), data));
    }
  }

  /** What a file system guarantees: names in a directory are not empty and differ. */
  predicate WellFormed(node: Node)
    decreases node
  {
    node.Dir? ==>
      && (forall i, j :: 0 <= i < j < |node.entries| ==> node.entries[i].name != node.entries[j].name)
      && (forall e :: e in node.entries ==> e.name != "" && '/' !in e.name && WellFormed(e.node))
  }

  predicate Under(p: string, base: string) {
    p == base || base + "/" <= p
  }

  function FirstName(q: string): string {
    if q == "" || q[0] == '/' then "" else [q[0]] + FirstName(q[1..])
  }

  lemma {:induction false} FirstNameOf(q: string, n: string)
    requires '/' !in n && Under(q, n)
    ensures FirstName(q) == n
  {
    if n == "" {
      assert q != "" ==> q[0] == "/"[0];
    } else {
      assert q[0] == n[0] && n[0] in n;
      assert Under(q[1..], n[1..]) by {
        if q != n { assert n[1..] + "/" == (n + "/")[1..] <= q[1..]; }
      }
      FirstNameOf(q[1..], n[1..]);
    }
  }

  lemma UnderOneName(relative: string, n: string, m: string, p: string)
    requires '/' !in n && '/' !in m
    requires Under(p, PathOf(relative, n)) && Under(p, PathOf(relative, m))
    ensures n == m
  {
    var base := if relative == "" then "" else relative + "/";
    assert PathOf(relative, n) == base + n && PathOf(relative, m) == base + m;
    var q := p[|base|..];
    UnderBase(base, n, p);
    UnderBase(base, m, p);
    FirstNameOf(q, n);
    FirstNameOf(q, m);
  }

  lemma UnderBase(base: string, n: string, p: string)
    requires Under(p, base + n)
    ensures base <= p && Under(p[|base|..], n)
  {
    if p == base + n {
      assert p[|base|..] == n;
    } else {
      assert base + n + "/" == base + (n + "/");
    }
  }

  lemma {:induction false} BelowIsUnder(path: string, names: seq<string>)
    requires path != ""
    ensures Under(Below(path, names), path)
    decreases |names|
  {
    if names != [] {
      BelowIsUnder(PathOf(path, names[0]), names[1..]);
      assert path + "/" + names[0] == path + ("/" + names[0]);
    }
  }

  lemma CopiedUnder(node: Node, path: string, c: Copy)
    requires path != "" && c in Copies(node, path)
    ensures Under(c.path, path)
  {
    var names := CopiedIsFile(node, path, c);
    BelowIsUnder(path, names);
  }

  ghost predicate Siblings(es: seq<Entry>) {
    && (forall i, j :: 0 <= i < j < |es| ==> es[i].name != es[j].name)
    && (forall e :: e in es ==> GoodEntry(e))
  }

  predicate GoodEntry(e: Entry) {
    e.name != "" && '/' !in e.name && WellFormed(e.node)
  }

  lemma AllCons(e: Entry, es: seq<Entry>)
    ensures forall x :: x in [e] + es <==> x == e || x in es
  {
  }

  lemma SiblingsCons(e: Entry, es: seq<Entry>)
    ensures Siblings([e] + es) <==> GoodEntry(e) && Siblings(es) && forall x :: x in es ==> x.name != e.name
  {
    hide GoodEntry;
    var all := [e] + es;
    assert all[0] == e && forall i :: 0 <= i < |es| ==> all[i + 1] == es[i];
    AllCons(e, es);
    if Siblings(all) {
      forall i, j | 0 <= i < j < |es| ensures es[i].name != es[j].name {
        assert all[i + 1].name != all[j + 1].name;
      }
    }
  }

  lemma {:induction false} InsertSiblings(e: Entry, es: seq<Entry>)
    requires Siblings([e] + es)
    ensures Siblings(InsertEntry(e, es))
  {
    hide Le, WellFormed, Siblings;
    if es != [] && !Le(e.name, es[0].name) {
      var rest := es[1..];
      assert es == [es[0]] + rest;
      SiblingsCons(e, es);
      SiblingsCons(es[0], rest);
      assert es[0] in es && forall x :: x in rest ==> x in es;
      SiblingsCons(e, rest);
      InsertSiblings(e, rest);
      InsertMembers(e, rest);
      forall x | x in InsertEntry(e, rest) ensures x == e || x in rest {
        assert x in multiset(InsertEntry(e, rest));
      }
      SiblingsCons(es[0], InsertEntry(e, rest));
    }
  }

  lemma {:induction false} SortSiblings(es: seq<Entry>)
    requires Siblings(es)
    ensures Siblings(SortEntries(es))
  {
    hide WellFormed, InsertEntry, Siblings;
    if es != [] {
      var rest := es[1..];
      assert es == [es[0]] + rest;
      SiblingsCons(es[0], rest);
      SortSiblings(rest);
      SortMembers(rest);
      forall x | x in SortEntries(rest) ensures x in rest {
        assert x in multiset(SortEntries(rest));
      }
      SiblingsCons(es[0], SortEntries(rest));
      InsertSiblings(es[0], SortEntries(rest));
    }
  }

  lemma {:induction false} CopiesDistinct(node: Node, path: string)
    requires WellFormed(node)
    ensures Distinct(Paths(Copies(node, path)))
    decreases Measure(node).height, 0, 0
  {
    hide SortEntries, MeasureAll;
    if node.Dir? {
      SortSiblings(node.entries);
      SortKeepsHeight(node.entries);
      MeasureOfDir(node.entries);
      CopiesAllDistinct(SortEntries(node.entries), path);
    }
  }

  lemma {:induction false} CopiesAllDistinct(es: seq<Entry>, relative: string)
    requires Siblings(es)
    ensures Distinct(Paths(CopiesAll(es, relative)))
    decreases MeasureAll(es).height, 1, |es|
  {
    hide Copies, PathOf, WellFormed, MeasureAll, Measure, Under;
    if es != [] {
      var e, rest := es[0], es[1..];
      assert e in es && forall x :: x in rest ==> x in es;
      HeightBelow(es, e);
      TailHeight(es);
      var path := PathOf(relative, e.name);
      CopiesDistinct(e.node, path);
      CopiesAllDistinct(rest, relative);
      var first, others := Copies(e.node, path), CopiesAll(rest, relative);
      forall i, j | 0 <= i < |first| && 0 <= j < |others| ensures first[i].path != others[j].path {
        assert first[i] in first && others[j] in others;
        CopiesAllMembers(rest, relative, others[j]);
        var k :| 0 <= k < |rest| && others[j] in Copies(rest[k].node, PathOf(relative, rest[k].name));
        assert GoodEntry(e) && rest[k] == es[k + 1] && rest[k] in es && GoodEntry(rest[k]);
        SeparateNames(relative, e, rest[k], first[i], others[j]);
      }
      PathsConcat(first, others);
    }
  }

  lemma TailHeight(es: seq<Entry>)
    requires es != []
    ensures MeasureAll(es[1..]).height <= MeasureAll(es).height
  {
    hide Measure;
  }

  lemma SeparateNames(relative: string, e: Entry, f: Entry, c: Copy, d: Copy)
    requires e.name != f.name && e.name != "" && f.name != "" && '/' !in e.name && '/' !in f.name
    requires c in Copies(e.node, PathOf(relative, e.name)) && d in Copies(f.node, PathOf(relative, f.name))
    ensures c.path != d.path
  {
    CopiedUnder(e.node, PathOf(relative, e.name), c);
    CopiedUnder(f.node, PathOf(relative, f.name), d);
    if c.path == d.path {
      UnderOneName(relative, e.name, f.name, c.path);
    }
  }

  ghost predicate RegularFile(root: Node, c: Copy) {
    exists names :: FileAt(root, names, c.data) && c.path == Below("", names)
  }

  /** The listing of a tree is its regular files: each exactly once, under the
      path of its names, with its whole content, and nothing else. */
  lemma ListedExactlyOnce(dir: seq<Entry>)
    requires WellFormed(Dir(dir))
    ensures var copies := CopiesAll(SortEntries(dir), "");
      && Distinct(Paths(copies))
      && (forall names, data :: FileAt(Dir(dir), names, data) ==> Copy(Below("", names), data) in copies)
      && (forall c :: c in copies ==> RegularFile(Dir(dir), c))
  {
    hide SortEntries, CopiesAll, FileAt, Below, Distinct, WellFormed;
    var copies := CopiesAll(SortEntries(dir), "");
    assert copies == Copies(Dir(dir), "");
    CopiesDistinct(Dir(dir), "");
    forall names, data | FileAt(Dir(dir), names, data) ensures Copy(Below("", names), data) in copies {
      FileIsCopied(Dir(dir), "", names, data);
    }
    forall c | c in copies ensures RegularFile(Dir(dir), c) {
      var names := CopiedIsFile(Dir(dir), "", c);
    }
  }

  /** Success from the top bounds the whole tree. */
  lemma AcceptedMeans(dir: seq<Entry>, works: string -> bool)
    requires Accepted(dir, "", 0, NOTHING, works)
    ensures |CopiesAll(SortEntries(dir), "")| == Measure(Dir(dir)).files <= FILE_LIMIT
    ensures Measure(Dir(dir)).entries <= ENTRY_LIMIT && Measure(Dir(dir)).bytes <= BYTE_LIMIT
    ensures Measure(Dir(dir)).height <= DEPTH_LIMIT + 1
  {
    hide SoundAll, MeasureAll, SortEntries, CopiesAll;
    MeasureOfDir(dir);
    CountCopies(Dir(dir), "");
  }

  lemma {:induction false} CountCopies(node: Node, path: string)
    ensures |Copies(node, path)| == Measure(node).files
    decreases Measure(node).height, 0, 0
  {
    hide SortEntries, MeasureAll;
    if node.Dir? {
      SortKeepsHeight(node.entries);
      MeasureOfDir(node.entries);
      CountAllCopies(SortEntries(node.entries), path);
    }
  }

  lemma {:induction false} CountAllCopies(es: seq<Entry>, relative: string)
    ensures |CopiesAll(es, relative)| == MeasureAll(es).files
    decreases MeasureAll(es).height, 1, |es|
  {
    hide Copies, Measure, PathOf;
    if es != [] {
      HeightBelow(es, es[0]);
      TailHeight(es);
      CountCopies(es[0].node, PathOf(relative, es[0].name));
      CountAllCopies(es[1..], relative);
    }
  }
}
