/** Which trees extension/loader/bundle.go:272-366 copies, said of each thing a
    path of names leads to. */
module BundleAccept {
  import opened BundleCopy
  import opened Utf8

  /** What descending through the names reaches, directories included. */
  predicate At(node: Node, names: seq<string>, found: Node)
    decreases |names|
  {
    if names == [] then found == node
    else node.Dir? && exists e :: e in node.entries && e.name == names[0] && At(e.node, names[1..], found)
  }

  predicate GoodName(name: string) {
    Valid(Octets(name)) && name !in {".", ".."} && forall i :: 0 <= i < |name| ==> name[i] !in {'/', '\\'}
  }

  lemma GoodNames(name: string)
    ensures NameOk(name) <==> GoodName(name)
  {
    hide Valid;
    if c :| c in name && c in {'/', '\\'} {
      var i :| 0 <= i < |name| && name[i] == c;
    }
  }

  /** The walk takes it: its name is UTF-8 without separators and not "." or "..",
      the operating system serves it, and it is a directory or a regular file of at
      most 8 MiB. */
  predicate Takes(path: string, names: seq<string>, found: Node, works: string -> bool) {
    && works(Below(path, names))
    && (names != [] ==> GoodName(names[|names| - 1]))
    && (found.Dir? || (found.File? && |found.data| <= 8388608))
  }

  lemma {:induction false} SoundMembers(es: seq<Entry>, relative: string, works: string -> bool)
    ensures SoundAll(es, relative, works) <==>
              forall e :: e in es ==> NameOk(e.name) && Sound(e.node, PathOf(relative, e.name), works)
  {
    hide NameOk, Sound, PathOf;
    if es != [] {
      SoundMembers(es[1..], relative, works);
      assert es == [es[0]] + es[1..];
    }
  }

  lemma TakesBelow(path: string, names: seq<string>, found: Node, works: string -> bool)
    requires |names| > 1
    ensures Takes(path, names, found, works) <==> Takes(PathOf(path, names[0]), names[1..], found, works)
  {
    hide GoodName, PathOf;
  }

  lemma TakesOne(path: string, name: string, found: Node, works: string -> bool)
    ensures Takes(path, [name], found, works) <==> NameOk(name) && Takes(PathOf(path, name), [], found, works)
  {
    hide NameOk, GoodName, PathOf;
    GoodNames(name);
    assert Below(path, [name]) == Below(PathOf(path, name), [name][1..]);
  }

  /** A tree is sound exactly when everything in it is taken. */
  lemma {:induction false} SoundMeans(node: Node, path: string, works: string -> bool)
    ensures Sound(node, path, works) <==> forall names, found :: At(node, names, found) ==> Takes(path, names, found, works)
    decreases node
  {
    hide NameOk, PathOf, Takes;
    if node.Dir? { SoundMembers(node.entries, path, works); }
    TakesRoot(node, path, works);
    if Sound(node, path, works) {
      forall names, found | At(node, names, found) ensures Takes(path, names, found, works) {
        if names != [] {
          var e :| e in node.entries && e.name == names[0] && At(e.node, names[1..], found);
          SoundMeans(e.node, PathOf(path, e.name), works);
          if |names| == 1 { TakesOne(path, e.name, found, works); assert names == [e.name]; }
          else { TakesBelow(path, names, found, works); }
        }
      }
    }
    if forall names, found :: At(node, names, found) ==> Takes(path, names, found, works) {
      assert At(node, [], node);
      if node.Dir? {
        forall e | e in node.entries ensures NameOk(e.name) && Sound(e.node, PathOf(path, e.name), works) {
          EntryTaken(node, path, works, e);
          SoundMeans(e.node, PathOf(path, e.name), works);
        }
      }
    }
  }

  lemma TakesRoot(node: Node, path: string, works: string -> bool)
    ensures Takes(path, [], node, works) <==> works(path) && (node.Dir? || (node.File? && |node.data| <= 8388608))
  {
  }

  lemma EntryTaken(node: Node, path: string, works: string -> bool, e: Entry)
    requires node.Dir? && e in node.entries
    requires forall names, found :: At(node, names, found) ==> Takes(path, names, found, works)
    ensures NameOk(e.name)
    ensures forall names, found :: At(e.node, names, found) ==> Takes(PathOf(path, e.name), names, found, works)
  {
    hide NameOk, PathOf, Takes;
    assert [e.name][1..] == [];
    assert At(e.node, [], e.node);
    assert At(node, [e.name], e.node);
    TakesOne(path, e.name, e.node, works);
    forall names, found | At(e.node, names, found) ensures Takes(PathOf(path, e.name), names, found, works) {
      var all := [e.name] + names;
      assert all[1..] == names;
      assert At(node, all, found);
      if names == [] {
        TakesOne(path, e.name, found, works);
        assert all == [e.name];
      } else {
        TakesBelow(path, all, found, works);
      }
    }
  }

  /** The height is that of the deepest directory. */
  lemma {:induction false} HeightMeans(node: Node, h: nat)
    ensures Measure(node).height <= h <==> forall names, found :: At(node, names, found) && found.Dir? ==> |names| < h
    decreases node
  {
    if node.Dir? {
      HeightMembers(node.entries, h - 1);
      if Measure(node).height <= h {
        forall names, found | At(node, names, found) && found.Dir? ensures |names| < h {
          if names != [] {
            var e :| e in node.entries && e.name == names[0] && At(e.node, names[1..], found);
            HeightMeans(e.node, h - 1);
          }
        }
      }
      if forall names, found :: At(node, names, found) && found.Dir? ==> |names| < h {
        assert At(node, [], node);
        forall e | e in node.entries ensures Measure(e.node).height <= h - 1 {
          forall names, found | At(e.node, names, found) && found.Dir? ensures |names| < h - 1 {
            var all := [e.name] + names;
            assert all[1..] == names;
            assert At(node, all, found);
          }
          HeightMeans(e.node, h - 1);
        }
      }
    } else {
      assert forall names, found :: At(node, names, found) ==> found == node;
    }
  }

  lemma {:induction false} HeightMembers(es: seq<Entry>, h: int)
    ensures h >= 0 ==> (MeasureAll(es).height <= h <==> forall e :: e in es ==> Measure(e.node).height <= h)
  {
    hide Measure;
    if es != [] {
      HeightMembers(es[1..], h);
      assert es == [es[0]] + es[1..];
    }
  }

  function CopiedBytes(copies: seq<Copy>): nat {
    if copies == [] then 0 else |copies[0].data| + CopiedBytes(copies[1..])
  }

  lemma {:induction false} CopiedConcat(a: seq<Copy>, b: seq<Copy>)
    ensures CopiedBytes(a + b) == CopiedBytes(a) + CopiedBytes(b)
  {
    if a == [] {
      assert a + b == b;
    } else {
      assert (a + b)[1..] == a[1..] + b;
      CopiedConcat(a[1..], b);
    }
  }

  lemma {:induction false} BytesOfCopies(node: Node, path: string)
    ensures CopiedBytes(Copies(node, path)) == Measure(node).bytes
    decreases Measure(node).height, 0, 0
  {
    hide SortEntries, MeasureAll;
    match node
    case File(data) => assert CopiedBytes([Copy(path, data)][1..]) == 0;
    case Dir(entries) =>
      SortKeepsHeight(entries);
      MeasureOfDir(entries);
      BytesOfAllCopies(SortEntries(entries), path);
    case _ =>
  }

  lemma {:induction false} BytesOfAllCopies(es: seq<Entry>, relative: string)
    ensures CopiedBytes(CopiesAll(es, relative)) == MeasureAll(es).bytes
    decreases MeasureAll(es).height, 1, |es|
  {
    hide Copies, Measure, PathOf;
    if es != [] {
      HeightBelow(es, es[0]);
      TailHeight(es);
      BytesOfCopies(es[0].node, PathOf(relative, es[0].name));
      BytesOfAllCopies(es[1..], relative);
      CopiedConcat(Copies(es[0].node, PathOf(relative, es[0].name)), CopiesAll(es[1..], relative));
    }
  }

  /** The bundle is copied exactly when everything in it is taken, no directory is
      more than 16 names deep, and there are at most 512 entries and 256 files of
      16 MiB together. */
  lemma CopiedExactly(dir: seq<Entry>, works: string -> bool)
    ensures Accepted(dir, "", 0, NOTHING, works) <==>
      && (forall names, found :: At(Dir(dir), names, found) ==>
            Takes("", names, found, works) && (found.Dir? ==> |names| <= 16))
      && Measure(Dir(dir)).entries <= 512
      && |CopiesAll(SortEntries(dir), "")| <= 256 && CopiedBytes(CopiesAll(SortEntries(dir), "")) <= 16777216
  {
    hide SoundAll, MeasureAll, SortEntries, CopiesAll, Takes, Below;
    MeasureOfDir(dir);
    SoundMeans(Dir(dir), "", works);
    SoundOfDir(dir, works);
    HeightMeans(Dir(dir), 17);
    CountCopies(Dir(dir), "");
    BytesOfCopies(Dir(dir), "");
  }

  lemma SoundOfDir(dir: seq<Entry>, works: string -> bool)
    ensures Sound(Dir(dir), "", works) <==> works("") && SoundAll(dir, "", works)
  {
  }
}
