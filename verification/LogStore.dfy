/** The diagnostic log ring of apps/debug/logs.go, stated against the unbounded
    log it is a window on. Record `i` of the unbounded log has sequence `i + 1`. */
module LogStore {
  import opened Splitting

  const RING := 512
  const PAGE_LIMIT := 8
  const KEYWORD_BUDGET := 256

  datatype Record = Record(sequence: nat, level: string, data: string)

  datatype Query = Query(after: nat, highWater: nat, level: string, keyword: string, limit: int)

  datatype Page = Page(records: seq<Record>, highWater: nat, oldest: nat, next: nat, dropped: bool, hasMore: bool)

  datatype Refusal = BadQuery | BadLevel | BadCursor

  datatype Result = Ok(page: Page) | Err(why: Refusal)

  // ---------------------------------------------------------- specification

  predicate Matches(q: Query, r: Record) {
    (q.level == "" || r.level == q.level) && (q.keyword == "" || Contains(r.data, q.keyword))
  }

  function Matching(q: Query, rs: seq<Record>): seq<Record> {
    if rs == [] then []
    else (if Matches(q, rs[0]) then [rs[0]] else []) + Matching(q, rs[1..])
  }

  predicate KnownLevel(level: string) {
    level in {"", "debug", "info", "warn", "error"}
  }

  function Max(a: nat, b: nat): nat {
    if a < b then b else a
  }

  /** How many records the ring has forgotten. */
  function Forgotten(all: seq<Record>): nat {
    if |all| > RING then |all| - RING else 0
  }

  /** What is still held of the records numbered `after + 1` to `high`. */
  function Held(all: seq<Record>, after: nat, high: nat): seq<Record>
    requires after <= high <= |all|
  {
    if Forgotten(all) >= high then [] else all[Max(after, Forgotten(all))..high]
  }

  function Limit(q: Query): int {
    if q.limit == 0 then PAGE_LIMIT else q.limit
  }

  function High(all: seq<Record>, q: Query): nat {
    if q.highWater == 0 then |all| else q.highWater
  }

  /** A page of the unbounded log `all`, as a ring of 512 records can give it. */
  function Answer(all: seq<Record>, q: Query): Result {
    var high := High(all, q);
    if !(1 <= Limit(q) <= PAGE_LIMIT) || |q.keyword| > KEYWORD_BUDGET then Err(BadQuery)
    else if !KnownLevel(q.level) then Err(BadLevel)
    else if high > |all| || q.after > high then Err(BadCursor)
    else
      var found := Matching(q, Held(all, q.after, high));
      var more := |found| > Limit(q);
      var taken := if more then found[..Limit(q)] else found;
      Ok(Page(taken, high, if all == [] then 0 else Forgotten(all) + 1,
              if taken == [] then q.after else taken[|taken| - 1].sequence,
              all != [] && q.after < Forgotten(all), more))
  }

  /** Records are numbered from 1 without gaps. */
  ghost predicate Numbered(all: seq<Record>) {
    forall i :: 0 <= i < |all| ==> all[i].sequence == i + 1
  }

  // ----------------------------------------------------------- the Go object

  class Store {
    var records: seq<Record>
    var next: nat
    var stopped: bool
    ghost var all: seq<Record>

    /** The ring holds the newest records of the unbounded log, contiguously,
        the last of them numbered `next`. */
    ghost predicate Valid()
      reads this
    {
      next == |all| && Numbered(all) && records == all[Forgotten(all)..]
    }

    constructor ()
      ensures Valid() && all == [] && !stopped
    {
      records, next, stopped := [], 0, false;
      all := [];
    }

    /** The end of Handle: `level` in lower case and `data` are what redaction made of the
        event, `redacted` whether it succeeded. */
    method Handle(level: string, data: string, redacted: bool) returns (ok: bool)
      requires Valid()
      modifies this
      ensures Valid() && stopped == old(stopped)
      ensures ok <==> old(stopped) || redacted
      ensures all == if !old(stopped) && redacted then old(all) + [Record(old(next) + 1, level, data)] else old(all)
    {
      if stopped { return true; }
      if !redacted { return false; }
      next := next + 1;
      var item := Record(next, level, data);
      if |records| == RING {
        records := records[1..] + [item];
      } else {
        records := records + [item];
      }
      all := all + [item];
      return true;
    }

    method PageOf(q: Query) returns (r: Result)
      requires Valid()
      ensures r == Answer(all, q)
    {
      hide Matches, Matching, KnownLevel, Contains, Held, Numbered;
      var limit := if q.limit == 0 then PAGE_LIMIT else q.limit;
      if limit < 1 || limit > PAGE_LIMIT || |q.keyword| > KEYWORD_BUDGET { return Err(BadQuery); }
      if !KnownLevel(q.level) { return Err(BadLevel); }
      var high := if q.highWater == 0 then next else q.highWater;
      if high > next || q.after > high { return Err(BadCursor); }
      var oldest, dropped := 0, false;
      NumberedAt(all, Forgotten(all));
      if |records| > 0 {
        oldest := records[0].sequence;
        dropped := q.after + 1 < oldest;
      }
      var page, cursor, more := Scan(q, limit, high);
      return Ok(Page(page, high, oldest, cursor, dropped, more));
    }

    /** The loop of PageOf over the ring. */
    method Scan(q: Query, limit: int, high: nat) returns (page: seq<Record>, cursor: nat, more: bool)
      requires Valid() && q.after <= high <= next && limit >= 1
      ensures var found := Matching(q, Held(all, q.after, high));
        && (more <==> |found| > limit)
        && page == if more then found[..limit] else found
      ensures cursor == if page == [] then q.after else page[|page| - 1].sequence
    {
      hide Matches, Matching, Seen, Held, Contains, Numbered, Max;
      ghost var first := Forgotten(all);
      page, cursor, more := [], q.after, false;
      ghost var seen: seq<Record> := [];
      ghost var found := Matching(q, Held(all, q.after, high));
      SeenEnds(all, q.after, high);
      MatchingNone(q);
      for index := 0 to |records|
        invariant seen == Seen(all, q.after, high, first + index)
        invariant page == Matching(q, seen) && |page| <= limit && !more
        invariant cursor == if page == [] then q.after else page[|page| - 1].sequence
      {
        var record := records[index];
        SeenNext(all, q.after, high, first + index);
        if record.sequence <= q.after || record.sequence > high { continue; }
        MatchingAppend(q, seen, record);
        seen := seen + [record];
        if !Matches(q, record) { continue; }
        if |page| == limit {
          MatchingMore(q, seen, Held(all, q.after, high));
          assert page == found[..limit];
          return page, cursor, true;
        }
        page, cursor := page + [record], record.sequence;
      }
    }
  }

  /** The records of the window numbered up to `upTo` that are still held. */
  ghost function Seen(all: seq<Record>, after: nat, high: nat, upTo: nat): seq<Record>
    requires after <= high <= |all| && Forgotten(all) <= upTo <= |all|
  {
    var from := Max(after, Forgotten(all));
    var to := if upTo < high then upTo else high;
    if from >= to then [] else all[from..to]
  }

  lemma NumberedAt(all: seq<Record>, i: nat)
    requires Numbered(all)
    ensures i < |all| ==> all[i].sequence == i + 1
  {
  }

  lemma SeenNext(all: seq<Record>, after: nat, high: nat, upTo: nat)
    requires Numbered(all) && after <= high <= |all| && Forgotten(all) <= upTo < |all|
    ensures var r := all[upTo];
      Seen(all, after, high, upTo + 1)
        == if after < r.sequence <= high then Seen(all, after, high, upTo) + [r] else Seen(all, after, high, upTo)
    ensures Seen(all, after, high, upTo + 1) <= Held(all, after, high)
  {
    assert all[upTo].sequence == upTo + 1;
    hide Numbered;
    var from := Max(after, Forgotten(all));
    var end := if upTo + 1 < high then upTo + 1 else high;
    if from < end {
      SliceWithin(all, from, end, high);
      if upTo < high && from <= upTo { SliceAppend(all, from, upTo); }
    }
  }

  lemma SliceWithin(all: seq<Record>, from: nat, end: nat, high: nat)
    requires from <= end <= high <= |all|
    ensures all[from..end] <= all[from..high]
  {
    assert all[from..end] == all[from..high][..end - from];
  }

  lemma SliceAppend(all: seq<Record>, from: nat, to: nat)
    requires from <= to < |all|
    ensures all[from..to + 1] == all[from..to] + [all[to]]
  {
  }

  lemma SeenEnds(all: seq<Record>, after: nat, high: nat)
    requires after <= high <= |all|
    ensures Seen(all, after, high, Forgotten(all)) == []
    ensures Seen(all, after, high, |all|) == Held(all, after, high)
  {
  }

  lemma {:induction false} MatchingConcat(q: Query, a: seq<Record>, b: seq<Record>)
    ensures Matching(q, a + b) == Matching(q, a) + Matching(q, b)
  {
    hide Matches;
    if a == [] {
      assert a + b == b;
    } else {
      assert (a + b)[1..] == a[1..] + b;
      MatchingConcat(q, a[1..], b);
    }
  }

  lemma MatchingAppend(q: Query, rs: seq<Record>, r: Record)
    ensures Matching(q, rs + [r]) == if Matches(q, r) then Matching(q, rs) + [r] else Matching(q, rs)
  {
    hide Matches;
    MatchingConcat(q, rs, [r]);
    assert Matching(q, [r][1..]) == [];
  }

  lemma MatchingNone(q: Query)
    ensures Matching(q, []) == []
  {
  }

  lemma MatchingMore(q: Query, part: seq<Record>, whole: seq<Record>)
    requires part <= whole
    ensures Matching(q, part) <= Matching(q, whole)
  {
    assert whole == part + whole[|part|..];
    MatchingConcat(q, part, whole[|part|..]);
  }

  // ----------------------------------------------------------------- paging

  ghost predicate Rising(rs: seq<Record>) {
    forall i, j :: 0 <= i < j < |rs| ==> rs[i].sequence < rs[j].sequence
  }

  /** Matching keeps exactly the records that match, in order. */
  lemma {:induction false} MatchingMeans(q: Query, all: seq<Record>, from: nat, end: nat)
    requires Numbered(all) && from <= end <= |all|
    ensures forall r :: r in Matching(q, all[from..end]) <==> r in all && from < r.sequence <= end && Matches(q, r)
    ensures Rising(Matching(q, all[from..end]))
    decreases end - from
  {
    hide Matches;
    if from < end {
      assert all[from..end][1..] == all[from + 1..end];
      MatchingMeans(q, all, from + 1, end);
      assert all[from] in all;
      forall r | r in all && r.sequence == from + 1 ensures r == all[from] {
        var i :| 0 <= i < |all| && all[i] == r;
      }
    }
  }

  /** One page of a window nothing was dropped from, and what is left after it. */
  lemma PageSplits(all: seq<Record>, q: Query)
    requires Numbered(all) && Answer(all, q).Ok? && !Answer(all, q).page.dropped
    ensures var page := Answer(all, q).page;
      && q.after <= page.next <= page.highWater <= |all|
      && Matching(q, all[q.after..page.highWater])
           == page.records + (if page.hasMore then Matching(q, all[page.next..page.highWater]) else [])
      && (page.hasMore ==> |page.records| == Limit(q) && q.after < page.next)
  {
    hide Matches, Matching, Answer;
    var page := Answer(all, q).page;
    var high := page.highWater;
    PageShape(all, q);
    var found := Matching(q, all[q.after..high]);
    MatchingMeans(q, all, q.after, high);
    if page.records != [] {
      var last := page.records[|page.records| - 1];
      assert last in found;
      if page.hasMore {
        MatchingFrom(q, all, q.after, high, Limit(q));
        assert last == found[Limit(q) - 1];
        assert found == found[..Limit(q)] + found[Limit(q)..];
      }
    }
  }

  lemma PageShape(all: seq<Record>, q: Query)
    requires Numbered(all) && Answer(all, q).Ok? && !Answer(all, q).page.dropped
    ensures var page := Answer(all, q).page;
      && q.after <= page.highWater <= |all| && 1 <= Limit(q)
      && var found := Matching(q, all[q.after..page.highWater]);
      && (page.hasMore <==> |found| > Limit(q))
      && page.records == (if page.hasMore then found[..Limit(q)] else found)
      && page.next == (if page.records == [] then q.after else page.records[|page.records| - 1].sequence)
  {
    hide Matches, Matching, KnownLevel, Numbered, Held, Forgotten;
    NothingForgotten(all, q.after, High(all, q));
  }

  lemma NothingForgotten(all: seq<Record>, after: nat, high: nat)
    requires after <= high <= |all| && !(all != [] && after < Forgotten(all))
    ensures Held(all, after, high) == all[after..high]
  {
    if Forgotten(all) >= high { assert after == high; }
  }

  /** What matches after the k-th match is what a search from its sequence finds. */
  lemma {:induction false} MatchingFrom(q: Query, all: seq<Record>, from: nat, end: nat, k: nat)
    requires Numbered(all) && from <= end <= |all| && 0 < k <= |Matching(q, all[from..end])|
    ensures from < Matching(q, all[from..end])[k - 1].sequence <= end
    ensures Matching(q, all[Matching(q, all[from..end])[k - 1].sequence..end]) == Matching(q, all[from..end])[k..]
    decreases end - from
  {
    hide Matches;
    var rest := Matching(q, all[from + 1..end]);
    assert all[from..end][1..] == all[from + 1..end];
    if !Matches(q, all[from]) {
      MatchingFrom(q, all, from + 1, end, k);
    } else if k > 1 {
      MatchingFrom(q, all, from + 1, end, k - 1);
    }
  }

  /** A client following `Next` at the first page's high-water until `HasMore`
      is false. `logs[i]` is the unbounded log when page `i` is taken. */
  ghost predicate Trail(logs: seq<seq<Record>>, q: Query, pages: seq<Page>)
    decreases |pages|
  {
    && |logs| == |pages| > 0
    && Numbered(logs[0])
    && Answer(logs[0], q) == Ok(pages[0])
    && (pages[0].hasMore <==> |pages| > 1)
    && (|pages| > 1 ==>
          && logs[0] <= logs[1]
          && Trail(logs[1..], q.(after := pages[0].next, highWater := pages[0].highWater), pages[1..]))
  }

  function Collected(pages: seq<Page>): seq<Record> {
    if pages == [] then [] else pages[0].records + Collected(pages[1..])
  }

  lemma {:induction false} SameMatches(q: Query, p: Query, rs: seq<Record>)
    requires p.level == q.level && p.keyword == q.keyword
    ensures Matching(p, rs) == Matching(q, rs)
  {
    hide Contains;
    if rs != [] { SameMatches(q, p, rs[1..]); }
  }

  /** Paging is complete: with appends between pages and no page reporting
      `Dropped`, the pages together are every matching record of the window of
      the unbounded log, once and in order. */
  lemma {:induction false} PagingIsComplete(logs: seq<seq<Record>>, q: Query, pages: seq<Page>)
    requires Trail(logs, q, pages)
    requires forall i :: 0 <= i < |pages| ==> !pages[i].dropped
    ensures q.after <= pages[0].highWater <= |logs[0]|
    ensures Collected(pages) == Matching(q, logs[0][q.after..pages[0].highWater])
    decreases |pages|
  {
    hide Matches, Answer;
    PageSplits(logs[0], q);
    if |pages| == 1 {
      assert Collected(pages[1..]) == [];
    } else {
      var high := pages[0].highWater;
      var rest := q.(after := pages[0].next, highWater := high);
      PagingIsComplete(logs[1..], rest, pages[1..]);
      NextHigh(logs[1], rest);
      assert logs[1][rest.after..high] == logs[0][rest.after..high];
      SameMatches(q, rest, logs[0][rest.after..high]);
    }
  }

  lemma NextHigh(all: seq<Record>, q: Query)
    requires Answer(all, q).Ok? && q.highWater > 0
    ensures Answer(all, q).page.highWater == q.highWater
  {
  }

  /** A page says `Dropped` exactly when a record after the cursor is forgotten. */
  lemma DroppedMeans(all: seq<Record>, q: Query)
    requires Numbered(all) && Answer(all, q).Ok?
    ensures Answer(all, q).page.dropped <==> exists r :: r in all && q.after < r.sequence && r !in all[Forgotten(all)..]
  {
    hide Matching, KnownLevel;
    var first := Forgotten(all);
    if q.after < first {
      var r := all[q.after];
      assert r in all && q.after < r.sequence;
      forall i | first <= i < |all| ensures all[i] != r {}
    }
    forall r | r in all && q.after < r.sequence && r !in all[first..] ensures q.after < first {
      var i :| 0 <= i < |all| && all[i] == r;
      assert forall k | first <= k < |all| :: all[k] in all[first..];
    }
  }

  lemma {:induction false} ContainsMeans(s: string, part: string)
    ensures Contains(s, part) <==> exists i :: 0 <= i <= |s| && part <= s[i..]
  {
    if part <= s {
      assert s[0..] == s;
    } else if s != [] {
      ContainsMeans(s[1..], part);
      if i :| 0 <= i <= |s[1..]| && part <= s[1..][i..] { assert s[i + 1..] == s[1..][i..]; }
      if i :| 0 <= i <= |s| && part <= s[i..] { assert i > 0 && s[i..] == s[1..][i - 1..]; }
    }
  }

  /** The filters: a level asks for that level only, a keyword for records whose
      data contain it somewhere; an empty one asks for nothing. */
  lemma FiltersMean(q: Query, all: seq<Record>, from: nat, end: nat, r: Record)
    requires Numbered(all) && from <= end <= |all|
    ensures r in Matching(q, all[from..end]) <==>
      && r in all && from < r.sequence <= end
      && (q.level != "" ==> r.level == q.level)
      && (q.keyword != "" ==> exists i :: 0 <= i <= |r.data| && q.keyword <= r.data[i..])
  {
    hide Matching, Contains, Numbered;
    MatchingMeans(q, all, from, end);
    ContainsMeans(r.data, q.keyword);
  }

  /** A query is answered exactly with a limit of 1 to 8, or none, a keyword of at
      most 256 octets, a known level or none, and a cursor and a high-water that
      were seen; the window then ends at that high-water, or at the newest record. */
  lemma AnsweredExactly(all: seq<Record>, q: Query)
    ensures var r := Answer(all, q);
      && (r.Ok? <==>
            && 0 <= q.limit <= 8 && |q.keyword| <= 256 && q.level in {"", "debug", "info", "warn", "error"}
            && q.highWater <= |all| && q.after <= (if q.highWater == 0 then |all| else q.highWater))
      && (r.Ok? ==>
            && r.page.highWater == (if q.highWater == 0 then |all| else q.highWater)
            && r.page.oldest == (if all == [] then 0 else if |all| > 512 then |all| - 511 else 1)
            && |r.page.records| <= (if q.limit == 0 then 8 else q.limit))
  {
    hide Matching;
  }
}
