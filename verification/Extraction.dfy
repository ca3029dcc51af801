/**
 Keyset extraction of one source table.

 A table snapshot is a set of records with unique primary keys.  The SQL statements of the
 extractor become functions on that set: a range predicate, the ORDER BY of the composite
 cursor and a LIMIT.  The paging loop is proved to deliver one ordered scan of the range.
 */
module Extraction {
  import opened Cursors

  /** A source column value as the driver returns it; decimals are counted in cents. */
  datatype Cell =
    | Null
    | Str(text: seq<CodePoint>)
    | Int(n: int)
    | Bool(b: bool)
    | Dec(cents: int)
    | Time(micros: int, aware: bool)
    | Guid(octets: UuidOctets)

  datatype Record = Record(cursor: Cursor, values: seq<(string, Cell)>)

  /** The primary key holds: no two rows share their key columns. */
  predicate Keyed(rows: set<Record>) {
    forall a, b :: a in rows && b in rows && a.cursor.keys == b.cursor.keys ==> a == b
  }

  function Beyond(rows: set<Record>, lower: Position): set<Record> {
    set r | r in rows && After(r.cursor, lower)
  }

  /** The rows of the fixed extraction range `(lower, upper]`. */
  function InRange(rows: set<Record>, lower: Position, upper: Position): set<Record> {
    set r | r in rows && After(r.cursor, lower) && UpTo(r.cursor, upper)
  }

  // ---------------------------------------------------------------------------------------
  // ORDER BY the composite cursor
  // ---------------------------------------------------------------------------------------

  predicate IsLeast(m: Record, rows: set<Record>) {
    m in rows && forall r :: r in rows && r != m ==> Less(m.cursor, r.cursor)
  }

  lemma {:induction false} LeastExists(rows: set<Record>) returns (m: Record)
    requires rows != {} && Keyed(rows)
    ensures IsLeast(m, rows)
    decreases |rows|
  {
    var x :| x in rows;
    var rest := rows - {x};
    if rest == {} {
      m := x;
      assert rows == {x};
    } else {
      m := LeastExists(rest);
      LessTrichotomy(x.cursor, m.cursor);
      if Less(x.cursor, m.cursor) {
        forall r | r in rows && r != x ensures Less(x.cursor, r.cursor) {
          if r != m {
            LessTransitive(x.cursor, m.cursor, r.cursor);
          }
        }
        m := x;
      }
    }
  }

  lemma LeastUnique(a: Record, b: Record, rows: set<Record>)
    requires IsLeast(a, rows) && IsLeast(b, rows)
    ensures a == b
  {
    LessTrichotomy(a.cursor, b.cursor);
  }

  function Least(rows: set<Record>): (m: Record)
    requires rows != {} && Keyed(rows)
    ensures IsLeast(m, rows)
  {
    assert exists m :: IsLeast(m, rows) by {
      var m := LeastExists(rows);
    }
    assert forall a, b :: IsLeast(a, rows) && IsLeast(b, rows) ==> a == b by {
      forall a, b | IsLeast(a, rows) && IsLeast(b, rows) ensures a == b {
        LeastUnique(a, b, rows);
      }
    }
    var m :| m in rows && IsLeast(m, rows);
    m
  }

  /** The rows in ascending cursor order. */
  function Ordered(rows: set<Record>): (s: seq<Record>)
    requires Keyed(rows)
    ensures |s| == |rows|
  {
    if rows == {} then [] else
      var m := Least(rows);
      [m] + Ordered(rows - {m})
  }

  function Elements(s: seq<Record>): set<Record> {
    set r | r in s
  }

  ghost predicate Ascending(s: seq<Record>) {
    forall i, j :: 0 <= i < j < |s| ==> Less(s[i].cursor, s[j].cursor)
  }

  lemma ElementsCons(m: Record, s: seq<Record>)
    ensures Elements([m] + s) == {m} + Elements(s)
  {
  }

  lemma AscendingCons(m: Record, t: seq<Record>)
    requires Ascending(t) && forall r :: r in t ==> Less(m.cursor, r.cursor)
    ensures Ascending([m] + t)
  {
    hide Less;
  }

  lemma OrderedEmpty()
    ensures Elements(Ordered({})) == {} && Ascending(Ordered({}))
  {
  }

  lemma ElementsOf(s: seq<Record>)
    ensures forall r :: r in s <==> r in Elements(s)
  {
  }

  /** The ordered rows are the rows of the set, in strictly ascending order. */
  lemma {:induction false} OrderedContents(rows: set<Record>)
    requires Keyed(rows)
    ensures Elements(Ordered(rows)) == rows
    ensures Ascending(Ordered(rows))
    decreases |rows|
  {
    hide Less, Ascending, Elements;
    if rows == {} {
      OrderedEmpty();
    } else {
      var m := Least(rows);
      var t := Ordered(rows - {m});
      OrderedContents(rows - {m});
      ElementsCons(m, t);
      ElementsOf(t);
      AscendingCons(m, t);
    }
  }

  /** Dropping the first `k` ordered rows orders what is left. */
  lemma {:induction false} OrderedDrop(rows: set<Record>, k: nat)
    requires Keyed(rows) && k <= |rows|
    ensures Ordered(rows)[k..] == Ordered(rows - Elements(Ordered(rows)[..k]))
  {
    hide IsLeast, Elements;
    var s := Ordered(rows);
    if k == 0 {
      ElementsOf(s[..0]);
      assert rows - Elements(s[..0]) == rows;
    } else {
      var m := Least(rows);
      var t := Ordered(rows - {m});
      OrderedDrop(rows - {m}, k - 1);
      assert s[k..] == t[k - 1..];
      ElementsCons(m, t[..k - 1]);
      assert s[..k] == [m] + t[..k - 1];
      assert rows - Elements(s[..k]) == rows - {m} - Elements(t[..k - 1]);
    }
  }

  // ---------------------------------------------------------------------------------------
  // The statements of the extractor
  // ---------------------------------------------------------------------------------------

  /** The last cursor after the lower bound; `Initial` stands for an empty range. */
  function FetchUpperBound(rows: set<Record>, lower: Position): Position
    requires Keyed(rows)
  {
    var s := Ordered(Beyond(rows, lower));
    if s == [] then Initial else At(s[|s| - 1].cursor)
  }

  function FetchPage(rows: set<Record>, lower: Position, upper: Position, pageSize: nat): seq<Record>
    requires Keyed(rows)
  {
    var s := Ordered(InRange(rows, lower, upper));
    if pageSize < |s| then s[..pageSize] else s
  }

  /** The last existing cursor before a boundary time; `Initial` when there is none. */
  function CursorBefore(rows: set<Record>, boundary: int): Position
    requires Keyed(rows)
  {
    var s := Ordered(set r | r in rows && r.cursor.ts < boundary);
    if s == [] then Initial else At(s[|s| - 1].cursor)
  }

  lemma LastIsGreatest(rows: set<Record>)
    requires Keyed(rows) && rows != {}
    ensures var last := Ordered(rows)[|rows| - 1];
      last in rows && forall r :: r in rows && r != last ==> Less(r.cursor, last.cursor)
  {
    hide Less, Ordered, Keyed;
    var s := Ordered(rows);
    OrderedContents(rows);
    ElementsOf(s);
    var last := s[|s| - 1];
    forall r | r in rows && r != last ensures Less(r.cursor, last.cursor) {
      var i :| 0 <= i < |s| && s[i] == r;
      assert i < |s| - 1;
    }
  }

  /** The fixed upper bound is the cursor of a row of the range, and nothing lies beyond it. */
  lemma UpperBoundClosesRange(rows: set<Record>, lower: Position)
    requires Keyed(rows)
    ensures var upper := FetchUpperBound(rows, lower);
      && InRange(rows, lower, upper) == Beyond(rows, lower)
      && (upper.Initial? <==> Beyond(rows, lower) == {})
      && (upper.At? ==> exists r :: r in Beyond(rows, lower) && r.cursor == upper.cursor)
  {
    var range := Beyond(rows, lower);
    if range != {} {
      LastIsGreatest(range);
      var last := Ordered(range)[|range| - 1];
      forall r | r in range ensures UpTo(r.cursor, At(last.cursor)) {
        LessTrichotomy(r.cursor, last.cursor);
      }
      assert last in range && last.cursor == FetchUpperBound(rows, lower).cursor;
    }
  }

  // ---------------------------------------------------------------------------------------
  // The paging loop
  // ---------------------------------------------------------------------------------------

  function Flatten(pages: seq<seq<Record>>): seq<Record> {
    if pages == [] then [] else pages[0] + Flatten(pages[1..])
  }

  lemma {:induction false} FlattenAppend(pages: seq<seq<Record>>, page: seq<Record>)
    ensures Flatten(pages + [page]) == Flatten(pages) + page
  {
    if pages == [] {
      assert [page][1..] == [];
    } else {
      assert (pages + [page])[1..] == pages[1..] + [page];
      FlattenAppend(pages[1..], page);
    }
  }

  /** Restarting after the k-th row of the scan leaves exactly the rest of the scan. */
  lemma ResumeAfter(rows: set<Record>, lower: Position, upper: Position, k: nat)
    requires Keyed(rows) && 0 < k <= |InRange(rows, lower, upper)|
    ensures var scan := Ordered(InRange(rows, lower, upper));
      Ordered(InRange(rows, At(scan[k - 1].cursor), upper)) == scan[k..]
  {
    hide Less, Ordered;
    var range := InRange(rows, lower, upper);
    var scan := Ordered(range);
    OrderedContents(range);
    ElementsOf(scan);
    var next := At(scan[k - 1].cursor);
    var done := Elements(scan[..k]);
    forall r ensures r in InRange(rows, next, upper) <==> r in range - done {
      if r in range {
        var i :| 0 <= i < |scan| && scan[i] == r;
        LessTrichotomy(scan[k - 1].cursor, r.cursor);
        if i < k {
          assert r == scan[..k][i];
        } else {
          forall j | 0 <= j < k ensures scan[..k][j] != r {
            LessTrichotomy(scan[j].cursor, scan[i].cursor);
          }
        }
      } else if r in InRange(rows, next, upper) && lower.At? {
        assert scan[k - 1] in range;
        LessTransitive(lower.cursor, scan[k - 1].cursor, r.cursor);
      }
    }
    assert InRange(rows, next, upper) == range - done;
    OrderedDrop(range, k);
  }

  /** What is left to deliver when the next page starts after `bound`. */
  ghost function Rest(rows: set<Record>, bound: Position, upper: Position): seq<Record>
    requires Keyed(rows)
  {
    Ordered(InRange(rows, bound, upper))
  }

  /** A page is a prefix of the rest; a full page leaves the rest after its last cursor. */
  lemma PageAdvances(rows: set<Record>, bound: Position, upper: Position, pageSize: nat)
    requires Keyed(rows) && pageSize >= 1
    ensures var page, rest := FetchPage(rows, bound, upper, pageSize), Rest(rows, bound, upper);
      && |page| <= |rest|
      && page == rest[..|page|]
      && |page| <= pageSize
      && (|page| < pageSize ==> page == rest)
      && (page != [] ==> Rest(rows, At(page[|page| - 1].cursor), upper) == rest[|page|..])
  {
    hide InRange, Ordered;
    var page := FetchPage(rows, bound, upper, pageSize);
    if page != [] {
      ResumeAfter(rows, bound, upper, |page|);
    }
  }

  lemma AppendPage(delivered: seq<Record>, page: seq<Record>, rest: seq<Record>, scan: seq<Record>)
    requires delivered + rest == scan && |page| <= |rest| && page == rest[..|page|]
    ensures (delivered + page) + rest[|page|..] == scan
  {
    assert rest == page + rest[|page|..];
  }

  /** Every page holds a row, none is over the limit, and only the last may be short. */
  predicate PageSizes(pages: seq<seq<Record>>, pageSize: nat) {
    && (forall i :: 0 <= i < |pages| ==> 1 <= |pages[i]| <= pageSize)
    && (forall i :: 0 <= i < |pages| - 1 ==> |pages[i]| == pageSize)
  }

  predicate AllFull(pages: seq<seq<Record>>, pageSize: nat) {
    forall i :: 0 <= i < |pages| ==> |pages[i]| == pageSize
  }

  lemma AllFullSizes(pages: seq<seq<Record>>, pageSize: nat)
    requires AllFull(pages, pageSize) && pageSize >= 1
    ensures PageSizes(pages, pageSize)
  {
  }

  lemma AllFullAppend(pages: seq<seq<Record>>, page: seq<Record>, pageSize: nat)
    requires AllFull(pages, pageSize) && 1 <= |page| <= pageSize
    ensures PageSizes(pages + [page], pageSize)
    ensures |page| == pageSize ==> AllFull(pages + [page], pageSize)
  {
  }

  /** The paging loop between two pages: everything up to `bound` is delivered, in full pages. */
  ghost predicate PagingAt(rows: set<Record>, lower: Position, upper: Position, pageSize: nat,
                           pages: seq<seq<Record>>, bound: Position)
    requires Keyed(rows)
  {
    Flatten(pages) + Rest(rows, bound, upper) == Rest(rows, lower, upper) && AllFull(pages, pageSize)
  }

  lemma PagingStart(rows: set<Record>, lower: Position, upper: Position, pageSize: nat)
    requires Keyed(rows)
    ensures PagingAt(rows, lower, upper, pageSize, [], lower)
  {
  }

  lemma PagingStep(rows: set<Record>, lower: Position, upper: Position, pageSize: nat,
                   pages: seq<seq<Record>>, bound: Position)
    requires Keyed(rows) && pageSize >= 1
    requires PagingAt(rows, lower, upper, pageSize, pages, bound)
    ensures var page := FetchPage(rows, bound, upper, pageSize);
      var next := if page == [] then pages else pages + [page];
      && (|page| < pageSize ==>
            Flatten(next) == Ordered(InRange(rows, lower, upper)) && PageSizes(next, pageSize))
      && (|page| >= pageSize ==>
            && PagingAt(rows, lower, upper, pageSize, next, At(page[|page| - 1].cursor))
            && |Rest(rows, At(page[|page| - 1].cursor), upper)| < |Rest(rows, bound, upper)|)
  {
    hide FetchPage, Ordered, Flatten, AllFull, PageSizes;
    var page, rest := FetchPage(rows, bound, upper, pageSize), Rest(rows, bound, upper);
    PageAdvances(rows, bound, upper, pageSize);
    if page == [] {
      assert Flatten(pages) + [] == Flatten(pages);
      AllFullSizes(pages, pageSize);
    } else {
      FlattenAppend(pages, page);
      AppendPage(Flatten(pages), page, rest, Rest(rows, lower, upper));
      AllFullAppend(pages, page, pageSize);
    }
  }

  /**
   Delivers the pages of a snapshot up to its fixed upper bound.  Their concatenation is one
   ordered scan of the range; every page holds a row and every page but the last is full.
   */
  method Pages(rows: set<Record>, lower: Position, upper: Position, pageSize: nat)
    returns (pages: seq<seq<Record>>)
    requires Keyed(rows) && pageSize >= 1
    ensures Flatten(pages) == Ordered(InRange(rows, lower, upper))
    ensures PageSizes(pages, pageSize)
  {
    hide *;
    pages := [];
    var bound := lower;
    PagingStart(rows, lower, upper, pageSize);
    while true
      invariant PagingAt(rows, lower, upper, pageSize, pages, bound)
      decreases |Rest(rows, bound, upper)|
    {
      var page := FetchPage(rows, bound, upper, pageSize);
      PagingStep(rows, lower, upper, pageSize, pages, bound);
      if page == [] {
        return;
      }
      pages := pages + [page];
      if |page| < pageSize {
        return;
      }
      bound := At(page[|page| - 1].cursor);
    }
  }

  /**
   A snapshot's pages, taken together, are exactly its rows after the watermark, each once
   and in order, and the last cursor delivered is the fixed upper bound.
   */
  lemma ScanIsWholeSnapshot(rows: set<Record>, watermark: Position)
    requires Keyed(rows)
    ensures var upper := FetchUpperBound(rows, watermark);
      var scan := Ordered(InRange(rows, watermark, upper));
      && Ascending(scan)
      && (forall r :: r in scan <==> r in rows && After(r.cursor, watermark))
      && (scan != [] ==> upper == At(scan[|scan| - 1].cursor))
  {
    var upper := FetchUpperBound(rows, watermark);
    UpperBoundClosesRange(rows, watermark);
    OrderedContents(InRange(rows, watermark, upper));
    ElementsOf(Ordered(InRange(rows, watermark, upper)));
  }

  // ---------------------------------------------------------------------------------------
  // Later states of a table
  // ---------------------------------------------------------------------------------------

  /** No row of the table reaches `date`: the forward-cursor guard of one table. */
  predicate AllBefore(rows: set<Record>, date: int) {
    forall r :: r in rows ==> r.cursor.ts < date
  }

  /** What one generator transaction may write into a table at logical date `date`. */
  predicate WritesAt(writes: set<Record>, date: int) {
    Keyed(writes) && forall w :: w in writes ==> w.cursor.ts == date
  }

  /** Rows inserted, or replaced by primary key. */
  function ApplyWrites(rows: set<Record>, writes: set<Record>): set<Record> {
    (set r | r in rows && forall w :: w in writes ==> w.cursor.keys != r.cursor.keys) + writes
  }

  lemma ApplyWritesKeyed(rows: set<Record>, writes: set<Record>)
    requires Keyed(rows) && Keyed(writes)
    ensures Keyed(ApplyWrites(rows, writes))
  {
  }

  ghost predicate HasVersionFrom(rows: set<Record>, q: Record) {
    exists r :: r in rows && r.cursor.keys == q.cursor.keys && q.cursor.ts <= r.cursor.ts
  }

  /**
   `later` evolved from `rows`: a row that was not there before is newer than every row that
   was, and a row that is gone was replaced by a newer version under the same key.
   */
  ghost predicate Evolved(rows: set<Record>, later: set<Record>) {
    && (forall r :: r in later && r !in rows ==> AllBefore(rows, r.cursor.ts))
    && (forall q :: q in rows ==> HasVersionFrom(later, q))
  }

  /** A transaction that passed the forward-cursor guard makes the table evolve. */
  lemma WritesEvolve(rows: set<Record>, writes: set<Record>, date: int)
    requires AllBefore(rows, date) && WritesAt(writes, date)
    ensures Evolved(rows, ApplyWrites(rows, writes))
  {
    forall q | q in rows ensures HasVersionFrom(ApplyWrites(rows, writes), q) {
      if w :| w in writes && w.cursor.keys == q.cursor.keys {
        assert w in ApplyWrites(rows, writes);
      } else {
        assert q in ApplyWrites(rows, writes);
      }
    }
  }

  lemma EvolvedReflexive(rows: set<Record>)
    ensures Evolved(rows, rows)
  {
    forall q | q in rows ensures HasVersionFrom(rows, q) {
    }
  }

  lemma EvolvedTransitive(a: set<Record>, b: set<Record>, c: set<Record>)
    requires Evolved(a, b) && Evolved(b, c)
    ensures Evolved(a, c)
  {
    forall r | r in c && r !in a ensures AllBefore(a, r.cursor.ts) {
      if r !in b {
        forall q | q in a ensures q.cursor.ts < r.cursor.ts {
          assert HasVersionFrom(b, q);
        }
      }
    }
    forall q | q in a ensures HasVersionFrom(c, q) {
      var m :| m in b && m.cursor.keys == q.cursor.keys && q.cursor.ts <= m.cursor.ts;
      assert HasVersionFrom(c, m);
    }
  }

  /** Some row of the table has reached the position's timestamp. */
  ghost predicate Reached(rows: set<Record>, p: Position) {
    p.At? ==> exists r :: r in rows && p.cursor.ts <= r.cursor.ts
  }

  lemma ReachedByUpperBound(rows: set<Record>, lower: Position)
    requires Keyed(rows)
    ensures Reached(rows, FetchUpperBound(rows, lower))
  {
    UpperBoundClosesRange(rows, lower);
  }

  lemma ReachedLater(rows: set<Record>, later: set<Record>, p: Position)
    requires Reached(rows, p) && Evolved(rows, later)
    ensures Reached(later, p)
  {
    if p.At? {
      var q :| q in rows && p.cursor.ts <= q.cursor.ts;
      assert HasVersionFrom(later, q);
    }
  }

  /** A row seen at or below a position that was reached before it appeared cannot be new. */
  lemma OldAtOrBelow(rows: set<Record>, later: set<Record>, p: Position, r: Record)
    requires Reached(rows, p) && Evolved(rows, later)
    requires r in later && UpTo(r.cursor, p)
    ensures r in rows
  {
    if r !in rows {
      assert AllBefore(rows, r.cursor.ts);
      assert Less(p.cursor, r.cursor);
    }
  }

  // ---------------------------------------------------------------------------------------
  // Rewinding to a boundary time
  // ---------------------------------------------------------------------------------------

  /** Extraction after `target` takes exactly the rows stamped at or after the boundary. */
  ghost predicate ExactFrom(rows: set<Record>, target: Position, boundary: int) {
    forall r :: r in rows ==> (After(r.cursor, target) <==> boundary <= r.cursor.ts)
  }

  lemma CursorBeforeSplits(rows: set<Record>, boundary: int)
    requires Keyed(rows)
    ensures ExactFrom(rows, CursorBefore(rows, boundary), boundary)
    ensures CursorBefore(rows, boundary).At? ==> CursorBefore(rows, boundary).cursor.ts < boundary
  {
    hide Ordered;
    var before := set r | r in rows && r.cursor.ts < boundary;
    if before != {} {
      LastIsGreatest(before);
      var last := Ordered(before)[|before| - 1];
      forall r | r in rows ensures After(r.cursor, At(last.cursor)) <==> boundary <= r.cursor.ts {
        LessTrichotomy(r.cursor, last.cursor);
        if r.cursor.ts < boundary {
          assert r in before;
        }
      }
    } else {
      assert forall r :: r in rows && r.cursor.ts < boundary ==> r in before;
    }
  }

  /** The newest row leaves no free microsecond below the boundary. */
  ghost predicate BoundaryCovered(rows: set<Record>, boundary: int) {
    exists r :: r in rows && boundary - 1 <= r.cursor.ts
  }

  /**
   A rewind target stays exact in every later state of the table if and only if, when the
   target was resolved, the table already had a row stamped no earlier than one microsecond
   before the boundary.  Otherwise a later transaction may add a row below the boundary that
   the re-extraction also takes.
   */
  lemma RewindExactness(rows: set<Record>, boundary: int)
    requires Keyed(rows)
    ensures (forall later :: Keyed(later) && Evolved(rows, later) ==>
                 ExactFrom(later, CursorBefore(rows, boundary), boundary))
      <==> BoundaryCovered(rows, boundary)
  {
    var target := CursorBefore(rows, boundary);
    CursorBeforeSplits(rows, boundary);
    if BoundaryCovered(rows, boundary) {
      forall later | Keyed(later) && Evolved(rows, later) ensures ExactFrom(later, target, boundary) {
        forall r | r in later && r !in rows
          ensures After(r.cursor, target) && boundary <= r.cursor.ts
        {
          assert AllBefore(rows, r.cursor.ts);
        }
      }
    } else {
      var late := Record(Cursor(boundary - 1, [Num(0)]), []);
      WritesEvolve(rows, {late}, boundary - 1);
      var later := ApplyWrites(rows, {late});
      ApplyWritesKeyed(rows, {late});
      assert late in later;
      if target.At? {
        var before := set r | r in rows && r.cursor.ts < boundary;
        LastIsGreatest(before);
        assert target.cursor.ts < boundary - 1;
      }
      assert After(late.cursor, target);
      assert !ExactFrom(later, target, boundary);
    }
  }

  lemma LoneCursorBefore(r: Record, boundary: int)
    requires r.cursor.ts < boundary
    ensures Keyed({r}) && CursorBefore({r}, boundary) == At(r.cursor)
  {
    assert (set x | x in {r} && x.cursor.ts < boundary) == {r};
    LastIsGreatest({r});
    hide Ordered;
  }

  /**
   A rewind that the watermark check accepts always meets the condition when the target was
   resolved no earlier than the snapshot behind the current watermark.
   */
  lemma AcceptedRewindIsExact(rows: set<Record>, boundary: int, watermark: Position, later: set<Record>)
    requires Keyed(rows) && Keyed(later) && Evolved(rows, later)
    requires Earlier(CursorBefore(rows, boundary), watermark)
    requires exists r :: r in rows && !Less(r.cursor, watermark.cursor)
    ensures ExactFrom(later, CursorBefore(rows, boundary), boundary)
  {
    var target := CursorBefore(rows, boundary);
    var top :| top in rows && !Less(top.cursor, watermark.cursor);
    CursorBeforeSplits(rows, boundary);
    assert After(top.cursor, target) by {
      if target.At? {
        LessTrichotomy(watermark.cursor, top.cursor);
        if Less(watermark.cursor, top.cursor) {
          LessTransitive(target.cursor, watermark.cursor, top.cursor);
        }
      }
    }
    assert BoundaryCovered(rows, boundary);
    RewindExactness(rows, boundary);
  }
}
