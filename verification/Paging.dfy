/**
 Listing runs page by page (crates/runsd/src/api/handlers.rs:115-140, crates/runsd/src/db/queries.rs:66-129). A table
 is a list of runs in any order with distinct ids; each request sees the table of its own moment.
 */
module Paging {
  import opened Base
  import opened Utf8
  import opened Decimal
  import opened Model
  import opened Runs

  // ── The order of the list ──────────────────────────────────────────────────

  /** `a` comes after `b` in `ORDER BY created_at DESC, id DESC`. */
  predicate After(a: Run, b: Run) { IsAfter(a, b.createdAt, b.id) }

  predicate IsAfter(a: Run, createdAt: int, id: RunId) {
    a.createdAt < createdAt || (a.createdAt == createdAt && Less(a.id, id))
  }

  predicate Descending(rs: seq<Run>) { forall i, j :: 0 <= i < j < |rs| ==> After(rs[j], rs[i]) }

  predicate Keyed(rs: seq<Run>) { forall i, j :: 0 <= i < j < |rs| ==> rs[i].id != rs[j].id }

  lemma AfterIsTotal(a: Run, b: Run)
    ensures !(After(a, b) && After(b, a)) && !After(a, a)
    ensures a.id != b.id ==> After(a, b) || After(b, a)
  {
    LessTotal(a.id, b.id);
    LessIrreflexive(a.id);
  }

  lemma AfterIsTransitive(a: Run, b: Run, c: Run)
    requires After(a, b) && After(b, c)
    ensures After(a, c)
  {
    if a.createdAt == b.createdAt == c.createdAt { LessTransitive(a.id, b.id, c.id); }
  }

  function Insert(r: Run, rs: seq<Run>): seq<Run> {
    if rs == [] then [r] else if After(r, rs[0]) then [rs[0]] + Insert(r, rs[1..]) else [r] + rs
  }

  function OrderBy(rs: seq<Run>): seq<Run> {
    if rs == [] then [] else Insert(rs[0], OrderBy(rs[1..]))
  }

  lemma {:induction false} InsertKeeps(r: Run, rs: seq<Run>, x: Run)
    ensures x in Insert(r, rs) <==> x == r || x in rs
  {
    if rs != [] && After(r, rs[0]) {
      InsertKeeps(r, rs[1..], x);
      assert rs == [rs[0]] + rs[1..];
      InOfCons(rs[0], rs[1..], x);
      InOfCons(rs[0], Insert(r, rs[1..]), x);
    } else {
      InOfCons(r, rs, x);
    }
  }

  lemma {:induction false} OrderByKeeps(rs: seq<Run>, x: Run)
    ensures x in OrderBy(rs) <==> x in rs
  {
    if rs != [] {
      OrderByKeeps(rs[1..], x);
      InsertKeeps(rs[0], OrderBy(rs[1..]), x);
      assert rs == [rs[0]] + rs[1..];
      InOfCons(rs[0], rs[1..], x);
    }
  }

  lemma PrependDescends(r: Run, rs: seq<Run>)
    requires Descending(rs) && forall x :: x in rs ==> After(x, r)
    ensures Descending([r] + rs)
  {
    var s := [r] + rs;
    forall i, j | 0 <= i < j < |s| ensures After(s[j], s[i]) {
      assert s[j] == rs[j - 1] && rs[j - 1] in rs;
      if i > 0 { assert s[i] == rs[i - 1]; }
    }
  }

  lemma HeadIsFirst(rs: seq<Run>, x: Run)
    requires Descending(rs) && rs != [] && x in rs[1..]
    ensures After(x, rs[0])
  {
    var i :| 0 <= i < |rs[1..]| && rs[1..][i] == x;
    assert rs[i + 1] == x;
  }

  lemma {:induction false} InsertDescends(r: Run, rs: seq<Run>)
    requires Descending(rs) && forall x :: x in rs ==> x.id != r.id
    ensures Descending(Insert(r, rs))
  {
    if rs != [] {
      hide After;
      AfterIsTotal(rs[0], r);
      assert rs[0] in rs;
      if After(r, rs[0]) {
        InsertDescends(r, rs[1..]);
        var s := Insert(r, rs[1..]);
        forall x | x in s ensures After(x, rs[0]) {
          InsertKeeps(r, rs[1..], x);
          if x != r { HeadIsFirst(rs, x); }
        }
        PrependDescends(rs[0], s);
      } else {
        forall x | x in rs ensures After(x, r) {
          if x != rs[0] {
            HeadIsFirst(rs, x);
            AfterIsTransitive(x, rs[0], r);
          }
        }
        PrependDescends(r, rs);
      }
    }
  }

  lemma {:induction false} OrderByDescends(rs: seq<Run>)
    requires Keyed(rs)
    ensures Descending(OrderBy(rs))
  {
    if rs != [] {
      var s := OrderBy(rs[1..]);
      OrderByDescends(rs[1..]);
      forall x | x in s ensures x.id != rs[0].id {
        OrderByKeeps(rs[1..], x);
        var i :| 0 <= i < |rs[1..]| && rs[1..][i] == x;
        assert rs[i + 1] == x;
      }
      InsertDescends(rs[0], s);
    }
  }

  /** There is only one descending list of the same runs. */
  lemma {:induction false} DescendingIsUnique(rs: seq<Run>, ss: seq<Run>)
    requires Descending(rs) && Descending(ss) && forall x :: x in rs <==> x in ss
    ensures rs == ss
  {
    hide After;
    if rs != [] && ss != [] {
      assert rs[0] in rs && ss[0] in ss;
      assert rs == [rs[0]] + rs[1..] && ss == [ss[0]] + ss[1..];
      AfterIsTotal(rs[0], ss[0]);
      AfterIsTotal(ss[0], rs[0]);
      InOfCons(rs[0], rs[1..], ss[0]);
      InOfCons(ss[0], ss[1..], rs[0]);
      if ss[0] in rs[1..] { HeadIsFirst(rs, ss[0]); }
      if rs[0] in ss[1..] { HeadIsFirst(ss, rs[0]); }
      assert rs[0] == ss[0];
      forall x ensures x in rs[1..] <==> x in ss[1..] {
        InOfCons(rs[0], rs[1..], x);
        InOfCons(ss[0], ss[1..], x);
        if x in rs[1..] { HeadIsFirst(rs, x); }
        if x in ss[1..] { HeadIsFirst(ss, x); }
      }
      DescendingIsUnique(rs[1..], ss[1..]);
    } else {
      HasMember(rs);
      HasMember(ss);
    }
  }

  // ── The query ──────────────────────────────────────────────────────────────

  predicate Matches(r: Run, status: Option<string>, after: Option<(int, RunId)>) {
    (status.Some? ==> RunStatusText(r.status) == status.value) &&
    (after.Some? ==> IsAfter(r, after.value.0, after.value.1))
  }

  function Select(rows: seq<Run>, status: Option<string>, after: Option<(int, RunId)>): seq<Run> {
    if rows == [] then []
    else (if Matches(rows[0], status, after) then [rows[0]] else []) + Select(rows[1..], status, after)
  }

  /** `SELECT … WHERE … ORDER BY created_at DESC, id DESC`. */
  function Listing(rows: seq<Run>, status: Option<string>, after: Option<(int, RunId)>): seq<Run> {
    OrderBy(Select(rows, status, after))
  }

  function Limited(rs: seq<Run>, limit: nat): seq<Run> { rs[..Min(limit, |rs|)] }

  /** The four statements of `list_runs`. A half-formed cursor falls through to the last one, which has no filter. */
  function ListRuns(rows: seq<Run>, status: Option<string>, limit: nat, createdAt: Option<int>, id: Option<string>)
    : seq<Run>
  {
    match (status, createdAt, id)
    case (Some(s), Some(at), Some(cid)) => Limited(Listing(rows, Some(s), Some((at, cid))), limit)
    case (Some(s), None, None) => Limited(Listing(rows, Some(s), None), limit)
    case (None, Some(at), Some(cid)) => Limited(Listing(rows, None, Some((at, cid))), limit)
    case _ => Limited(Listing(rows, None, None), limit)
  }

  lemma {:induction false} SelectKeeps(rows: seq<Run>, status: Option<string>, after: Option<(int, RunId)>, x: Run)
    ensures x in Select(rows, status, after) <==> x in rows && Matches(x, status, after)
  {
    if rows != [] {
      SelectKeeps(rows[1..], status, after, x);
      assert rows == [rows[0]] + rows[1..];
      InOfCons(rows[0], rows[1..], x);
      InOfCons(rows[0], Select(rows[1..], status, after), x);
      if !Matches(rows[0], status, after) {
        assert Select(rows, status, after) == Select(rows[1..], status, after);
      }
    }
  }

  lemma {:induction false} SelectIsKeyed(rows: seq<Run>, status: Option<string>, after: Option<(int, RunId)>)
    requires Keyed(rows)
    ensures Keyed(Select(rows, status, after))
  {
    if rows != [] {
      SelectIsKeyed(rows[1..], status, after);
      var s := Select(rows[1..], status, after);
      if Matches(rows[0], status, after) {
        forall x | x in s ensures x.id != rows[0].id {
          SelectKeeps(rows[1..], status, after, x);
          var i :| 0 <= i < |rows[1..]| && rows[1..][i] == x;
          assert rows[i + 1] == x;
        }
        forall i, j | 0 <= i < j < |[rows[0]] + s| ensures ([rows[0]] + s)[i].id != ([rows[0]] + s)[j].id {
          assert s[j - 1] in s;
        }
      } else {
        assert Select(rows, status, after) == s;
      }
    }
  }

  /** The list is in order and holds exactly the matching rows. */
  lemma ListingIsExact(rows: seq<Run>, status: Option<string>, after: Option<(int, RunId)>)
    requires Keyed(rows)
    ensures var l := Listing(rows, status, after);
            Descending(l) && forall x :: x in l <==> x in rows && Matches(x, status, after)
  {
    SelectIsKeyed(rows, status, after);
    OrderByDescends(Select(rows, status, after));
    forall x ensures x in Listing(rows, status, after) <==> x in rows && Matches(x, status, after) {
      OrderByKeeps(Select(rows, status, after), x);
      SelectKeeps(rows, status, after, x);
    }
  }

  /** Newest first, and of the same time the greater id first; the filter is on the status, the cursor on time and id. */
  lemma ListingIsNewestFirst(rows: seq<Run>, status: Option<string>, after: Option<(int, RunId)>, i: nat, j: nat)
    requires Keyed(rows) && i < j < |Listing(rows, status, after)|
    ensures var x, y := Listing(rows, status, after)[i], Listing(rows, status, after)[j];
            x.createdAt > y.createdAt || (x.createdAt == y.createdAt && Less(y.id, x.id))
    ensures var x := Listing(rows, status, after)[i];
            && (status == None || RunStatusText(x.status) == status.value)
            && (after == None || x.createdAt < after.value.0 ||
                (x.createdAt == after.value.0 && Less(x.id, after.value.1)))
  {
    ListingIsExact(rows, status, after);
    var l := Listing(rows, status, after);
    assert l[i] in l && After(l[j], l[i]);
    hide Listing, RunStatusText, Less;
  }

  // ── The handler ────────────────────────────────────────────────────────────

  const DEFAULT_LIMIT: nat := 20
  const MAX_LIMIT: nat := 100

  datatype Response = Response(runs: seq<Run>, next: Option<string>)

  function CursorText(r: Run): string { PrintInt(r.createdAt) + "," + r.id }

  function CommaAt(s: string): (n: nat)
    ensures n <= |s| && ',' !in s[..n] && (n < |s| ==> s[n] == ',')
  {
    if s == "" || s[0] == ',' then 0 else 1 + CommaAt(s[1..])
  }

  /** The cursor split at its first comma: a time, if the first part is one, and an id, if there is a comma. */
  function ParseCursor(s: string): (Option<int>, Option<string>) {
    var n := CommaAt(s);
    (ParseI64(s[..n]), if n < |s| then Some(s[n + 1..]) else None)
  }

  function EffectiveLimit(limit: Option<nat>): nat {
    Min(if limit.Some? then limit.value else DEFAULT_LIMIT, MAX_LIMIT)
  }

  function Handle(rows: seq<Run>, status: Option<string>, limit: Option<nat>, cursor: Option<string>): Response {
    var n := EffectiveLimit(limit);
    var (at, id) := if cursor.Some? then ParseCursor(cursor.value) else (None, None);
    var runs := ListRuns(rows, status, n, at, id);
    Response(runs, if |runs| == n && runs != [] then Some(CursorText(runs[|runs| - 1])) else None)
  }

  /** Times are stored as 64-bit integers. */
  predicate Storable(rows: seq<Run>) {
    Keyed(rows) && forall r :: r in rows ==> I64_MIN <= r.createdAt <= I64_MAX
  }

  /** The cursor of a run is read back as its time and id, whatever the id contains. */
  lemma CursorRoundTrips(r: Run)
    requires I64_MIN <= r.createdAt <= I64_MAX
    ensures ParseCursor(CursorText(r)) == (Some(r.createdAt), Some(r.id))
  {
    hide PrintInt, ParseI64, CommaAt;
    PrintIntParses(r.createdAt);
    CommaAfter(PrintInt(r.createdAt), r.id);
    var s, n := CursorText(r), |PrintInt(r.createdAt)|;
    assert s[..n] == PrintInt(r.createdAt) && s[n + 1..] == r.id;
  }

  lemma {:induction false} CommaAfter(p: string, k: string)
    requires ',' !in p
    ensures CommaAt(p + "," + k) == |p|
  {
    if p == "" {
      assert p + "," + k == "," + k;
    } else {
      assert p[0] in p;
      assert (p + "," + k)[1..] == p[1..] + "," + k;
      CommaAfter(p[1..], k);
    }
  }

  /** What a request asks for once its cursor is read. */
  ghost predicate Asks(cursor: Option<string>, after: Option<(int, RunId)>) {
    match after
    case None => cursor == None
    case Some((at, id)) => cursor.Some? && ParseCursor(cursor.value) == (Some(at), Some(id))
  }

  /** With no cursor or a well-formed one, the response is the head of the filtered list after the cursor. */
  lemma HandleIsHead(rows: seq<Run>, status: Option<string>, limit: Option<nat>, cursor: Option<string>,
                     after: Option<(int, RunId)>)
    requires Asks(cursor, after)
    ensures Handle(rows, status, limit, cursor).runs == Limited(Listing(rows, status, after), EffectiveLimit(limit))
  {
  }

  /** The cursor has a comma or a time but not both. */
  ghost predicate HalfFormed(cursor: Option<string>) {
    cursor.Some? && var (at, id) := ParseCursor(cursor.value); at.None? != id.None?
  }

  /** A half-formed cursor drops the cursor and the status filter; a cursor with neither part is no cursor. */
  lemma HandleWithoutCursor(rows: seq<Run>, status: Option<string>, limit: Option<nat>, cursor: string)
    ensures HalfFormed(Some(cursor)) ==>
              Handle(rows, status, limit, Some(cursor)) == Handle(rows, None, limit, None)
    ensures ParseCursor(cursor) == (None, None) ==>
              Handle(rows, status, limit, Some(cursor)) == Handle(rows, status, limit, None)
  {
  }

  ghost predicate HonoursFilter(status: string, cursor: Option<string>) {
    forall rows, limit, r :: Keyed(rows) && r in Handle(rows, Some(status), limit, cursor).runs ==>
                               RunStatusText(r.status) == status
  }

  lemma RunsMatchFilter(rows: seq<Run>, status: string, limit: Option<nat>, cursor: Option<string>, r: Run)
    requires Keyed(rows) && !HalfFormed(cursor) && r in Handle(rows, Some(status), limit, cursor).runs
    ensures RunStatusText(r.status) == status
    decreases cursor.Some?
  {
    if cursor.Some? && ParseCursor(cursor.value) == (None, None) {
      HandleWithoutCursor(rows, Some(status), limit, cursor.value);
      RunsMatchFilter(rows, status, limit, None, r);
    } else {
      var after := if cursor.Some? then var (at, id) := ParseCursor(cursor.value); Some((at.value, id.value)) else None;
      HandleIsHead(rows, Some(status), limit, cursor, after);
      ListingIsExact(rows, Some(status), after);
      hide Handle, Listing, RunStatusText;
      assert r in Listing(rows, Some(status), after);
    }
  }

  lemma WrongRunIsReturned(status: string, cursor: Option<string>, r: Run)
    requires HalfFormed(cursor)
    ensures r in Handle([r], Some(status), Some(1), cursor).runs
  {
    HandleWithoutCursor([r], Some(status), Some(1), cursor.value);
    HandleIsHead([r], None, Some(1), None, None);
    ListingIsExact([r], None, None);
    hide Handle, Listing;
    assert r in [r];
    var l := Listing([r], None, None);
    forall i | 0 <= i < |l| ensures l[i] == r { assert l[i] in l; }
  }

  /** The filter is honoured on every table exactly if the cursor is not half-formed. */
  lemma FilterIsHonouredIff(status: string, cursor: Option<string>)
    ensures HonoursFilter(status, cursor) <==> !HalfFormed(cursor)
  {
    hide Handle, HalfFormed;
    if HalfFormed(cursor) {
      var other := if status == "failed" then RunPending else RunFailed;
      WrongRunIsReturned(status, cursor, Run("", "", other, 0, []));
    } else {
      forall rows, limit, r | Keyed(rows) && r in Handle(rows, Some(status), limit, cursor).runs
        ensures RunStatusText(r.status) == status
      {
        RunsMatchFilter(rows, status, limit, cursor, r);
      }
    }
  }

  lemma HeadKeepsOrder(l: seq<Run>, limit: nat)
    requires Descending(l)
    ensures Descending(Limited(l, limit)) && forall x :: x in Limited(l, limit) ==> x in l
  {
    hide After;
    var head := Limited(l, limit);
    assert forall i :: 0 <= i < |head| ==> head[i] == l[i];
  }

  lemma NextIsLast(rows: seq<Run>, status: Option<string>, limit: Option<nat>, cursor: Option<string>)
    ensures var p := Handle(rows, status, limit, cursor);
            p.next.Some? ==> p.runs != [] && p.next == Some(CursorText(p.runs[|p.runs| - 1]))
  {
    hide ListRuns, ParseCursor, CursorText;
  }

  lemma PageIsFromRows(rows: seq<Run>, status: Option<string>, limit: Option<nat>, cursor: Option<string>,
                       after: Option<(int, RunId)>)
    requires Keyed(rows) && Asks(cursor, after)
    ensures var runs := Handle(rows, status, limit, cursor).runs;
            Descending(runs) && forall x :: x in runs ==> x in rows && Matches(x, status, after)
  {
    hide Listing, Handle, Limited, Descending, Matches, Keyed, Asks;
    ListingIsExact(rows, status, after);
    HandleIsHead(rows, status, limit, cursor, after);
    HeadKeepsOrder(Listing(rows, status, after), EffectiveLimit(limit));
  }

  lemma NextAsks(rows: seq<Run>, r: Run)
    requires Storable(rows) && r in rows
    ensures Asks(Some(CursorText(r)), Some((r.createdAt, r.id)))
  {
    hide CursorText, ParseCursor;
    CursorRoundTrips(r);
  }

  /** The head of the list: its runs, and where the rest of the list begins. */
  lemma PageFacts(rows: seq<Run>, status: Option<string>, limit: Option<nat>, cursor: Option<string>,
                  after: Option<(int, RunId)>)
    requires Storable(rows) && Asks(cursor, after)
    ensures var p := Handle(rows, status, limit, cursor);
            && Descending(p.runs)
            && (forall x :: x in p.runs ==> x in rows && Matches(x, status, after))
            && (p.next.Some? ==>
                  p.runs != [] && Asks(p.next, Some((p.runs[|p.runs| - 1].createdAt, p.runs[|p.runs| - 1].id))))
  {
    PageIsFromRows(rows, status, limit, cursor, after);
    NextIsLast(rows, status, limit, cursor);
    hide Handle, Descending, Matches, Asks, CursorText, Storable;
    var p := Handle(rows, status, limit, cursor);
    if p.next.Some? {
      var last := p.runs[|p.runs| - 1];
      assert last in p.runs;
      NextAsks(rows, last);
    }
  }

  // ── The size of a page ─────────────────────────────────────────────────────

  /** The rows that match filter and cursor. */
  function MatchingRows(rows: seq<Run>, status: Option<string>, after: Option<(int, RunId)>): set<Run> {
    set x | x in rows && Matches(x, status, after)
  }

  lemma {:induction false} InsertCounts(r: Run, rs: seq<Run>)
    ensures |Insert(r, rs)| == |rs| + 1
  {
    if rs != [] && After(r, rs[0]) { InsertCounts(r, rs[1..]); }
  }

  lemma {:induction false} OrderByCounts(rs: seq<Run>)
    ensures |OrderBy(rs)| == |rs|
  {
    if rs != [] {
      OrderByCounts(rs[1..]);
      InsertCounts(rs[0], OrderBy(rs[1..]));
    }
  }

  lemma {:induction false} SelectCounts(rows: seq<Run>, status: Option<string>, after: Option<(int, RunId)>)
    requires Keyed(rows)
    ensures |Select(rows, status, after)| == |MatchingRows(rows, status, after)|
  {
    if rows != [] {
      FirstIsFresh(rows);
      SelectCounts(rows[1..], status, after);
      MatchingUnfolds(rows, status, after);
      hide Matches, MatchingRows, Keyed;
    }
  }

  lemma FirstIsFresh(rows: seq<Run>)
    requires Keyed(rows) && rows != []
    ensures rows[0] !in rows[1..] && Keyed(rows[1..])
  {
    forall i | 0 <= i < |rows[1..]| ensures rows[1..][i] != rows[0] { assert rows[1..][i] == rows[i + 1]; }
  }

  lemma MatchingUnfolds(rows: seq<Run>, status: Option<string>, after: Option<(int, RunId)>)
    requires rows != [] && rows[0] !in rows[1..]
    ensures |MatchingRows(rows, status, after)| ==
            |MatchingRows(rows[1..], status, after)| + if Matches(rows[0], status, after) then 1 else 0
  {
    hide Matches;
    var r, more := rows[0], MatchingRows(rows[1..], status, after);
    assert rows == [r] + rows[1..];
    if Matches(r, status, after) {
      assert MatchingRows(rows, status, after) == more + {r};
    } else {
      assert MatchingRows(rows, status, after) == more;
    }
  }

  /**
   A page has as many runs as were asked for, 20 if nothing was and never more than 100, as far as there are matching
   rows; there is a next cursor exactly if it is full and not empty.
   */
  lemma PageSize(rows: seq<Run>, status: Option<string>, limit: Option<nat>, cursor: Option<string>,
                 after: Option<(int, RunId)>)
    requires Keyed(rows) && Asks(cursor, after)
    ensures var p := Handle(rows, status, limit, cursor);
            var wanted := if limit == None then 20 else if limit.value > 100 then 100 else limit.value;
            && |p.runs| == Min(wanted, |MatchingRows(rows, status, after)|)
            && (p.next.Some? <==> |p.runs| == wanted > 0)
            && (p.next.Some? ==>
                  var last := p.runs[|p.runs| - 1]; p.next.value == PrintInt(last.createdAt) + "," + last.id)
  {
    HandleIsHead(rows, status, limit, cursor, after);
    SelectCounts(rows, status, after);
    OrderByCounts(Select(rows, status, after));
    hide Select, OrderBy, MatchingRows, Matches, Keyed, ListRuns;
  }

  // ── Nothing is left out ────────────────────────────────────────────────────

  /** Every matching row is on the page, or after its last run and then there is a next page. */
  lemma PageMissesNothing(rows: seq<Run>, status: Option<string>, limit: Option<nat>, cursor: Option<string>,
                          after: Option<(int, RunId)>, x: Run)
    requires Storable(rows) && Asks(cursor, after) && limit != Some(0)
    requires x in rows && Matches(x, status, after)
    ensures var p := Handle(rows, status, limit, cursor);
            x in p.runs || (p.next.Some? && p.runs != [] && After(x, p.runs[|p.runs| - 1]))
  {
    ListingIsExact(rows, status, after);
    HandleIsHead(rows, status, limit, cursor, after);
    var p := Handle(rows, status, limit, cursor);
    var l := Listing(rows, status, after);
    hide Listing, After, Matches;
    var i :| 0 <= i < |l| && l[i] == x;
    if i < |p.runs| {
      assert p.runs[i] == x;
    } else {
      assert l[|p.runs| - 1] == p.runs[|p.runs| - 1];
    }
  }

  // ── Following the cursors ──────────────────────────────────────────────────

  /** The responses of a client that asks for the next page until there is none; each request sees its own table. */
  function Walk(tables: seq<seq<Run>>, limits: seq<Option<nat>>, status: Option<string>, cursor: Option<string>)
    : seq<Response>
    requires |limits| == |tables|
  {
    if tables == [] then []
    else
      var p := Handle(tables[0], status, limits[0], cursor);
      [p] + if p.next.None? then [] else Walk(tables[1..], limits[1..], status, p.next)
  }

  function AllRuns(pages: seq<Response>): seq<Run> {
    if pages == [] then [] else pages[0].runs + AllRuns(pages[1..])
  }

  predicate Finished(pages: seq<Response>) { pages != [] && pages[|pages| - 1].next.None? }

  predicate SameRow(a: Run, b: Run) { a.id == b.id && a.createdAt == b.createdAt }

  ghost predicate HasRow(rows: seq<Run>, x: Run) { exists y :: y in rows && SameRow(x, y) }

  /** Between requests rows are only inserted; the other columns of a row may change. */
  ghost predicate Growing(tables: seq<seq<Run>>) {
    && (forall i :: 0 <= i < |tables| ==> Storable(tables[i]))
    && forall i, j, x :: 0 <= i < j < |tables| && x in tables[i] ==> HasRow(tables[j], x)
  }

  lemma GrowingTail(tables: seq<seq<Run>>)
    requires Growing(tables) && tables != []
    ensures Growing(tables[1..])
  {
    forall i, j, x | 0 <= i < j < |tables[1..]| && x in tables[1..][i] ensures HasRow(tables[1..][j], x) {
      assert x in tables[i + 1];
    }
  }

  /** Pages in a row: the second starts after the last run of the first. */
  lemma ConcatDescends(a: seq<Run>, b: seq<Run>)
    requires Descending(a) && Descending(b) && a != [] && forall x :: x in b ==> After(x, a[|a| - 1])
    ensures Descending(a + b)
  {
    hide After;
    forall i, j | 0 <= i < j < |a + b| ensures After((a + b)[j], (a + b)[i]) {
      if j >= |a| {
        assert b[j - |a|] in b;
        if i < |a| - 1 { AfterIsTransitive(b[j - |a|], a[|a| - 1], a[i]); }
      }
    }
  }

  lemma LaterStillMatches(x: Run, last: Run, status: Option<string>, after: Option<(int, RunId)>)
    requires Matches(x, status, Some((last.createdAt, last.id))) && Matches(last, status, after)
    ensures Matches(x, status, after) && After(x, last)
  {
    if after.Some? { IsAfterTransitive(x, last, after.value.0, after.value.1); }
  }

  ghost predicate FromSome(tables: seq<seq<Run>>, x: Run) { exists i :: 0 <= i < |tables| && x in tables[i] }

  lemma FromTail(tables: seq<seq<Run>>, x: Run)
    requires tables != [] && FromSome(tables[1..], x)
    ensures FromSome(tables, x)
  {
    var i :| 0 <= i < |tables[1..]| && x in tables[1..][i];
    assert x in tables[i + 1];
  }

  lemma WalkUnfolds(tables: seq<seq<Run>>, limits: seq<Option<nat>>, status: Option<string>, cursor: Option<string>)
    requires |limits| == |tables| && tables != []
    ensures var p := Handle(tables[0], status, limits[0], cursor);
            var rs := AllRuns(Walk(tables, limits, status, cursor));
            rs == if p.next.None? then p.runs
                  else p.runs + AllRuns(Walk(tables[1..], limits[1..], status, p.next))
  {
    hide Handle;
    var pages := Walk(tables, limits, status, cursor);
    var p := Handle(tables[0], status, limits[0], cursor);
    if p.next.None? {
      assert pages[1..] == [];
      assert p.runs + [] == p.runs;
    } else {
      assert pages[1..] == Walk(tables[1..], limits[1..], status, p.next);
    }
  }

  /** Every run returned is a row of one of the tables that matches the filter and comes after the cursor. */
  lemma {:induction false} WalkReturnsRows(tables: seq<seq<Run>>, limits: seq<Option<nat>>, status: Option<string>,
                                           cursor: Option<string>, after: Option<(int, RunId)>, x: Run)
    requires |limits| == |tables| && Growing(tables) && Asks(cursor, after)
    requires x in AllRuns(Walk(tables, limits, status, cursor))
    ensures FromSome(tables, x) && Matches(x, status, after)
  {
    if tables != [] {
      var p := Handle(tables[0], status, limits[0], cursor);
      PageFacts(tables[0], status, limits[0], cursor, after);
      WalkUnfolds(tables, limits, status, cursor);
      GrowingTail(tables);
      hide Handle, Matches, After, Asks, Growing, Walk, AllRuns, Descending;
      if x in p.runs {
        assert x in tables[0];
      } else {
        var last := p.runs[|p.runs| - 1];
        assert last in p.runs;
        WalkReturnsRows(tables[1..], limits[1..], status, p.next, Some((last.createdAt, last.id)), x);
        FromTail(tables, x);
        LaterStillMatches(x, last, status, after);
      }
    }
  }

  /** All pages together are in descending order. */
  lemma {:induction false} WalkDescends(tables: seq<seq<Run>>, limits: seq<Option<nat>>, status: Option<string>,
                                        cursor: Option<string>, after: Option<(int, RunId)>)
    requires |limits| == |tables| && Growing(tables) && Asks(cursor, after)
    ensures Descending(AllRuns(Walk(tables, limits, status, cursor)))
  {
    if tables != [] {
      var p := Handle(tables[0], status, limits[0], cursor);
      PageFacts(tables[0], status, limits[0], cursor, after);
      WalkUnfolds(tables, limits, status, cursor);
      GrowingTail(tables);
      hide Handle, Asks, Growing, Walk, AllRuns, Descending;
      if p.next.Some? {
        var last := p.runs[|p.runs| - 1];
        var after' := Some((last.createdAt, last.id));
        WalkDescends(tables[1..], limits[1..], status, p.next, after');
        var more := AllRuns(Walk(tables[1..], limits[1..], status, p.next));
        forall x | x in more ensures After(x, last) {
          WalkReturnsRows(tables[1..], limits[1..], status, p.next, after', x);
        }
        ConcatDescends(p.runs, more);
      }
    }
  }

  lemma IsAfterTransitive(x: Run, y: Run, createdAt: int, id: RunId)
    requires After(x, y) && IsAfter(y, createdAt, id)
    ensures IsAfter(x, createdAt, id)
  {
    if x.createdAt == y.createdAt == createdAt { LessTransitive(x.id, y.id, id); }
  }

  /** No run is returned twice. */
  lemma NoRunTwice(tables: seq<seq<Run>>, limits: seq<Option<nat>>, status: Option<string>)
    requires |limits| == |tables| && Growing(tables)
    ensures Keyed(AllRuns(Walk(tables, limits, status, None)))
  {
    hide After, Walk;
    var rs := AllRuns(Walk(tables, limits, status, None));
    WalkDescends(tables, limits, status, None, None);
    forall i, j | 0 <= i < j < |rs| ensures rs[i].id != rs[j].id {
      assert rs[i] in rs && rs[j] in rs;
      if rs[i].id == rs[j].id {
        WalkReturnsRows(tables, limits, status, None, None, rs[i]);
        WalkReturnsRows(tables, limits, status, None, None, rs[j]);
        SameIdIsSameRow(tables, rs[i], rs[j]);
        AfterNeedsDifference(rs[j], rs[i]);
      }
    }
  }

  lemma AfterNeedsDifference(x: Run, y: Run)
    requires After(x, y)
    ensures !SameRow(x, y)
  {
    LessIrreflexive(x.id);
  }

  lemma SameIdIsSameRow(tables: seq<seq<Run>>, x: Run, y: Run)
    requires Growing(tables) && x.id == y.id
    requires FromSome(tables, x) && FromSome(tables, y)
    ensures SameRow(x, y)
  {
    var i :| 0 <= i < |tables| && x in tables[i];
    var j :| 0 <= j < |tables| && y in tables[j];
    var k := Max(i, j);
    var x' := RowIn(tables, i, k, x);
    var y' := RowIn(tables, j, k, y);
    KeyIsUnique(tables[k], x', y');
  }

  lemma RowIn(tables: seq<seq<Run>>, i: nat, k: nat, x: Run) returns (y: Run)
    requires Growing(tables) && i <= k < |tables| && x in tables[i]
    ensures y in tables[k] && SameRow(x, y)
  {
    if i == k {
      y := x;
    } else {
      assert HasRow(tables[k], x);
      y :| y in tables[k] && SameRow(x, y);
    }
  }

  lemma KeyIsUnique(rows: seq<Run>, x: Run, y: Run)
    requires Keyed(rows) && x in rows && y in rows && x.id == y.id
    ensures x == y
  {
    var i :| 0 <= i < |rows| && rows[i] == x;
    var j :| 0 <= j < |rows| && rows[j] == y;
  }

  /** In every one of the tables the run matches the filter. */
  ghost predicate AlwaysMatches(tables: seq<seq<Run>>, status: Option<string>, x: Run) {
    forall i, y :: 0 <= i < |tables| && y in tables[i] && SameRow(x, y) ==> Matches(y, status, None)
  }

  lemma AlwaysMatchesTail(tables: seq<seq<Run>>, status: Option<string>, x: Run, y: Run)
    requires tables != [] && AlwaysMatches(tables, status, x) && SameRow(x, y)
    ensures AlwaysMatches(tables[1..], status, y)
  {
    forall i, z | 0 <= i < |tables[1..]| && z in tables[1..][i] && SameRow(y, z) ensures Matches(z, status, None) {
      assert z in tables[i + 1] && SameRow(x, z);
    }
  }

  /**
   Every run of the first table that matches the filter in all of the tables has been returned when there is no next
   page; without a filter that is every run.
   */
  lemma {:induction false} NoRunMissed(tables: seq<seq<Run>>, limits: seq<Option<nat>>, status: Option<string>,
                                       cursor: Option<string>, after: Option<(int, RunId)>, x: Run)
    requires |limits| == |tables| && Growing(tables) && Asks(cursor, after)
    requires forall i :: 0 <= i < |limits| ==> limits[i] != Some(0)
    requires tables != [] && x in tables[0] && Matches(x, None, after) && AlwaysMatches(tables, status, x)
    requires Finished(Walk(tables, limits, status, cursor))
    ensures HasRow(AllRuns(Walk(tables, limits, status, cursor)), x)
  {
    hide AlwaysMatches, Handle, AllRuns, Matches, Asks, Growing, Walk, Finished, HasRow, After, Storable, EffectiveLimit;
    var p := Handle(tables[0], status, limits[0], cursor);
    FirstIsStorable(tables);
    MatchesHere(tables, status, after, x);
    PageMissesNothing(tables[0], status, limits[0], cursor, after, x);
    WalkUnfolds(tables, limits, status, cursor);
    if x in p.runs {
      FoundHere(p.runs, AllRuns(Walk(tables, limits, status, cursor)), x);
    } else {
      PageFacts(tables[0], status, limits[0], cursor, after);
      var last := p.runs[|p.runs| - 1];
      WalkGoesOn(tables, limits, status, cursor);
      var y := RowIn(tables, 0, 1, x);
      GrowingTail(tables);
      AfterIsShared(x, y, last);
      AlwaysMatchesTail(tables, status, x, y);
      assert tables[1..][0] == tables[1];
      NoRunMissed(tables[1..], limits[1..], status, p.next, Some((last.createdAt, last.id)), y);
      FoundLater(p.runs, AllRuns(Walk(tables[1..], limits[1..], status, p.next)), x, y);
    }
  }

  lemma FirstIsStorable(tables: seq<seq<Run>>)
    requires Growing(tables) && tables != []
    ensures Storable(tables[0])
  {
  }

  lemma WalkGoesOn(tables: seq<seq<Run>>, limits: seq<Option<nat>>, status: Option<string>, cursor: Option<string>)
    requires |limits| == |tables| && tables != [] && Finished(Walk(tables, limits, status, cursor))
    requires Handle(tables[0], status, limits[0], cursor).next.Some?
    ensures |tables| > 1
    ensures Finished(Walk(tables[1..], limits[1..], status, Handle(tables[0], status, limits[0], cursor).next))
  {
    hide Handle;
    var p := Handle(tables[0], status, limits[0], cursor);
    assert Walk(tables, limits, status, cursor) == [p] + Walk(tables[1..], limits[1..], status, p.next);
  }

  lemma FoundHere(rs: seq<Run>, all: seq<Run>, x: Run)
    requires x in rs && rs <= all
    ensures HasRow(all, x)
  {
    assert x in all && SameRow(x, x);
  }

  lemma FoundLater(rs: seq<Run>, more: seq<Run>, x: Run, y: Run)
    requires HasRow(more, y) && SameRow(x, y)
    ensures HasRow(rs + more, x)
  {
    var z :| z in more && SameRow(y, z);
    assert z in rs + more && SameRow(x, z);
  }

  lemma AfterIsShared(x: Run, y: Run, last: Run)
    requires SameRow(x, y) && After(x, last)
    ensures Matches(y, None, Some((last.createdAt, last.id)))
  {
  }

  lemma MatchesHere(tables: seq<seq<Run>>, status: Option<string>, after: Option<(int, RunId)>, x: Run)
    requires tables != [] && x in tables[0] && Matches(x, None, after) && AlwaysMatches(tables, status, x)
    ensures Matches(x, status, after)
  {
    assert SameRow(x, x);
  }

  /** Without a filter the condition is nothing. */
  lemma UnfilteredAlwaysMatches(tables: seq<seq<Run>>, x: Run)
    ensures AlwaysMatches(tables, None, x)
  {
  }

  // ── A table that does not change ───────────────────────────────────────────

  /** The list after the cursor is the page followed by the list after the page's last run. */
  lemma PageSplitsListing(rows: seq<Run>, status: Option<string>, limit: Option<nat>, cursor: Option<string>,
                          after: Option<(int, RunId)>)
    requires Storable(rows) && Asks(cursor, after) && limit != Some(0)
    ensures var p := Handle(rows, status, limit, cursor);
            var l := Listing(rows, status, after);
            match p.next
            case None => p.runs == l
            case Some(_) =>
              p.runs != [] &&
              var last := p.runs[|p.runs| - 1];
              l == p.runs + Listing(rows, status, Some((last.createdAt, last.id)))
  {
    var p := Handle(rows, status, limit, cursor);
    var l := Listing(rows, status, after);
    HandleIsHead(rows, status, limit, cursor, after);
    if p.next.Some? {
      ListingIsExact(rows, status, after);
      PageFacts(rows, status, limit, cursor, after);
      var last := p.runs[|p.runs| - 1];
      var more := Listing(rows, status, Some((last.createdAt, last.id)));
      ListingIsExact(rows, status, Some((last.createdAt, last.id)));
      hide Listing, Handle, After, Asks;
      assert last in p.runs;
      forall x | x in more ensures Matches(x, status, after) && After(x, last) {
        LaterStillMatches(x, last, status, after);
      }
      ConcatDescends(p.runs, more);
      forall x ensures x in l <==> x in p.runs + more {
        if x in l {
          PageMissesNothing(rows, status, limit, cursor, after, x);
          if After(x, last) { AfterIsMatching(x, last, status, after); }
        }
      }
      DescendingIsUnique(l, p.runs + more);
    }
  }

  lemma AfterIsMatching(x: Run, last: Run, status: Option<string>, after: Option<(int, RunId)>)
    requires Matches(x, status, after) && After(x, last)
    ensures Matches(x, status, Some((last.createdAt, last.id)))
  {
  }

  /** Enough requests reach the last page, and the pages together are exactly the list, with or without a filter. */
  lemma {:induction false} WalkIsListing(rows: seq<Run>, tables: seq<seq<Run>>, limits: seq<Option<nat>>,
                                         status: Option<string>, cursor: Option<string>, after: Option<(int, RunId)>)
    requires |limits| == |tables| && Storable(rows) && Asks(cursor, after)
    requires forall i :: 0 <= i < |tables| ==> tables[i] == rows && limits[i] != Some(0)
    requires |tables| > |Listing(rows, status, after)|
    ensures var pages := Walk(tables, limits, status, cursor);
            Finished(pages) && AllRuns(pages) == Listing(rows, status, after)
    decreases |tables|
  {
    hide Handle, Listing, Asks, Matches, After;
    var p := Handle(rows, status, limits[0], cursor);
    var pages := Walk(tables, limits, status, cursor);
    PageSplitsListing(rows, status, limits[0], cursor, after);
    WalkUnfolds(tables, limits, status, cursor);
    hide AllRuns;
    if p.next.None? {
      assert pages == [p];
    } else {
      PageFacts(rows, status, limits[0], cursor, after);
      var last := p.runs[|p.runs| - 1];
      WalkIsListing(rows, tables[1..], limits[1..], status, p.next, Some((last.createdAt, last.id)));
      var rest := Walk(tables[1..], limits[1..], status, p.next);
      assert pages == [p] + rest;
    }
  }

  /** A limit of zero ends the walk at once. */
  lemma ZeroLimitEnds(rows: seq<Run>, status: Option<string>, cursor: Option<string>)
    ensures Handle(rows, status, Some(0), cursor) == Response([], None)
  {
  }
}
