/**
 The client's state and its update function, field by field (crates/runs/src/app/state.rs,
 crates/runs/src/app/update.rs).
 */
module ClientApp {
  import opened Base
  import opened Decimal
  import opened Model
  import opened Runs
  import opened AppModel

  datatype Msg =
    | RunsLoaded(runs: seq<Run>, next: Option<string>)
    | MoreRunsLoaded(runs: seq<Run>, next: Option<string>)
    | RunFetched(run: Run)
    | CalcStatusChanged(runId: RunId, calcId: CalcId, to: CalcStatus)
    | RunSubmitted(runId: RunId)
    | KeyPressed(key: Key)

  /** `index` is the inverse of the order of `runs`: every run is indexed where it is, and nothing else is. */
  predicate Indexed(runs: seq<Run>, index: map<RunId, nat>) {
    && (forall i :: 0 <= i < |runs| ==> runs[i].id in index && index[runs[i].id] == i)
    && (forall id :: id in index ==> index[id] < |runs| && runs[index[id]].id == id)
  }

  lemma IndexIsPosition(runs: seq<Run>, index: map<RunId, nat>, id: RunId)
    requires Indexed(runs, index)
    ensures DistinctIds(runs)
    ensures Position(runs, id) == if id in index then index[id] else |runs|
  {
    hide Position;
    var i := Position(runs, id);
    if i < |runs| { assert runs[i].id == id; }
  }

  /** Cursors beyond the end of what is shown go back to its last row. */
  function Clamp(v: View): View {
    var n := |VisibleIn(v)|;
    var w := v.(runCursor := if n == 0 then 0 else Min(v.runCursor, n - 1));
    match SelectedRun(w)
    case None => w
    case Some(r) => w.(calcCursor := if |r.calcs| == 0 then 0 else Min(w.calcCursor, |r.calcs| - 1))
  }

  /** Clamping keeps cursors that are in bounds, and afterwards a run is selected whenever one is shown. */
  lemma ClampSelects(v: View)
    ensures var w := Clamp(v);
            && (|VisibleIn(v)| > 0 ==> SelectedRun(w).Some?)
            && (SelectedRun(v).Some? ==> SelectedRun(w) == SelectedRun(v) && w.runCursor == v.runCursor)
            && w == v.(runCursor := w.runCursor, calcCursor := w.calcCursor)
            && (v.runCursor >= |VisibleIn(v)| ==> w.runCursor == Max(|VisibleIn(v)| - 1, 0))
            && (SelectedRun(w).Some? ==>
                  var size := |SelectedRun(w).value.calcs|;
                  w.calcCursor == if v.calcCursor < size then v.calcCursor else Max(size - 1, 0))
            && (SelectedCalc(v).Some? ==> w == v)
            && (SelectedRun(w).Some? && |SelectedRun(w).value.calcs| > 0 ==> SelectedCalc(w).Some?)
            && Clamp(w) == w
  {
    hide Visible;
  }

  function Receive(v: View, msg: Msg): Outcome {
    match msg
    case RunsLoaded(rs, next) => Outcome(v.(runs := UpsertAll([], rs), nextCursor := next), [])
    case MoreRunsLoaded(rs, next) => Outcome(v.(runs := UpsertAll(v.runs, rs), nextCursor := next), [])
    case RunFetched(r) => Outcome(Clamp(v.(runs := Upsert(v.runs, r))), [])
    case CalcStatusChanged(runId, calcId, to) => Outcome(v.(runs := SetStatus(v.runs, runId, calcId, to)), [])
    case RunSubmitted(runId) => Outcome(v, [FetchRun(runId)])
    case KeyPressed(key) => Press(v, key)
  }

  function ReceiveAll(v: View, msgs: seq<Msg>): Outcome {
    if msgs == [] then Outcome(v, [])
    else
      var before := ReceiveAll(v, msgs[..|msgs| - 1]);
      var last := Receive(before.view, msgs[|msgs| - 1]);
      Outcome(last.view, before.effects + last.effects)
  }

  // ── The status shown for a calculation ─────────────────────────────────────

  /** The run as the message writes it, if it does. */
  function Upserts(msg: Msg, id: RunId): Option<Run> {
    match msg
    case RunsLoaded(rs, _) => LastWith(rs, id)
    case MoreRunsLoaded(rs, _) => LastWith(rs, id)
    case RunFetched(r) => if r.id == id then Some(r) else None
    case _ => None
  }

  /**
   The status last announced for a calculation since its run was last upserted, or else the one it was upserted with. A
   first page without the run removes it; an announcement for a calculation that is not there is dropped.
   */
  function LastAnnounced(start: seq<Run>, msgs: seq<Msg>, id: RunId, calcId: CalcId): Option<CalcStatus> {
    if msgs == [] then StatusIn(Lookup(start, id), calcId)
    else
      var before, last := LastAnnounced(start, msgs[..|msgs| - 1], id, calcId), msgs[|msgs| - 1];
      if Upserts(last, id).Some? then StatusIn(Upserts(last, id), calcId)
      else if last.RunsLoaded? then None
      else if last.CalcStatusChanged? && last.runId == id && last.calcId == calcId && before.Some? then Some(last.to)
      else before
  }

  lemma OneMessageShows(v: View, msg: Msg, id: RunId, calcId: CalcId)
    ensures var before, after := StatusIn(Lookup(v.runs, id), calcId), Lookup(Receive(v, msg).view.runs, id);
            StatusIn(after, calcId) ==
            if Upserts(msg, id).Some? then StatusIn(Upserts(msg, id), calcId)
            else if msg.RunsLoaded? then None
            else if msg.CalcStatusChanged? && msg.runId == id && msg.calcId == calcId && before.Some? then Some(msg.to)
            else before
  {
    hide UpsertAll, Upsert, SetStatus, Press, StatusIn, SelectedRun, VisibleIn, LastWith;
    match msg {
      case RunsLoaded(rs, _) => LookupAfterUpserts([], rs, id);
      case MoreRunsLoaded(rs, _) => LookupAfterUpserts(v.runs, rs, id);
      case RunFetched(r) => LookupAfterUpsert(v.runs, r, id);
      case CalcStatusChanged(runId, c, to) => LookupAfterStatus(v.runs, runId, c, to, id, calcId);
      case RunSubmitted(_) =>
      case KeyPressed(key) => PressKeepsRuns(v, key);
    }
    NoStatus(calcId);
  }

  lemma NoStatus(calcId: CalcId)
    ensures StatusIn(None, calcId) == None && forall id :: Lookup([], id) == None
  {
  }

  /** For every list of messages, keys among them. */
  lemma {:induction false} ShownIsLastAnnounced(v: View, msgs: seq<Msg>, id: RunId, calcId: CalcId)
    ensures StatusIn(Lookup(ReceiveAll(v, msgs).view.runs, id), calcId) == LastAnnounced(v.runs, msgs, id, calcId)
  {
    hide Receive, StatusIn, Lookup, Upserts;
    if msgs != [] {
      var n := |msgs| - 1;
      ShownIsLastAnnounced(v, msgs[..n], id, calcId);
      OneMessageShows(ReceiveAll(v, msgs[..n]).view, msgs[n], id, calcId);
    }
  }

  /** Said of a calculation that is shown, and not overtaken, an announcement stands. */
  lemma {:induction false} AnnouncementStands(v: View, earlier: seq<Msg>, id: RunId, calcId: CalcId, to: CalcStatus,
                                              later: seq<Msg>)
    requires StatusIn(Lookup(ReceiveAll(v, earlier).view.runs, id), calcId).Some?
    requires forall m :: m in later ==>
               Upserts(m, id) == None && !m.RunsLoaded? &&
               !(m.CalcStatusChanged? && m.runId == id && m.calcId == calcId)
    ensures var msgs := earlier + [CalcStatusChanged(id, calcId, to)] + later;
            StatusIn(Lookup(ReceiveAll(v, msgs).view.runs, id), calcId) == Some(to)
    decreases |later|
  {
    hide Receive, StatusIn, Lookup, Upserts;
    var msgs := earlier + [CalcStatusChanged(id, calcId, to)] + later;
    var n := |msgs| - 1;
    OneMessageShows(ReceiveAll(v, msgs[..n]).view, msgs[n], id, calcId);
    if later == [] {
      assert msgs[..n] == earlier;
      AnnouncesNoRun(id, calcId, to);
    } else {
      var before := later[..|later| - 1];
      assert forall m :: m in before ==> m in later;
      assert msgs[..n] == earlier + [CalcStatusChanged(id, calcId, to)] + before && msgs[n] in later;
      AnnouncementStands(v, earlier, id, calcId, to, before);
    }
  }

  lemma AnnouncesNoRun(id: RunId, calcId: CalcId, to: CalcStatus)
    ensures Upserts(CalcStatusChanged(id, calcId, to), id) == None
  {
  }

  const EMPTY: View := View([], RunList, 0, 0, None, None, "", None, None, None)

  class App {
    var runs: seq<Run>
    var runIndex: map<RunId, nat>
    var pane: Pane
    var runCursor: nat
    var calcCursor: nat
    var status: Option<string>
    var search: Option<string>
    var countBuf: string
    var nextCursor: Option<string>
    var visualAnchor: Option<nat>
    var dialog: Option<Confirmation>

    ghost predicate Valid()
      reads this
    {
      Indexed(runs, runIndex)
    }

    function Shows(): View
      reads this
    {
      View(runs, pane, runCursor, calcCursor, status, search, countBuf, nextCursor, visualAnchor, dialog)
    }

    constructor ()
      ensures Valid() && Shows() == EMPTY
    {
      runs, runIndex, pane, runCursor, calcCursor := [], map[], RunList, 0, 0;
      status, search, countBuf, nextCursor, visualAnchor, dialog := None, None, "", None, None, None;
    }

    method UpsertRun(run: Run)
      requires Valid()
      modifies this`runs, this`runIndex
      ensures Valid() && runs == Upsert(old(runs), run)
    {
      IndexIsPosition(runs, runIndex, run.id);
      hide Position;
      if run.id in runIndex {
        runs := runs[runIndex[run.id] := run];
      } else {
        runIndex := runIndex[run.id := |runs|];
        runs := runs + [run];
      }
    }

    method UpsertRuns(rs: seq<Run>)
      requires Valid()
      modifies this`runs, this`runIndex
      ensures Valid() && runs == UpsertAll(old(runs), rs)
    {
      hide Upsert, Indexed;
      ghost var before := runs;
      for i := 0 to |rs|
        invariant Valid() && UpsertAll(runs, rs[i..]) == UpsertAll(before, rs)
      {
        assert rs[i..][1..] == rs[i + 1..];
        UpsertRun(rs[i]);
      }
      assert rs[|rs|..] == [];
    }

    method UpdateCalcStatus(runId: RunId, calcId: CalcId, to: CalcStatus)
      requires Valid()
      modifies this`runs
      ensures Valid() && runs == SetStatus(old(runs), runId, calcId, to)
      ensures OnlyStatusSet(old(runs), runs, runId, calcId, to)
      ensures !HasCalc(old(runs), runId, calcId) ==> runs == old(runs)
    {
      IndexIsPosition(runs, runIndex, runId);
      SetStatusSetsOnly(runs, runId, calcId, to);
      if !HasCalc(runs, runId, calcId) {
        NothingToSet(runs, SetStatus(runs, runId, calcId, to), runId, calcId, to);
      }
      hide Position, CalcPosition, OnlyStatusSet, HasCalc;
      if runId in runIndex {
        var ri := runIndex[runId];
        var calcs := runs[ri].calcs;
        var ci := 0;
        while ci < |calcs| && calcs[ci].id != calcId
          invariant ci <= |calcs| && forall j :: 0 <= j < ci ==> calcs[j].id != calcId
        {
          ci := ci + 1;
        }
        assert ci == CalcPosition(calcs, calcId);
        if ci < |calcs| {
          calcs := calcs[ci := calcs[ci].(status := to)];
        }
        runs := runs[ri := runs[ri].(calcs := calcs)];
      }
    }

    method ClampCursors()
      modifies this`runCursor, this`calcCursor
      ensures Shows() == Clamp(old(Shows()))
    {
      var n := |VisibleIn(Shows())|;
      if n == 0 {
        runCursor := 0;
      } else if runCursor >= n {
        runCursor := n - 1;
      }
      var selected := SelectedRun(Shows());
      if selected.Some? {
        var m := |selected.value.calcs|;
        if m == 0 {
          calcCursor := 0;
        } else if calcCursor >= m {
          calcCursor := m - 1;
        }
      }
    }

    method MoveCursorDown()
      modifies this`runCursor, this`calcCursor
      ensures Shows() == MoveDown(old(Shows()))
    {
      if pane.RunList? {
        var max := Max(|VisibleIn(Shows())| - 1, 0);
        if runCursor < max { runCursor := runCursor + 1; }
        calcCursor := 0;
      } else {
        var selected := SelectedRun(Shows());
        if selected.Some? {
          var max := Max(|selected.value.calcs| - 1, 0);
          if calcCursor < max { calcCursor := calcCursor + 1; }
        }
      }
    }

    method MoveCursorUp()
      modifies this`runCursor, this`calcCursor
      ensures Shows() == MoveUp(old(Shows()))
    {
      if pane.RunList? {
        runCursor := Max(runCursor - 1, 0);
        calcCursor := 0;
      } else {
        calcCursor := Max(calcCursor - 1, 0);
      }
    }

    /** `j`: the moves one by one, then the next page at the bottom of the run list. */
    method HandleDown(count: nat) returns (effects: seq<Effect>)
      modifies this`runCursor, this`calcCursor, this`nextCursor
      ensures Outcome(Shows(), effects) == Act(old(Shows()), Down, count)
    {
      hide MoveDown;
      effects := [];
      if !pane.Detail? {
        ghost var before := Shows();
        for i := 0 to count
          invariant pane == old(pane)
          invariant MoveDownTimes(Shows(), count - i) == MoveDownTimes(before, count)
        {
          MoveCursorDown();
        }
        if pane.RunList? && runCursor + 1 >= |VisibleIn(Shows())| && nextCursor.Some? {
          effects := [LoadMoreRuns(nextCursor.value)];
          nextCursor := None;
        }
      }
    }

    method HandleUp(count: nat)
      modifies this`runCursor, this`calcCursor
      ensures Outcome(Shows(), []) == Act(old(Shows()), Up, count)
    {
      hide MoveUp;
      if !pane.Detail? {
        ghost var before := Shows();
        for i := 0 to count
          invariant pane == old(pane)
          invariant MoveUpTimes(Shows(), count - i) == MoveUpTimes(before, count)
        {
          MoveCursorUp();
        }
      }
    }

    method HandleKey(key: Key) returns (effects: seq<Effect>)
      modifies this`pane, this`runCursor, this`calcCursor, this`countBuf
      modifies this`nextCursor, this`visualAnchor, this`dialog
      ensures Outcome(Shows(), effects) == Press(old(Shows()), key)
    {
      hide MoveDownTimes, MoveUpTimes, LoadMore, Cancels, Retries, InSelection, Visible, CountOf;
      effects := [];
      if dialog.Some? {
        if key.Yes? { effects := Confirmed(runs, dialog.value); }
        dialog := None;
        return;
      }
      if key.Digit? && (key.c != '0' || countBuf != "") {
        countBuf := countBuf + [key.c];
        return;
      }
      var count := CountOf(countBuf);
      countBuf := "";
      match key {
        case Digit(_) =>
        case Yes =>
        case Down => effects := HandleDown(count);
        case Up => HandleUp(count);
        case Visual =>
          if pane.RunList? { visualAnchor := if visualAnchor.Some? then None else Some(runCursor); }
        case Cancel =>
          if visualAnchor.Some? {
            effects := Cancels(Selection(Shows()));
            visualAnchor := None;
          } else {
            dialog := CancelDialog(Shows());
          }
        case Retry =>
          if visualAnchor.Some? {
            effects := Retries(Selection(Shows()));
            visualAnchor := None;
          } else {
            var selected := SelectedCalc(Shows());
            if selected.Some? && selected.value.status.StatusFailed? {
              effects := [RetryCalc(selected.value.runId, selected.value.id)];
            }
          }
      }
    }

    /** One message. The index stays the inverse of the list. */
    method Update(msg: Msg) returns (effects: seq<Effect>)
      requires Valid()
      modifies this
      ensures Valid() && Outcome(Shows(), effects) == Receive(old(Shows()), msg)
      ensures msg.RunSubmitted? ==> effects == [FetchRun(msg.runId)] && Shows() == old(Shows())
    {
      hide Indexed, Press, Clamp, Upsert, UpsertAll, SetStatus;
      effects := [];
      match msg {
        case RunsLoaded(rs, next) =>
          Clear();
          UpsertRuns(rs);
          nextCursor := next;
        case MoreRunsLoaded(rs, next) =>
          UpsertRuns(rs);
          nextCursor := next;
        case RunFetched(r) =>
          UpsertRun(r);
          ClampCursors();
        case CalcStatusChanged(runId, calcId, to) =>
          UpdateCalcStatus(runId, calcId, to);
        case RunSubmitted(runId) =>
          effects := [FetchRun(runId)];
        case KeyPressed(key) =>
          effects := HandleKey(key);
      }
    }

    method Clear()
      modifies this`runs, this`runIndex
      ensures Valid() && runs == []
    {
      runs, runIndex := [], map[];
    }

    /** The main loop: any messages in any order. */
    method Run(msgs: seq<Msg>) returns (effects: seq<Effect>)
      requires Valid()
      modifies this
      ensures Valid() && Outcome(Shows(), effects) == ReceiveAll(old(Shows()), msgs)
    {
      hide Indexed, Receive;
      ghost var start := Shows();
      effects := [];
      for i := 0 to |msgs|
        invariant Valid() && Outcome(Shows(), effects) == ReceiveAll(start, msgs[..i])
      {
        assert msgs[..i + 1][..i] == msgs[..i];
        var more := Update(msgs[i]);
        effects := effects + more;
      }
      assert msgs[..|msgs|] == msgs;
    }
  }
}

/** The client that follows the server's cursors shows the server's list. */
module ClientPaging {
  import opened Base
  import opened Model
  import opened Runs
  import opened Decimal
  import AppModel
  import opened ClientApp
  import opened Paging

  /** The first page replaces the list, the others are added to it. */
  function LoadPages(v: AppModel.View, pages: seq<Response>): AppModel.View {
    if pages == [] then v
    else
      var n := |pages| - 1;
      var page := pages[n];
      if n == 0 then Receive(v, RunsLoaded(page.runs, page.next)).view
      else Receive(LoadPages(v, pages[..n]), MoreRunsLoaded(page.runs, page.next)).view
  }

  lemma {:induction false} AllRunsSnoc(pages: seq<Response>, page: Response)
    ensures AllRuns(pages + [page]) == AllRuns(pages) + page.runs
  {
    if pages == [] {
      assert pages + [page] == [page] && [page][1..] == [];
      assert AllRuns([page]) == page.runs + [];
    } else {
      assert (pages + [page])[1..] == pages[1..] + [page];
      AllRunsSnoc(pages[1..], page);
      assert pages[0].runs + (AllRuns(pages[1..]) + page.runs) == (pages[0].runs + AllRuns(pages[1..])) + page.runs;
    }
  }

  /** The list shown is what upserting the runs of all pages in order gives, and the stored cursor is the last one. */
  lemma {:induction false} LoadedIsUpserted(v: AppModel.View, pages: seq<Response>)
    requires pages != []
    ensures var w := LoadPages(v, pages);
            w.runs == AppModel.UpsertAll([], AllRuns(pages)) && w.nextCursor == pages[|pages| - 1].next
  {
    hide AllRuns, AppModel.UpsertAll;
    var n := |pages| - 1;
    assert pages == pages[..n] + [pages[n]];
    AllRunsSnoc(pages[..n], pages[n]);
    if n == 0 {
      NoPages();
      assert pages[..0] == [];
      assert [] + pages[n].runs == pages[n].runs;
    } else {
      LoadedIsUpserted(v, pages[..n]);
      AppModel.UpsertAllConcat([], AllRuns(pages[..n]), pages[n].runs);
    }
  }

  lemma NoPages()
    ensures AllRuns([]) == []
  {
  }

  /** While rows are only inserted, the client shows every run it was sent, in the order sent, once. */
  lemma PagesAreShownInOrder(v: AppModel.View, tables: seq<seq<Run>>, limits: seq<Option<nat>>)
    requires |limits| == |tables| && Growing(tables) && tables != []
    ensures var pages := Walk(tables, limits, None, None);
            LoadPages(v, pages).runs == AllRuns(pages)
  {
    var pages := Walk(tables, limits, None, None);
    NoRunTwice(tables, limits, None);
    LoadedIsUpserted(v, pages);
    hide Walk;
    AppModel.NewRunsAreAppended([], AllRuns(pages));
    assert [] + AllRuns(pages) == AllRuns(pages);
  }

  /** On a table that does not change, the client ends with exactly the server's list and no further page to ask for. */
  lemma ClientShowsListing(v: AppModel.View, rows: seq<Run>, tables: seq<seq<Run>>, limits: seq<Option<nat>>)
    requires |limits| == |tables| && Storable(rows)
    requires forall i :: 0 <= i < |tables| ==> tables[i] == rows && limits[i] != Some(0)
    requires |tables| > |Listing(rows, None, None)|
    ensures var w := LoadPages(v, Walk(tables, limits, None, None));
            w.runs == Listing(rows, None, None) && w.nextCursor == None
  {
    hide Listing;
    WalkIsListing(rows, tables, limits, None, None, None);
    FixedIsGrowing(rows, tables);
    PagesAreShownInOrder(v, tables, limits);
    LoadedIsUpserted(v, Walk(tables, limits, None, None));
  }

  lemma FixedIsGrowing(rows: seq<Run>, tables: seq<seq<Run>>)
    requires Storable(rows) && forall i :: 0 <= i < |tables| ==> tables[i] == rows
    ensures Growing(tables)
  {
    forall i, j, x | 0 <= i < j < |tables| && x in tables[i] ensures HasRow(tables[j], x) {
      assert x in tables[j] && SameRow(x, x);
    }
  }
}
