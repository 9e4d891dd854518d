/** What the client shows and how a key changes it (crates/runs/src/app/update.rs, crates/runs/src/app/state.rs). */
module AppModel {
  import opened Base
  import opened Decimal
  import opened Model
  import opened Runs

  datatype Pane = RunList | CalcList | Detail

  datatype Confirmation = CancelRunDialog(runId: RunId) | CancelCalcDialog(calcId: CalcId)

  datatype Effect =
    | LoadMoreRuns(cursor: string)
    | FetchRun(runId: RunId)
    | CancelRun(runId: RunId)
    | CancelCalc(runId: RunId, calcId: CalcId)
    | RetryCalc(runId: RunId, calcId: CalcId)

  type CountDigit = c: char | IsDigit(c) witness '0'

  /** The keys of this model: digits, `j`, `k`, `v`, `X`, `R` and `Y`. */
  datatype Key = Digit(c: CountDigit) | Down | Up | Visual | Cancel | Retry | Yes

  /** The fields of `App` that these keys read or write; the index of the runs is apart (`ClientApp.App`). */
  datatype View = View(
    runs: seq<Run>, pane: Pane, runCursor: nat, calcCursor: nat, status: Option<string>, search: Option<string>,
    countBuf: string, nextCursor: Option<string>, visualAnchor: Option<nat>, dialog: Option<Confirmation>)

  datatype Outcome = Outcome(view: View, effects: seq<Effect>)

  // ── Runs by id ─────────────────────────────────────────────────────────────

  predicate DistinctIds(runs: seq<Run>) { forall i, j :: 0 <= i < j < |runs| ==> runs[i].id != runs[j].id }

  function Position(runs: seq<Run>, id: RunId): (i: nat)
    ensures i <= |runs| && (i < |runs| ==> runs[i].id == id) && forall j :: 0 <= j < i ==> runs[j].id != id
  {
    if runs == [] || runs[0].id == id then 0 else 1 + Position(runs[1..], id)
  }

  /** Replace the run with the same id, or append. */
  function Upsert(runs: seq<Run>, r: Run): seq<Run> {
    var i := Position(runs, r.id);
    if i < |runs| then runs[i := r] else runs + [r]
  }

  function UpsertAll(runs: seq<Run>, rs: seq<Run>): seq<Run>
    decreases |rs|
  {
    if rs == [] then runs else UpsertAll(Upsert(runs, rs[0]), rs[1..])
  }

  /** The status of the first calculation with this id in the run with that id. */
  function SetStatus(runs: seq<Run>, runId: RunId, calcId: CalcId, status: CalcStatus): seq<Run> {
    var i := Position(runs, runId);
    if i < |runs| then runs[i := runs[i].(calcs := SetCalc(runs[i].calcs, calcId, status))] else runs
  }

  function CalcPosition(calcs: seq<Calc>, id: CalcId): (i: nat)
    ensures i <= |calcs| && (i < |calcs| ==> calcs[i].id == id) && forall j :: 0 <= j < i ==> calcs[j].id != id
  {
    if calcs == [] || calcs[0].id == id then 0 else 1 + CalcPosition(calcs[1..], id)
  }

  function SetCalc(calcs: seq<Calc>, calcId: CalcId, status: CalcStatus): seq<Calc> {
    var i := CalcPosition(calcs, calcId);
    if i < |calcs| then calcs[i := calcs[i].(status := status)] else calcs
  }

  // ── What is shown ──────────────────────────────────────────────────────────

  predicate Contains(s: string, q: string) { exists i :: 0 <= i <= |s| && q <= s[i..] }

  predicate Shown(r: Run, status: Option<string>, search: Option<string>) {
    && (status.Some? ==> RunStatusText(r.status) == status.value)
    && (search.Some? ==> Contains(r.jira, search.value) ||
                         exists k :: 0 <= k < |r.calcs| && Contains(r.calcs[k].kind, search.value))
  }

  /** The runs that pass the filter and the search, in the order of the list. */
  function Visible(runs: seq<Run>, status: Option<string>, search: Option<string>): seq<Run> {
    if runs == [] then []
    else (if Shown(runs[0], status, search) then [runs[0]] else []) + Visible(runs[1..], status, search)
  }

  function VisibleIn(v: View): seq<Run> { Visible(v.runs, v.status, v.search) }

  function SelectedRun(v: View): Option<Run> {
    var shown := VisibleIn(v);
    if v.runCursor < |shown| then Some(shown[v.runCursor]) else None
  }

  function SelectedCalc(v: View): Option<Calc> {
    match SelectedRun(v)
    case None => None
    case Some(r) => if v.calcCursor < |r.calcs| then Some(r.calcs[v.calcCursor]) else None
  }

  // ── Moving ─────────────────────────────────────────────────────────────────

  function MoveDown(v: View): View {
    if v.pane.RunList? then
      v.(runCursor := if v.runCursor < |VisibleIn(v)| - 1 then v.runCursor + 1 else v.runCursor, calcCursor := 0)
    else
      match SelectedRun(v)
      case None => v
      case Some(r) => v.(calcCursor := if v.calcCursor < |r.calcs| - 1 then v.calcCursor + 1 else v.calcCursor)
  }

  function MoveUp(v: View): View {
    if v.pane.RunList? then v.(runCursor := Max(v.runCursor - 1, 0), calcCursor := 0)
    else v.(calcCursor := Max(v.calcCursor - 1, 0))
  }

  function MoveDownTimes(v: View, n: nat): View
    decreases n
  {
    if n == 0 then v else MoveDownTimes(MoveDown(v), n - 1)
  }

  function MoveUpTimes(v: View, n: nat): View
    decreases n
  {
    if n == 0 then v else MoveUpTimes(MoveUp(v), n - 1)
  }

  predicate AtBottom(v: View) { v.pane.RunList? && v.runCursor + 1 >= |VisibleIn(v)| }

  /** The next page is asked for at the bottom of the run list; its cursor is taken. */
  function LoadMore(v: View): Outcome {
    if AtBottom(v) && v.nextCursor.Some? then Outcome(v.(nextCursor := None), [LoadMoreRuns(v.nextCursor.value)])
    else Outcome(v, [])
  }

  // ── The selection ──────────────────────────────────────────────────────────

  /** `visual_range`: both ends are included. */
  predicate InRange(v: View, i: nat) {
    v.visualAnchor.Some? && Min(v.visualAnchor.value, v.runCursor) <= i <= Max(v.visualAnchor.value, v.runCursor)
  }

  /** The runs of `shown`, which starts at row `at`, that are in the range. */
  function InSelection(v: View, shown: seq<Run>, at: nat): seq<Run> {
    if shown == [] then [] else (if InRange(v, at) then [shown[0]] else []) + InSelection(v, shown[1..], at + 1)
  }

  function Selection(v: View): seq<Run> { InSelection(v, VisibleIn(v), 0) }

  function Cancels(runs: seq<Run>): seq<Effect> {
    if runs == [] then [] else [CancelRun(runs[0].id)] + Cancels(runs[1..])
  }

  function FailedOf(runId: RunId, calcs: seq<Calc>): seq<Effect> {
    if calcs == [] then []
    else (if calcs[0].status.StatusFailed? then [RetryCalc(runId, calcs[0].id)] else []) + FailedOf(runId, calcs[1..])
  }

  function Retries(runs: seq<Run>): seq<Effect> {
    if runs == [] then [] else FailedOf(runs[0].id, runs[0].calcs) + Retries(runs[1..])
  }

  // ── One key ────────────────────────────────────────────────────────────────

  function CountOf(buf: string): nat {
    match ParseUsize(buf)
    case None => 1
    case Some(n) => Max(n, 1)
  }

  /** An open confirmation takes the key; otherwise a digit adds to the count, unless it is a leading zero. */
  function Press(v: View, key: Key): Outcome {
    if v.dialog.Some? then Outcome(v.(dialog := None), if key.Yes? then Confirmed(v.runs, v.dialog.value) else [])
    else if key.Digit? && (key.c != '0' || v.countBuf != "") then Outcome(v.(countBuf := v.countBuf + [key.c]), [])
    else Act(v.(countBuf := ""), key, CountOf(v.countBuf))
  }

  function Act(v: View, key: Key, n: nat): Outcome {
    match key
    case Digit(_) => Outcome(v, [])
    case Yes => Outcome(v, [])
    case Down => if v.pane.Detail? then Outcome(v, []) else LoadMore(MoveDownTimes(v, n))
    case Up => Outcome(if v.pane.Detail? then v else MoveUpTimes(v, n), [])
    case Visual =>
      Outcome(if !v.pane.RunList? then v
              else v.(visualAnchor := if v.visualAnchor.Some? then None else Some(v.runCursor)), [])
    case Cancel =>
      if v.visualAnchor.Some? then Outcome(v.(visualAnchor := None), Cancels(Selection(v)))
      else Outcome(v.(dialog := CancelDialog(v)), [])
    case Retry =>
      if v.visualAnchor.Some? then Outcome(v.(visualAnchor := None), Retries(Selection(v)))
      else
        match SelectedCalc(v)
        case Some(c) => Outcome(v, if c.status.StatusFailed? then [RetryCalc(c.runId, c.id)] else [])
        case None => Outcome(v, [])
  }

  /** Outside visual mode a cancellation is confirmed first. */
  function CancelDialog(v: View): Option<Confirmation> {
    if v.pane.RunList? then
      match SelectedRun(v)
      case Some(r) => Some(CancelRunDialog(r.id))
      case None => None
    else
      match SelectedCalc(v)
      case Some(c) => Some(CancelCalcDialog(c.id))
      case None => None
  }

  function Confirmed(runs: seq<Run>, dialog: Confirmation): seq<Effect> {
    match dialog
    case CancelRunDialog(id) => [CancelRun(id)]
    case CancelCalcDialog(id) =>
      match FindCalc(runs, id)
      case Some(c) => [CancelCalc(c.runId, id)]
      case None => []
  }

  /** The first calculation with this id in the whole list. */
  function FindCalc(runs: seq<Run>, id: CalcId): Option<Calc> {
    if runs == [] then None
    else
      var i := CalcPosition(runs[0].calcs, id);
      if i < |runs[0].calcs| then Some(runs[0].calcs[i]) else FindCalc(runs[1..], id)
  }

  function PressAll(v: View, keys: seq<Key>): Outcome
    decreases |keys|
  {
    if keys == [] then Outcome(v, [])
    else
      var first := Press(v, keys[0]);
      var rest := PressAll(first.view, keys[1..]);
      Outcome(rest.view, first.effects + rest.effects)
  }

  // ── The list of runs ───────────────────────────────────────────────────────

  lemma {:induction false} UpsertAllConcat(runs: seq<Run>, a: seq<Run>, b: seq<Run>)
    ensures UpsertAll(runs, a + b) == UpsertAll(UpsertAll(runs, a), b)
    decreases |a|
  {
    if a == [] {
      assert a + b == b;
    } else {
      assert (a + b)[1..] == a[1..] + b;
      UpsertAllConcat(Upsert(runs, a[0]), a[1..], b);
    }
  }

  /** Runs with new ids are appended in order. */
  lemma {:induction false} NewRunsAreAppended(runs: seq<Run>, rs: seq<Run>)
    requires DistinctIds(runs + rs)
    ensures UpsertAll(runs, rs) == runs + rs
    decreases |rs|
  {
    if rs == [] {
      assert runs + rs == runs;
    } else {
      assert rs[0] == (runs + rs)[|runs|];
      forall j | 0 <= j < |runs| ensures runs[j].id != rs[0].id { assert runs[j] == (runs + rs)[j]; }
      assert Upsert(runs, rs[0]) == runs + [rs[0]];
      assert runs + rs == (runs + [rs[0]]) + rs[1..];
      hide Upsert, DistinctIds;
      NewRunsAreAppended(runs + [rs[0]], rs[1..]);
    }
  }

  /** The last run written with an id. */
  function LastWith(rs: seq<Run>, id: RunId): Option<Run> {
    if rs == [] then None
    else if rs[|rs| - 1].id == id then Some(rs[|rs| - 1])
    else LastWith(rs[..|rs| - 1], id)
  }

  function Lookup(runs: seq<Run>, id: RunId): Option<Run> {
    var i := Position(runs, id);
    if i < |runs| then Some(runs[i]) else None
  }

  function Ids(runs: seq<Run>): seq<RunId> {
    if runs == [] then [] else Ids(runs[..|runs| - 1]) + [runs[|runs| - 1].id]
  }

  /** Each id once, where it was first written. */
  function FirstIds(rs: seq<Run>): seq<RunId> {
    if rs == [] then []
    else
      var ids, id := FirstIds(rs[..|rs| - 1]), rs[|rs| - 1].id;
      if id in ids then ids else ids + [id]
  }

  lemma UpsertAllSnoc(runs: seq<Run>, rs: seq<Run>)
    requires rs != []
    ensures UpsertAll(runs, rs) == Upsert(UpsertAll(runs, rs[..|rs| - 1]), rs[|rs| - 1])
  {
    var n := |rs| - 1;
    assert rs == rs[..n] + [rs[n]];
    UpsertAllConcat(runs, rs[..n], [rs[n]]);
  }

  lemma {:induction false} IdsAt(runs: seq<Run>)
    ensures |Ids(runs)| == |runs| && forall i :: 0 <= i < |runs| ==> Ids(runs)[i] == runs[i].id
  {
    if runs != [] { IdsAt(runs[..|runs| - 1]); }
  }

  lemma UpsertIds(runs: seq<Run>, r: Run)
    ensures Ids(Upsert(runs, r)) == if r.id in Ids(runs) then Ids(runs) else Ids(runs) + [r.id]
  {
    var u, i := Upsert(runs, r), Position(runs, r.id);
    IdsAt(runs);
    IdsAt(u);
    if i < |runs| {
      assert Ids(runs)[i] == r.id;
      assert Ids(u) == Ids(runs);
    } else {
      assert Ids(u) == Ids(runs) + [r.id];
    }
  }

  lemma LookupAfterUpsert(runs: seq<Run>, r: Run, id: RunId)
    ensures Lookup(Upsert(runs, r), id) == if id == r.id then Some(r) else Lookup(runs, id)
  {
    var u, i, j := Upsert(runs, r), Position(runs, id), Position(Upsert(runs, r), id);
    if id == r.id {
      assert u[Position(runs, r.id)] == r;
    } else {
      if i < |runs| { assert u[i].id == id; }
      if j < |u| { assert j < |runs| && runs[j] == u[j]; }
    }
  }

  /** Any writes: each id stays where it was first written and holds what was last written. */
  lemma {:induction false} LastWriteWins(rs: seq<Run>, id: RunId)
    ensures Ids(UpsertAll([], rs)) == FirstIds(rs)
    ensures Lookup(UpsertAll([], rs), id) == LastWith(rs, id)
  {
    if rs != [] {
      var before := rs[..|rs| - 1];
      LastWriteWins(before, id);
      UpsertAllSnoc([], rs);
      UpsertIds(UpsertAll([], before), rs[|rs| - 1]);
      LookupAfterUpsert(UpsertAll([], before), rs[|rs| - 1], id);
    }
  }

  lemma {:induction false} LookupAfterUpserts(runs: seq<Run>, rs: seq<Run>, id: RunId)
    ensures Lookup(UpsertAll(runs, rs), id) == if LastWith(rs, id).Some? then LastWith(rs, id) else Lookup(runs, id)
  {
    if rs != [] {
      hide Upsert, Lookup;
      var before := rs[..|rs| - 1];
      LookupAfterUpserts(runs, before, id);
      UpsertAllSnoc(runs, rs);
      LookupAfterUpsert(UpsertAll(runs, before), rs[|rs| - 1], id);
    }
  }

  // ── The status of a calculation ────────────────────────────────────────────

  predicate IsFirstRun(runs: seq<Run>, i: nat, id: RunId) {
    i < |runs| && runs[i].id == id && forall j :: 0 <= j < i ==> runs[j].id != id
  }

  predicate IsFirstCalc(calcs: seq<Calc>, k: nat, id: CalcId) {
    k < |calcs| && calcs[k].id == id && forall j :: 0 <= j < k ==> calcs[j].id != id
  }

  /** The first calculation with this id has status `to`; its other fields and all other calculations are as before. */
  predicate OnlyCalcSet(before: seq<Calc>, after: seq<Calc>, calcId: CalcId, to: CalcStatus) {
    && |after| == |before|
    && forall k :: 0 <= k < |before| ==>
         var c, c' := before[k], after[k];
         if IsFirstCalc(before, k, calcId) then
           c'.status == to && c'.id == c.id && c'.runId == c.runId && c'.kind == c.kind && c'.hasResult == c.hasResult
         else c' == c
  }

  /** In the first run with that id, that is; its other fields and all other runs are as before. */
  predicate OnlyStatusSet(before: seq<Run>, after: seq<Run>, runId: RunId, calcId: CalcId, to: CalcStatus) {
    && |after| == |before|
    && forall i :: 0 <= i < |before| ==>
         var r, r' := before[i], after[i];
         if IsFirstRun(before, i, runId) then
           && r'.id == r.id && r'.jira == r.jira && r'.status == r.status && r'.createdAt == r.createdAt
           && OnlyCalcSet(r.calcs, r'.calcs, calcId, to)
         else r' == r
  }

  lemma SetCalcSetsOnly(calcs: seq<Calc>, calcId: CalcId, to: CalcStatus)
    ensures OnlyCalcSet(calcs, SetCalc(calcs, calcId, to), calcId, to)
  {
  }

  lemma SetStatusSetsOnly(runs: seq<Run>, runId: RunId, calcId: CalcId, to: CalcStatus)
    ensures OnlyStatusSet(runs, SetStatus(runs, runId, calcId, to), runId, calcId, to)
  {
    hide SetCalc, OnlyCalcSet;
    var i := Position(runs, runId);
    if i < |runs| { SetCalcSetsOnly(runs[i].calcs, calcId, to); }
  }

  ghost predicate HasCalc(runs: seq<Run>, runId: RunId, calcId: CalcId) {
    exists i, k :: 0 <= i < |runs| && 0 <= k < |runs[i].calcs| && runs[i].id == runId && runs[i].calcs[k].id == calcId
  }

  /** An unknown run or calculation changes nothing. */
  lemma NothingToSet(before: seq<Run>, after: seq<Run>, runId: RunId, calcId: CalcId, to: CalcStatus)
    requires OnlyStatusSet(before, after, runId, calcId, to) && !HasCalc(before, runId, calcId)
    ensures after == before
  {
    forall i | 0 <= i < |before| ensures after[i] == before[i] {
      if IsFirstRun(before, i, runId) { assert after[i].calcs == before[i].calcs; }
    }
  }

  /** The status shown for the first calculation with this id in a run. */
  function StatusIn(r: Option<Run>, calcId: CalcId): Option<CalcStatus> {
    if r == None then None
    else
      var k := CalcPosition(r.value.calcs, calcId);
      if k < |r.value.calcs| then Some(r.value.calcs[k].status) else None
  }

  lemma SetCalcShows(calcs: seq<Calc>, after: seq<Calc>, calcId: CalcId, to: CalcStatus, other: CalcId)
    requires OnlyCalcSet(calcs, after, calcId, to)
    ensures |after| == |calcs| && CalcPosition(after, other) == CalcPosition(calcs, other)
    ensures var k := CalcPosition(calcs, other);
            k < |calcs| ==> k < |after| && after[k].status == if other == calcId then to else calcs[k].status
  {
    var k, k' := CalcPosition(calcs, other), CalcPosition(after, other);
    hide CalcPosition;
    forall j | 0 <= j < |calcs| ensures after[j].id == calcs[j].id {}
    if k < |calcs| { assert after[k].id == other; }
    if k' < |after| { assert calcs[k'].id == other; }
    assert k == k';
  }

  lemma LookupAfterStatus(runs: seq<Run>, runId: RunId, calcId: CalcId, to: CalcStatus, id: RunId, other: CalcId)
    ensures var shown := StatusIn(Lookup(runs, id), other);
            StatusIn(Lookup(SetStatus(runs, runId, calcId, to), id), other) ==
            if id == runId && other == calcId && shown.Some? then Some(to) else shown
  {
    hide SetStatus, OnlyCalcSet;
    var after := SetStatus(runs, runId, calcId, to);
    SetStatusSetsOnly(runs, runId, calcId, to);
    var i, i' := Position(runs, id), Position(after, id);
    hide Position;
    forall j | 0 <= j < |runs| ensures after[j].id == runs[j].id {}
    if i < |runs| { assert after[i].id == id; }
    if i' < |after| { assert runs[i'].id == id; }
    assert i == i';
    if i < |runs| && id == runId {
      assert IsFirstRun(runs, i, runId);
      SetCalcShows(runs[i].calcs, after[i].calcs, calcId, to, other);
    }
  }

  // ── Counts ─────────────────────────────────────────────────────────────────

  function Digits(s: string): seq<Key>
    requires AllDigits(s)
  {
    if s == "" then [] else [Digit(s[0])] + Digits(s[1..])
  }

  function Repeat(key: Key, n: nat): seq<Key> { if n == 0 then [] else [key] + Repeat(key, n - 1) }

  lemma {:induction false} PressAllConcat(v: View, a: seq<Key>, b: seq<Key>)
    ensures var first := PressAll(v, a);
            var rest := PressAll(first.view, b);
            PressAll(v, a + b) == Outcome(rest.view, first.effects + rest.effects)
    decreases |a|
  {
    hide Press;
    if a == [] {
      assert a + b == b;
    } else {
      assert (a + b)[1..] == a[1..] + b;
      PressAllConcat(Press(v, a[0]).view, a[1..], b);
    }
  }

  /** Typing digits fills the count, if the first one is not zero. */
  lemma {:induction false} TypingFillsCount(v: View, s: string)
    requires v.dialog.None? && AllDigits(s) && (v.countBuf == "" && s != "" ==> s[0] != '0')
    ensures PressAll(v, Digits(s)) == Outcome(v.(countBuf := v.countBuf + s), [])
    decreases |s|
  {
    if s == "" {
      assert v.countBuf + s == v.countBuf;
    } else {
      var w := v.(countBuf := v.countBuf + [s[0]]);
      assert Press(v, Digit(s[0])) == Outcome(w, []);
      TypingFillsCount(w, s[1..]);
      assert w.countBuf + s[1..] == v.countBuf + s;
      assert Digits(s)[1..] == Digits(s[1..]);
    }
  }

  lemma CountOfPrinted(n: nat)
    requires n >= 1
    ensures CountOf(PrintNat(n)) == if n <= USIZE_MAX then n else 1
  {
    PrintNatParses(n);
    assert IsDigit(PrintNat(n)[0]);
    hide PrintNat, Value;
  }

  /** `n` moves down and one look at the bottom. */
  function Descend(v: View, n: nat): Outcome { LoadMore(MoveDownTimes(v, n)) }

  lemma MoveDownKeeps(v: View)
    ensures var w := MoveDown(v);
            VisibleIn(w) == VisibleIn(v) && w.pane == v.pane && w.nextCursor == v.nextCursor &&
            w.countBuf == v.countBuf && w.dialog == v.dialog
    ensures AtBottom(v) ==> AtBottom(MoveDown(v)) && MoveDown(v) == v.(calcCursor := 0)
  {
  }

  lemma {:induction false} StaysAtBottom(v: View, n: nat)
    requires AtBottom(v) && v.calcCursor == 0
    ensures MoveDownTimes(v, n) == v
    decreases n
  {
    hide AtBottom, MoveDown;
    MoveDownKeeps(v);
    if n > 0 {
      assert v.(calcCursor := 0) == v;
      StaysAtBottom(v, n - 1);
    }
  }

  lemma MoveDownResets(v: View)
    requires v.pane.RunList?
    ensures MoveDown(v).calcCursor == 0
  {
  }

  /** One move and a look at the bottom, then the rest, is all moves and one look. */
  lemma DescendSplits(v: View, n: nat)
    requires n >= 1 && !v.pane.Detail?
    ensures var first := Descend(v, 1);
            var rest := Descend(first.view, n);
            Outcome(rest.view, first.effects + rest.effects) == Descend(v, n + 1)
  {
    hide MoveDown, AtBottom;
    var w := MoveDown(v);
    assert MoveDownTimes(v, 1) == MoveDownTimes(w, 0) == w;
    assert Descend(v, 1) == LoadMore(w) && MoveDownTimes(v, n + 1) == MoveDownTimes(w, n);
    if AtBottom(w) && w.nextCursor.Some? {
      BottomIsRunList(w);
      MoveDownKeeps(v);
      MoveDownResets(v);
      var taken := w.(nextCursor := None);
      BottomIgnoresCursor(w);
      StaysAtBottom(w, n);
      StaysAtBottom(taken, n);
    }
  }

  lemma BottomIsRunList(v: View)
    requires AtBottom(v)
    ensures v.pane.RunList?
  {
  }

  lemma BottomIgnoresCursor(v: View)
    ensures AtBottom(v.(nextCursor := None)) == AtBottom(v)
  {
  }

  /** Pressing `j` `n` times, from an empty count. */
  lemma {:induction false} RepeatedDown(v: View, n: nat)
    requires n >= 1 && v.countBuf == "" && v.dialog.None? && !v.pane.Detail?
    ensures PressAll(v, Repeat(Down, n)) == Descend(v, n)
    decreases n
  {
    hide Descend;
    PressDown(v);
    var first := Press(v, Down);
    assert Repeat(Down, n)[1..] == Repeat(Down, n - 1);
    if n > 1 {
      DescendKeeps(v, 1);
      RepeatedDown(first.view, n - 1);
      DescendSplits(v, n - 1);
    } else {
      assert PressAll(first.view, []) == Outcome(first.view, []);
      assert first.effects + [] == first.effects;
    }
  }

  lemma PressDown(v: View)
    requires v.countBuf == "" && v.dialog.None? && !v.pane.Detail?
    ensures Press(v, Down) == Descend(v, 1)
  {
    assert v.(countBuf := "") == v;
    assert CountOf("") == 1;
  }

  lemma {:induction false} DescendKeeps(v: View, n: nat)
    ensures var w := Descend(v, n).view; w.countBuf == v.countBuf && w.pane == v.pane && w.dialog == v.dialog
  {
    hide MoveDown;
    MovesKeep(v, n);
  }

  lemma {:induction false} MovesKeep(v: View, n: nat)
    ensures var w := MoveDownTimes(v, n); w.countBuf == v.countBuf && w.pane == v.pane && w.dialog == v.dialog
    decreases n
  {
    if n > 0 {
      MoveDownKeeps(v);
      hide MoveDown;
      MovesKeep(MoveDown(v), n - 1);
    }
  }

  lemma {:induction false} RepeatedUp(v: View, n: nat)
    requires n >= 1 && v.countBuf == "" && v.dialog.None? && !v.pane.Detail?
    ensures PressAll(v, Repeat(Up, n)) == Outcome(MoveUpTimes(v, n), [])
    decreases n
  {
    assert v.(countBuf := "") == v;
    assert CountOf("") == 1;
    assert MoveUpTimes(v, 1) == MoveUpTimes(MoveUp(v), 0) == MoveUp(v);
    assert Press(v, Up) == Outcome(MoveUp(v), []);
    assert Repeat(Up, n)[1..] == Repeat(Up, n - 1);
    if n > 1 { RepeatedUp(MoveUp(v), n - 1); }
  }

  /** Where `n` moves up take the cursors. */
  lemma {:induction false} MovesUp(v: View, n: nat)
    ensures MoveUpTimes(v, n) ==
            if n == 0 then v
            else if v.pane.RunList? then v.(runCursor := if n <= v.runCursor then v.runCursor - n else 0, calcCursor := 0)
            else v.(calcCursor := if n <= v.calcCursor then v.calcCursor - n else 0)
    decreases n
  {
    if n > 0 { MovesUp(MoveUp(v), n - 1); }
  }

  /** Where `n` moves down a list of `size` rows take a cursor: a cursor at the end or past it stays. */
  function Lowered(cursor: nat, n: nat, size: nat): nat {
    if cursor + 1 >= size then cursor else if cursor + n < size then cursor + n else size - 1
  }

  /** Where `n` moves down take the cursors. */
  lemma {:induction false} MovesDown(v: View, n: nat)
    ensures MoveDownTimes(v, n) ==
            if n == 0 then v
            else if v.pane.RunList? then v.(runCursor := Lowered(v.runCursor, n, |VisibleIn(v)|), calcCursor := 0)
            else if SelectedRun(v) == None then v
            else v.(calcCursor := Lowered(v.calcCursor, n, |SelectedRun(v).value.calcs|))
    decreases n
  {
    if n > 0 {
      hide Visible;
      MoveDownKeeps(v);
      MovesDown(MoveDown(v), n - 1);
    }
  }

  /**
   `n` presses move the cursor of the pane by `n` rows, as far as there are rows, and change nothing else; the stored
   cursor is asked for exactly if the last shown run is reached.
   */
  lemma PressesMove(v: View, n: nat, key: Key)
    requires n >= 1 && v.countBuf == "" && v.dialog.None? && !v.pane.Detail? && (key.Down? || key.Up?)
    ensures var w := PressAll(v, Repeat(key, n)).view;
            && w.(nextCursor := v.nextCursor) == v.(runCursor := w.runCursor, calcCursor := w.calcCursor)
            && (key.Up? && v.pane.RunList? ==>
                  w.runCursor == (if n <= v.runCursor then v.runCursor - n else 0) && w.calcCursor == 0)
            && (key.Up? && v.pane.CalcList? ==>
                  w.calcCursor == (if n <= v.calcCursor then v.calcCursor - n else 0) && w.runCursor == v.runCursor)
            && (key.Down? && v.pane.RunList? ==>
                  w.runCursor == Lowered(v.runCursor, n, |VisibleIn(v)|) && w.calcCursor == 0)
            && (key.Down? && v.pane.CalcList? ==>
                  w.runCursor == v.runCursor &&
                  w.calcCursor == if SelectedRun(v).Some? then Lowered(v.calcCursor, n, |SelectedRun(v).value.calcs|)
                                  else v.calcCursor)
    ensures var o := PressAll(v, Repeat(key, n));
            if key.Down? && v.pane.RunList? && v.nextCursor.Some? && v.runCursor + n + 1 >= |VisibleIn(v)| then
              o.effects == [LoadMoreRuns(v.nextCursor.value)] && o.view.nextCursor == None
            else
              o.effects == [] && o.view.nextCursor == v.nextCursor
  {
    hide PressAll, Repeat, MoveDownTimes, MoveUpTimes, Visible;
    if key.Up? {
      RepeatedUp(v, n);
      MovesUp(v, n);
    } else {
      RepeatedDown(v, n);
      MovesDown(v, n);
    }
  }

  /**
   A count is repetition: the digits of `n` and then `j` or `k` do exactly what pressing the key `n` times does, page
   requests included. A count that does not fit in 64 bits counts as one.
   */
  lemma CountIsRepetition(v: View, n: nat, key: Key)
    requires n >= 1 && v.countBuf == "" && v.dialog.None? && !v.pane.Detail? && (key.Down? || key.Up?)
    ensures AllDigits(PrintNat(n))
    ensures PressAll(v, Digits(PrintNat(n)) + [key]) == PressAll(v, Repeat(key, if n <= USIZE_MAX then n else 1))
  {
    hide PrintNat, CountOf;
    var s, m := PrintNat(n), if n <= USIZE_MAX then n else 1;
    PrintNatParses(n);
    TypingFillsCount(v, s);
    PressAllConcat(v, Digits(s), [key]);
    var typed := v.(countBuf := v.countBuf + s);
    assert v.countBuf + s == s && typed.(countBuf := "") == v;
    CountOfPrinted(n);
    PressOne(typed, key);
    if key.Down? { RepeatedDown(v, m); } else { RepeatedUp(v, m); }
  }

  lemma PressOne(v: View, key: Key)
    ensures PressAll(v, [key]) == Press(v, key)
  {
    hide Press;
    var o := Press(v, key);
    assert PressAll(v, [key]) == Outcome(o.view, o.effects + PressAll(o.view, []).effects);
  }

  // ── Confirmations ──────────────────────────────────────────────────────────

  /** `X` and `Y` on a run: one request for the run under the cursor. Any other key instead of `Y`: none. */
  lemma CancelIsConfirmed(v: View, key: Key)
    requires v.pane.RunList? && v.dialog.None? && v.visualAnchor.None? && SelectedRun(v).Some?
    ensures PressAll(v, [Cancel, key]) ==
            Outcome(v.(countBuf := ""), if key.Yes? then [CancelRun(SelectedRun(v).value.id)] else [])
  {
    var w := v.(countBuf := "", dialog := Some(CancelRunDialog(SelectedRun(v).value.id)));
    assert Press(v, Cancel) == Outcome(w, []);
    PressOne(w, key);
    assert [Cancel, key][1..] == [key];
    assert w.(dialog := None) == v.(countBuf := "");
    hide Press, SelectedRun;
    assert [] + PressAll(w, [key]).effects == PressAll(w, [key]).effects;
  }

  /** Calculations with the same id belong to the same run. */
  predicate OneRunEach(runs: seq<Run>) {
    forall i, j, k, m | 0 <= i < |runs| && 0 <= j < |runs[i].calcs| && 0 <= k < |runs| && 0 <= m < |runs[k].calcs| ::
      runs[i].calcs[j].id == runs[k].calcs[m].id ==> runs[i].calcs[j].runId == runs[k].calcs[m].runId
  }

  /** In the other panes the same holds for the calculation under the cursor. */
  lemma CalcCancelIsConfirmed(v: View, key: Key)
    requires !v.pane.RunList? && v.dialog.None? && v.visualAnchor.None? && SelectedCalc(v).Some? && OneRunEach(v.runs)
    ensures var c := SelectedCalc(v).value;
            PressAll(v, [Cancel, key]) ==
            Outcome(v.(countBuf := ""), if key.Yes? then [CancelCalc(c.runId, c.id)] else [])
  {
    var r, c := SelectedRun(v).value, SelectedCalc(v).value;
    var w := v.(countBuf := "", dialog := Some(CancelCalcDialog(c.id)));
    assert Press(v, Cancel) == Outcome(w, []);
    assert r in VisibleIn(v);
    VisibleKeeps(v.runs, v.status, v.search, r);
    SelectedIsFound(v.runs, r, v.calcCursor);
    PressOne(w, key);
    assert [Cancel, key][1..] == [key];
    assert w.(dialog := None) == v.(countBuf := "");
    hide Press, SelectedRun, SelectedCalc, FindCalc, OneRunEach, Visible;
    assert [] + PressAll(w, [key]).effects == PressAll(w, [key]).effects;
    PressConfirms(w, key, c.id);
  }

  lemma PressConfirms(w: View, key: Key, id: CalcId)
    requires w.dialog == Some(CancelCalcDialog(id)) && FindCalc(w.runs, id).Some?
    ensures Press(w, key) ==
            Outcome(w.(dialog := None), if key.Yes? then [CancelCalc(FindCalc(w.runs, id).value.runId, id)] else [])
  {
  }

  lemma SelectedIsFound(runs: seq<Run>, r: Run, m: nat)
    requires r in runs && m < |r.calcs| && OneRunEach(runs)
    ensures FindCalc(runs, r.calcs[m].id).Some? && FindCalc(runs, r.calcs[m].id).value.runId == r.calcs[m].runId
  {
    var k :| 0 <= k < |runs| && runs[k] == r;
    FindCalcFinds(runs, r.calcs[m].id, k, m);
  }

  lemma {:induction false} FindCalcFinds(runs: seq<Run>, id: CalcId, k: nat, m: nat)
    requires k < |runs| && m < |runs[k].calcs| && runs[k].calcs[m].id == id
    ensures FindCalc(runs, id).Some? && FindCalc(runs, id).value.id == id
    ensures exists k', m' :: 0 <= k' <= k && 0 <= m' < |runs[k'].calcs| && runs[k'].calcs[m'] == FindCalc(runs, id).value
  {
    var i := CalcPosition(runs[0].calcs, id);
    if i < |runs[0].calcs| {
      assert runs[0].calcs[i] == FindCalc(runs, id).value;
    } else {
      FindCalcFinds(runs[1..], id, k - 1, m);
      var k', m' :| 0 <= k' <= k - 1 && 0 <= m' < |runs[1..][k'].calcs| &&
                    runs[1..][k'].calcs[m'] == FindCalc(runs[1..], id).value;
      assert runs[k' + 1] == runs[1..][k'];
    }
  }

  // ── The visual selection ───────────────────────────────────────────────────

  function RangeStart(v: View): nat
    requires v.visualAnchor.Some?
  {
    Min(Min(v.visualAnchor.value, v.runCursor), |VisibleIn(v)|)
  }

  function RangeEnd(v: View): (e: nat)
    requires v.visualAnchor.Some?
    ensures RangeStart(v) <= e <= |VisibleIn(v)|
  {
    Min(Max(v.visualAnchor.value, v.runCursor) + 1, |VisibleIn(v)|)
  }

  /** The nearest index of a list of length `n`. */
  function Clip(x: int, n: nat): (c: nat)
    ensures c <= n
  {
    if x < 0 then 0 else if x > n then n else x
  }

  lemma SliceUnfolds(shown: seq<Run>, lo: nat, hi: nat)
    requires lo <= hi <= |shown| && shown != []
    ensures hi == 0 ==> shown[lo..hi] == []
    ensures lo == 0 < hi ==> shown[lo..hi] == [shown[0]] + shown[1..][0..hi - 1]
    ensures lo > 0 ==> shown[lo..hi] == shown[1..][lo - 1..hi - 1]
  {
    if lo == 0 < hi {
      assert shown[1..][0..hi - 1] == shown[1..hi];
      assert shown[0..hi] == [shown[0]] + shown[1..hi];
    } else if lo > 0 {
      assert shown[1..][lo - 1..hi - 1] == shown[lo..hi];
    }
  }

  lemma ClipUnfolds(x: int, n: nat)
    requires n > 0
    ensures Clip(x - 1, n - 1) == if Clip(x, n) == 0 then 0 else Clip(x, n) - 1
  {
  }

  lemma {:induction false} SelectionOfRows(v: View, shown: seq<Run>, at: nat)
    requires v.visualAnchor.Some?
    ensures var lo := Clip(Min(v.visualAnchor.value, v.runCursor) - at, |shown|);
            var hi := Clip(Max(v.visualAnchor.value, v.runCursor) + 1 - at, |shown|);
            lo <= hi && InSelection(v, shown, at) == shown[lo..hi]
    decreases |shown|
  {
    hide Clip, InRange, Min, Max, InSelection;
    if shown == [] {
      NothingSelected(v, at);
    } else {
      var a, b := Min(v.visualAnchor.value, v.runCursor), Max(v.visualAnchor.value, v.runCursor) + 1;
      var lo, hi := Clip(a - at, |shown|), Clip(b - at, |shown|);
      SelectionOfRows(v, shown[1..], at + 1);
      ClipUnfolds(a - at, |shown|);
      ClipUnfolds(b - at, |shown|);
      RangeIsClip(v, at, |shown|);
      SelectionUnfolds(v, shown, at);
      SliceUnfolds(shown, lo, hi);
    }
  }

  lemma NothingSelected(v: View, at: nat)
    ensures InSelection(v, [], at) == []
  {
  }

  lemma RangeIsClip(v: View, at: nat, n: nat)
    requires v.visualAnchor.Some? && n > 0
    ensures var a, b := Min(v.visualAnchor.value, v.runCursor), Max(v.visualAnchor.value, v.runCursor) + 1;
            a < b && Clip(a - at, n) <= Clip(b - at, n) && (InRange(v, at) <==> Clip(a - at, n) == 0 < Clip(b - at, n))
  {
  }

  lemma SelectionUnfolds(v: View, shown: seq<Run>, at: nat)
    requires shown != []
    ensures var rest := InSelection(v, shown[1..], at + 1);
            InSelection(v, shown, at) == if InRange(v, at) then [shown[0]] + rest else rest
  {
    hide InRange;
  }

  /** The selection is the shown rows from one end of the range to the other, as far as they exist. */
  lemma SelectionIsSlice(v: View)
    requires v.visualAnchor.Some?
    ensures Selection(v) == VisibleIn(v)[RangeStart(v)..RangeEnd(v)]
  {
    SelectionOfRows(v, VisibleIn(v), 0);
    hide Visible, InSelection;
  }

  lemma {:induction false} CancelsAt(runs: seq<Run>)
    ensures |Cancels(runs)| == |runs| && forall i :: 0 <= i < |runs| ==> Cancels(runs)[i] == CancelRun(runs[i].id)
  {
    if runs != [] { CancelsAt(runs[1..]); }
  }

  lemma {:induction false} VisibleKeeps(runs: seq<Run>, status: Option<string>, search: Option<string>, r: Run)
    ensures r in Visible(runs, status, search) <==> r in runs && Shown(r, status, search)
  {
    hide Shown;
    if runs != [] {
      VisibleKeeps(runs[1..], status, search, r);
      assert runs == [runs[0]] + runs[1..];
      InOfCons(runs[0], runs[1..], r);
      InOfCons(runs[0], Visible(runs[1..], status, search), r);
      if !Shown(runs[0], status, search) {
        assert Visible(runs, status, search) == Visible(runs[1..], status, search);
      }
    }
  }

  lemma PositionInTail(runs: seq<Run>, r: Run)
    requires DistinctIds(runs) && runs != [] && r in runs[1..]
    ensures r.id != runs[0].id && Position(runs, r.id) == 1 + Position(runs[1..], r.id)
  {
    var i :| 0 <= i < |runs[1..]| && runs[1..][i] == r;
    assert runs[i + 1] == r;
  }

  /** The runs of `part` occur in `runs` in this order. */
  predicate InOrderOf(part: seq<Run>, runs: seq<Run>) {
    forall i, j :: 0 <= i < j < |part| ==> Position(runs, part[i].id) < Position(runs, part[j].id)
  }

  /** What is shown is in the order of the list (so no run is shown twice). */
  lemma {:induction false} VisibleKeepsOrder(runs: seq<Run>, status: Option<string>, search: Option<string>)
    requires DistinctIds(runs)
    ensures InOrderOf(Visible(runs, status, search), runs)
  {
    if runs != [] {
      VisibleKeepsOrder(runs[1..], status, search);
      var rest := Visible(runs[1..], status, search);
      hide Shown, Position, InOrderOf;
      forall r | r in rest ensures Position(runs, r.id) == 1 + Position(runs[1..], r.id) {
        VisibleKeeps(runs[1..], status, search, r);
        PositionInTail(runs, r);
      }
      hide Visible;
      OrderOneFurther(runs, rest);
      VisibleUnfolds(runs, status, search);
    }
  }

  lemma VisibleUnfolds(runs: seq<Run>, status: Option<string>, search: Option<string>)
    requires runs != []
    ensures var rest := Visible(runs[1..], status, search);
            Visible(runs, status, search) == if Shown(runs[0], status, search) then [runs[0]] + rest else rest
  {
    hide Shown;
  }

  lemma OrderOneFurther(runs: seq<Run>, rest: seq<Run>)
    requires runs != [] && InOrderOf(rest, runs[1..])
    requires forall r :: r in rest ==> Position(runs, r.id) == 1 + Position(runs[1..], r.id)
    ensures InOrderOf(rest, runs) && InOrderOf([runs[0]] + rest, runs)
  {
    hide Position;
    forall i, j | 0 <= i < j < |rest| ensures Position(runs, rest[i].id) < Position(runs, rest[j].id) {
      assert rest[i] in rest && rest[j] in rest;
    }
    forall r | r in rest ensures Position(runs, r.id) > 0 {}
    FirstIsFirst(runs);
    PrependInOrder(runs[0], rest, runs);
  }

  lemma FirstIsFirst(runs: seq<Run>)
    requires runs != []
    ensures Position(runs, runs[0].id) == 0
  {
  }

  lemma PrependInOrder(r: Run, rest: seq<Run>, runs: seq<Run>)
    requires InOrderOf(rest, runs) && forall x :: x in rest ==> Position(runs, r.id) < Position(runs, x.id)
    ensures InOrderOf([r] + rest, runs)
  {
    hide Position;
    var shown := [r] + rest;
    forall i, j | 0 <= i < j < |shown| ensures Position(runs, shown[i].id) < Position(runs, shown[j].id) {
      assert shown[j] == rest[j - 1] && rest[j - 1] in rest;
      if i > 0 { assert shown[i] == rest[i - 1]; }
    }
  }

  lemma OrderIsDistinct(part: seq<Run>, runs: seq<Run>)
    requires InOrderOf(part, runs)
    ensures DistinctIds(part)
  {
    hide Position;
    forall i, j | 0 <= i < j < |part| ensures part[i].id != part[j].id {
      assert Position(runs, part[i].id) < Position(runs, part[j].id);
    }
  }

  lemma CancelsOfSlice(shown: seq<Run>, lo: nat, hi: nat)
    requires lo <= hi <= |shown| && DistinctIds(shown)
    ensures var es := Cancels(shown[lo..hi]);
            && |es| == hi - lo
            && (forall i :: 0 <= i < |es| ==> es[i] == CancelRun(shown[lo + i].id))
            && (forall i, j :: 0 <= i < j < |es| ==> es[i] != es[j])
            && (forall k :: 0 <= k < |shown| ==> (CancelRun(shown[k].id) in es <==> lo <= k < hi))
  {
    var es := Cancels(shown[lo..hi]);
    CancelsAt(shown[lo..hi]);
    hide Cancels;
    forall k | 0 <= k < |shown| ensures CancelRun(shown[k].id) in es <==> lo <= k < hi {
      if lo <= k < hi { assert es[k - lo] == CancelRun(shown[k].id); }
    }
  }

  lemma PressInVisualMode(v: View, key: Key)
    requires v.dialog.None? && v.visualAnchor.Some? && (key.Cancel? || key.Retry?)
    ensures var rows := VisibleIn(v)[RangeStart(v)..RangeEnd(v)];
            Press(v, key) == Outcome(v.(countBuf := "", visualAnchor := None),
                                     if key.Cancel? then Cancels(rows) else Retries(rows))
  {
    hide Visible, Cancels, Retries, CountOf;
    SelectionIsSlice(v.(countBuf := ""));
  }

  /**
   Bulk cancel asks to cancel the shown runs between the two ends of the range: each of them once, in the order shown,
   and no other. Rows of the range that do not exist are skipped.
   */
  lemma BulkCancelIsExact(v: View)
    requires DistinctIds(v.runs) && v.dialog.None? && v.visualAnchor.Some?
    ensures var o, shown := Press(v, Cancel), VisibleIn(v);
            && o.view == v.(countBuf := "", visualAnchor := None)
            && |o.effects| == RangeEnd(v) - RangeStart(v)
            && (forall i :: 0 <= i < |o.effects| ==> o.effects[i] == CancelRun(shown[RangeStart(v) + i].id))
            && (forall i, j :: 0 <= i < j < |o.effects| ==> o.effects[i] != o.effects[j])
            && (forall k :: 0 <= k < |shown| ==> (CancelRun(shown[k].id) in o.effects <==> InRange(v, k)))
  {
    PressInVisualMode(v, Cancel);
    VisibleKeepsOrder(v.runs, v.status, v.search);
    OrderIsDistinct(VisibleIn(v), v.runs);
    CancelsOfSlice(VisibleIn(v), RangeStart(v), RangeEnd(v));
    hide Press, Visible, Cancels, DistinctIds;
  }

  lemma {:induction false} FailedOfHas(runId: RunId, calcs: seq<Calc>, e: Effect)
    ensures e in FailedOf(runId, calcs) <==>
            exists m :: 0 <= m < |calcs| && calcs[m].status.StatusFailed? && e == RetryCalc(runId, calcs[m].id)
  {
    if calcs != [] {
      FailedOfHas(runId, calcs[1..], e);
      var rest := FailedOf(runId, calcs[1..]);
      InOfCons(RetryCalc(runId, calcs[0].id), rest, e);
      if m :| 0 <= m < |calcs[1..]| && calcs[1..][m].status.StatusFailed? && e == RetryCalc(runId, calcs[1..][m].id) {
        assert calcs[m + 1] == calcs[1..][m];
      }
      if m :| 0 <= m < |calcs| && calcs[m].status.StatusFailed? && e == RetryCalc(runId, calcs[m].id) {
        if m > 0 { assert calcs[m] == calcs[1..][m - 1]; }
      }
      if !calcs[0].status.StatusFailed? { assert FailedOf(runId, calcs) == rest; }
    }
  }

  ghost predicate HasFailed(r: Run, e: Effect) {
    exists m :: 0 <= m < |r.calcs| && r.calcs[m].status.StatusFailed? && e == RetryCalc(r.id, r.calcs[m].id)
  }

  lemma {:induction false} RetriesHave(runs: seq<Run>, e: Effect)
    ensures e in Retries(runs) <==> exists k :: 0 <= k < |runs| && HasFailed(runs[k], e)
  {
    if runs != [] {
      RetriesHave(runs[1..], e);
      FailedOfIsHasFailed(runs[0], e);
      hide HasFailed, FailedOf;
      var rest := Retries(runs[1..]);
      assert Retries(runs) == FailedOf(runs[0].id, runs[0].calcs) + rest;
      hide Retries;
      if k :| 0 <= k < |runs[1..]| && HasFailed(runs[1..][k], e) { assert runs[k + 1] == runs[1..][k]; }
      if k :| 0 <= k < |runs| && HasFailed(runs[k], e) {
        if k > 0 { assert runs[k] == runs[1..][k - 1]; }
      }
    }
  }

  lemma FailedOfIsHasFailed(r: Run, e: Effect)
    ensures HasFailed(r, e) <==> e in FailedOf(r.id, r.calcs)
  {
    FailedOfHas(r.id, r.calcs, e);
  }

  function FailedCount(calcs: seq<Calc>): nat {
    if calcs == [] then 0 else (if calcs[0].status.StatusFailed? then 1 else 0) + FailedCount(calcs[1..])
  }

  function FailedInAll(runs: seq<Run>): nat {
    if runs == [] then 0 else FailedCount(runs[0].calcs) + FailedInAll(runs[1..])
  }

  lemma {:induction false} FailedOfCount(runId: RunId, calcs: seq<Calc>)
    ensures |FailedOf(runId, calcs)| == FailedCount(calcs)
  {
    if calcs != [] { FailedOfCount(runId, calcs[1..]); }
  }

  lemma {:induction false} RetriesCount(runs: seq<Run>)
    ensures |Retries(runs)| == FailedInAll(runs)
  {
    if runs != [] {
      FailedOfCount(runs[0].id, runs[0].calcs);
      RetriesCount(runs[1..]);
    }
  }

  /** Bulk retry asks to retry exactly the failed calculations of the runs in the range, one request for each. */
  lemma BulkRetryIsExact(v: View, e: Effect)
    requires v.dialog.None? && v.visualAnchor.Some?
    ensures var o, shown := Press(v, Retry), VisibleIn(v);
            && o.view == v.(countBuf := "", visualAnchor := None)
            && |o.effects| == FailedInAll(shown[RangeStart(v)..RangeEnd(v)])
            && (e in o.effects <==> exists k :: 0 <= k < |shown| && InRange(v, k) && HasFailed(shown[k], e))
  {
    PressInVisualMode(v, Retry);
    RetriesOfSlice(VisibleIn(v), RangeStart(v), RangeEnd(v), e);
    RetriesCount(VisibleIn(v)[RangeStart(v)..RangeEnd(v)]);
    hide Press, Visible, Retries, HasFailed, FailedInAll;
  }

  lemma RetriesOfSlice(shown: seq<Run>, lo: nat, hi: nat, e: Effect)
    requires lo <= hi <= |shown|
    ensures e in Retries(shown[lo..hi]) <==> exists k :: lo <= k < hi && HasFailed(shown[k], e)
  {
    hide HasFailed, Retries;
    var rows := shown[lo..hi];
    RetriesHave(rows, e);
    if k :| lo <= k < hi && HasFailed(shown[k], e) { assert rows[k - lo] == shown[k]; }
    if k :| 0 <= k < |rows| && HasFailed(rows[k], e) { assert shown[lo + k] == rows[k]; }
  }

  function PageRequests(effects: seq<Effect>): seq<string> {
    if effects == [] then []
    else (if effects[0].LoadMoreRuns? then [effects[0].cursor] else []) + PageRequests(effects[1..])
  }

  lemma {:induction false} PageRequestsConcat(a: seq<Effect>, b: seq<Effect>)
    ensures PageRequests(a + b) == PageRequests(a) + PageRequests(b)
  {
    if a == [] {
      assert a + b == b;
    } else {
      assert (a + b)[1..] == a[1..] + b;
      PageRequestsConcat(a[1..], b);
    }
  }

  lemma {:induction false} NoPageRequests(effects: seq<Effect>)
    requires forall e :: e in effects ==> !e.LoadMoreRuns?
    ensures PageRequests(effects) == []
  {
    if effects != [] {
      assert effects[0] in effects;
      assert forall e :: e in effects[1..] ==> e in effects;
      NoPageRequests(effects[1..]);
    }
  }

  /** Either the cursor is still stored and was not asked for, or it was asked for once and is gone. */
  predicate Asked(before: Option<string>, after: Option<string>, requests: seq<string>) {
    if before == after then requests == [] else before.Some? && after.None? && requests == [before.value]
  }

  /** Whatever is pressed, the stored cursor is asked for at most once, and exactly if it is gone afterwards. */
  lemma {:induction false} OnePageRequestPerCursor(v: View, keys: seq<Key>)
    ensures var o := PressAll(v, keys);
            Asked(v.nextCursor, o.view.nextCursor, PageRequests(o.effects))
    decreases |keys|
  {
    hide Press;
    if keys != [] {
      var first := Press(v, keys[0]);
      PressTakesCursor(v, keys[0]);
      OnePageRequestPerCursor(first.view, keys[1..]);
      PageRequestsConcat(first.effects, PressAll(first.view, keys[1..]).effects);
    }
  }

  lemma PressTakesCursor(v: View, key: Key)
    ensures var o := Press(v, key);
            Asked(v.nextCursor, o.view.nextCursor, PageRequests(o.effects))
  {
    hide MoveDown, MoveUp, AtBottom, Selection, CancelDialog, SelectedCalc, PageRequests, CountOf;
    var o := Press(v, key);
    MovesKeepCursor(v.(countBuf := ""), CountOf(v.countBuf));
    SelectionAsksNoPage(Selection(v.(countBuf := "")));
    hide Cancels, Retries;
    if |o.effects| == 1 { assert o.effects[0] in o.effects; }
    if forall e :: e in o.effects ==> !e.LoadMoreRuns? {
      NoPageRequests(o.effects);
    } else {
      assert o.effects == [LoadMoreRuns(v.nextCursor.value)];
      PageRequestOfOne(v.nextCursor.value);
    }
  }

  lemma PageRequestOfOne(cursor: string)
    ensures PageRequests([LoadMoreRuns(cursor)]) == [cursor]
  {
    assert PageRequests([LoadMoreRuns(cursor)][1..]) == [];
  }

  lemma SelectionAsksNoPage(runs: seq<Run>)
    ensures forall e :: e in Cancels(runs) || e in Retries(runs) ==> !e.LoadMoreRuns?
  {
    CancelsAt(runs);
    forall e | e in Retries(runs) ensures !e.LoadMoreRuns? {
      RetriesHave(runs, e);
    }
  }

  lemma {:induction false} MovesKeepCursor(v: View, n: nat)
    ensures MoveDownTimes(v, n).nextCursor == v.nextCursor && MoveUpTimes(v, n).nextCursor == v.nextCursor
    decreases n
  {
    if n > 0 {
      MovesKeepCursor(MoveDown(v), n - 1);
      MovesKeepCursor(MoveUp(v), n - 1);
    }
  }

  // ── Keys and the list of runs ──────────────────────────────────────────────

  lemma {:induction false} MovesKeepRuns(v: View, n: nat)
    ensures MoveDownTimes(v, n).runs == v.runs && MoveUpTimes(v, n).runs == v.runs
    decreases n
  {
    if n > 0 {
      MovesKeepRuns(MoveDown(v), n - 1);
      MovesKeepRuns(MoveUp(v), n - 1);
    }
  }

  /** No key changes a run. */
  lemma PressKeepsRuns(v: View, key: Key)
    ensures Press(v, key).view.runs == v.runs
  {
    MovesKeepRuns(v.(countBuf := ""), CountOf(v.countBuf));
    hide MoveDownTimes, MoveUpTimes, AtBottom, Selection, CancelDialog, SelectedCalc, CountOf, Cancels, Retries;
  }

  /** Outside visual mode `R` asks for the calculation under the cursor, and only if it has failed. */
  lemma RetryIsForFailed(v: View)
    requires v.dialog.None? && v.visualAnchor.None?
    ensures Press(v, Retry).view == v.(countBuf := "")
    ensures forall e :: e in Press(v, Retry).effects <==>
              SelectedCalc(v).Some? && SelectedCalc(v).value.status == StatusFailed &&
              e == RetryCalc(SelectedCalc(v).value.runId, SelectedCalc(v).value.id)
  {
    hide Visible, CountOf;
    assert SelectedCalc(v.(countBuf := "")) == SelectedCalc(v);
  }

  // ── Selecting and cancelling ───────────────────────────────────────────────

  /** `v`, `j` as often as `n`, and `X`: the runs from the one under the cursor to the one `n` rows further down. */
  function SelectDown(n: nat): seq<Key> { [Visual] + Repeat(Down, n) + [Cancel] }

  lemma VisualThenDown(v: View, n: nat)
    requires n >= 1 && v.pane.RunList? && v.dialog.None? && v.visualAnchor.None? && v.countBuf == ""
    ensures var w := v.(visualAnchor := Some(v.runCursor));
            && Press(v, Visual) == Outcome(w, [])
            && PressAll(v, SelectDown(n)).effects ==
               PressAll(w, Repeat(Down, n)).effects + Press(PressAll(w, Repeat(Down, n)).view, Cancel).effects
  {
    var w := v.(visualAnchor := Some(v.runCursor));
    assert v.(countBuf := "") == v;
    assert Press(v, Visual) == Outcome(w, []);
    hide Press, Repeat;
    PressAllConcat(v, [Visual] + Repeat(Down, n), [Cancel]);
    PressAllConcat(v, [Visual], Repeat(Down, n));
    PressOne(v, Visual);
    PressOne(PressAll(w, Repeat(Down, n)).view, Cancel);
    hide PressAll;
  }

  lemma DownAsksNoCancel(v: View, n: nat, id: RunId)
    requires n >= 1 && v.countBuf == "" && v.dialog.None? && !v.pane.Detail?
    ensures CancelRun(id) !in PressAll(v, Repeat(Down, n)).effects
  {
    RepeatedDown(v, n);
    hide MoveDownTimes, PressAll, Repeat;
  }

  lemma SelectDownCancels(v: View, n: nat, k: nat)
    requires n >= 1 && v.pane.RunList? && v.dialog.None? && v.visualAnchor.None? && v.countBuf == ""
    requires DistinctIds(v.runs) && v.runCursor < |VisibleIn(v)| && k < |VisibleIn(v)|
    ensures CancelRun(VisibleIn(v)[k].id) in PressAll(v, SelectDown(n)).effects <==> v.runCursor <= k <= v.runCursor + n
  {
    hide Press, PressAll, SelectDown, Repeat, Visible, DistinctIds;
    VisualThenDown(v, n);
    var w := v.(visualAnchor := Some(v.runCursor));
    DownAsksNoCancel(w, n, VisibleIn(v)[k].id);
    PressesMove(w, n, Down);
    BulkCancelIsExact(PressAll(w, Repeat(Down, n)).view);
  }
}
