/** What the log of one calculation actor can look like, for every stream of answers. */
module CalcLog {
  import opened Base
  import opened Model
  import opened Rows
  import opened CalcMachine

  /**
   The automaton of status writes and of the final notification. `Over` is a terminal write not yet reported to the
   run, `Closed` one that is; `Broken` is the sink.
   */
  datatype Phase = Ready | Working | Waiting | Over | Closed | Broken

  function AfterWrite(p: Phase, s: CalcStatus): Phase {
    match (p, s)
    case (Ready, StatusRunning) => Working
    case (Ready, StatusCancelled) => Over
    case (Working, StatusSucceeded) => Over
    case (Working, StatusFailed) => Over
    case (Working, StatusRetrying) => Waiting
    case (Waiting, StatusPending) => Ready
    case (Waiting, StatusCancelled) => Over
    case _ => Broken
  }

  /** A log, summed up. */
  datatype Story = Story(
    phase: Phase,
    announced: seq<CalcStatus>, // statuses written, without `pending` and without a lease that was not stored
    events: seq<CalcStatus>,    // `to` fields of the published events
    starts: nat,
    submits: nat,
    backoff: nat,
    finishes: nat)

  function Note(t: Story, x: Act): Story {
    match x
    case Took(cmd) => if cmd.Start? then t.(starts := t.starts + 1) else t
    case Wrote(w, r) =>
      if !w.SetsStatus() then t.(phase := Broken)
      else
        t.(phase := AfterWrite(t.phase, w.Status()),
           announced := if w.Pending? || (w.Started? && !r.ok) then t.announced else t.announced + [w.Status()])
    case Emitted(to) => t.(events := t.events + [to])
    case Submitted => t.(submits := t.submits + 1)
    case BackedOff(ms) => t.(backoff := t.backoff + ms)
    case Finished => t.(phase := if t.phase.Over? then Closed else Broken, finishes := t.finishes + 1)
  }

  function Read(log: seq<Act>): Story {
    if log == [] then Story(Ready, [], [], 0, 0, 0, 0)
    else Note(Read(log[..|log| - 1]), log[|log| - 1])
  }

  lemma ReadSnoc(log: seq<Act>, x: Act)
    ensures Read(log + [x]) == Note(Read(log), x)
  {
    assert (log + [x])[..|log|] == log;
  }

  // ── What the automaton says about positions in the log ─────────────────────

  predicate IsTerminalWrite(x: Act) { x.Wrote? && x.w.IsTerminal() }

  function PhaseAt(log: seq<Act>, n: nat): Phase
    requires n <= |log|
  {
    Read(log[..n]).phase
  }

  /** The phase one act later. */
  lemma PhaseAfterOne(log: seq<Act>, n: nat)
    requires n < |log|
    ensures PhaseAt(log, n + 1) == Note(Read(log[..n]), log[n]).phase
    ensures PhaseAt(log, n).Broken? ==> PhaseAt(log, n + 1).Broken?
  {
    assert log[..n + 1] == log[..n] + [log[n]];
    ReadSnoc(log[..n], log[n]);
  }

  /** Prefixes of an accepted log are accepted. */
  lemma {:induction false} PrefixAccepted(log: seq<Act>, n: nat, m: nat)
    requires n <= m <= |log| && !PhaseAt(log, m).Broken?
    ensures !PhaseAt(log, n).Broken?
    decreases m
  {
    if n < m {
      PhaseAfterOne(log, m - 1);
      PrefixAccepted(log, n, m - 1);
    }
  }

  /** Once over, an accepted log never leaves `Over` and `Closed`. */
  lemma {:induction false} OverIsFinal(log: seq<Act>, n: nat, m: nat)
    requires n <= m <= |log| && !PhaseAt(log, m).Broken?
    requires PhaseAt(log, n).Over? || PhaseAt(log, n).Closed?
    ensures PhaseAt(log, m).Over? || PhaseAt(log, m).Closed?
    ensures PhaseAt(log, n).Closed? ==> PhaseAt(log, m).Closed?
    decreases m
  {
    if n < m {
      PhaseAfterOne(log, m - 1);
      OverIsFinal(log, n, m - 1);
    }
  }

  /** Nothing is written, and nothing is finished twice, after an accepted log is over. */
  lemma NothingAfterOver(log: seq<Act>, n: nat)
    requires n < |log| && !PhaseAt(log, n + 1).Broken?
    requires PhaseAt(log, n).Over? || PhaseAt(log, n).Closed?
    ensures !log[n].Wrote?
    ensures PhaseAt(log, n).Closed? ==> !log[n].Finished?
  {
    PhaseAfterOne(log, n);
  }

  lemma TerminalWriteIsOver(log: seq<Act>, n: nat)
    requires n < |log| && !PhaseAt(log, n + 1).Broken?
    ensures IsTerminalWrite(log[n]) ==> PhaseAt(log, n + 1).Over?
    ensures log[n].Finished? ==> PhaseAt(log, n + 1).Closed?
  {
    PhaseAfterOne(log, n);
  }

  /**
   In an accepted log at most one write is terminal and no write follows it; `Finished` occurs at most once, and no
   write follows it either.
   */
  lemma AcceptedLogEndsOnce(log: seq<Act>, i: nat, j: nat)
    requires i < j < |log| && !PhaseAt(log, |log|).Broken?
    ensures IsTerminalWrite(log[i]) ==> !log[j].Wrote?
    ensures log[i].Finished? ==> !log[j].Wrote? && !log[j].Finished?
  {
    PrefixAccepted(log, i + 1, |log|);
    PrefixAccepted(log, j, |log|);
    PrefixAccepted(log, j + 1, |log|);
    TerminalWriteIsOver(log, i);
    if IsTerminalWrite(log[i]) || log[i].Finished? {
      OverIsFinal(log, i + 1, j);
      NothingAfterOver(log, j);
    }
  }

  predicate HasFinished(log: seq<Act>) { exists j :: 0 <= j < |log| && log[j].Finished? }

  predicate HasTerminal(log: seq<Act>) { exists i :: 0 <= i < |log| && IsTerminalWrite(log[i]) }

  /** `Finished` is in an accepted log exactly when it is closed, and a terminal write exactly when it is over. */
  lemma {:induction false} FinishedMeansTerminal(log: seq<Act>)
    requires !Read(log).phase.Broken?
    ensures Read(log).phase.Closed? <==> HasFinished(log)
    ensures Read(log).phase.Over? || Read(log).phase.Closed? <==> HasTerminal(log)
  {
    if log != [] {
      var n := |log| - 1;
      var init := log[..n];
      assert log == init + [log[n]];
      FinishedMeansTerminal(init);
      if HasFinished(init) { var j :| 0 <= j < n && init[j].Finished?; assert log[j].Finished?; }
      if HasTerminal(init) { var i :| 0 <= i < n && IsTerminalWrite(init[i]); assert IsTerminalWrite(log[i]); }
      if HasFinished(log) && !log[n].Finished? {
        var j :| 0 <= j < |log| && log[j].Finished?;
        assert init[j].Finished?;
      }
      if HasTerminal(log) && !IsTerminalWrite(log[n]) {
        var i :| 0 <= i < |log| && IsTerminalWrite(log[i]);
        assert IsTerminalWrite(init[i]);
      }
    }
  }

  // ── The invariant of the machine ───────────────────────────────────────────

  /** Phases the log can be in when the actor waits at `pc`. */
  predicate PhaseFits(pc: Pc, p: Phase) {
    match pc
    case Idle => p.Ready?
    case Acquiring => p.Ready?
    case Leasing => p.Ready?
    case Submitting => p.Working?
    case Writing(w, _) =>
      w.SetsStatus() && !w.Started? && !w.Pending? &&
      if w.Cancelled? then p.Ready? || p.Waiting? else p.Working?
    case Emitting(to, _) =>
      if to.StatusRunning? then p.Working?
      else if to.StatusRetrying? then p.Waiting?
      else to.IsTerminal() && p.Over?
    case Sleeping => p.Waiting?
    case Resetting => p.Waiting?
    case Notifying => p.Over?
    case Done => p.Ready? || p.Working? || p.Closed?
  }

  /** The last attempt a delay can have been drawn for. */
  function LastDelayed(m: Machine): nat {
    if m.first > m.max then m.first else Min(m.attempt, m.max)
  }

  /** A delay already drawn but not yet slept. */
  function Drawn(pc: Pc): nat {
    match pc
    case Writing(_, delay) => delay
    case Emitting(_, sleep) => sleep
    case _ => 0
  }

  /** `n` doubled `times` times. */
  function Doubled(n: nat, times: nat): nat {
    if times == 0 then n else 2 * Doubled(n, times - 1)
  }

  /** The largest delays of attempts `first+1 ..= last` together: base, 2*base, 4*base, each up to the maximum. */
  function LargestBackoff(first: nat, last: nat, cfg: RetryConfig): nat {
    if last <= first then 0
    else
      LargestBackoff(first, last - 1, cfg) +
      if cfg.baseMs == 0 && last > 1024 then cfg.maxMs else Min(Doubled(cfg.baseMs, last - 1), cfg.maxMs)
  }

  lemma {:induction false} DoubledIsProduct(n: nat, times: nat)
    ensures Doubled(n, times) == n * Pow2(times)
  {
    if times > 0 { DoubledIsProduct(n, times - 1); }
  }

  lemma CapIsLast(first: nat, last: nat, cfg: RetryConfig)
    requires first < last
    ensures LargestBackoff(first, last, cfg) == LargestBackoff(first, last - 1, cfg) + BackoffCap(last, cfg)
  {
    DoubledIsProduct(cfg.baseMs, last - 1);
  }

  lemma {:induction false} LargestIsMonotone(first: nat, a: nat, b: nat, cfg: RetryConfig)
    requires a <= b
    ensures LargestBackoff(first, a, cfg) <= LargestBackoff(first, b, cfg)
    decreases b
  {
    if a < b { LargestIsMonotone(first, a, b - 1, cfg); }
  }

  /** `spent` is within all bounds on the backoff of attempts `first+1 ..= last`. */
  predicate BackoffFits(spent: nat, first: nat, last: nat, max: nat, cfg: RetryConfig) {
    && first <= last
    && spent <= LargestBackoff(first, last, cfg)
    && spent <= (last - first) * cfg.maxMs
    && (cfg.baseMs > 0 || max <= 1024 ==> spent <= cfg.baseMs * (Pow2(last) - Pow2(first)))
  }

  /** Submits against failures counted: they differ only between a submit and the write of its failure. */
  predicate CountsFit(m: Machine, t: Story) {
    && m.first <= m.attempt <= m.first + t.submits <= m.attempt + 1
    && t.submits <= t.starts
    && (m.attempt > Max(m.first, m.max) ==> m.first + t.submits == m.attempt)
    && (m.pc.Acquiring? || m.pc.Leasing? || (m.pc.Emitting? && m.pc.to.StatusRunning?) ==> t.submits < t.starts)
    && (if m.pc.Submitting? then m.first + t.submits == m.attempt + 1
        else BetweenSubmits(m.pc) ==> m.first + t.submits == m.attempt)
  }

  predicate BetweenSubmits(pc: Pc) {
    match pc
    case Writing(w, _) => w.Retrying? || w.Cancelled?
    case Emitting(to, _) => to.StatusRunning? || to.StatusRetrying?
    case Notifying => false
    case Done => false
    case _ => true
  }

  /** The attempt passes the maximum only on the way to `transient_exhausted`. */
  predicate AttemptFits(m: Machine) {
    m.attempt <= Max(m.first, m.max) || (m.attempt == Max(m.first, m.max) + 1 && Exhausted(m.pc))
  }

  predicate Exhausted(pc: Pc) {
    match pc
    case Writing(w, _) => w.Failed? && w.kind == TransientExhausted
    case Emitting(to, _) => to.StatusFailed?
    case Notifying => true
    case Done => true
    case _ => false
  }

  predicate Fits(m: Machine, t: Story) {
    && PhaseFits(m.pc, t.phase)
    && t.finishes == (if t.phase.Closed? then 1 else 0)
    && t.announced == (if m.pc.Emitting? then t.events + [m.pc.to] else t.events)
    && CountsFit(m, t)
    && AttemptFits(m)
    && (m.pc.Writing? && m.pc.w.Retrying? ==> 1 <= m.pc.w.attempt == m.attempt <= m.max)
    && BackoffFits(t.backoff + Drawn(m.pc), m.first, LastDelayed(m), m.max, m.cfg)
  }

  predicate Ok(m: Machine) { Fits(m, Read(m.log)) }

  lemma Distribute(c: nat, a: int, b: int)
    ensures c * a + c * b == c * (a + b)
    ensures a * c + b * c == (a + b) * c
  {
  }

  lemma OneMoreDelay(spent: nat, first: nat, last: nat, max: nat, cfg: RetryConfig, delay: nat)
    requires BackoffFits(spent, first, last, max, cfg) && last + 1 <= max
    requires delay <= BackoffCap(last + 1, cfg)
    ensures BackoffFits(spent + delay, first, last + 1, max, cfg)
  {
    Distribute(cfg.maxMs, last - first, 1);
    CapIsLast(first, last + 1, cfg);
    hide LargestBackoff;
    if cfg.baseMs > 0 || max <= 1024 {
      Distribute(cfg.baseMs, Pow2(last) - Pow2(first), Pow2(last));
    }
  }

  lemma FreshIsOk(attempt: nat, max: nat, cfg: RetryConfig, owner: string)
    ensures Ok(Fresh(attempt, max, cfg, owner))
  {
    assert cfg.baseMs * (Pow2(attempt) - Pow2(attempt)) == 0;
  }

  /** What one step adds to the story. */
  function Tell(t: Story, m: Machine, i: Input): Story
    requires Enabled(m, i)
  {
    match i
    case Recv(Some(cmd)) => Note(t, Took(cmd))
    case Stored(expires, r) => Note(t, Wrote(PendingWrite(m, expires), r))
    case Published =>
      var t' := Note(t, Emitted(m.pc.to));
      if m.pc.to.StatusRunning? then Note(t', Submitted)
      else if m.pc.to.StatusRetrying? then Note(t', BackedOff(m.pc.sleep))
      else t'
    case Sent => Note(t, Finished)
    case _ => t
  }

  lemma StoryOfEmit(m: Machine)
    requires m.pc.Emitting?
    ensures Read(AfterEmit(m).log) == Tell(Read(m.log), m, Published)
  {
    var log := m.log + [Emitted(m.pc.to)];
    ReadSnoc(m.log, Emitted(m.pc.to));
    if m.pc.to.StatusRunning? {
      ReadSnoc(log, Submitted);
    } else if m.pc.to.StatusRetrying? {
      ReadSnoc(log, BackedOff(m.pc.sleep));
    }
  }

  lemma StoryOfStep(m: Machine, i: Input)
    requires Enabled(m, i)
    ensures Read(Step(m, i).log) == Tell(Read(m.log), m, i)
  {
    match i
    case Recv(Some(cmd)) => ReadSnoc(m.log, Took(cmd));
    case Stored(expires, r) => ReadSnoc(m.log, Wrote(PendingWrite(m, expires), r));
    case Published => StoryOfEmit(m);
    case Sent => ReadSnoc(m.log, Finished);
    case _ => assert Step(m, i).log == m.log;
  }

  lemma AnswerFits(m: Machine, t: Story, outcome: Outcome, now: int, draw: nat)
    requires m.pc.Submitting? && Fits(m, t)
    ensures Fits(AfterAnswer(m, outcome, now, draw), t)
  {
    hide BackoffFits;
    if outcome.TransientError? && m.attempt + 1 <= m.max {
      OneMoreDelay(t.backoff, m.first, m.attempt, m.max, m.cfg, JitteredBackoff(m.attempt + 1, m.cfg, draw));
    }
  }

  lemma RecvFits(m: Machine, t: Story, cmd: Option<Cmd>)
    requires Enabled(m, Recv(cmd)) && Fits(m, t)
    ensures Fits(Step(m, Recv(cmd)), Tell(t, m, Recv(cmd)))
  {
    hide BackoffFits;
  }

  lemma StoreFits(m: Machine, t: Story, expires: int, r: Reply)
    requires AwaitsStore(m) && Fits(m, t)
    ensures Fits(AfterStore(m, expires, r), Note(t, Wrote(PendingWrite(m, expires), r)))
  {
    hide BackoffFits;
  }

  lemma LessSpentFits(spent: nat, more: nat, first: nat, last: nat, max: nat, cfg: RetryConfig)
    requires BackoffFits(spent + more, first, last, max, cfg)
    ensures BackoffFits(spent, first, last, max, cfg)
  {
    hide LargestBackoff;
  }

  lemma EmitFits(m: Machine, t: Story)
    requires m.pc.Emitting? && Fits(m, t)
    ensures Fits(AfterEmit(m), Tell(t, m, Published))
  {
    LessSpentFits(t.backoff, m.pc.sleep, m.first, LastDelayed(m), m.max, m.cfg);
    hide BackoffFits;
  }

  lemma StepFits(m: Machine, t: Story, i: Input)
    requires Enabled(m, i) && Fits(m, t)
    ensures Fits(Step(m, i), Tell(t, m, i))
  {
    match i
    case Recv(cmd) => RecvFits(m, t, cmd);
    case Stored(expires, r) => StoreFits(m, t, expires, r);
    case Published => EmitFits(m, t);
    case Answer(outcome, now, draw) => AnswerFits(m, t, outcome, now, draw);
    case _ =>
  }

  lemma StepKeepsOk(m: Machine, i: Input)
    requires Enabled(m, i) && Ok(m)
    ensures Ok(Step(m, i))
  {
    StepFits(m, Read(m.log), i);
    StoryOfStep(m, i);
  }

  lemma {:induction false} FeedKeepsOk(m: Machine, inputs: seq<Input>)
    requires Ok(m) && Feed(m, inputs).Some?
    ensures Ok(Feed(m, inputs).value)
    decreases |inputs|
  {
    if inputs != [] {
      StepKeepsOk(m, inputs[0]);
      FeedKeepsOk(Step(m, inputs[0]), inputs[1..]);
    }
  }

  // ── The main results about one actor ───────────────────────────────────────

  /**
   For every stream of commands, outcomes and database replies: the status writes and the notification form a word of
   the automaton, the notification is sent once and exactly when a terminal write has been reported, the events are
   the writes without `pending`, and the submits stay within the retry budget and the number of `Start`s.
   */
  lemma ActorStory(first: nat, max: nat, cfg: RetryConfig, owner: string, inputs: seq<Input>)
    requires Feed(Fresh(first, max, cfg, owner), inputs).Some?
    ensures var m := Feed(Fresh(first, max, cfg, owner), inputs).value;
            var t := Read(m.log);
            && !t.phase.Broken?
            && t.finishes <= 1
            && (t.finishes == 1 <==> HasTerminal(m.log) && m.pc.Done?)
            && (t.finishes == 1 <==> HasFinished(m.log))
            && t.announced == (if m.pc.Emitting? then t.events + [m.pc.to] else t.events)
            && t.submits <= Max(max - first, 0) + 1
            && t.submits <= t.starts
  {
    var m := StoryFits(first, max, cfg, owner, inputs);
    FinishedMeansTerminal(m.log);
  }

  lemma StoryFits(first: nat, max: nat, cfg: RetryConfig, owner: string, inputs: seq<Input>) returns (m: Machine)
    requires Feed(Fresh(first, max, cfg, owner), inputs).Some?
    ensures Feed(Fresh(first, max, cfg, owner), inputs) == Some(m) && Fits(m, Read(m.log))
    ensures m.first == first && m.max == max && m.cfg == cfg && m.owner == owner
  {
    var m0 := Fresh(first, max, cfg, owner);
    FreshIsOk(first, max, cfg, owner);
    FeedKeepsOk(m0, inputs);
    FeedKeepsConstants(m0, inputs);
    m := Feed(m0, inputs).value;
  }

  /**
   The total backoff, for every choice of jitter, is bounded by the sum of the largest delays (`BackoffIsReached`), so
   by the largest delay once per retry, and by the geometric sum of the uncapped ones (given a base delay or a budget
   below the float overflow; `GeometricBoundIff` is exact).
   */
  lemma ActorBackoff(first: nat, max: nat, cfg: RetryConfig, owner: string, inputs: seq<Input>)
    requires first <= max && Feed(Fresh(first, max, cfg, owner), inputs).Some?
    ensures var t := Read(Feed(Fresh(first, max, cfg, owner), inputs).value.log);
            && t.backoff <= LargestBackoff(first, max, cfg)
            && t.backoff <= (max - first) * cfg.maxMs
            && (cfg.baseMs > 0 || max <= 1024 ==> t.backoff <= cfg.baseMs * (Pow2(max) - Pow2(first)))
  {
    var m := StoryFits(first, max, cfg, owner, inputs);
    var last := LastDelayed(m);
    LargestIsMonotone(first, last, max, cfg);
    MulLe(last - first, max - first, cfg.maxMs);
    Pow2Monotone(last, max);
    MulLe(Pow2(last) - Pow2(first), Pow2(max) - Pow2(first), cfg.baseMs);
  }

  /** The first of the two bounds, for every stream. */
  ghost predicate GeometricBound(first: nat, max: nat, cfg: RetryConfig, owner: string) {
    forall inputs :: Feed(Fresh(first, max, cfg, owner), inputs).Some? ==>
      Read(Feed(Fresh(first, max, cfg, owner), inputs).value.log).backoff <= cfg.baseMs * (Pow2(max) - Pow2(first))
  }

  /** The exact condition: it fails only when a zero base meets the float overflow and there is something to draw. */
  lemma GeometricBoundIff(first: nat, max: nat, cfg: RetryConfig, owner: string)
    requires first <= max
    ensures GeometricBound(first, max, cfg, owner) <==>
            cfg.baseMs > 0 || max <= 1024 || cfg.maxMs == 0 || first == max
  {
    hide Read;
    if cfg.baseMs > 0 || max <= 1024 || cfg.maxMs == 0 || first == max {
      forall inputs | Feed(Fresh(first, max, cfg, owner), inputs).Some?
        ensures Read(Feed(Fresh(first, max, cfg, owner), inputs).value.log).backoff <=
                cfg.baseMs * (Pow2(max) - Pow2(first))
      {
        ActorBackoff(first, max, cfg, owner, inputs);
        Pow2Monotone(first, max);
        if first == max || cfg.maxMs == 0 { assert (max - first) * cfg.maxMs == 0; }
        MulLe(0, Pow2(max) - Pow2(first), cfg.baseMs);
      }
    } else {
      var m, inputs, t := LastRetryWaits(first, max, cfg, owner);
      assert cfg.baseMs * (Pow2(max) - Pow2(first)) == 0;
    }
  }

  /** `k` transient errors in a row with the largest delays, a `Start` before each: idle again, `k` attempts further. */
  lemma {:induction false} Fails(first: nat, max: nat, cfg: RetryConfig, owner: string, k: nat)
    returns (m: Machine, inputs: seq<Input>, t: Story)
    requires first + k <= max
    ensures Feed(Fresh(first, max, cfg, owner), inputs) == Some(m) && t == Read(m.log)
    ensures m.pc.Idle? && m.attempt == first + k && m.max == max && m.cfg == cfg
    ensures t.backoff == LargestBackoff(first, first + k, cfg)
  {
    hide Feed, Read, BackoffCap, JitteredBackoff, LargestBackoff;
    var m0 := Fresh(first, max, cfg, owner);
    NothingSpent(first, cfg);
    if k == 0 {
      NothingFed(m0);
      m, inputs, t := m0, [], Read(m0.log);
    } else {
      var m1, i1, t1 := Fails(first, max, cfg, owner, k - 1);
      var m2, i2, t2 := Retry(m0, m1, i1, t1, "", BackoffCap(first + k, cfg));
      CapIsLast(first, first + k, cfg);
      CapIsDrawn(first + k, cfg);
      var m3, i3, t3 := Then(m0, m2, i2, t2, Timer);
      m, inputs, t := Then(m0, m3, i3, t3, Stored(0, Reply(true, 0)));
    }
  }

  /**
   A transient error with attempts left: the row is due again exactly when the wait that follows ends, and the wait is
   the delay drawn for the new attempt.
   */
  lemma RetryIsDueAfterBackoff(m: Machine, message: string, now: int, draw: nat, r: Reply)
    requires m.pc.Submitting? && m.attempt < m.max
    ensures var m' := Feed(m, [Answer(TransientError(message), now, draw), Stored(0, r), Published]);
            && m'.Some? && m'.value.pc.Sleeping? && m'.value.attempt == m.attempt + 1
            && exists ms: nat | ms <= BackoffCap(m.attempt + 1, m.cfg) ::
                 m'.value.log ==
                 m.log + [Wrote(Retrying(m.attempt + 1, now + ms), r), Emitted(StatusRetrying), BackedOff(ms)]
  {
    hide BackoffCap;
    var ms := JitteredBackoff(m.attempt + 1, m.cfg, draw);
    hide JitteredBackoff;
    var m1 := Step(m, Answer(TransientError(message), now, draw));
    var m2 := Step(m1, Stored(0, r));
    var m3 := Step(m2, Published);
    FeedThree(m, Answer(TransientError(message), now, draw), Stored(0, r), Published);
    var suffix := [Wrote(Retrying(m.attempt + 1, now + ms), r), Emitted(StatusRetrying), BackedOff(ms)];
    assert m3.log == m.log + suffix;
  }

  lemma FeedThree(m: Machine, a: Input, b: Input, c: Input)
    requires Enabled(m, a) && Enabled(Step(m, a), b) && Enabled(Step(Step(m, a), b), c)
    ensures Feed(m, [a, b, c]) == Some(Step(Step(Step(m, a), b), c))
  {
    hide Step, Enabled;
    assert [a, b, c][1..] == [b, c] && [b, c][1..] == [c] && [c][1..] == [];
    var m2 := Step(Step(m, a), b);
    assert Feed(Step(m2, c), []) == Some(Step(m2, c));
    assert Feed(m2, [c]) == Some(Step(m2, c));
    assert Feed(Step(m, a), [b, c]) == Some(Step(m2, c));
  }

  /** The bound is reached: a stream exists whose total backoff is exactly the sum of the largest delays. */
  lemma BackoffIsReached(first: nat, max: nat, cfg: RetryConfig, owner: string)
    requires first <= max
    ensures exists inputs ::
              && Feed(Fresh(first, max, cfg, owner), inputs).Some?
              && Read(Feed(Fresh(first, max, cfg, owner), inputs).value.log).backoff == LargestBackoff(first, max, cfg)
  {
    var m, inputs, t := Fails(first, max, cfg, owner, max - first);
    hide Feed, Read, LargestBackoff;
    assert Feed(Fresh(first, max, cfg, owner), inputs).Some?;
  }

  lemma NothingSpent(first: nat, cfg: RetryConfig)
    ensures Read([]).backoff == 0 && LargestBackoff(first, first, cfg) == 0
  {
  }

  lemma CapIsDrawn(attempt: nat, cfg: RetryConfig)
    requires attempt >= 1
    ensures JitteredBackoff(attempt, cfg, BackoffCap(attempt, cfg)) == BackoffCap(attempt, cfg)
  {
    hide BackoffCap;
  }

  lemma NothingFed(m: Machine)
    ensures Feed(m, []) == Some(m)
  {
  }

  /** A submit that fails transiently, up to the backoff. */
  lemma Retry(m0: Machine, m: Machine, inputs: seq<Input>, t: Story, message: string, draw: nat)
    returns (m': Machine, inputs': seq<Input>, t': Story)
    requires Feed(m0, inputs) == Some(m) && t == Read(m.log) && m.pc.Idle? && m.attempt < m.max
    ensures Feed(m0, inputs') == Some(m') && t' == Read(m'.log) && m'.pc.Sleeping?
    ensures m'.attempt == m.attempt + 1 && m'.max == m.max && m'.cfg == m.cfg
    ensures t'.backoff == t.backoff + JitteredBackoff(m.attempt + 1, m.cfg, draw)
    ensures t'.starts == t.starts + 1 && t'.submits == t.submits + 1
  {
    hide Feed, Read, JitteredBackoff;
    var m1, i1, t1 := Submit(m0, m, inputs, t);
    var m2, i2, t2 := Then(m0, m1, i1, t1, Answer(TransientError(message), 0, draw));
    var m3, i3, t3 := Then(m0, m2, i2, t2, Stored(0, Reply(true, 0)));
    m', inputs', t' := Then(m0, m3, i3, t3, Published);
  }

  /** With a zero base the last attempts wait: a draw of one is a delay of one. */
  lemma LastRetryWaits(first: nat, max: nat, cfg: RetryConfig, owner: string)
    returns (m: Machine, inputs: seq<Input>, t: Story)
    requires cfg.baseMs == 0 && max > 1024 && cfg.maxMs > 0 && first < max
    ensures Feed(Fresh(first, max, cfg, owner), inputs) == Some(m) && t == Read(m.log) && t.backoff >= 1
  {
    hide Feed, Read;
    var m1, i1, t1 := Fails(first, max, cfg, owner, max - 1 - first);
    m, inputs, t := Retry(Fresh(first, max, cfg, owner), m1, i1, t1, "", 1);
  }

  lemma {:induction false} FeedKeepsConstants(m: Machine, inputs: seq<Input>)
    requires Feed(m, inputs).Some?
    ensures var m' := Feed(m, inputs).value;
      m'.first == m.first && m'.max == m.max && m'.cfg == m.cfg && m'.owner == m.owner
    decreases |inputs|
  {
    if inputs != [] { FeedKeepsConstants(Step(m, inputs[0]), inputs[1..]); }
  }

  lemma MulLe(a: int, b: int, c: nat)
    requires a <= b
    ensures a * c <= b * c && c * a <= c * b
  {
  }

  lemma {:induction false} Pow2Monotone(a: nat, b: nat)
    requires a <= b
    ensures Pow2(a) <= Pow2(b)
    decreases b
  {
    if a < b { Pow2Monotone(a, b - 1); }
  }

  predicate NoStart(inputs: seq<Input>) {
    inputs == [] || (inputs[0] != Recv(Some(Start)) && NoStart(inputs[1..]))
  }

  /**
   The documentation promises retries up to `max_attempts`; the actor resumes only when it is sent another `Start`.
   Idle after a failed attempt, it never submits again while none arrives.
   */
  lemma {:induction false} NoRetryWithoutStart(m: Machine, inputs: seq<Input>)
    requires Ok(m) && Feed(m, inputs).Some? && NoStart(inputs)
    requires m.pc.Idle? && Read(m.log).submits == Read(m.log).starts
    ensures Read(Feed(m, inputs).value.log).submits == Read(m.log).submits
  {
    StartsStay(m, inputs);
    FeedKeepsOk(m, inputs);
  }

  lemma {:induction false} StartsStay(m: Machine, inputs: seq<Input>)
    requires Feed(m, inputs).Some? && NoStart(inputs)
    ensures Read(Feed(m, inputs).value.log).starts == Read(m.log).starts
    ensures Read(Feed(m, inputs).value.log).submits >= Read(m.log).submits
    decreases |inputs|
  {
    if inputs != [] {
      StoryOfStep(m, inputs[0]);
      TellStarts(Read(m.log), m, inputs[0]);
      StartsStay(Step(m, inputs[0]), inputs[1..]);
    }
  }

  lemma TellStarts(t: Story, m: Machine, i: Input)
    requires Enabled(m, i) && i != Recv(Some(Start))
    ensures Tell(t, m, i).starts == t.starts && Tell(t, m, i).submits >= t.submits
  {
  }

  /** And a `Start` is all it lacks: given one, with a permit and a lease, it submits again. */
  lemma StartSubmitsAgain(m: Machine, expires: int, at: int)
    requires m.pc.Idle?
    ensures var r := Feed(m, [Recv(Some(Start)), Permit(true), Stored(expires, Reply(true, at)), Published]);
            && r.Some? && r.value.pc.Submitting? && Read(r.value.log).submits == Read(m.log).submits + 1
  {
    var i1, i2, i3 := Recv(Some(Start)), Permit(true), Stored(expires, Reply(true, at));
    StartWalks(m, expires, at);
    hide Step, Enabled;
    var m1 := Step(m, i1);
    var m2 := Step(m1, i2);
    var m3 := Step(m2, i3);
    hide Read;
    StepSubmits(m, i1);
    StepSubmits(m1, i2);
    StepSubmits(m2, i3);
    StepSubmits(m3, Published);
    FeedFour(m, i1, i2, i3, Published);
  }

  lemma StartWalks(m: Machine, expires: int, at: int)
    requires m.pc.Idle?
    ensures var i1, i2, i3 := Recv(Some(Start)), Permit(true), Stored(expires, Reply(true, at));
            && Enabled(m, i1) && Step(m, i1).pc.Acquiring? && Enabled(Step(m, i1), i2)
            && var m2 := Step(Step(m, i1), i2);
            && m2.pc.Leasing? && Enabled(m2, i3) && Step(m2, i3).pc == Emitting(StatusRunning, 0)
            && Enabled(Step(m2, i3), Published) && Step(Step(m2, i3), Published).pc.Submitting?
  {
  }

  lemma StepSubmits(m: Machine, i: Input)
    requires Enabled(m, i)
    ensures Read(Step(m, i).log).submits ==
            Read(m.log).submits + if m.pc.Emitting? && m.pc.to.StatusRunning? then 1 else 0
  {
    StoryOfStep(m, i);
    TellSubmits(Read(m.log), m, i);
    hide Read, Step;
  }

  lemma TellSubmits(t: Story, m: Machine, i: Input)
    requires Enabled(m, i)
    ensures Tell(t, m, i).submits == t.submits + if m.pc.Emitting? && m.pc.to.StatusRunning? then 1 else 0
  {
  }

  lemma FeedFour(m: Machine, a: Input, b: Input, c: Input, d: Input)
    requires Enabled(m, a) && Enabled(Step(m, a), b) && Enabled(Step(Step(m, a), b), c)
    requires Enabled(Step(Step(Step(m, a), b), c), d)
    ensures Feed(m, [a, b, c, d]) == Some(Step(Step(Step(Step(m, a), b), c), d))
  {
    hide Step, Enabled;
    assert [a, b, c, d][1..] == [b, c, d];
    FeedThree(Step(m, a), b, c, d);
  }

  /** A stalled state is reached from a fresh actor by one transient error, whatever budget is left. */
  lemma TransientErrorStalls(max: nat, cfg: RetryConfig, owner: string, message: string, draw: nat)
    returns (inputs: seq<Input>)
    requires max >= 1
    ensures var m := Feed(Fresh(0, max, cfg, owner), inputs);
            && m.Some? && m.value.pc.Idle? && m.value.attempt == 1
            && Read(m.value.log).submits == 1 && Read(m.value.log).starts == 1
  {
    var m0 := Fresh(0, max, cfg, owner);
    assert Read([]).submits == 0 && Read([]).starts == 0;
    NothingFed(m0);
    hide Feed, Read;
    var m1, i1, t1 := Retry(m0, m0, [], Read([]), message, draw);
    var m2, i2, t2 := Then(m0, m1, i1, t1, Timer);
    var m3, i3, t3 := Then(m0, m2, i2, t2, Stored(0, Reply(true, 0)));
    inputs := i3;
  }

  /** From idle to a submit. */
  lemma Submit(m0: Machine, m: Machine, inputs: seq<Input>, t: Story)
    returns (m': Machine, inputs': seq<Input>, t': Story)
    requires Feed(m0, inputs) == Some(m) && t == Read(m.log) && m.pc.Idle?
    ensures Feed(m0, inputs') == Some(m') && t' == Read(m'.log) && m'.pc.Submitting?
    ensures m'.attempt == m.attempt && m'.max == m.max && m'.cfg == m.cfg
    ensures t'.starts == t.starts + 1 && t'.submits == t.submits + 1 && t'.backoff == t.backoff
  {
    hide Feed, Read;
    var m1, i1, t1 := Then(m0, m, inputs, t, Recv(Some(Start)));
    var m2, i2, t2 := Then(m0, m1, i1, t1, Permit(true));
    var m3, i3, t3 := Then(m0, m2, i2, t2, Stored(0, Reply(true, 0)));
    m', inputs', t' := Then(m0, m3, i3, t3, Published);
  }

  /** Feeds one more answer; the new log is known only through its story. */
  lemma Then(m0: Machine, m: Machine, inputs: seq<Input>, t: Story, i: Input)
    returns (m': Machine, inputs': seq<Input>, t': Story)
    requires Feed(m0, inputs) == Some(m) && Enabled(m, i) && t == Read(m.log)
    ensures m'.(log := []) == Step(m, i).(log := []) && Feed(m0, inputs') == Some(m')
    ensures t' == Tell(t, m, i) == Read(m'.log)
  {
    m', inputs' := Step(m, i), inputs + [i];
    t' := Read(m'.log);
    StoryOfStep(m, i);
    FeedAppend(m0, inputs, [i]);
    assert Feed(m, [i]) == Feed(m', []);
  }
}
