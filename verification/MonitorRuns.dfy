/**
 * Whole runs of the connection monitor's controller (apps/mobile/lib/connectionMonitor.ts): when
 * sockets are replaced, how long it waits between probes, and what it shows.
 */
module MonitorRuns {
  import opened Prelude
  import opened MonitorCore
  import opened Monitor
  import opened MonitorTrace

  // ----- Sockets are replaced -----

  /** By what was dispatched alone: event `i` is one that has sockets replaced. */
  ghost predicate ReplacedAt(log: Trace, i: int) {
    0 <= i < |log| && Replaces(StateAt(log, i), log[i].0)
  }

  /** The state is what the log leaves, and the listeners were told at exactly those events. */
  ghost predicate Ledger(w: World) {
    w.state == StateAt(w.log, |w.log|) && forall i :: i in w.told <==> ReplacedAt(w.log, i)
  }

  lemma StatePrefix(log: Trace, more: Trace, n: nat)
    requires n <= |log|
    ensures StateAt(log + more, n) == StateAt(log, n)
  {
    StateAtIs(log + more, n);
    StateAtIs(log, n);
    assert (log + more)[..n] == log[..n];
  }

  lemma ReplacedStays(log: Trace, x: (Event, int), i: int)
    requires i != |log|
    ensures ReplacedAt(log + [x], i) <==> ReplacedAt(log, i)
  {
    if 0 <= i < |log| { StatePrefix(log, [x], i); }
  }

  /** All but the last event's part of the ledger. */
  ghost predicate LedgerBefore(w: World, e: Event, s: State) {
    && w.log != [] && w.log[|w.log| - 1].0 == e && StateAt(w.log, |w.log| - 1) == s
    && w.state == StateAt(w.log, |w.log|) && |w.log| - 1 !in w.told
    && forall i :: i != |w.log| - 1 ==> (i in w.told <==> ReplacedAt(w.log, i))
  }

  lemma ReducedLedger(w: World, e: Event)
    requires Ledger(w)
    ensures LedgerBefore(Reduced(w, e), e, w.state)
  {
    var x := (e, w.now);
    StatePrefix(w.log, [x], |w.log|);
    assert !ReplacedAt(w.log, |w.log|);
    forall i | i != |w.log| ensures ReplacedAt(w.log + [x], i) <==> ReplacedAt(w.log, i) { ReplacedStays(w.log, x, i); }
  }

  lemma {:induction false} ArmKeepsLedger(w: World, effects: seq<Effect>)
    ensures var w' := ArmAll(w, effects); w'.state == w.state && w'.log == w.log && w'.told == w.told && w'.now == w.now
    decreases |effects|
  {
    if effects != [] { ArmKeepsLedger(Arm(w, effects[0]), effects[1..]); }
  }

  lemma ClosedLedger(w: World, e: Event, s: State)
    requires LedgerBefore(w, e, s)
    ensures Replaces(s, e) ==> Ledger(Told(w))
    ensures !Replaces(s, e) ==> Ledger(w)
  {
    assert ReplacedAt(w.log, |w.log| - 1) <==> Replaces(s, e);
  }

  lemma {:induction false} ReportsKeepLedger(w: World, reports: seq<Event>)
    requires Ledger(w)
    ensures Ledger(ReportAll(w, reports)) && ReportAll(w, reports).now == w.now
    decreases |reports|
  {
    if reports != [] {
      var e := reports[0];
      if FromListener(e) {
        ReducedLedger(w, e);
        ClosedLedger(Reduced(w, e), e, w.state);
        ArmKeepsLedger(Reduced(w, e), Reduce(w.state, e, w.now).effects);
        ReportsKeepLedger(Report(w, e), reports[1..]);
      } else {
        ReportsKeepLedger(w, reports[1..]);
      }
    }
  }

  lemma {:induction false} RunAllConcat(w: World, a: seq<Effect>, b: seq<Effect>, reports: seq<Event>)
    ensures RunAll(w, a + b, reports) == RunAll(RunAll(w, a, reports), b, reports)
    decreases |a|
  {
    if a == [] {
      assert a + b == b;
    } else {
      assert (a + b)[0] == a[0] && (a + b)[1..] == a[1..] + b;
      RunAllConcat(RunOne(w, a[0], reports), a[1..], b, reports);
    }
  }

  /** Effects that replace nothing only arm timers and probes. */
  lemma {:induction false} RunsAsArms(w: World, effects: seq<Effect>, reports: seq<Event>)
    requires ReconnectSockets !in effects
    ensures RunAll(w, effects, reports) == ArmAll(w, effects)
    decreases |effects|
  {
    if effects != [] {
      assert effects[0] in effects && effects[0] != ReconnectSockets;
      assert forall x :: x in effects[1..] ==> x in effects;
      RunsAsArms(Arm(w, effects[0]), effects[1..], reports);
    }
  }

  lemma QuietKeepsLedger(w: World, effects: seq<Effect>, reports: seq<Event>, e: Event, s: State)
    requires LedgerBefore(w, e, s) && ReconnectSockets !in effects && !Replaces(s, e)
    ensures Ledger(RunAll(w, effects, reports)) && RunAll(w, effects, reports).now == w.now
  {
    RunsAsArms(w, effects, reports);
    ArmKeepsLedger(w, effects);
    ClosedLedger(w, e, s);
  }

  /** Effects around the one that has sockets replaced. */
  lemma RunAround(w: World, a: seq<Effect>, b: seq<Effect>, reports: seq<Event>)
    requires ReconnectSockets !in a && ReconnectSockets !in b
    ensures RunAll(w, a + ([ReconnectSockets] + b), reports) == ArmAll(ReportAll(Told(ArmAll(w, a)), reports), b)
  {
    RunAllConcat(w, a, [ReconnectSockets] + b, reports);
    RunsAsArms(w, a, reports);
    assert ([ReconnectSockets] + b)[1..] == b;
    RunsAsArms(ReportAll(Told(ArmAll(w, a)), reports), b, reports);
  }

  lemma ReplaceKeepsLedger(w: World, a: seq<Effect>, b: seq<Effect>, reports: seq<Event>, e: Event, s: State)
    requires LedgerBefore(w, e, s) && Replaces(s, e) && ReconnectSockets !in a && ReconnectSockets !in b
    ensures var after := RunAll(w, a + ([ReconnectSockets] + b), reports); Ledger(after) && after.now == w.now
  {
    RunAround(w, a, b, reports);
    ArmKeepsLedger(w, a);
    var before := ArmAll(w, a);
    ClosedLedger(before, e, s);
    ReportsKeepLedger(Told(before), reports);
    ArmKeepsLedger(ReportAll(Told(before), reports), b);
  }

  lemma EffectsKeepLedger(w: World, effects: seq<Effect>, reports: seq<Event>, e: Event, s: State, retry: bool)
    requires LedgerBefore(w, e, s) && InOrder(effects, retry) && (ReconnectSockets in effects <==> Replaces(s, e))
    ensures Ledger(RunAll(w, effects, reports)) && RunAll(w, effects, reports).now == w.now
  {
    if ReconnectSockets in effects {
      var k :| 0 <= k < |effects| && effects[k] == ReconnectSockets;
      OnlyOnce(effects, k, retry);
      ReplaceKeepsLedger(w, effects[..k], effects[k + 1..], reports, e, s);
      assert effects == effects[..k] + ([ReconnectSockets] + effects[k + 1..]);
    } else {
      QuietKeepsLedger(w, effects, reports, e, s);
    }
  }

  lemma OnlyOnce(effects: seq<Effect>, k: nat, retry: bool)
    requires k < |effects| && effects[k] == ReconnectSockets && InOrder(effects, retry)
    ensures ReconnectSockets !in effects[..k] && ReconnectSockets !in effects[k + 1..]
  {}

  lemma DispatchKeepsLedger(w: World, e: Event, reports: seq<Event>)
    requires Ledger(w)
    ensures Ledger(Dispatched(w, e, reports)) && Dispatched(w, e, reports).now == w.now
  {
    EffectsAreExactly(w.state, e, w.now);
    ReducedLedger(w, e);
    EffectsKeepLedger(Reduced(w, e), Reduce(w.state, e, w.now).effects, reports, e, w.state, e.Retry?);
  }

  lemma StepKeepsLedger(w: World, a: Action, reports: seq<Event>)
    requires Ledger(w)
    ensures Ledger(Step(w, a, reports))
  {
    match a
    case Wait(_) =>
    case StartMonitor => DispatchKeepsLedger(w.(started := true), Start, reports);
    case StopMonitor =>
      DispatchKeepsLedger(w.(started := false, probeTimer := None, ticks := multiset{}), Stop, reports);
    case Observe(e) => DispatchKeepsLedger(w, e, reports);
    case ProbeSettles(p, ok) => DispatchKeepsLedger(w.(probes := w.probes - multiset{p}), ProbeResult(ok, p), reports);
    case ProbeTimerFires =>
      if w.probeTimer.Some? {
        DispatchKeepsLedger(w.(probeTimer := None), ProbeDue(w.probeTimer.value.epoch), reports);
      }
    case TickFires(due) => DispatchKeepsLedger(w.(ticks := w.ticks - multiset{due}), Tick, reports);
    case AppBackgrounds => DispatchKeepsLedger(w, Background, reports);
    case AppResumes => DispatchKeepsLedger(w, Resume, reports);
  }

  lemma {:induction false} RunKeepsLedger(w: World, actions: seq<(Action, seq<Event>)>)
    requires Ledger(w)
    ensures Ledger(Run(w, actions))
    decreases |actions|
  {
    if actions != [] {
      StepKeepsLedger(w, actions[0].0, actions[0].1);
      RunKeepsLedger(Step(w, actions[0].0, actions[0].1), actions[1..]);
    }
  }

  /**
   * In every run the sockets' listeners are told to replace them at exactly the events that call
   * for it: a retry, a resume that finds sockets, an accepted answer that finds one closed, an
   * accepted failure that finds one open.
   */
  lemma SocketsReplacedExactlyWhen(actions: seq<(Action, seq<Event>)>, i: int)
    ensures var w := Run(INITIAL_WORLD, actions);
      i in w.told <==> 0 <= i < |w.log| && Replaces(StateAt(w.log, i), w.log[i].0)
  {
    RunKeepsLedger(INITIAL_WORLD, actions);
    assert ReplacedAt(Run(INITIAL_WORLD, actions).log, i) <==> i in Run(INITIAL_WORLD, actions).told;
  }

  /** So an answered probe never replaces a socket while all there are are open or still connecting. */
  lemma AnswerSparesConnecting(actions: seq<(Action, seq<Event>)>, i: int, epoch: int)
    requires var w := Run(INITIAL_WORLD, actions);
      0 <= i < |w.log| && w.log[i].0 == ProbeResult(true, epoch) && !exists key :: HasStatus(w.log, key, Closed, i)
    ensures i !in Run(INITIAL_WORLD, actions).told
  {
    var w := Run(INITIAL_WORLD, actions);
    SocketsReplacedExactlyWhen(actions, i);
    var s := StateAt(w.log, i);
    forall key | key in s.sockets ensures s.sockets[key].status != Closed { SocketsAre(w.log, key, Closed, i); }
  }

  // ----- How long it waits -----

  lemma RunAllLast(w: World, effects: seq<Effect>, reports: seq<Event>)
    requires effects != []
    ensures RunAll(w, effects, reports) ==
            RunOne(RunAll(w, effects[..|effects| - 1], reports), effects[|effects| - 1], reports)
  {
    var n := |effects| - 1;
    assert effects == effects[..n] + [effects[n]];
    RunAllConcat(w, effects[..n], [effects[n]], reports);
    assert [effects[n]][1..] == [];
  }

  lemma {:induction false} ReportsKeepTime(w: World, reports: seq<Event>)
    ensures ReportAll(w, reports).now == w.now
    decreases |reports|
  {
    if reports != [] {
      ArmKeepsLedger(Reduced(w, reports[0]), Reduce(w.state, reports[0], w.now).effects);
      ReportsKeepTime(if FromListener(reports[0]) then Report(w, reports[0]) else w, reports[1..]);
    }
  }

  lemma {:induction false} EffectsKeepTime(w: World, effects: seq<Effect>, reports: seq<Event>)
    ensures RunAll(w, effects, reports).now == w.now
    decreases |effects|
  {
    if effects != [] {
      ReportsKeepTime(Told(w), reports);
      EffectsKeepTime(RunOne(w, effects[0], reports), effects[1..], reports);
    }
  }

  /**
   * After every accepted result in the foreground the next probe is armed for exactly the wait it
   * calls for: the heartbeat after an answer, and after a failure the backoff of the failures
   * there have been since the last good evidence, this one included.
   */
  lemma ResultsArmTheirWait(actions: seq<(Action, seq<Event>)>, w: World, ok: bool, reports: seq<Event>)
    requires w == Run(INITIAL_WORLD, actions) && w.state.epoch in w.probes && !Away(w.log, |w.log|)
    ensures Step(w, ProbeSettles(w.state.epoch, ok), reports).probeTimer ==
            Some(ProbeTimer(w.now + MonitorTrace.Wait(ok, FailuresNow(w.log) + 1), w.state.epoch))
  {
    RunAccounted(INITIAL_WORLD, actions);
    RunKeepsLedger(INITIAL_WORLD, actions);
    ResultWaits(w, ok, reports);
  }

  lemma ResultWaits(w: World, ok: bool, reports: seq<Event>)
    requires Accounted(w) && Ledger(w) && w.state.epoch in w.probes && !Away(w.log, |w.log|)
    ensures Step(w, ProbeSettles(w.state.epoch, ok), reports).probeTimer ==
            Some(ProbeTimer(w.now + MonitorTrace.Wait(ok, FailuresNow(w.log) + 1), w.state.epoch))
  {
    CountedNow(w);
    AwayIs(w.log, |w.log|);
    ResultArms(w, ok, reports);
  }

  lemma CountedNow(w: World)
    requires Accounted(w)
    ensures w.state.failedProbes == FailuresNow(w.log)
  {
    FailuresAreCounted(w.log, CountFrom(w.log));
  }

  lemma ResultArms(w: World, ok: bool, reports: seq<Event>)
    requires w.state.epoch in w.probes && w.state.foreground
    ensures Step(w, ProbeSettles(w.state.epoch, ok), reports).probeTimer ==
            Some(ProbeTimer(w.now + MonitorTrace.Wait(ok, w.state.failedProbes + 1), w.state.epoch))
  {
    var e := ProbeResult(ok, w.state.epoch);
    var settled := w.(probes := w.probes - multiset{w.state.epoch});
    ResultEndsInTimer(w.state, ok, w.now);
    LastArmsTimer(Reduced(settled, e), Reduce(w.state, e, w.now).effects, reports);
  }

  lemma LastArmsTimer(w: World, effects: seq<Effect>, reports: seq<Event>)
    requires effects != [] && effects[|effects| - 1].ProbeIn?
    ensures var x := effects[|effects| - 1];
      RunAll(w, effects, reports).probeTimer == Some(ProbeTimer(w.now + x.ms, x.epoch))
  {
    RunAllLast(w, effects, reports);
    EffectsKeepTime(w, effects[..|effects| - 1], reports);
  }

  lemma ResultEndsInTimer(s: State, ok: bool, now: int)
    requires s.foreground
    ensures var effects := Reduce(s, ProbeResult(ok, s.epoch), now).effects;
      effects != [] && effects[|effects| - 1] == ProbeIn(MonitorTrace.Wait(ok, s.failedProbes + 1), s.epoch)
  {
    BackoffSchedule(s.failedProbes + 1);
  }

  // ----- What the outside does -----

  /** What an action comes to: the event dispatched for it, if it is one that is listened to. */
  function Means(w: World, a: Action): Option<Event> {
    match a
    case Wait(_) => None
    case StartMonitor => if w.started then None else Some(Start)
    case StopMonitor => Some(Stop)
    case Observe(e) =>
      if e.Start? || e.Stop? || e.ProbeResult? || e.ProbeDue? || e.Tick? || e.Resume? || e.Background? then None
      else Some(e)
    case ProbeSettles(epoch, ok) => if epoch in w.probes then Some(ProbeResult(ok, epoch)) else None
    case ProbeTimerFires =>
      if w.probeTimer.Some? && w.probeTimer.value.due <= w.now then Some(ProbeDue(w.probeTimer.value.epoch)) else None
    case TickFires(due) => if due in w.ticks && due <= w.now then Some(Tick) else None
    case AppBackgrounds => if w.started then Some(Background) else None
    case AppResumes => if w.started then Some(Resume) else None
  }

  lemma {:induction false} ReportsGrowLog(w: World, reports: seq<Event>)
    ensures w.log <= ReportAll(w, reports).log
    decreases |reports|
  {
    if reports != [] {
      ArmKeepsLedger(Reduced(w, reports[0]), Reduce(w.state, reports[0], w.now).effects);
      ReportsGrowLog(if FromListener(reports[0]) then Report(w, reports[0]) else w, reports[1..]);
    }
  }

  lemma {:induction false} EffectsGrowLog(w: World, effects: seq<Effect>, reports: seq<Event>)
    ensures w.log <= RunAll(w, effects, reports).log
    decreases |effects|
  {
    if effects != [] {
      ReportsGrowLog(Told(w), reports);
      EffectsGrowLog(RunOne(w, effects[0], reports), effects[1..], reports);
    }
  }

  lemma DispatchLogs(w: World, e: Event, reports: seq<Event>)
    ensures w.log + [(e, w.now)] <= Dispatched(w, e, reports).log
  {
    EffectsGrowLog(Reduced(w, e), Reduce(w.state, e, w.now).effects, reports);
  }

  /**
   * Nothing that is heard is lost: each action dispatches the event it means, then and there, and
   * otherwise nothing.
   */
  lemma ActionsAreHeard(w: World, a: Action, reports: seq<Event>)
    ensures Means(w, a).Some? ==> w.log + [(Means(w, a).value, w.now)] <= Step(w, a, reports).log
    ensures Means(w, a).None? ==>
        Step(w, a, reports) == w || (a.Wait? && Step(w, a, reports) == w.(now := w.now + a.ms))
  {
    match a
    case Wait(_) =>
    case StartMonitor => DispatchLogs(w.(started := true), Start, reports);
    case StopMonitor => DispatchLogs(w.(started := false, probeTimer := None, ticks := multiset{}), Stop, reports);
    case Observe(e) => DispatchLogs(w, e, reports);
    case ProbeSettles(p, ok) => DispatchLogs(w.(probes := w.probes - multiset{p}), ProbeResult(ok, p), reports);
    case ProbeTimerFires =>
      if w.probeTimer.Some? { DispatchLogs(w.(probeTimer := None), ProbeDue(w.probeTimer.value.epoch), reports); }
    case TickFires(due) => DispatchLogs(w.(ticks := w.ticks - multiset{due}), Tick, reports);
    case AppBackgrounds => DispatchLogs(w, Background, reports);
    case AppResumes => DispatchLogs(w, Resume, reports);
  }

  /** A stopped monitor leaves no timer, one in the background no probe timer; neither leaves an old one to fire. */
  lemma TimersGo(w: World, reports: seq<Event>)
    ensures var stopped := Step(w, StopMonitor, reports); stopped.probeTimer.None? && stopped.ticks == multiset{}
    ensures w.started ==> Step(w, AppBackgrounds, reports).probeTimer.None?
  {}

  // ----- What it shows -----

  /** In every run the app shows exactly what the events dispatched so far say, as of the last of them. */
  lemma PublishedExactlyWhen(actions: seq<(Action, seq<Event>)>, shown: Connection)
    ensures var w := Run(INITIAL_WORLD, actions);
      w.published == shown <==>
      if w.log == [] then shown == Online else Shows(w.log, w.log[|w.log| - 1].1, shown)
  {
    var w := Run(INITIAL_WORLD, actions);
    RunAccounted(INITIAL_WORLD, actions);
    if w.log != [] { ShownExactlyWhen(w.log, w.log[|w.log| - 1].1, shown); }
  }
}
