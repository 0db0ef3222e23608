/**
 * The connection monitor's controller (apps/mobile/lib/connectionMonitor.ts) around the pure
 * core: one probe timer, a set of tick timers, the health probes in flight, and a clock.
 */
module Monitor {
  import opened Prelude
  import opened MonitorCore

  datatype ProbeTimer = ProbeTimer(due: int, epoch: int)

  /** The controller's variables, and what it has going on outside: armed timers and unanswered probes. */
  datatype World = World(
    now: int,
    state: State,
    published: Connection,
    started: bool,                    // `teardown` is set
    probeTimer: Option<ProbeTimer>,
    ticks: multiset<int>,             // when each tick timer is due
    probes: multiset<int>,            // the epoch each unanswered probe was sent in
    log: Trace,                       // history: everything dispatched, with its time
    told: set<int>                    // history: the places in the log whose events had sockets replaced
  )

  const INITIAL_WORLD := World(0, INITIAL, Online, false, None, multiset{}, multiset{}, [], {})

  // ----- Dispatching -----

  /** What a reconnect listener reports while it runs: its own socket, let go of or connecting again. */
  predicate FromListener(e: Event) { e.SocketEvent? || e.Untrack? }

  /** An effect that only touches timers and probes. */
  function Arm(w: World, effect: Effect): World {
    match effect
    case Probe(epoch) => w.(probes := w.probes + multiset{epoch})
    case ProbeIn(ms, epoch) => w.(probeTimer := Some(ProbeTimer(w.now + ms, epoch)))
    case TickIn(ms) => w.(ticks := w.ticks + multiset{w.now + ms})
    case ReconnectSockets => w
    case CheckSession => w
  }

  function ArmAll(w: World, effects: seq<Effect>): World
    decreases |effects|
  {
    if effects == [] then w else ArmAll(Arm(w, effects[0]), effects[1..])
  }

  function Reduced(w: World, e: Event): World {
    var s := Reduce(w.state, e, w.now).state;
    w.(state := s, published := Derive(s, w.now), log := w.log + [(e, w.now)])
  }

  /** A listener's report. It asks for no reconnect of its own, so it nests no further. */
  function Report(w: World, e: Event): World {
    ArmAll(Reduced(w, e), Reduce(w.state, e, w.now).effects)
  }

  function ReportAll(w: World, reports: seq<Event>): World
    decreases |reports|
  {
    if reports == [] then w
    else ReportAll(if FromListener(reports[0]) then Report(w, reports[0]) else w, reports[1..])
  }

  /** The world after one effect of a dispatch. */
  function RunOne(w: World, effect: Effect, reports: seq<Event>): World {
    if effect.ReconnectSockets? then ReportAll(Told(w), reports) else Arm(w, effect)
  }

  /** The listeners are told, because of the event dispatched last. */
  function Told(w: World): World { w.(told := w.told + {|w.log| - 1}) }

  /** The effects in order; `reports` is what the listeners dispatch when they are told to reconnect. */
  function RunAll(w: World, effects: seq<Effect>, reports: seq<Event>): World
    decreases |effects|
  {
    if effects == [] then w
    else RunAll(RunOne(w, effects[0], reports), effects[1..], reports)
  }

  function Dispatched(w: World, e: Event, reports: seq<Event>): World {
    RunAll(Reduced(w, e), Reduce(w.state, e, w.now).effects, reports)
  }

  // ----- The controller's steps -----

  datatype Action =
    | Wait(ms: nat)                      // time passes
    | StartMonitor
    | StopMonitor
    | Observe(event: Event)              // a request's outcome, a socket, a retry, another endpoint
    | ProbeSettles(epoch: int, ok: bool)
    | ProbeTimerFires
    | TickFires(due: int)
    | AppBackgrounds
    | AppResumes

  /** Events that reach the monitor from outside, other than through its own timers and probes. */
  predicate External(e: Event) {
    e.Answered? || e.Suspect? || e.Stalled? || e.SocketEvent? || e.Untrack? || e.Retry? || e.Reset?
  }

  function Step(w: World, a: Action, reports: seq<Event>): World {
    match a
    case Wait(ms) => w.(now := w.now + ms)
    case StartMonitor => if w.started then w else Dispatched(w.(started := true), Start, reports)
    case StopMonitor => Dispatched(w.(started := false, probeTimer := None, ticks := multiset{}), Stop, reports)
    case Observe(e) => if External(e) then Dispatched(w, e, reports) else w
    case ProbeSettles(epoch, ok) =>
      if epoch !in w.probes then w
      else Dispatched(w.(probes := w.probes - multiset{epoch}), ProbeResult(ok, epoch), reports)
    case ProbeTimerFires =>
      if w.probeTimer.None? || w.now < w.probeTimer.value.due then w
      else Dispatched(w.(probeTimer := None), ProbeDue(w.probeTimer.value.epoch), reports)
    case TickFires(due) =>
      if due !in w.ticks || w.now < due then w
      else Dispatched(w.(ticks := w.ticks - multiset{due}), Tick, reports)
    case AppBackgrounds => if w.started then Dispatched(w, Background, reports).(probeTimer := None) else w
    case AppResumes => if w.started then Dispatched(w, Resume, reports) else w
  }

  function Run(w: World, actions: seq<(Action, seq<Event>)>): World
    decreases |actions|
  {
    if actions == [] then w else Run(Step(w, actions[0].0, actions[0].1), actions[1..])
  }

  // ----- The controller itself -----

  /** The module's variables. `inFlight` stands for the `getHealth` promises not settled yet. */
  class Controller {
    var now: int
    var state: State
    var published: Connection
    var teardown: bool
    var probeTimer: Option<ProbeTimer>
    var tickTimers: multiset<int>
    var inFlight: multiset<int>
    ghost var log: Trace
    ghost var told: set<int>

    constructor ()
      ensures View() == INITIAL_WORLD
    {
      log, told := [], {};
      now, state, published, teardown := 0, INITIAL, Online, false;
      probeTimer, tickTimers, inFlight := None, multiset{}, multiset{};
    }

    ghost function View(): World
      reads this
    {
      World(now, state, published, teardown, probeTimer, tickTimers, inFlight, log, told)
    }

    method RunEffect(effect: Effect)
      modifies this
      ensures View() == Arm(old(View()), effect)
    {
      match effect
      case Probe(epoch) => inFlight := inFlight + multiset{epoch};
      case ProbeIn(ms, epoch) => probeTimer := Some(ProbeTimer(now + ms, epoch));
      case TickIn(ms) => tickTimers := tickTimers + multiset{now + ms};
      case ReconnectSockets =>
      case CheckSession =>
    }

    method DispatchReport(e: Event)
      modifies this
      ensures View() == Report(old(View()), e)
    {
      var result := Reduce(state, e, now);
      state, published := result.state, Derive(result.state, now);
      log := log + [(e, now)];
      ghost var goal := ArmAll(View(), result.effects);
      for i := 0 to |result.effects|
        invariant ArmAll(View(), result.effects[i..]) == goal
      {
        assert result.effects[i..][1..] == result.effects[i + 1..];
        RunEffect(result.effects[i]);
      }
    }

    /** The reconnect listeners, each replacing its socket and reporting it. */
    method NotifyListeners(reports: seq<Event>)
      modifies this
      ensures View() == ReportAll(Told(old(View())), reports)
    {
      told := told + {|log| - 1};
      ghost var goal := ReportAll(View(), reports);
      for i := 0 to |reports|
        invariant ReportAll(View(), reports[i..]) == goal
      {
        assert reports[i..][1..] == reports[i + 1..];
        if FromListener(reports[i]) {
          DispatchReport(reports[i]);
        }
      }
    }

    method Dispatch(e: Event, reports: seq<Event>)
      modifies this
      ensures View() == Dispatched(old(View()), e, reports)
    {
      var result := Reduce(state, e, now);
      state, published := result.state, Derive(result.state, now);
      log := log + [(e, now)];
      ghost var goal := RunAll(View(), result.effects, reports);
      for i := 0 to |result.effects|
        invariant RunAll(View(), result.effects[i..], reports) == goal
      {
        assert result.effects[i..][1..] == result.effects[i + 1..];
        if result.effects[i].ReconnectSockets? {
          NotifyListeners(reports);
        } else {
          RunEffect(result.effects[i]);
        }
      }
    }

    method Start(reports: seq<Event>)
      modifies this
      ensures View() == Step(old(View()), StartMonitor, reports)
    {
      if teardown { return; }
      teardown := true;
      Dispatch(Event.Start, reports);
    }

    method ClearTimers()
      modifies this`probeTimer, this`tickTimers
      ensures probeTimer == None && tickTimers == multiset{}
    {
      probeTimer, tickTimers := None, multiset{};
    }

    method Stop(reports: seq<Event>)
      modifies this
      ensures View() == Step(old(View()), StopMonitor, reports)
    {
      teardown := false;
      ClearTimers();
      Dispatch(Event.Stop, reports);
    }

    method OnProbeSettled(epoch: int, ok: bool, reports: seq<Event>)
      modifies this
      ensures View() == Step(old(View()), ProbeSettles(epoch, ok), reports)
    {
      if epoch in inFlight {
        inFlight := inFlight - multiset{epoch};
        Dispatch(ProbeResult(ok, epoch), reports);
      }
    }

    method OnProbeTimer(reports: seq<Event>)
      modifies this
      ensures View() == Step(old(View()), ProbeTimerFires, reports)
    {
      if probeTimer.Some? && now >= probeTimer.value.due {
        var epoch := probeTimer.value.epoch;
        probeTimer := None;
        Dispatch(ProbeDue(epoch), reports);
      }
    }

    method OnTick(due: int, reports: seq<Event>)
      modifies this
      ensures View() == Step(old(View()), TickFires(due), reports)
    {
      if due in tickTimers && now >= due {
        tickTimers := tickTimers - multiset{due};
        Dispatch(Tick, reports);
      }
    }

    /** The AppState listener; `backgrounded` is the variable `startMonitor` closes over. */
    method OnAppState(backgrounded: bool, next: AppState, reports: seq<Event>) returns (after: bool)
      requires teardown
      modifies this
      ensures after == AppStateEvent(backgrounded, next).1
      ensures
        View() == match AppStateEvent(backgrounded, next).0
                  case None => old(View())
                  case Some(e) => Step(old(View()), if e == Background then AppBackgrounds else AppResumes, reports)
    {
      var (event, next_) := AppStateEvent(backgrounded, next);
      after := next_;
      if event == Some(Background) {
        Dispatch(Background, reports);
        probeTimer := None;
      } else if event == Some(Resume) {
        Dispatch(Resume, reports);
      }
    }
  }

  // ----- The invariant, with effects still to run -----

  function PendingProbes(effects: seq<Effect>): nat {
    if effects == [] then 0 else (if effects[0].Probe? then 1 else 0) + PendingProbes(effects[1..])
  }

  /** A tick is armed, or about to be, for the moment a socket connecting since `since` counts as stuck. */
  ghost predicate Covered(w: World, effects: seq<Effect>, since: int) {
    || since + STUCK_CONNECTING_MS <= w.now
    || since + STUCK_CONNECTING_MS in w.ticks
    || (since == w.now && TickIn(STUCK_CONNECTING_MS) in effects)
  }

  ghost predicate ProbesOk(w: World, effects: seq<Effect>) {
    && (forall e :: e in w.probes ==> e <= w.state.epoch)
    && (forall x :: x in effects && x.Probe? ==> x.epoch == w.state.epoch)
    && (forall x :: x in effects && x.ProbeIn? ==> x.epoch == w.state.epoch)
    && (w.probeTimer.Some? ==> w.probeTimer.value.epoch <= w.state.epoch)
    && w.probes[w.state.epoch] + PendingProbes(effects) == if w.state.probeInFlight then 1 else 0
  }

  ghost predicate NeverQuiet(w: World, effects: seq<Effect>) {
    w.state.running && w.state.foreground ==>
      || w.state.probeInFlight
      || (w.probeTimer.Some? && w.probeTimer.value.epoch == w.state.epoch)
      || exists x :: x in effects && x.ProbeIn?
  }

  ghost predicate SocketsCovered(w: World, effects: seq<Effect>) {
    && (forall k :: k in w.state.sockets && w.state.sockets[k].status == Connecting ==>
          Covered(w, effects, w.state.sockets[k].since))
    && (w.state.released.Some? && w.state.released.value.socket.status == Connecting ==>
          Covered(w, effects, w.state.released.value.socket.since))
  }

  ghost predicate Inv(w: World, effects: seq<Effect>) {
    ProbesOk(w, effects) && NeverQuiet(w, effects) && SocketsCovered(w, effects)
  }

  lemma {:induction false} PendingConcat(a: seq<Effect>, b: seq<Effect>)
    ensures PendingProbes(a + b) == PendingProbes(a) + PendingProbes(b)
  {
    if a == [] {
      assert a + b == b;
    } else {
      assert (a + b)[1..] == a[1..] + b;
      PendingConcat(a[1..], b);
    }
  }

  /** Running the next effect keeps the invariant for those after it. */
  lemma ArmKeepsInv(w: World, effects: seq<Effect>)
    requires effects != [] && Inv(w, effects)
    ensures Inv(Arm(w, effects[0]), effects[1..])
  {
    ArmKeepsProbes(w, effects);
    ArmKeepsQuiet(w, effects);
    ArmKeepsSockets(w, effects);
  }

  lemma ArmKeepsProbes(w: World, effects: seq<Effect>)
    requires effects != [] && ProbesOk(w, effects)
    ensures ProbesOk(Arm(w, effects[0]), effects[1..])
  {
    assert effects[0] in effects;
    assert forall y :: y in effects[1..] ==> y in effects;
  }

  lemma ArmKeepsQuiet(w: World, effects: seq<Effect>)
    requires effects != [] && ProbesOk(w, effects) && NeverQuiet(w, effects)
    ensures NeverQuiet(Arm(w, effects[0]), effects[1..])
  {
    assert effects == [effects[0]] + effects[1..];
    assert effects[0] in effects;
  }

  lemma ArmKeepsSockets(w: World, effects: seq<Effect>)
    requires effects != [] && SocketsCovered(w, effects)
    ensures SocketsCovered(Arm(w, effects[0]), effects[1..])
  {
    assert effects == [effects[0]] + effects[1..];
    forall since | Covered(w, effects, since)
      ensures Covered(Arm(w, effects[0]), effects[1..], since)
    {
    }
  }

  lemma {:induction false} ArmAllKeepsInv(w: World, effects: seq<Effect>, later: seq<Effect>)
    requires Inv(w, effects + later)
    ensures Inv(ArmAll(w, effects), later)
    decreases |effects|
  {
    if effects == [] {
      assert effects + later == later;
    } else {
      ArmKeepsInv(w, effects + later);
      assert (effects + later)[1..] == effects[1..] + later;
      ArmAllKeepsInv(Arm(w, effects[0]), effects[1..], later);
    }
  }

  /** A socket's report keeps the invariant, whatever is still to run around it. */
  lemma SocketKeepsInv(w: World, e: Event, later: seq<Effect>)
    requires FromListener(e) && Inv(w, later)
    ensures Inv(Reduced(w, e), Reduce(w.state, e, w.now).effects + later)
  {
    SocketKeepsProbes(w, e, later);
    SocketKeepsQuiet(w, e, later);
    SocketKeepsCover(w, e, later);
  }

  /** What a socket's report can ask for: at most a probe, which it marks in flight. */
  lemma SocketEffects(s: State, e: Event, now: int)
    requires FromListener(e)
    ensures var d := Reduce(s, e, now);
      && d.state.epoch == s.epoch && d.state.running == s.running && d.state.foreground == s.foreground
      && PendingProbes(d.effects) == (if d.state.probeInFlight then 1 else 0) - (if s.probeInFlight then 1 else 0)
      && (forall x :: x in d.effects ==> !x.ProbeIn? && (x.Probe? ==> x.epoch == s.epoch))
  {
    PendingOne(Probe(s.epoch));
    PendingOne(CheckSession);
    PendingOne(TickIn(CONNECT_GRACE_MS));
    PendingConcat([TickIn(CONNECT_GRACE_MS)], [TickIn(STUCK_CONNECTING_MS)]);
    PendingOne(TickIn(STUCK_CONNECTING_MS));
    if e.SocketEvent? && e.status == Closed {
      assert [] + [Probe(s.epoch)] == [Probe(s.epoch)] && [] + [CheckSession] == [CheckSession];
    }
    if e.SocketEvent? && e.status == Connecting {
      assert [] + [TickIn(CONNECT_GRACE_MS)] == [TickIn(CONNECT_GRACE_MS)];
    }
  }

  lemma PendingOne(x: Effect)
    ensures PendingProbes([x]) == if x.Probe? then 1 else 0
  {
    assert [x][1..] == [];
  }

  lemma SocketKeepsProbes(w: World, e: Event, later: seq<Effect>)
    requires FromListener(e) && ProbesOk(w, later)
    ensures ProbesOk(Reduced(w, e), Reduce(w.state, e, w.now).effects + later)
  {
    var d := Reduce(w.state, e, w.now);
    SocketEffects(w.state, e, w.now);
    PendingConcat(d.effects, later);
  }

  lemma SocketKeepsQuiet(w: World, e: Event, later: seq<Effect>)
    requires FromListener(e) && ProbesOk(w, later) && NeverQuiet(w, later)
    ensures NeverQuiet(Reduced(w, e), Reduce(w.state, e, w.now).effects + later)
  {
    SocketEffects(w.state, e, w.now);
    assert forall x :: x in later ==> x in Reduce(w.state, e, w.now).effects + later;
  }

  lemma SocketKeepsCover(w: World, e: Event, later: seq<Effect>)
    requires FromListener(e) && SocketsCovered(w, later)
    ensures SocketsCovered(Reduced(w, e), Reduce(w.state, e, w.now).effects + later)
  {
    var d := Reduce(w.state, e, w.now);
    var w', effects := Reduced(w, e), d.effects + later;
    forall since | Covered(w, later, since)
      ensures Covered(w', effects, since)
    {
    }
    if e.SocketEvent? {
      var socket := d.state.sockets[e.key];
      if socket.status == Connecting {
        var previous := Previous(w.state, e.key, w.now);
        if previous.None? || previous.value.status != Connecting {
          assert TickIn(STUCK_CONNECTING_MS) in d.effects;
        }
        assert Covered(w', effects, socket.since);
      }
    }
  }

  lemma {:induction false} ReportsKeepInv(w: World, reports: seq<Event>, later: seq<Effect>)
    requires Inv(w, later)
    ensures Inv(ReportAll(w, reports), later)
    decreases |reports|
  {
    if reports != [] {
      if FromListener(reports[0]) {
        SocketKeepsInv(w, reports[0], later);
        ArmAllKeepsInv(Reduced(w, reports[0]), Reduce(w.state, reports[0], w.now).effects, later);
        ReportsKeepInv(Report(w, reports[0]), reports[1..], later);
      } else {
        ReportsKeepInv(w, reports[1..], later);
      }
    }
  }

  lemma {:induction false} RunAllKeepsInv(w: World, effects: seq<Effect>, reports: seq<Event>)
    requires Inv(w, effects)
    ensures Inv(RunAll(w, effects, reports), [])
    decreases |effects|
  {
    if effects != [] {
      ArmKeepsInv(w, effects);
      if effects[0].ReconnectSockets? {
        ReportsKeepInv(Told(w), reports, effects[1..]);
        RunAllKeepsInv(ReportAll(Told(w), reports), effects[1..], reports);
      } else {
        RunAllKeepsInv(Arm(w, effects[0]), effects[1..], reports);
      }
    }
  }

  // ----- Each step keeps the invariant -----

  function Bit(b: bool): int { if b then 1 else 0 }

  lemma DraftPending(d: Draft, x: Effect, ms: int, now: int)
    requires !x.Probe?
    ensures PendingProbes(WithProbe(d).effects) ==
            PendingProbes(d.effects) + Bit(WithProbe(d).state.probeInFlight) - Bit(d.state.probeInFlight)
    ensures PendingProbes(WithEffect(d, x).effects) == PendingProbes(d.effects)
    ensures PendingProbes(WithHold(d, ms, now).effects) == PendingProbes(d.effects)
  {
    PendingConcat(d.effects, [Probe(d.state.epoch)]);
    PendingConcat(d.effects, [x]);
    PendingConcat(d.effects, [TickIn(ms)]);
    PendingOne(Probe(d.state.epoch));
    PendingOne(x);
    PendingOne(TickIn(ms));
  }

  /** The effects of a draft are all of one epoch. */
  ghost predicate OfEpoch(d: Draft, epoch: int) {
    && d.state.epoch == epoch
    && (forall x :: x in d.effects && x.Probe? ==> x.epoch == epoch)
    && (forall x :: x in d.effects && x.ProbeIn? ==> x.epoch == epoch)
  }

  /** Every probe and probe timer a reduction asks for is of the epoch it leaves. */
  lemma ReduceEpochs(s: State, e: Event, now: int)
    ensures OfEpoch(Reduce(s, e, now), s.epoch + Bit(e.Stop? || e.Resume? || e.Reset?))
  {
    if e.Resume? {
      ResumeEpochs(s, now);
    } else if e.ProbeResult? {
      ResultEpochs(s, e.ok);
    } else if e.SocketEvent? {
      SocketEpochs(s, e.key, e.status, e.code, now);
    }
  }

  lemma ResumeEpochs(s: State, now: int)
    ensures OfEpoch(ReduceResume(s, now), s.epoch + 1)
  {}

  lemma ResultEpochs(s: State, ok: bool)
    ensures OfEpoch(ReduceProbeResult(s, ok), s.epoch)
  {}

  lemma SocketEpochs(s: State, key: string, status: Status, code: Option<int>, now: int)
    ensures OfEpoch(ReduceSocket(s, key, status, code, now), s.epoch)
  {}

  /** The probes a reduction asks for are exactly those it newly marks in flight. */
  lemma ReducePending(s: State, e: Event, now: int)
    ensures var d := Reduce(s, e, now);
      && (!e.Stop? && !e.Resume? && !e.Reset? && !e.ProbeResult? ==>
           PendingProbes(d.effects) == Bit(d.state.probeInFlight) - Bit(s.probeInFlight))
      && (e.Stop? || e.Resume? || e.Reset? ==> PendingProbes(d.effects) == Bit(d.state.probeInFlight))
      && (e.ProbeResult? ==> PendingProbes(d.effects) == 0)
      && (e.ProbeResult? && e.probed == s.epoch ==> !d.state.probeInFlight)
  {
    var d := Draft(s, []);
    match e
    case Start => PendingOfHold(s.(running := true, foreground := true), now);
    case Suspect => DraftPending(d, CheckSession, 0, now);
    case Stalled => DraftPending(d, CheckSession, 0, now);
    case ProbeDue(_) => DraftPending(d, CheckSession, 0, now);
    case Tick => DraftPending(d, CheckSession, 0, now);
    case ProbeResult(ok, probed) => PendingOfResult(s, ok);
    case SocketEvent(_, _, _) => SocketEffects(s, e, now);
    case Resume => PendingOfResume(s, now);
    case Retry => PendingOfRetry(s, now);
    case Reset =>
      PendingOfHold(s.(epoch := s.epoch + 1, server := Unknown, failedProbes := 0, probeInFlight := false), now);
    case _ =>
  }

  lemma PendingOfHold(s: State, now: int)
    ensures var d := WithProbe(WithHold(Draft(s, []), CONNECT_GRACE_MS, now));
      PendingProbes(d.effects) == Bit(d.state.probeInFlight) - Bit(s.probeInFlight)
  {
    var d := Draft(s, []);
    DraftPending(d, CheckSession, CONNECT_GRACE_MS, now);
    DraftPending(WithHold(d, CONNECT_GRACE_MS, now), CheckSession, 0, now);
  }

  lemma PendingOfRetry(s: State, now: int)
    ensures var d := Reduce(s, Retry, now);
      PendingProbes(d.effects) == Bit(d.state.probeInFlight) - Bit(s.probeInFlight)
  {
    var d := Draft(s, []);
    DraftPending(d, CheckSession, 0, now);
    DraftPending(WithProbe(d), ReconnectSockets, 0, now);
  }

  lemma PendingOfResult(s: State, ok: bool)
    ensures PendingProbes(ReduceProbeResult(s, ok).effects) == 0
  {
    var settled := s.(probeInFlight := false);
    PendingOne(ReconnectSockets);
    if ok {
      var d := Draft(ServerAnswered(settled), if SomeSocket(s, Closed) then [ReconnectSockets] else []);
      DraftPending(d, ProbeIn(HEARTBEAT_MS, s.epoch), 0, 0);
    } else {
      var failed := settled.(server := Failing, failedProbes := s.failedProbes + 1);
      var d := Draft(failed, if SomeSocket(s, Open) then [ReconnectSockets] else []);
      DraftPending(d, ProbeIn(BackoffMs(failed.failedProbes), s.epoch), 0, 0);
    }
  }

  lemma PendingOfResume(s: State, now: int)
    ensures PendingProbes(ReduceResume(s, now).effects) == Bit(ReduceResume(s, now).state.probeInFlight)
  {
    var d := Draft(s.(epoch := s.epoch + 1, foreground := true, probeInFlight := false), []);
    if s.sockets == map[] {
      DraftPending(d, CheckSession, 0, now);
    } else {
      var replaced := d.(state := d.state.(sockets := map k | k in s.sockets :: Socket(Connecting, now)));
      DraftPending(replaced, CheckSession, RESUME_GRACE_MS, now);
      var held := WithHold(replaced, RESUME_GRACE_MS, now);
      DraftPending(held, ReconnectSockets, 0, now);
      var told := WithEffect(held, ReconnectSockets);
      DraftPending(told, TickIn(STUCK_CONNECTING_MS), 0, now);
      DraftPending(WithEffect(told, TickIn(STUCK_CONNECTING_MS)), CheckSession, 0, now);
    }
  }

  /** The world an event is dispatched in, after its own timer or probe has been taken away. */
  ghost predicate Ready(w: World, e: Event) {
    && SocketsCovered(w, [])
    && (forall p :: p in w.probes ==> p <= w.state.epoch)
    && (w.probeTimer.Some? ==> w.probeTimer.value.epoch <= w.state.epoch)
    && w.probes[w.state.epoch] + Bit(e.ProbeResult? && e.probed == w.state.epoch) == Bit(w.state.probeInFlight)
    && (NeverQuiet(w, []) || e.Start? || e.Stop? || e.Background? || (e.ProbeDue? && e.armed == w.state.epoch))
  }

  lemma ReadyDispatches(w: World, e: Event, reports: seq<Event>)
    requires Ready(w, e)
    ensures Inv(Dispatched(w, e, reports), [])
  {
    var d := Reduce(w.state, e, w.now);
    ReducePending(w.state, e, w.now);
    ReduceEpochs(w.state, e, w.now);
    assert ProbesOk(Reduced(w, e), d.effects);
    ReadyQuiet(w, e);
    ReadyCover(w, e);
    RunAllKeepsInv(Reduced(w, e), d.effects, reports);
  }

  lemma ReadyQuiet(w: World, e: Event)
    requires Ready(w, e)
    ensures NeverQuiet(Reduced(w, e), Reduce(w.state, e, w.now).effects)
  {
    var d := Reduce(w.state, e, w.now);
    if e.ProbeResult? && e.probed == w.state.epoch && w.state.foreground {
      var x := d.effects[|d.effects| - 1];
      assert x.ProbeIn? && x in d.effects;
    }
  }

  lemma ReadyCover(w: World, e: Event)
    requires Ready(w, e)
    ensures SocketsCovered(Reduced(w, e), Reduce(w.state, e, w.now).effects)
  {
    if FromListener(e) {
      SocketKeepsCover(w, e, []);
      assert Reduce(w.state, e, w.now).effects + [] == Reduce(w.state, e, w.now).effects;
    } else if e.Resume? {
      ResumeCovers(w);
    } else {
      OthersKeepCover(w, e);
    }
  }

  lemma ResumeCovers(w: World)
    requires SocketsCovered(w, [])
    ensures SocketsCovered(Reduced(w, Resume), Reduce(w.state, Resume, w.now).effects)
  {
    var effects := Reduce(w.state, Resume, w.now).effects;
    if w.state.sockets != map[] {
      assert TickIn(STUCK_CONNECTING_MS) in effects;
    }
    forall since | Covered(w, [], since) ensures Covered(Reduced(w, Resume), effects, since) {}
  }

  lemma OthersKeepCover(w: World, e: Event)
    requires SocketsCovered(w, []) && !FromListener(e) && !e.Resume?
    ensures SocketsCovered(Reduced(w, e), Reduce(w.state, e, w.now).effects)
  {
    var s := Reduce(w.state, e, w.now).state;
    assert e.Stop? || (s.sockets == w.state.sockets && s.released == w.state.released);
    forall since | Covered(w, [], since) ensures Covered(Reduced(w, e), Reduce(w.state, e, w.now).effects, since) {}
  }

  lemma StepKeepsInv(w: World, a: Action, reports: seq<Event>)
    requires Inv(w, [])
    ensures Inv(Step(w, a, reports), [])
  {
    if a.Wait? || a.StartMonitor? || a.StopMonitor? || a.Observe? {
      OwnStepKeepsInv(w, a, reports);
    } else if a.AppBackgrounds? || a.AppResumes? {
      AppStepKeepsInv(w, a, reports);
    } else {
      TimerStepKeepsInv(w, a, reports);
    }
  }

  lemma OwnStepKeepsInv(w: World, a: Action, reports: seq<Event>)
    requires Inv(w, []) && (a.Wait? || a.StartMonitor? || a.StopMonitor? || a.Observe?)
    ensures Inv(Step(w, a, reports), [])
  {
    match a
    case Wait(ms) => forall since | Covered(w, [], since) ensures Covered(Step(w, a, reports), [], since) {}
    case StartMonitor => ReadyIf(w, w.(started := true), Start, reports);
    case StopMonitor =>
      StopIsClean(w.(started := false, probeTimer := None, ticks := multiset{}), reports);
    case Observe(e) => if External(e) { ReadyIf(w, w, e, reports); }
  }

  lemma TimerStepKeepsInv(w: World, a: Action, reports: seq<Event>)
    requires Inv(w, []) && (a.ProbeSettles? || a.ProbeTimerFires? || a.TickFires?)
    ensures Inv(Step(w, a, reports), [])
  {
    match a
    case ProbeSettles(epoch, ok) => SettleKeepsInv(w, epoch, ok, reports);
    case ProbeTimerFires => FireKeepsInv(w, reports);
    case TickFires(due) => TickKeepsInv(w, due, reports);
  }

  lemma SettleKeepsInv(w: World, epoch: int, ok: bool, reports: seq<Event>)
    requires Inv(w, [])
    ensures Inv(Step(w, ProbeSettles(epoch, ok), reports), [])
  {
    if epoch in w.probes { ReadyIf(w, w.(probes := w.probes - multiset{epoch}), ProbeResult(ok, epoch), reports); }
  }

  lemma FireKeepsInv(w: World, reports: seq<Event>)
    requires Inv(w, [])
    ensures Inv(Step(w, ProbeTimerFires, reports), [])
  {
    if w.probeTimer.Some? { ReadyIf(w, w.(probeTimer := None), ProbeDue(w.probeTimer.value.epoch), reports); }
  }

  lemma TickKeepsInv(w: World, due: int, reports: seq<Event>)
    requires Inv(w, [])
    ensures Inv(Step(w, TickFires(due), reports), [])
  {
    if due in w.ticks && w.now >= due { ReadyIf(w, w.(ticks := w.ticks - multiset{due}), Tick, reports); }
  }

  lemma AppStepKeepsInv(w: World, a: Action, reports: seq<Event>)
    requires Inv(w, []) && (a.AppBackgrounds? || a.AppResumes?)
    ensures Inv(Step(w, a, reports), [])
  {
    if a.AppBackgrounds? {
      ReadyIf(w, w, Background, reports);
      BackgroundStays(w, reports);
    } else {
      ReadyIf(w, w, Resume, reports);
    }
  }

  lemma ReadyIf(w: World, w': World, e: Event, reports: seq<Event>)
    requires Inv(w, []) && w'.state == w.state && w'.now == w.now
    requires !e.Stop? &&
        (e.Start? || External(e) || e.Tick? || e.Background? || e.Resume? || e.ProbeResult? || e.ProbeDue?)
    requires w'.probes == (if e.ProbeResult? then w.probes - multiset{e.probed} else w.probes)
    requires e.ProbeResult? ==> e.probed in w.probes
    requires w'.probeTimer == (if e.ProbeDue? then None else w.probeTimer)
    requires e.ProbeDue? ==> w.probeTimer.Some? && e.armed == w.probeTimer.value.epoch
    requires w'.ticks == w.ticks || exists due :: due in w.ticks && due <= w.now && w'.ticks == w.ticks - multiset{due}
    ensures Inv(Dispatched(w', e, reports), [])
  {
    CoverKept(w, w');
    assert Ready(w', e);
    ReadyDispatches(w', e, reports);
  }

  /** A tick that has run covered no socket that still has time. */
  lemma CoverKept(w: World, w': World)
    requires SocketsCovered(w, []) && w'.state == w.state && w'.now == w.now
    requires w'.ticks == w.ticks || exists due :: due in w.ticks && due <= w.now && w'.ticks == w.ticks - multiset{due}
    ensures SocketsCovered(w', [])
  {
    forall since | Covered(w, [], since) ensures Covered(w', [], since) {}
  }

  /** Stopping forgets the sockets with the timers, and leaves every unanswered probe in an old epoch. */
  lemma StopIsClean(w: World, reports: seq<Event>)
    requires forall p :: p in w.probes ==> p <= w.state.epoch
    requires w.probeTimer.None?
    ensures Inv(Dispatched(w, Stop, reports), [])
  {
    assert Dispatched(w, Stop, reports) == Reduced(w, Stop);
  }

  lemma BackgroundStays(w: World, reports: seq<Event>)
    ensures Dispatched(w, Background, reports) == Reduced(w, Background)
  {}

  lemma {:induction false} RunKeepsInv(w: World, actions: seq<(Action, seq<Event>)>)
    requires Inv(w, [])
    ensures Inv(Run(w, actions), [])
    decreases |actions|
  {
    if actions != [] {
      StepKeepsInv(w, actions[0].0, actions[0].1);
      RunKeepsInv(Step(w, actions[0].0, actions[0].1), actions[1..]);
    }
  }

  /**
   * The monitor never goes quiet. After every step of any run: while it runs in the foreground a
   * probe of the current epoch is unanswered or a probe timer of the current epoch is armed; at
   * most one current probe is ever unanswered; nothing outstanding is from a later epoch.
   */
  lemma NeverGoesQuiet(actions: seq<(Action, seq<Event>)>)
    ensures var w := Run(INITIAL_WORLD, actions);
      && (w.state.running && w.state.foreground ==>
           || w.probes[w.state.epoch] == 1
           || (w.probeTimer.Some? && w.probeTimer.value.epoch == w.state.epoch))
      && w.probes[w.state.epoch] <= 1
      && (w.state.probeInFlight <==> w.probes[w.state.epoch] == 1)
      && (forall p :: p in w.probes ==> p <= w.state.epoch)
  {
    RunKeepsInv(INITIAL_WORLD, actions);
  }

  /**
   * Stuck sockets are noticed. In every run, each tracked socket that has been connecting for
   * under three seconds has a tick armed for the very moment it reaches them, however it was let
   * go of and tracked again, and across resumes.
   */
  lemma StuckSocketsHaveATick(actions: seq<(Action, seq<Event>)>, key: string)
    requires var s := Run(INITIAL_WORLD, actions).state;
      key in s.sockets && s.sockets[key].status == Connecting
    ensures var w := Run(INITIAL_WORLD, actions);
      var since := w.state.sockets[key].since;
      w.now - since < STUCK_CONNECTING_MS ==> since + STUCK_CONNECTING_MS in w.ticks
  {
    RunKeepsInv(INITIAL_WORLD, actions);
  }

  /** And when that tick runs, in the foreground of a running monitor, a probe is in flight. */
  lemma TickProbesStuckSocket(actions: seq<(Action, seq<Event>)>, key: string, due: int, reports: seq<Event>)
    requires var w := Run(INITIAL_WORLD, actions);
      && w.state.running && w.state.foreground
      && due in w.ticks && due <= w.now
      && key in w.state.sockets && w.state.sockets[key].status == Connecting
      && w.state.sockets[key].since + STUCK_CONNECTING_MS <= due
    ensures var w := Step(Run(INITIAL_WORLD, actions), TickFires(due), reports);
      w.state.probeInFlight && w.probes[w.state.epoch] == 1
  {
    RunKeepsInv(INITIAL_WORLD, actions);
    TickProbes(Run(INITIAL_WORLD, actions), key, due, reports);
  }

  lemma TickProbes(w: World, key: string, due: int, reports: seq<Event>)
    requires Inv(w, []) && w.state.running && w.state.foreground && due in w.ticks && due <= w.now
    requires key in w.state.sockets && w.state.sockets[key].status == Connecting
    requires w.state.sockets[key].since + STUCK_CONNECTING_MS <= due
    ensures var w' := Step(w, TickFires(due), reports);
      w'.state.probeInFlight && w'.probes[w'.state.epoch] == 1
  {
    StepKeepsInv(w, TickFires(due), reports);
    StuckTickAsks(w.(ticks := w.ticks - multiset{due}), key, reports);
  }

  lemma StuckTickAsks(w: World, key: string, reports: seq<Event>)
    requires w.state.running && w.state.foreground && key in w.state.sockets
    requires w.state.sockets[key].status == Connecting && w.state.sockets[key].since + STUCK_CONNECTING_MS <= w.now
    ensures Dispatched(w, Tick, reports).state.probeInFlight
  {
    assert SomeStuck(w.state, w.now);
    var d := Reduce(w.state, Tick, w.now);
    assert forall x :: x in d.effects ==> !x.ReconnectSockets?;
    RunWithoutReports(Reduced(w, Tick), d.effects, reports);
  }

  lemma {:induction false} RunWithoutReports(w: World, effects: seq<Effect>, reports: seq<Event>)
    requires forall x :: x in effects ==> !x.ReconnectSockets?
    ensures RunAll(w, effects, reports).state == w.state
    decreases |effects|
  {
    if effects != [] {
      assert effects[0] in effects;
      assert forall x :: x in effects[1..] ==> x in effects;
      RunWithoutReports(Arm(w, effects[0]), effects[1..], reports);
    }
  }

  // ----- Old epochs, over whole runs -----

  /** The probe timer, unless it is of an epoch that is over. */
  function CurrentTimer(w: World): Option<ProbeTimer> {
    if w.probeTimer.Some? && w.probeTimer.value.epoch >= w.state.epoch then w.probeTimer else None
  }

  /** Alike but for probes and a probe timer of epochs that are over, and for what has been logged and published. */
  ghost predicate Alike(a: World, b: World) {
    && a.now == b.now && a.state == b.state && a.started == b.started && a.ticks == b.ticks
    && CurrentTimer(a) == CurrentTimer(b)
    && forall e :: e >= a.state.epoch ==> a.probes[e] == b.probes[e]
  }

  lemma {:induction false} ArmAllAlike(a: World, b: World, effects: seq<Effect>)
    requires Alike(a, b)
    ensures Alike(ArmAll(a, effects), ArmAll(b, effects))
    decreases |effects|
  {
    if effects != [] { ArmAllAlike(Arm(a, effects[0]), Arm(b, effects[0]), effects[1..]); }
  }

  lemma ReducedAlike(a: World, b: World, e: Event)
    requires Alike(a, b)
    ensures Alike(Reduced(a, e), Reduced(b, e))
  {
    ReduceEpochs(a.state, e, a.now);
  }

  lemma {:induction false} ReportAllAlike(a: World, b: World, reports: seq<Event>)
    requires Alike(a, b)
    ensures Alike(ReportAll(a, reports), ReportAll(b, reports))
    decreases |reports|
  {
    if reports != [] {
      var e := reports[0];
      ReducedAlike(a, b, e);
      ArmAllAlike(Reduced(a, e), Reduced(b, e), Reduce(a.state, e, a.now).effects);
      ReportAllAlike(if FromListener(e) then Report(a, e) else a,
                     if FromListener(e) then Report(b, e) else b, reports[1..]);
    }
  }

  lemma RunOneAlike(a: World, b: World, effect: Effect, reports: seq<Event>)
    requires Alike(a, b)
    ensures Alike(RunOne(a, effect, reports), RunOne(b, effect, reports))
  {
    if effect.ReconnectSockets? { ReportAllAlike(Told(a), Told(b), reports); }
  }

  lemma {:induction false} RunAllAlike(a: World, b: World, effects: seq<Effect>, reports: seq<Event>)
    requires Alike(a, b)
    ensures Alike(RunAll(a, effects, reports), RunAll(b, effects, reports))
    decreases |effects|
  {
    if effects != [] {
      RunOneAlike(a, b, effects[0], reports);
      RunAllAlike(RunOne(a, effects[0], reports), RunOne(b, effects[0], reports), effects[1..], reports);
    }
  }

  lemma DispatchedAlike(a: World, b: World, e: Event, reports: seq<Event>)
    requires Alike(a, b)
    ensures Alike(Dispatched(a, e, reports), Dispatched(b, e, reports))
  {
    ReducedAlike(a, b, e);
    RunAllAlike(Reduced(a, e), Reduced(b, e), Reduce(a.state, e, a.now).effects, reports);
  }

  /** A settled probe or a fired timer of an epoch that is over leaves the world alike. */
  lemma StaleStepIsNone(w: World, a: Action, reports: seq<Event>)
    requires || (a.ProbeSettles? && a.epoch < w.state.epoch)
             || (a.ProbeTimerFires? && w.probeTimer.Some? && w.probeTimer.value.epoch < w.state.epoch)
    ensures Alike(Step(w, a, reports), w)
  {
    if a.ProbeSettles? {
      StaleEvidenceChangesNothing(w.state, a.ok, a.epoch, w.now);
    } else {
      StaleEvidenceChangesNothing(w.state, true, w.probeTimer.value.epoch, w.now);
    }
  }

  lemma StepAlike(a: World, b: World, action: Action, reports: seq<Event>)
    requires Alike(a, b)
    ensures Alike(Step(a, action, reports), Step(b, action, reports))
  {
    if action.ProbeSettles? {
      SettlesAlike(a, b, action, reports);
    } else if action.ProbeTimerFires? {
      FiresAlike(a, b, action, reports);
    } else {
      OthersAlike(a, b, action, reports);
    }
  }

  lemma SettlesAlike(a: World, b: World, action: Action, reports: seq<Event>)
    requires Alike(a, b) && action.ProbeSettles?
    ensures Alike(Step(a, action, reports), Step(b, action, reports))
  {
    var epoch := action.epoch;
    if epoch < a.state.epoch {
      StaleStepIsNone(a, action, reports);
      StaleStepIsNone(b, action, reports);
    } else {
      assert epoch in a.probes <==> epoch in b.probes by { assert a.probes[epoch] == b.probes[epoch]; }
      DispatchedAlike(a.(probes := a.probes - multiset{epoch}), b.(probes := b.probes - multiset{epoch}),
                      ProbeResult(action.ok, epoch), reports);
    }
  }

  lemma FiresAlike(a: World, b: World, action: Action, reports: seq<Event>)
    requires Alike(a, b) && action.ProbeTimerFires?
    ensures Alike(Step(a, action, reports), Step(b, action, reports))
  {
    if CurrentTimer(a).Some? {
      DispatchedAlike(a.(probeTimer := None), b.(probeTimer := None), ProbeDue(a.probeTimer.value.epoch), reports);
    } else {
      if a.probeTimer.Some? { StaleStepIsNone(a, action, reports); }
      if b.probeTimer.Some? { StaleStepIsNone(b, action, reports); }
    }
  }

  lemma OthersAlike(a: World, b: World, action: Action, reports: seq<Event>)
    requires Alike(a, b) && !action.ProbeSettles? && !action.ProbeTimerFires?
    ensures Alike(Step(a, action, reports), Step(b, action, reports))
  {
    match action
    case Wait(_) =>
    case StartMonitor => DispatchedAlike(a.(started := true), b.(started := true), Start, reports);
    case StopMonitor =>
      DispatchedAlike(a.(started := false, probeTimer := None, ticks := multiset{}),
                      b.(started := false, probeTimer := None, ticks := multiset{}), Stop, reports);
    case Observe(e) => DispatchedAlike(a, b, e, reports);
    case TickFires(due) =>
      DispatchedAlike(a.(ticks := a.ticks - multiset{due}), b.(ticks := b.ticks - multiset{due}), Tick, reports);
    case AppBackgrounds => DispatchedAlike(a, b, Background, reports);
    case AppResumes => DispatchedAlike(a, b, Resume, reports);
  }

  lemma {:induction false} RunAlike(a: World, b: World, actions: seq<(Action, seq<Event>)>)
    requires Alike(a, b)
    ensures Alike(Run(a, actions), Run(b, actions))
    decreases |actions|
  {
    if actions != [] {
      StepAlike(a, b, actions[0].0, actions[0].1);
      RunAlike(Step(a, actions[0].0, actions[0].1), Step(b, actions[0].0, actions[0].1), actions[1..]);
    }
  }

  /** The world with more probes unanswered and, where no current one is armed, another timer. */
  function Burdened(w: World, stale: multiset<int>, timer: ProbeTimer): World {
    w.(probes := w.probes + stale, probeTimer := if CurrentTimer(w).Some? then w.probeTimer else Some(timer))
  }

  /**
   * What is over never matters. Whatever probes of earlier epochs are still unanswered, however
   * and whenever they settle, and whatever timer of an earlier epoch is still armed, any run goes
   * on as if they had never been: the same state, ticks, current timer and current probes.
   */
  lemma OldEpochsNeverMatter(w: World, stale: multiset<int>, timer: ProbeTimer, actions: seq<(Action, seq<Event>)>)
    requires timer.epoch < w.state.epoch && forall e :: e in stale ==> e < w.state.epoch
    ensures var plain := Run(w, actions);
      var burdened := Run(Burdened(w, stale, timer), actions);
      && burdened.state == plain.state && burdened.ticks == plain.ticks
      && CurrentTimer(burdened) == CurrentTimer(plain)
      && forall e :: e >= plain.state.epoch ==> burdened.probes[e] == plain.probes[e]
  {
    RunAlike(w, Burdened(w, stale, timer), actions);
  }

  // ----- What is published, over whole runs -----

  /** The state is what the dispatched events add up to, and what is published is what it last derived. */
  ghost predicate Accounted(w: World) {
    && w.state == After(w.log)
    && w.published == if w.log == [] then Online else Derive(w.state, w.log[|w.log| - 1].1)
  }

  lemma ReducedAccounted(w: World, e: Event)
    requires Accounted(w)
    ensures Accounted(Reduced(w, e))
  {
    var log := Reduced(w, e).log;
    assert log[..|log| - 1] == w.log;
  }

  lemma {:induction false} ArmKeepsAccount(w: World, effects: seq<Effect>)
    requires Accounted(w)
    ensures Accounted(ArmAll(w, effects))
    decreases |effects|
  {
    if effects != [] {
      ArmAccounted(w, effects[0]);
      ArmKeepsAccount(Arm(w, effects[0]), effects[1..]);
    }
  }

  lemma {:induction false} ReportsAccounted(w: World, reports: seq<Event>)
    requires Accounted(w)
    ensures Accounted(ReportAll(w, reports))
    decreases |reports|
  {
    if reports != [] {
      ReducedAccounted(w, reports[0]);
      ArmKeepsAccount(Reduced(w, reports[0]), Reduce(w.state, reports[0], w.now).effects);
      ReportsAccounted(if FromListener(reports[0]) then Report(w, reports[0]) else w, reports[1..]);
    }
  }

  lemma OneAccounted(w: World, effect: Effect, reports: seq<Event>)
    requires Accounted(w)
    ensures Accounted(RunOne(w, effect, reports))
  {
    if effect.ReconnectSockets? { ReportsAccounted(Told(w), reports); } else { ArmAccounted(w, effect); }
  }

  lemma ArmAccounted(w: World, effect: Effect)
    requires Accounted(w)
    ensures Accounted(Arm(w, effect))
  {}

  lemma {:induction false} EffectsAccounted(w: World, effects: seq<Effect>, reports: seq<Event>)
    requires Accounted(w)
    ensures Accounted(RunAll(w, effects, reports))
    decreases |effects|
  {
    if effects != [] {
      OneAccounted(w, effects[0], reports);
      EffectsAccounted(RunOne(w, effects[0], reports), effects[1..], reports);
    }
  }

  lemma DispatchedAccounted(w: World, e: Event, reports: seq<Event>)
    requires Accounted(w)
    ensures Accounted(Dispatched(w, e, reports))
  {
    ReducedAccounted(w, e);
    EffectsAccounted(Reduced(w, e), Reduce(w.state, e, w.now).effects, reports);
  }

  lemma OwnStepAccounted(w: World, a: Action, reports: seq<Event>)
    requires Accounted(w) && (a.Wait? || a.StartMonitor? || a.StopMonitor? || a.Observe?)
    ensures Accounted(Step(w, a, reports))
  {
    match a
    case Wait(_) =>
    case StartMonitor => DispatchedAccounted(w.(started := true), Start, reports);
    case StopMonitor =>
      DispatchedAccounted(w.(started := false, probeTimer := None, ticks := multiset{}), Stop, reports);
    case Observe(e) => DispatchedAccounted(w, e, reports);
  }

  lemma TimerStepAccounted(w: World, a: Action, reports: seq<Event>)
    requires Accounted(w) && (a.ProbeSettles? || a.ProbeTimerFires? || a.TickFires?)
    ensures Accounted(Step(w, a, reports))
  {
    match a
    case ProbeSettles(p, ok) => DispatchedAccounted(w.(probes := w.probes - multiset{p}), ProbeResult(ok, p), reports);
    case ProbeTimerFires =>
      if w.probeTimer.Some? {
        DispatchedAccounted(w.(probeTimer := None), ProbeDue(w.probeTimer.value.epoch), reports);
      }
    case TickFires(due) => DispatchedAccounted(w.(ticks := w.ticks - multiset{due}), Tick, reports);
  }

  lemma StepAccounted(w: World, a: Action, reports: seq<Event>)
    requires Accounted(w)
    ensures Accounted(Step(w, a, reports))
  {
    if a.Wait? || a.StartMonitor? || a.StopMonitor? || a.Observe? {
      OwnStepAccounted(w, a, reports);
    } else if a.AppBackgrounds? || a.AppResumes? {
      DispatchedAccounted(w, if a.AppResumes? then Resume else Background, reports);
    } else {
      TimerStepAccounted(w, a, reports);
    }
  }

  lemma {:induction false} RunAccounted(w: World, actions: seq<(Action, seq<Event>)>)
    requires Accounted(w)
    ensures Accounted(Run(w, actions))
    decreases |actions|
  {
    if actions != [] {
      StepAccounted(w, actions[0].0, actions[0].1);
      RunAccounted(Step(w, actions[0].0, actions[0].1), actions[1..]);
    }
  }

  /**
   * What the app shows is earned. After every run of the controller the connection is published
   * as offline exactly when the monitor runs and at least three accepted probes failed since the
   * last good evidence among everything dispatched.
   */
  lemma PublishedOfflineIsEarned(actions: seq<(Action, seq<Event>)>)
    ensures var w := Run(INITIAL_WORLD, actions);
      w.published == Offline <==>
      w.state.running && FailuresNow(w.log) >= OFFLINE_AFTER_FAILURES
  {
    var w := Run(INITIAL_WORLD, actions);
    RunAccounted(INITIAL_WORLD, actions);
    OfflineIsEarned(w.log, if w.log == [] then 0 else w.log[|w.log| - 1].1);
  }
}
