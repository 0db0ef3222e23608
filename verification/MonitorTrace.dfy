/**
 * The connection monitor's core (apps/mobile/lib/connectionMonitorCore.ts), said of the events
 * alone: exactly which effects each one asks for, and what any sequence of them leaves.
 */
module MonitorTrace {
  import opened Prelude
  import opened MonitorCore

  // ----- What each event asks for -----

  /** The monitor may probe: it runs in the foreground with no probe unanswered. */
  predicate Free(s: State) { s.running && s.foreground && !s.probeInFlight }

  /** A socket reported connecting carries on the attempt it was making, tracked or let go of at most 50 ms ago. */
  predicate CarriesOn(s: State, key: string, now: int) {
    if key in s.sockets then s.sockets[key].status == Connecting
    else
      && s.released.Some? && s.released.value.key == key && now <= s.released.value.at + 50
      && s.released.value.socket.status == Connecting
  }

  ghost predicate AsksProbe(s: State, e: Event, now: int) {
    match e
    case Start => !s.probeInFlight
    case Suspect => Free(s)
    case Stalled => Free(s)
    case ProbeDue(armed) => armed == s.epoch && Free(s)
    case Tick =>
      Free(s) && exists k :: k in s.sockets && s.sockets[k].status == Connecting && now - s.sockets[k].since >= 3_000
    case SocketEvent(_, status, code) => status == Closed && code != Some(4001) && Free(s)
    case Resume => s.running
    case Retry => Free(s)
    case Reset => s.running && s.foreground
    case _ => false
  }

  /** The wait before the next probe: the heartbeat, or a backoff of 1, 2, 4 and 8 seconds and then of 10. */
  function Wait(ok: bool, failures: int): int {
    if ok then 25_000
    else if failures <= 1 then 1_000 else if failures == 2 then 2_000 else if failures == 3 then 4_000
    else if failures == 4 then 8_000 else 10_000
  }

  /** A probe result of the epoch that is on. */
  predicate Accepted(s: State, e: Event) { e.ProbeResult? && e.probed == s.epoch }

  /**
   * Sockets are replaced on a retry, on a resume that finds some, when an answered probe finds one
   * closed, and when a failed probe finds one that says it is open.
   */
  ghost predicate Replaces(s: State, e: Event) {
    || e.Retry?
    || (e.Resume? && exists k :: k in s.sockets)
    || (Accepted(s, e) && e.ok && exists k :: k in s.sockets && s.sockets[k].status == Closed)
    || (Accepted(s, e) && !e.ok && exists k :: k in s.sockets && s.sockets[k].status == Open)
  }

  ghost predicate Asks(s: State, e: Event, now: int, x: Effect) {
    match x
    case Probe(epoch) => AsksProbe(s, e, now) && epoch == if e.Resume? || e.Reset? then s.epoch + 1 else s.epoch
    case ProbeIn(ms, epoch) =>
      Accepted(s, e) && s.foreground && epoch == s.epoch && ms == Wait(e.ok, s.failedProbes + 1)
    case TickIn(ms) =>
      || ((e.Start? || e.Reset?) && ms == 1_500)
      || (e.SocketEvent? && e.status == Connecting && !CarriesOn(s, e.key, now) && (ms == 1_500 || ms == 3_000))
      || (e.Resume? && (exists k :: k in s.sockets) && (ms == 300 || ms == 3_000))
    case ReconnectSockets => Replaces(s, e)
    case CheckSession => e.SocketEvent? && e.status == Closed && e.code == Some(4001)
  }

  /** Reconnecting comes before any probe or probe timer, except on a retry, where the probe goes first. */
  ghost predicate InOrder(effects: seq<Effect>, retry: bool) {
    forall i, j :: 0 <= i < j < |effects| ==>
      && effects[i] != effects[j]
      && (effects[j].ReconnectSockets? ==> (effects[i].Probe? || effects[i].ProbeIn? ==> retry))
      && (effects[i].ReconnectSockets? ==> !retry)
  }

  /** For every state and event: the effects asked for are exactly these, each once. */
  lemma EffectsAreExactly(s: State, e: Event, now: int)
    ensures forall x :: x in Reduce(s, e, now).effects <==> Asks(s, e, now, x)
    ensures InOrder(Reduce(s, e, now).effects, e.Retry?)
  {
    match e
    case ProbeResult(ok, probed) => if probed == s.epoch { ResultEffects(s, ok, now); }
    case SocketEvent(key, status, code) => SocketEffects(s, key, status, code, now);
    case Resume => ResumeEffects(s, now);
    case _ => OtherEffects(s, e, now);
  }

  lemma OtherEffects(s: State, e: Event, now: int)
    requires !e.ProbeResult? && !e.SocketEvent? && !e.Resume?
    ensures forall x :: x in Reduce(s, e, now).effects <==> Asks(s, e, now, x)
    ensures InOrder(Reduce(s, e, now).effects, e.Retry?)
  {
    if e.Start? || e.Reset? || e.Retry? { HoldingEffects(s, e, now); }
  }

  lemma HoldingEffects(s: State, e: Event, now: int)
    requires e.Start? || e.Reset? || e.Retry?
    ensures forall x :: x in Reduce(s, e, now).effects <==> Asks(s, e, now, x)
    ensures InOrder(Reduce(s, e, now).effects, e.Retry?)
  {}

  lemma ResultEffects(s: State, ok: bool, now: int)
    ensures forall x :: x in ReduceProbeResult(s, ok).effects <==> Asks(s, ProbeResult(ok, s.epoch), now, x)
    ensures InOrder(ReduceProbeResult(s, ok).effects, false)
  {
    BackoffSchedule(s.failedProbes + 1);
  }

  lemma SocketEffects(s: State, key: string, status: Status, code: Option<int>, now: int)
    ensures forall x :: x in ReduceSocket(s, key, status, code, now).effects <==>
              Asks(s, SocketEvent(key, status, code), now, x)
    ensures InOrder(ReduceSocket(s, key, status, code, now).effects, false)
  {}

  lemma ResumeEffects(s: State, now: int)
    ensures forall x :: x in ReduceResume(s, now).effects <==> Asks(s, Resume, now, x)
    ensures InOrder(ReduceResume(s, now).effects, false)
  {
    assert s.sockets == map[] <==> !exists k :: k in s.sockets;
  }

  // ----- What any events leave -----

  /** The state after the first `n` events. */
  function StateAt(trace: Trace, n: nat): State
    requires n <= |trace|
  {
    if n == 0 then INITIAL else Reduce(StateAt(trace, n - 1), trace[n - 1].0, trace[n - 1].1).state
  }

  lemma {:induction false} StateAtIs(trace: Trace, n: nat)
    requires n <= |trace|
    ensures StateAt(trace, n) == After(trace[..n])
  {
    if n == 0 {
      assert trace[..0] == [];
    } else {
      StateAtIs(trace, n - 1);
      assert trace[..n][..n - 1] == trace[..n - 1];
    }
  }

  /** The monitor has been started, and not stopped since. */
  ghost predicate Runs(trace: Trace, n: nat) {
    Since(n, (i: nat) => i < |trace| && trace[i].0.Start?, (j: nat) => j < |trace| && trace[j].0.Stop?)
  }

  /** The app went to the background, and has not come back since. */
  ghost predicate Away(trace: Trace, n: nat) {
    Since(n, (i: nat) => i < |trace| && trace[i].0.Background?,
          (j: nat) => j < |trace| && (trace[j].0.Start? || trace[j].0.Resume? || trace[j].0.Stop?))
  }

  /** The epochs begun among the first `n` events. */
  function Epochs(trace: Trace, n: nat): nat
    requires n <= |trace|
  {
    if n == 0 then 0
    else
      var e := trace[n - 1].0;
      Epochs(trace, n - 1) + (if e.Stop? || e.Resume? || e.Reset? then 1 else 0)
  }

  /** Good evidence: a request answered, an accepted probe answered, a socket open. */
  predicate Good(e: Event, epoch: int) {
    match e
    case Answered => true
    case ProbeResult(ok, probed) => ok && probed == epoch
    case SocketEvent(_, status, _) => status == Open
    case _ => false
  }

  /** It is taken back: an accepted probe failed, the server is another one, or the monitor stopped. */
  predicate TakesBack(e: Event, epoch: int) {
    match e
    case ProbeResult(ok, probed) => !ok && probed == epoch
    case Reset => true
    case Stop => true
    case _ => false
  }

  predicate GoodAt(trace: Trace, i: nat) { i < |trace| && Good(trace[i].0, Epochs(trace, i)) }

  predicate TakenBackAt(trace: Trace, j: nat) { j < |trace| && TakesBack(trace[j].0, Epochs(trace, j)) }

  ghost predicate AnswersNow(trace: Trace, n: nat) {
    Since(n, (i: nat) => GoodAt(trace, i), (j: nat) => TakenBackAt(trace, j))
  }

  lemma {:induction false} StartedIs(trace: Trace, n: nat)
    requires n <= |trace|
    ensures StateAt(trace, n).running <==> Runs(trace, n)
  {
    if n > 0 {
      StartedIs(trace, n - 1);
      SinceStep(n - 1, (i: nat) => i < |trace| && trace[i].0.Start?, (j: nat) => j < |trace| && trace[j].0.Stop?);
      RunningStep(StateAt(trace, n - 1), trace[n - 1].0, trace[n - 1].1);
    }
  }

  lemma {:induction false} AwayIs(trace: Trace, n: nat)
    requires n <= |trace|
    ensures StateAt(trace, n).foreground <==> !Away(trace, n)
  {
    if n > 0 {
      AwayIs(trace, n - 1);
      SinceStep(n - 1, (i: nat) => i < |trace| && trace[i].0.Background?,
                (j: nat) => j < |trace| && (trace[j].0.Start? || trace[j].0.Resume? || trace[j].0.Stop?));
      RunningStep(StateAt(trace, n - 1), trace[n - 1].0, trace[n - 1].1);
    }
  }

  lemma {:induction false} EpochIs(trace: Trace, n: nat)
    requires n <= |trace|
    ensures StateAt(trace, n).epoch == Epochs(trace, n)
  {
    if n > 0 {
      EpochIs(trace, n - 1);
      RunningStep(StateAt(trace, n - 1), trace[n - 1].0, trace[n - 1].1);
    }
  }

  lemma RunningStep(s: State, e: Event, now: int)
    ensures var t := Reduce(s, e, now).state;
      && (t.running <==> e.Start? || (s.running && !e.Stop?))
      && (t.foreground <==> e.Start? || e.Resume? || e.Stop? || (s.foreground && !e.Background?))
      && t.epoch == s.epoch + (if e.Stop? || e.Resume? || e.Reset? then 1 else 0)
  {}

  lemma AnswersStep(trace: Trace, n: nat)
    ensures AnswersNow(trace, n + 1) <==> GoodAt(trace, n) || (AnswersNow(trace, n) && !TakenBackAt(trace, n))
  {
    SinceStep(n, (i: nat) => GoodAt(trace, i), (j: nat) => TakenBackAt(trace, j));
  }

  lemma {:induction false} ServerIs(trace: Trace, n: nat)
    requires n <= |trace|
    ensures StateAt(trace, n).server == Ok <==> AnswersNow(trace, n)
  {
    if n > 0 {
      var s, e := StateAt(trace, n - 1), trace[n - 1].0;
      ServerIs(trace, n - 1);
      EpochIs(trace, n - 1);
      AnswersStep(trace, n - 1);
      ServerStep(s, e, trace[n - 1].1);
    }
  }

  lemma ServerStep(s: State, e: Event, now: int)
    ensures Reduce(s, e, now).state.server == Ok <==> Good(e, s.epoch) || (s.server == Ok && !TakesBack(e, s.epoch))
  {
    match e
    case ProbeResult(_, _) =>
    case SocketEvent(_, _, _) =>
    case Resume =>
    case _ =>
  }

  // ----- Sockets -----

  /** A socket has been reported, and not let go of since. */
  ghost predicate Tracked(trace: Trace, key: string, n: nat) {
    Since(n, (i: nat) => i < |trace| && trace[i].0.SocketEvent? && trace[i].0.key == key,
          (j: nat) => j < |trace| && (trace[j].0 == Untrack(key) || trace[j].0.Stop?))
  }

  /** Event `i` gives a socket its status: a report of it, or a resume, which has every tracked socket connect again. */
  ghost predicate GivesStatus(trace: Trace, key: string, status: Status, i: nat) {
    i < |trace| &&
    (|| (trace[i].0.SocketEvent? && trace[i].0.key == key && trace[i].0.status == status)
     || (trace[i].0.Resume? && status == Connecting && Tracked(trace, key, i)))
  }

  predicate TakesStatus(trace: Trace, key: string, j: nat) {
    j < |trace| &&
    (|| (trace[j].0.SocketEvent? && trace[j].0.key == key) || trace[j].0 == Untrack(key)
     || trace[j].0.Stop? || trace[j].0.Resume?)
  }

  ghost predicate HasStatus(trace: Trace, key: string, status: Status, n: nat) {
    Since(n, (i: nat) => GivesStatus(trace, key, status, i), (j: nat) => TakesStatus(trace, key, j))
  }

  lemma {:induction false} TrackedIs(trace: Trace, key: string, n: nat)
    requires n <= |trace|
    ensures key in StateAt(trace, n).sockets <==> Tracked(trace, key, n)
  {
    if n > 0 {
      TrackedIs(trace, key, n - 1);
      SinceStep(n - 1, (i: nat) => i < |trace| && trace[i].0.SocketEvent? && trace[i].0.key == key,
                (j: nat) => j < |trace| && (trace[j].0 == Untrack(key) || trace[j].0.Stop?));
      SocketStep(StateAt(trace, n - 1), trace[n - 1].0, trace[n - 1].1, key);
    }
  }

  predicate Holds(s: State, key: string, status: Status) { key in s.sockets && s.sockets[key].status == status }

  lemma StatusStep(s: State, e: Event, now: int, key: string, status: Status)
    ensures Holds(Reduce(s, e, now).state, key, status) <==>
      || (e.SocketEvent? && e.key == key && e.status == status)
      || (e.Resume? && status == Connecting && key in s.sockets)
      || (Holds(s, key, status) && !(e.SocketEvent? && e.key == key) && e != Untrack(key) && !e.Stop? && !e.Resume?)
  {
    SocketStep(s, e, now, key);
  }

  lemma HasStatusStep(trace: Trace, key: string, status: Status, n: nat)
    ensures HasStatus(trace, key, status, n + 1) <==>
            GivesStatus(trace, key, status, n) || (HasStatus(trace, key, status, n) && !TakesStatus(trace, key, n))
  {
    SinceStep(n, (i: nat) => GivesStatus(trace, key, status, i), (j: nat) => TakesStatus(trace, key, j));
  }

  /** Which events give and take a status, by the state before them. */
  lemma GivesIs(trace: Trace, key: string, status: Status, n: nat)
    requires n < |trace|
    ensures var e := trace[n].0;
      && (GivesStatus(trace, key, status, n) <==>
           || (e.SocketEvent? && e.key == key && e.status == status)
           || (e.Resume? && status == Connecting && key in StateAt(trace, n).sockets))
      && (TakesStatus(trace, key, n) <==>
           (e.SocketEvent? && e.key == key) || e == Untrack(key) || e.Stop? || e.Resume?)
  {
    TrackedIs(trace, key, n);
  }

  lemma {:induction false} SocketsAre(trace: Trace, key: string, status: Status, n: nat)
    requires n <= |trace|
    ensures Holds(StateAt(trace, n), key, status) <==> HasStatus(trace, key, status, n)
  {
    if n > 0 {
      SocketsAre(trace, key, status, n - 1);
      SocketsOn(trace, key, status, n - 1, StateAt(trace, n - 1), StateAt(trace, n));
    }
  }

  lemma SocketsOn(trace: Trace, key: string, status: Status, n: nat, s: State, next: State)
    requires n < |trace| && s == StateAt(trace, n) && next == Reduce(s, trace[n].0, trace[n].1).state
    requires Holds(s, key, status) <==> HasStatus(trace, key, status, n)
    ensures Holds(next, key, status) <==> HasStatus(trace, key, status, n + 1)
  {
    HasStatusStep(trace, key, status, n);
    GivesIs(trace, key, status, n);
    StatusStep(s, trace[n].0, trace[n].1, key, status);
  }

  lemma SocketStep(s: State, e: Event, now: int, key: string)
    ensures var t := Reduce(s, e, now).state;
      && (key in t.sockets <==> (e.SocketEvent? && e.key == key) || (key in s.sockets && e != Untrack(key) && !e.Stop?))
      && (key in t.sockets ==>
           t.sockets[key].status ==
           (if e.SocketEvent? && e.key == key then e.status
            else if e.Resume? then Connecting else s.sockets[key].status))
  {
    match e
    case SocketEvent(_, _, _) =>
    case Untrack(_) =>
    case Resume =>
    case _ =>
  }

  /**
   * A socket replaced at once carries on: let go of while connecting and reported connecting again
   * within 50 ms it keeps the moment it began and gets no new grace; any later it is a new one.
   */
  lemma ReplacedCarriesOn(s: State, key: string, gone: int, now: int)
    requires key in s.sockets && s.sockets[key].status == Connecting
    ensures var s' := Reduce(s, Untrack(key), gone).state;
      var t := Reduce(s', SocketEvent(key, Connecting, None), now);
      && (now <= gone + 50 ==> t.state.sockets[key].since == s.sockets[key].since && t.effects == []
                               && t.state.silentUntil == s.silentUntil)
      && (now > gone + 50 ==>
           t.state.sockets[key].since == now && t.state.silentUntil == Max(s.silentUntil, now + 1_500))
  {}

  /** A tracked socket that is reported connecting again, or whose attempt is made afresh, began when it says. */
  lemma AttemptBegan(s: State, key: string, code: Option<int>, now: int)
    ensures var t := Reduce(s, SocketEvent(key, Connecting, code), now).state;
      key in s.sockets ==>
        t.sockets[key].since == if s.sockets[key].status == Connecting then s.sockets[key].since else now
  {}

  // ----- Graces -----

  /** The grace an event gives: saying nothing of a connection that is only being made. */
  ghost function GraceOf(s: State, e: Event, now: int): Option<int> {
    match e
    case Start => Some(1_500)
    case Reset => Some(1_500)
    case SocketEvent(key, status, _) => if status == Connecting && !CarriesOn(s, key, now) then Some(1_500) else None
    case Resume => if exists k :: k in s.sockets then Some(300) else None
    case _ => None
  }

  ghost function Grace(trace: Trace, i: nat): Option<int>
    requires i < |trace|
  {
    GraceOf(StateAt(trace, i), trace[i].0, trace[i].1)
  }

  /** Event `i` gave a grace that is not over at `at`. */
  ghost predicate GraceLasts(trace: Trace, i: nat, at: int) {
    i < |trace| && Grace(trace, i).Some? && at < trace[i].1 + Grace(trace, i).value
  }

  ghost predicate InGrace(trace: Trace, n: nat, at: int) {
    || at < 0
    || Since(n, (i: nat) => GraceLasts(trace, i, at), (j: nat) => j < |trace| && trace[j].0.Stop?)
  }

  lemma {:induction false} SilenceIs(trace: Trace, n: nat, at: int)
    requires n <= |trace|
    ensures at < StateAt(trace, n).silentUntil <==> InGrace(trace, n, at)
  {
    if n > 0 {
      SilenceIs(trace, n - 1, at);
      InGraceStep(trace, n - 1, at);
      SilenceFloor(trace, n - 1);
      SilenceStep(StateAt(trace, n - 1), trace[n - 1].0, trace[n - 1].1);
    }
  }

  lemma InGraceStep(trace: Trace, n: nat, at: int)
    requires n < |trace|
    ensures InGrace(trace, n + 1, at) <==>
            at < 0 || GraceLasts(trace, n, at) || (InGrace(trace, n, at) && !trace[n].0.Stop?)
  {
    SinceStep(n, (i: nat) => GraceLasts(trace, i, at), (j: nat) => j < |trace| && trace[j].0.Stop?);
  }

  lemma {:induction false} SilenceFloor(trace: Trace, n: nat)
    requires n <= |trace|
    ensures StateAt(trace, n).silentUntil >= 0
  {
    if n > 0 {
      SilenceFloor(trace, n - 1);
      SilenceStep(StateAt(trace, n - 1), trace[n - 1].0, trace[n - 1].1);
    }
  }

  lemma SilenceStep(s: State, e: Event, now: int)
    ensures Reduce(s, e, now).state.silentUntil ==
      if e.Stop? then 0
      else if GraceOf(s, e, now).Some? then Max(s.silentUntil, now + GraceOf(s, e, now).value)
      else s.silentUntil
  {
    match e
    case Resume => assert s.sockets == map[] <==> !exists k :: k in s.sockets;
    case SocketEvent(_, _, _) =>
    case ProbeResult(_, _) =>
    case _ =>
  }

  // ----- What the app shows -----

  /** Every socket there is is open, and some socket is closed. */
  ghost predicate AllOpen(trace: Trace, n: nat) {
    forall key :: Tracked(trace, key, n) ==> HasStatus(trace, key, Open, n)
  }

  ghost predicate SomeClosed(trace: Trace, n: nat) { exists key :: HasStatus(trace, key, Closed, n) }

  /** The server answers, and every socket there is is open. */
  ghost predicate AllWell(trace: Trace) { AnswersNow(trace, |trace|) && AllOpen(trace, |trace|) }

  /**
   * What the events say the app shows at a moment. Outside the signed-in part, online. Inside:
   * online when all is well; offline from three failed probes on; resuming while a grace lasts and
   * nothing has failed or closed; otherwise reconnecting.
   */
  ghost predicate Shows(trace: Trace, now: int, shown: Connection) {
    var running, failures := Runs(trace, |trace|), FailuresNow(trace);
    var quiet := failures == 0 && !SomeClosed(trace, |trace|) && InGrace(trace, |trace|, now);
    match shown
    case Online => !running || AllWell(trace)
    case Offline => running && failures >= 3
    case Resuming => running && !AllWell(trace) && quiet
    case Reconnecting => running && !AllWell(trace) && failures < 3 && !quiet
  }

  /** Exactly that is shown, after any events and at any moment. */
  lemma ShownExactlyWhen(trace: Trace, now: int, shown: Connection)
    ensures Derive(After(trace), now) == shown <==> Shows(trace, now, shown)
  {
    var n, s := |trace|, After(trace);
    assert trace[..n] == trace;
    StateAtIs(trace, n);
    FailuresAreCounted(trace, CountFrom(trace));
    StartedIs(trace, n);
    ServerIs(trace, n);
    SilenceIs(trace, n, now);
    forall key
      ensures key in s.sockets <==> Tracked(trace, key, n)
      ensures key in s.sockets && s.sockets[key].status == Open <==> HasStatus(trace, key, Open, n)
      ensures key in s.sockets && s.sockets[key].status == Closed <==> HasStatus(trace, key, Closed, n)
    {
      TrackedIs(trace, key, n);
      SocketsAre(trace, key, Open, n);
      SocketsAre(trace, key, Closed, n);
    }
  }
}
