/**
 * The pure core of the connection monitor (apps/mobile/lib/connectionMonitorCore.ts): what each
 * piece of evidence does to the state, and which effects it asks for, in order.
 */
module MonitorCore {
  import opened Prelude

  const RESUME_GRACE_MS := 300
  const CONNECT_GRACE_MS := 1_500
  const STUCK_CONNECTING_MS := 3_000
  const HEARTBEAT_MS := 25_000
  const REPLACED_WITHIN_MS := 50
  const OFFLINE_AFTER_FAILURES := 3
  const CLOSE_UNAUTHORIZED := 4001

  datatype Status = Connecting | Open | Closed
  datatype Socket = Socket(status: Status, since: int)
  datatype Released = Released(key: string, socket: Socket, at: int)
  datatype Server = Unknown | Ok | Failing
  datatype Connection = Online | Offline | Reconnecting | Resuming

  datatype State = State(
    running: bool,
    foreground: bool,
    server: Server,
    failedProbes: nat,
    sockets: map<string, Socket>,
    silentUntil: int,
    epoch: int,
    probeInFlight: bool,
    released: Option<Released>
  )

  datatype Event =
    | Start
    | Stop
    | Answered
    | Suspect
    | Stalled
    | ProbeResult(ok: bool, probed: int)
    | ProbeDue(armed: int)
    | Tick
    | SocketEvent(key: string, status: Status, code: Option<int>)
    | Untrack(key: string)
    | Resume
    | Background
    | Retry
    | Reset

  datatype Effect =
    | Probe(epoch: int)
    | ProbeIn(ms: int, epoch: int)
    | TickIn(ms: int)
    | ReconnectSockets
    | CheckSession

  const INITIAL := State(false, true, Unknown, 0, map[], 0, 0, false, None)

  function Pow2(n: nat): nat { if n == 0 then 1 else 2 * Pow2(n - 1) }

  function BackoffMs(failures: nat): int {
    Min(1_000 * Pow2(Max(0, failures - 1)), 10_000)
  }

  /** The waits between failed probes double from one second and stop growing at ten. */
  lemma {:induction false} BackoffSchedule(failures: nat)
    ensures BackoffMs(failures) ==
            if failures <= 1 then 1_000 else if failures == 2 then 2_000
            else if failures == 3 then 4_000 else if failures == 4 then 8_000 else 10_000
  {
    if failures <= 4 {
      assert Pow2(0) == 1 && Pow2(1) == 2 && Pow2(2) == 4 && Pow2(3) == 8;
    } else {
      Pow2AtLeast16(failures - 1);
    }
  }

  lemma {:induction false} Pow2AtLeast16(n: nat)
    requires n >= 4
    ensures Pow2(n) >= 16
  {
    if n == 4 { assert Pow2(1) == 2 && Pow2(2) == 4 && Pow2(3) == 8; } else { Pow2AtLeast16(n - 1); }
  }

  // ----- The reducer -----

  /** A state being worked on, and the effects asked for so far. */
  datatype Draft = Draft(state: State, effects: seq<Effect>)

  function WithProbe(d: Draft): Draft {
    if !d.state.running || !d.state.foreground || d.state.probeInFlight then d
    else Draft(d.state.(probeInFlight := true), d.effects + [Probe(d.state.epoch)])
  }

  function WithEffect(d: Draft, e: Effect): Draft { d.(effects := d.effects + [e]) }

  function WithHold(d: Draft, ms: int, now: int): Draft {
    Draft(d.state.(silentUntil := Max(d.state.silentUntil, now + ms)), d.effects + [TickIn(ms)])
  }

  function ServerAnswered(s: State): State { s.(server := Ok, failedProbes := 0) }

  predicate SomeSocket(s: State, status: Status) {
    exists k :: k in s.sockets && s.sockets[k].status == status
  }

  predicate SomeStuck(s: State, now: int) {
    exists k :: k in s.sockets && s.sockets[k].status == Connecting && now - s.sockets[k].since >= STUCK_CONNECTING_MS
  }

  /** The socket an event carries on from: the one tracked, or one let go of in the same moment. */
  function Previous(s: State, key: string, now: int): Option<Socket> {
    if key in s.sockets then Some(s.sockets[key])
    else if s.released.Some? && s.released.value.key == key && now - s.released.value.at <= REPLACED_WITHIN_MS
    then Some(s.released.value.socket)
    else None
  }

  function ReduceProbeResult(s: State, ok: bool): Draft {
    var settled := s.(probeInFlight := false);
    if ok then
      var d := Draft(ServerAnswered(settled), if SomeSocket(s, Closed) then [ReconnectSockets] else []);
      if s.foreground then WithEffect(d, ProbeIn(HEARTBEAT_MS, s.epoch)) else d
    else
      var failed := settled.(server := Failing, failedProbes := s.failedProbes + 1);
      var d := Draft(failed, if SomeSocket(s, Open) then [ReconnectSockets] else []);
      if s.foreground then WithEffect(d, ProbeIn(BackoffMs(failed.failedProbes), s.epoch)) else d
  }

  function ReduceSocket(s: State, key: string, status: Status, code: Option<int>, now: int): Draft {
    var previous := Previous(s, key, now);
    var still := status == Connecting && previous.Some? && previous.value.status == Connecting;
    var since := if still then previous.value.since else now;
    var d := Draft(s.(sockets := s.sockets[key := Socket(status, since)]), []);
    match status
    case Open => d.(state := ServerAnswered(d.state))
    case Connecting => if still then d else WithEffect(WithHold(d, CONNECT_GRACE_MS, now), TickIn(STUCK_CONNECTING_MS))
    case Closed => if code == Some(CLOSE_UNAUTHORIZED) then WithEffect(d, CheckSession) else WithProbe(d)
  }

  function ReduceResume(s: State, now: int): Draft {
    var d := Draft(s.(epoch := s.epoch + 1, foreground := true, probeInFlight := false), []);
    WithProbe(
      if s.sockets == map[] then d
      else
        var replaced := d.(state := d.state.(sockets := map k | k in s.sockets :: Socket(Connecting, now)));
        WithEffect(WithEffect(WithHold(replaced, RESUME_GRACE_MS, now), ReconnectSockets), TickIn(STUCK_CONNECTING_MS)))
  }

  function Reduce(s: State, event: Event, now: int): Draft {
    var d := Draft(s, []);
    match event
    case Start => WithProbe(WithHold(d.(state := s.(running := true, foreground := true)), CONNECT_GRACE_MS, now))
    case Stop => Draft(INITIAL.(epoch := s.epoch + 1), [])
    case Answered => d.(state := ServerAnswered(s))
    case Suspect => WithProbe(d)
    case Stalled => WithProbe(d)
    case ProbeResult(ok, probed) => if probed != s.epoch then d else ReduceProbeResult(s, ok)
    case ProbeDue(armed) => if armed != s.epoch then d else WithProbe(d)
    case Tick => if SomeStuck(s, now) then WithProbe(d) else d
    case SocketEvent(key, status, code) => ReduceSocket(s, key, status, code, now)
    case Untrack(key) =>
      if key !in s.sockets then d
      else d.(state := s.(sockets := Without(s.sockets, key), released := Some(Released(key, s.sockets[key], now))))
    case Resume => ReduceResume(s, now)
    case Background => d.(state := s.(foreground := false))
    case Retry => WithEffect(WithProbe(d), ReconnectSockets)
    case Reset =>
      var over := s.(epoch := s.epoch + 1, server := Unknown, failedProbes := 0, probeInFlight := false);
      WithProbe(WithHold(d.(state := over),
                         CONNECT_GRACE_MS, now))
  }

  function Derive(s: State, now: int): Connection {
    if !s.running then Online
    else if s.failedProbes >= OFFLINE_AFTER_FAILURES then Offline
    else if s.server == Ok && (forall k :: k in s.sockets ==> s.sockets[k].status == Open) then Online
    else if s.server == Failing || SomeSocket(s, Closed) then Reconnecting
    else if now < s.silentUntil then Resuming
    else Reconnecting
  }

  // ----- AppState -----

  datatype AppState = Active | Inactive | InBackground

  /** What an AppState change means; only a return from the background is a resume. */
  function AppStateEvent(backgrounded: bool, next: AppState): (Option<Event>, bool) {
    match next
    case InBackground => (if backgrounded then None else Some(Background), true)
    case Active => (if backgrounded then Some(Resume) else None, false)
    case Inactive => (None, backgrounded)
  }

  /** The events a run of AppState changes sends. */
  function Lifecycle(backgrounded: bool, changes: seq<AppState>): seq<Event>
    decreases |changes|
  {
    if changes == [] then []
    else
      var (event, after) := AppStateEvent(backgrounded, changes[0]);
      (if event.Some? then [event.value] else []) + Lifecycle(after, changes[1..])
  }

  /** Resumes and backgrounds in turn, a resume first when the app starts in the background. */
  predicate Alternates(events: seq<Event>, backgrounded: bool) {
    events == [] ||
    (events[0] == (if backgrounded then Resume else Background) && Alternates(events[1..], !backgrounded))
  }

  /**
   * Whatever the system reports, the monitor hears strictly alternating backgrounds and resumes:
   * never two resumes for one return, and none for an `inactive` in between.
   */
  lemma {:induction false} LifecycleAlternates(backgrounded: bool, changes: seq<AppState>)
    ensures Alternates(Lifecycle(backgrounded, changes), backgrounded)
    decreases |changes|
  {
    if changes != [] {
      var (event, after) := AppStateEvent(backgrounded, changes[0]);
      LifecycleAlternates(after, changes[1..]);
      var rest := Lifecycle(after, changes[1..]);
      if event.Some? {
        assert ([event.value] + rest)[1..] == rest;
      } else {
        assert [] + rest == rest;
      }
    }
  }

  /** Where the app was last said to be: `inactive` says nothing. */
  predicate EndsAway(backgrounded: bool, changes: seq<AppState>)
    decreases |changes|
  {
    if changes == [] then backgrounded
    else if changes[|changes| - 1] == Inactive then EndsAway(backgrounded, changes[..|changes| - 1])
    else changes[|changes| - 1] == InBackground
  }

  /** What the events sent say of it: the last one, or nothing new. */
  predicate HeardAway(backgrounded: bool, events: seq<Event>) {
    if events == [] then backgrounded else events[|events| - 1] == Background
  }

  lemma {:induction false} LifecycleConcat(backgrounded: bool, a: seq<AppState>, next: AppState)
    ensures var (event, after) := AppStateEvent(EndsAway(backgrounded, a), next);
      && Lifecycle(backgrounded, a + [next]) == Lifecycle(backgrounded, a) + (if event.Some? then [event.value] else [])
      && EndsAway(backgrounded, a + [next]) == after
    decreases |a|
  {
    var whole := a + [next];
    assert whole[|whole| - 1] == next && whole[..|whole| - 1] == a;
    if a == [] {
      assert whole[1..] == [];
    } else {
      var (event, after) := AppStateEvent(backgrounded, a[0]);
      assert whole[0] == a[0] && whole[1..] == a[1..] + [next];
      EndsAwayTail(backgrounded, a);
      LifecycleConcat(after, a[1..], next);
      var (last, _) := AppStateEvent(EndsAway(backgrounded, a), next);
      Regroup(if event.Some? then [event.value] else [], Lifecycle(after, a[1..]),
              if last.Some? then [last.value] else []);
    }
  }

  lemma {:induction false} EndsAwayTail(backgrounded: bool, a: seq<AppState>)
    requires a != []
    ensures EndsAway(backgrounded, a) == EndsAway(AppStateEvent(backgrounded, a[0]).1, a[1..])
    decreases |a|
  {
    var n := |a| - 1;
    if n > 0 {
      assert a[1..][n - 1] == a[n] && a[1..][..n - 1] == a[..n][1..] && a[..n][0] == a[0];
      if a[n] == Inactive { EndsAwayTail(backgrounded, a[..n]); }
    } else {
      assert a[..0] == [] && a[1..] == [];
    }
  }

  /** The monitor hears every change: after any changes, what it last heard is where the app is. */
  lemma {:induction false} LifecycleTellsTheTruth(backgrounded: bool, changes: seq<AppState>)
    ensures HeardAway(backgrounded, Lifecycle(backgrounded, changes)) == EndsAway(backgrounded, changes)
    decreases |changes|
  {
    if changes != [] {
      var n := |changes| - 1;
      LifecycleTellsTheTruth(backgrounded, changes[..n]);
      LifecycleConcat(backgrounded, changes[..n], changes[n]);
      assert changes == changes[..n] + [changes[n]];
    }
  }

  // ----- Old epochs -----

  /** A probe result or a probe timer from before a resume, a reset or a stop changes nothing. */
  lemma StaleEvidenceChangesNothing(s: State, ok: bool, epoch: int, now: int)
    ensures epoch != s.epoch ==> Reduce(s, ProbeResult(ok, epoch), now) == Draft(s, [])
    ensures epoch != s.epoch ==> Reduce(s, ProbeDue(epoch), now) == Draft(s, [])
  {}

  // ----- Offline is earned -----

  /** The events dispatched so far, each with its time. */
  type Trace = seq<(Event, int)>

  function After(trace: Trace): State {
    if trace == [] then INITIAL
    else
      var last := trace[|trace| - 1];
      Reduce(After(trace[..|trace| - 1]), last.0, last.1).state
  }

  /** Evidence that ends a count of failures. */
  predicate Ends(e: Event, epoch: int) {
    match e
    case Answered => true
    case ProbeResult(ok, probed) => ok && probed == epoch
    case SocketEvent(_, status, _) => status == Open
    case Reset => true
    case Stop => true
    case _ => false
  }

  /** A failed probe of the current epoch. */
  predicate Fails(e: Event, epoch: int) { e.ProbeResult? && !e.ok && e.probed == epoch }

  predicate EndsCount(trace: Trace, i: nat)
    requires i < |trace|
  {
    Ends(trace[i].0, After(trace[..i]).epoch)
  }

  predicate FailedProbe(trace: Trace, i: nat)
    requires i < |trace|
  {
    Fails(trace[i].0, After(trace[..i]).epoch)
  }

  /** The accepted failed probes among events `from` to `to`. */
  function FailuresBetween(trace: Trace, from: nat, to: nat): nat
    requires from <= to <= |trace|
  {
    if from == to then 0
    else FailuresBetween(trace, from, to - 1) + (if FailedProbe(trace, to - 1) then 1 else 0)
  }

  /** `from` is where the current count starts: right after the last evidence that ended one. */
  predicate CountStart(trace: Trace, from: nat) {
    && from <= |trace|
    && (from > 0 ==> EndsCount(trace, from - 1))
    && forall i :: from <= i < |trace| ==> !EndsCount(trace, i)
  }

  /** What an event was does not depend on what followed it. */
  lemma PrefixEvents(trace: Trace, n: nat)
    requires n < |trace|
    ensures forall i :: 0 <= i < n ==>
      EndsCount(trace[..n], i) == EndsCount(trace, i) && FailedProbe(trace[..n], i) == FailedProbe(trace, i)
  {
    forall i | 0 <= i < n
      ensures EndsCount(trace[..n], i) == EndsCount(trace, i) && FailedProbe(trace[..n], i) == FailedProbe(trace, i)
    {
      assert trace[..n][..i] == trace[..i];
    }
  }

  lemma {:induction false} PrefixFailures(trace: Trace, from: nat, to: nat)
    requires from <= to < |trace|
    ensures FailuresBetween(trace, from, to) == FailuresBetween(trace[..|trace| - 1], from, to)
  {
    if from < to {
      PrefixFailures(trace, from, to - 1);
      PrefixEvents(trace, |trace| - 1);
    }
  }

  /**
   * In every reachable state `failedProbes` counts the accepted failed probes since the last
   * answer, open socket, reset or stop, and the server is failing exactly when there is one.
   */
  lemma {:induction false} FailuresAreCounted(trace: Trace, from: nat)
    requires CountStart(trace, from)
    ensures After(trace).failedProbes == FailuresBetween(trace, from, |trace|)
    ensures After(trace).server == Failing <==> After(trace).failedProbes > 0
    decreases |trace|
  {
    if trace != [] {
      var n := |trace| - 1;
      var prefix := trace[..n];
      LastEventCounts(trace);
      if from < |trace| {
        PrefixEvents(trace, n);
        assert CountStart(prefix, from);
        FailuresAreCounted(prefix, from);
        PrefixFailures(trace, from, n);
        assert !EndsCount(trace, n);
      }
    }
  }

  /** An event ends the count, adds to it, or leaves it. */
  ghost predicate Counts(before: State, e: Event, after: State) {
    && (Ends(e, before.epoch) ==> after.failedProbes == 0 && after.server != Failing)
    && (Fails(e, before.epoch) ==> after.failedProbes == before.failedProbes + 1 && after.server == Failing)
    && (!Ends(e, before.epoch) && !Fails(e, before.epoch) ==>
         after.failedProbes == before.failedProbes && (after.server == Failing <==> before.server == Failing))
  }

  lemma ReduceCounts(s: State, e: Event, now: int)
    ensures Counts(s, e, Reduce(s, e, now).state)
  {
    match e
    case SocketEvent(key, status, code) => SocketCounts(s, key, status, code, now);
    case Resume => ResumeCounts(s, now);
    case ProbeResult(ok, _) =>
    case _ =>
  }

  lemma SocketCounts(s: State, key: string, status: Status, code: Option<int>, now: int)
    ensures Counts(s, SocketEvent(key, status, code), ReduceSocket(s, key, status, code, now).state)
  {}

  lemma ResumeCounts(s: State, now: int)
    ensures Counts(s, Resume, ReduceResume(s, now).state)
  {}

  lemma LastEventCounts(trace: Trace)
    requires trace != []
    ensures var n := |trace| - 1; Counts(After(trace[..n]), trace[n].0, After(trace))
  {
    var last := trace[|trace| - 1];
    ReduceCounts(After(trace[..|trace| - 1]), last.0, last.1);
  }

  /** Where the current count starts. */
  function CountFrom(trace: Trace): (from: nat)
    ensures CountStart(trace, from)
    decreases |trace|
  {
    if trace == [] then 0
    else if EndsCount(trace, |trace| - 1) then |trace|
    else
      PrefixEvents(trace, |trace| - 1);
      CountFrom(trace[..|trace| - 1])
  }

  /** The accepted failed probes since the last good evidence. */
  function FailuresNow(trace: Trace): nat { FailuresBetween(trace, CountFrom(trace), |trace|) }

  /**
   * Offline is earned: after any events whatever, the app says offline exactly when the monitor
   * runs and at least three probes have failed since the last good evidence. And it never says
   * online while running unless the server answered and every tracked socket is open.
   */
  lemma OfflineIsEarned(trace: Trace, now: int)
    ensures var s := After(trace);
      && (Derive(s, now) == Offline <==> s.running && FailuresNow(trace) >= OFFLINE_AFTER_FAILURES)
      && (Derive(s, now) == Online <==>
           !s.running || (s.server == Ok && forall k :: k in s.sockets ==> s.sockets[k].status == Open))
  {
    FailuresAreCounted(trace, CountFrom(trace));
  }
}
