/**
 * Keeping the desktop's local executor in line with the session and the API URL
 * (apps/desktop/src/main.js): jobs on one promise chain, each of which may wait in the middle for
 * the previous child to stop while the inputs go on changing.
 */
module ExecutorSync {
  import opened Prelude

  datatype Pair = Pair(token: string, url: string)

  /** A child handle that was started, and whether its `stop()` has settled. */
  datatype Child = Child(pair: Pair, stopped: bool)

  /** The job on the chain that is under way: none, or one waiting for a child's `stop()`. */
  datatype Phase = Idle | Stopping(child: nat)

  datatype World = World(
    sessionToken: Option<string>,
    apiBaseUrl: Option<string>,
    payload: bool,                 // the executor's entry file exists
    executor: Option<nat>,         // an index into `children`
    spawnedFor: Option<Pair>,
    resolved: bool,                // `executorSync` is not a rejected promise
    queued: nat,                   // jobs chained and not begun
    phase: Phase,
    children: seq<Child>,          // every child ever started
    lost: set<nat>,                // those no variable refers to
    dirty: bool,                   // an input changed and no sync has been asked for since
    last: LastJob,                 // how the last job went
    shown: Shown                   // what the renderer is told of the executor
  )

  /** The last job did what the inputs asked, could not say so, could not start an executor, or never ran its body. */
  datatype LastJob = Fine | PushFailed | StartFailed | Skipped

  /** Why there is no executor, or what its child reports. */
  datatype Shown = NotSignedIn | NoServer | NoPayload | CouldNotStart | ChildReports

  const LAUNCHED := World(None, None, false, None, None, true, 0, Idle, [], {}, true, Fine, NotSignedIn)

  /** How starting a child goes: nothing throws; reading the identity, or starting, throws; or the
    * first state report throws when the child is already there. */
  datatype Start = Starts | IdentityThrows | StartThrows | ReportThrows

  /** What the environment decides during a job: the start, and whether the two state pushes work. */
  datatype Outcome = Outcome(start: Start, pushes: bool, reports: bool)

  datatype Action =
    | SetSession(token: Option<string>)
    | UrlBecomes(url: Option<string>)
    | PayloadBecomes(present: bool)
    | PushStackState
    | JobBegins(outcome: Outcome)
    | StopSettles(settled: Outcome)

  /** A token that is not a string, or blank, is no session. */
  function Session(token: Option<string>): (r: Option<string>)
    ensures r.Some? ==> r.value != ""
  {
    if token.None? || Trim(token.value) == "" then None else Some(Trim(token.value))
  }

  predicate HasUrl(w: World) { w.apiBaseUrl.Some? && w.apiBaseUrl.value != "" }

  /** The live executor is the one the inputs ask for. */
  predicate UpToDate(w: World) {
    && w.executor.Some? && w.spawnedFor.Some?
    && w.sessionToken == Some(w.spawnedFor.value.token)
    && w.apiBaseUrl == Some(w.spawnedFor.value.url)
  }

  // ----- One job -----

  /** The handler at the end of the chain: it pushes a state, and rejects if that throws. */
  function Caught(w: World, outcome: Outcome): World { w.(resolved := outcome.reports, shown := CouldNotStart) }

  function Offline(w: World, outcome: Outcome): World {
    var told := w.(shown := if w.sessionToken.None? then NotSignedIn else if !HasUrl(w) then NoServer else NoPayload);
    if outcome.pushes then told else Caught(told.(last := PushFailed), outcome)
  }

  /** Starting a child for a token and a URL. */
  function Started(w: World, pair: Pair, outcome: Outcome): World {
    var failed := w.(last := StartFailed);
    match outcome.start
    case IdentityThrows => Caught(failed, outcome)
    case StartThrows => Caught(failed.(spawnedFor := Some(pair)), outcome)
    case ReportThrows =>
      Caught(failed.(spawnedFor := Some(pair), children := w.children + [Child(pair, false)],
                     lost := w.lost + {|w.children|}), outcome)
    case Starts =>
      w.(spawnedFor := Some(pair), executor := Some(|w.children|), children := w.children + [Child(pair, false)],
         shown := ChildReports)
  }

  /** The job from where the previous child, if there was one, is gone. */
  function Finish(w: World, outcome: Outcome): World {
    var w := w.(phase := Idle, last := Fine);
    if w.sessionToken.None? || !HasUrl(w) || !w.payload then Offline(w, outcome)
    else Started(w, Pair(w.sessionToken.value, w.apiBaseUrl.value), outcome)
  }

  function Begin(w: World, outcome: Outcome): World
    requires w.queued > 0
  {
    var w := w.(queued := w.queued - 1);
    if !w.resolved then Caught(w.(last := Skipped), outcome)       // the body is skipped, the handler runs
    else Body(w, outcome)
  }

  /** A job's body, up to its end or to the wait for the previous child. */
  function Body(w: World, outcome: Outcome): World {
    if UpToDate(w) then w.(last := Fine)
    else if w.executor.Some? then w.(executor := None, spawnedFor := None, phase := Stopping(w.executor.value))
    else Finish(w, outcome)
  }

  /** A child whose `stop()` has settled. */
  function Gone(w: World, child: nat): World {
    if child < |w.children| then w.(children := w.children[child := w.children[child].(stopped := true)]) else w
  }

  function Settle(w: World, child: nat, outcome: Outcome): World { Finish(Gone(w, child), outcome) }

  function Step(w: World, a: Action): World {
    match a
    case SetSession(token) => w.(sessionToken := Session(token), queued := w.queued + 1, dirty := false)
    case UrlBecomes(url) => w.(apiBaseUrl := url, dirty := true)
    case PayloadBecomes(present) => w.(payload := present, dirty := true)
    case PushStackState => w.(queued := w.queued + 1, dirty := false)
    case JobBegins(outcome) => if w.phase == Idle && w.queued > 0 then Begin(w, outcome) else w
    case StopSettles(outcome) => if w.phase.Stopping? then Settle(w, w.phase.child, outcome) else w
  }

  function Run(w: World, actions: seq<Action>): World
    decreases |actions|
  {
    if actions == [] then w else Run(Step(w, actions[0]), actions[1..])
  }

  /** The main process's variables; the children are the processes it has started. */
  class MainProcess {
    var sessionToken: Option<string>
    var apiBaseUrl: Option<string>
    var payload: bool
    var executor: Option<nat>
    var executorSpawnedFor: Option<Pair>
    var resolved: bool
    var queued: nat
    var phase: Phase
    var children: seq<Child>
    ghost var lost: set<nat>
    ghost var dirty: bool
    ghost var last: LastJob
    var executorState: Shown

    constructor ()
      ensures View() == LAUNCHED
    {
      sessionToken, apiBaseUrl, payload, executor, executorSpawnedFor := None, None, false, None, None;
      resolved, queued, phase, children := true, 0, Idle, [];
      lost, dirty, last, executorState := {}, true, Fine, NotSignedIn;
    }

    ghost function View(): World
      reads this
    {
      World(sessionToken, apiBaseUrl, payload, executor, executorSpawnedFor, resolved, queued, phase, children,
            lost, dirty, last, executorState)
    }

    method SyncExecutor()
      modifies this`queued, this`dirty
      ensures View() == Step(old(View()), PushStackState)
    {
      queued, dirty := queued + 1, false;
    }

    method HandleSetSession(token: Option<string>)
      modifies this
      ensures View() == Step(old(View()), SetSession(token))
    {
      sessionToken := Session(token);
      SyncExecutor();
    }

    method HandleRejection(outcome: Outcome)
      modifies this`resolved, this`executorState
      ensures resolved == outcome.reports && executorState == CouldNotStart
    {
      executorState := CouldNotStart;
      resolved := outcome.reports;
    }

    /** A job's body, up to its end or to the wait for the previous child. */
    method RunJob(outcome: Outcome)
      modifies this
      ensures View() == Step(old(View()), JobBegins(outcome))
    {
      if phase != Idle || queued == 0 { return; }
      BeginJob(outcome);
    }

    method BeginJob(outcome: Outcome)
      requires queued > 0
      modifies this
      ensures View() == Begin(old(View()), outcome)
    {
      queued := queued - 1;
      if resolved { RunBody(outcome); } else { SkipBody(outcome); }
    }

    /** The chain is rejected, so only the handler runs. */
    method SkipBody(outcome: Outcome)
      modifies this
      ensures View() == Caught(old(View()).(last := Skipped), outcome)
    {
      last := Skipped;
      HandleRejection(outcome);
    }

    method RunBody(outcome: Outcome)
      requires resolved
      modifies this
      ensures View() == Body(old(View()), outcome)
    {
      if executor.Some? && executorSpawnedFor.Some? && sessionToken == Some(executorSpawnedFor.value.token)
         && apiBaseUrl == Some(executorSpawnedFor.value.url)
      {
        last := Fine;
        return;
      }
      if executor.Some? {
        phase := Stopping(executor.value);
        executor, executorSpawnedFor := None, None;
        return;
      }
      FinishJob(outcome);
    }

    method OnStopSettled(outcome: Outcome)
      modifies this
      ensures View() == Step(old(View()), StopSettles(outcome))
    {
      if phase.Idle? { return; }
      if phase.child < |children| {
        children := children[phase.child := children[phase.child].(stopped := true)];
      }
      FinishJob(outcome);
    }

    method FinishJob(outcome: Outcome)
      modifies this
      ensures View() == Finish(old(View()), outcome)
    {
      phase, last := Idle, Fine;
      if sessionToken.None? {
        SayOffline(NotSignedIn, outcome);
        return;
      }
      if apiBaseUrl.None? || apiBaseUrl.value == "" {
        SayOffline(NoServer, outcome);
        return;
      }
      if !payload {
        SayOffline(NoPayload, outcome);
        return;
      }
      StartFor(Pair(sessionToken.value, apiBaseUrl.value), outcome);
    }

    /** Sets the state and pushes it, which may throw. */
    method SayOffline(why: Shown, outcome: Outcome)
      modifies this`executorState, this`resolved, this`last
      ensures executorState == (if outcome.pushes then why else CouldNotStart)
      ensures resolved == (if outcome.pushes then old(resolved) else outcome.reports)
      ensures last == (if outcome.pushes then old(last) else PushFailed)
    {
      executorState := why;
      if !outcome.pushes {
        last := PushFailed;
        HandleRejection(outcome);
      }
    }

    method FailStart(outcome: Outcome)
      modifies this
      ensures View() == Caught(old(View()).(last := StartFailed), outcome)
    {
      last := StartFailed;
      HandleRejection(outcome);
    }

    method StartFor(pair: Pair, outcome: Outcome)
      modifies this
      ensures View() == Started(old(View()), pair, outcome)
    {
      if outcome.start == IdentityThrows {
        FailStart(outcome);
        return;
      }
      executorSpawnedFor := Some(pair);
      if outcome.start == StartThrows {
        FailStart(outcome);
        return;
      }
      children := children + [Child(pair, false)];
      executorState := ChildReports;
      if outcome.start == ReportThrows {
        lost := lost + {|children| - 1};
        FailStart(outcome);
        return;
      }
      executor := Some(|children| - 1);
    }
  }

  // ----- The invariant -----

  /** The one child the main process holds: the executor, or the one being waited for. */
  function Held(w: World): Option<nat> {
    if w.phase.Stopping? then Some(w.phase.child) else w.executor
  }

  ghost predicate Inv(w: World) {
    && (Held(w).Some? ==> Held(w).value < |w.children| && Held(w).value !in w.lost && w.resolved)
    && (w.phase.Stopping? ==> w.executor.None? && w.spawnedFor.None?)
    && (forall c :: 0 <= c < |w.children| ==> (!w.children[c].stopped <==> Held(w) == Some(c) || c in w.lost))
    && (forall c :: c in w.lost ==> c < |w.children|)
    && (w.executor.Some? ==> w.spawnedFor == Some(w.children[w.executor.value].pair))
    && (w.spawnedFor.Some? ==> w.spawnedFor.value.url != "")
    && (w.last != Fine && w.phase == Idle ==> w.executor.None?)
    && (w.phase == Idle && w.executor.Some? ==> w.shown == ChildReports)
    && (w.phase == Idle && w.last != Fine ==> w.shown == CouldNotStart)
    && (w.phase == Idle && w.queued == 0 && !w.dirty ==> Settled(w))
  }

  /** What the inputs ask for is what there is. */
  predicate Settled(w: World) {
    && (w.executor.Some? ==> UpToDate(w) && HasUrl(w))
    && (w.executor.None? && w.last == Fine ==> w.shown == WhyNone(w) && !WantsExecutor(w))
  }

  /** Why no executor is wanted. */
  function WhyNone(w: World): Shown {
    if w.sessionToken.None? then NotSignedIn else if !HasUrl(w) then NoServer else NoPayload
  }

  lemma FinishKeepsInv(w: World, outcome: Outcome)
    requires w.executor.None? && w.resolved && (w.spawnedFor.Some? ==> w.spawnedFor.value.url != "")
    requires forall c :: 0 <= c < |w.children| ==> (!w.children[c].stopped <==> c in w.lost)
    requires forall c :: c in w.lost ==> c < |w.children|
    ensures Inv(Finish(w, outcome))
  {
    var idle := w.(phase := Idle, last := Fine);
    if w.sessionToken.Some? && HasUrl(w) && w.payload {
      StartedKeepsInv(idle, outcome);
    }
  }

  lemma StartedKeepsInv(w: World, outcome: Outcome)
    requires w.executor.None? && w.resolved && w.phase == Idle && w.last == Fine
    requires w.spawnedFor.Some? ==> w.spawnedFor.value.url != ""
    requires forall c :: 0 <= c < |w.children| ==> (!w.children[c].stopped <==> c in w.lost)
    requires forall c :: c in w.lost ==> c < |w.children|
    requires w.sessionToken.Some? && HasUrl(w)
    ensures Inv(Started(w, Pair(w.sessionToken.value, w.apiBaseUrl.value), outcome))
  {
    if outcome.start == Starts {
      LiveKeepsInv(w, outcome);
    }
  }

  lemma LiveKeepsInv(w: World, outcome: Outcome)
    requires w.executor.None? && w.resolved && w.phase == Idle && w.last == Fine && outcome.start == Starts
    requires forall c :: 0 <= c < |w.children| ==> (!w.children[c].stopped <==> c in w.lost)
    requires forall c :: c in w.lost ==> c < |w.children|
    requires w.sessionToken.Some? && HasUrl(w)
    ensures Inv(Started(w, Pair(w.sessionToken.value, w.apiBaseUrl.value), outcome))
  {}

  lemma BeginKeepsInv(w: World, outcome: Outcome)
    requires Inv(w) && w.phase == Idle && w.queued > 0
    ensures Inv(Begin(w, outcome))
  {
    if w.resolved && !UpToDate(w) && w.executor.None? {
      FinishKeepsInv(w.(queued := w.queued - 1), outcome);
    }
  }

  lemma SettleKeepsInv(w: World, outcome: Outcome)
    requires Inv(w) && w.phase.Stopping?
    ensures Inv(Settle(w, w.phase.child, outcome))
  {
    FinishKeepsInv(Gone(w, w.phase.child), outcome);
  }

  lemma StepKeepsInv(w: World, a: Action)
    requires Inv(w)
    ensures Inv(Step(w, a))
  {
    match a
    case JobBegins(outcome) => if w.phase == Idle && w.queued > 0 { BeginKeepsInv(w, outcome); }
    case StopSettles(outcome) => if w.phase.Stopping? { SettleKeepsInv(w, outcome); }
    case _ =>
  }

  lemma {:induction false} RunKeepsInv(w: World, actions: seq<Action>)
    requires Inv(w)
    ensures Inv(Run(w, actions))
    decreases |actions|
  {
    if actions != [] {
      StepKeepsInv(w, actions[0]);
      RunKeepsInv(Step(w, actions[0]), actions[1..]);
    }
  }

  // ----- What it guarantees -----

  /**
   * One child at a time: in every interleaving of sign-ins, sign-outs, URL changes and waits, a
   * child that has not stopped is the one held or one that was lost; so, unless starting threw
   * with a child already there, there are never two, and a new one starts only when the `stop()`
   * of every earlier one has settled. None has been lost exactly when no action so far started a
   * child whose first report threw.
   */
  lemma OneChildAtATime(actions: seq<Action>, a: Action)
    ensures var w := Run(LAUNCHED, actions); var next := Step(w, a);
      && (forall c, d :: 0 <= c < d < |w.children| && c !in w.lost && d !in w.lost ==>
           w.children[c].stopped || w.children[d].stopped)
      && (|next.children| > |w.children| ==>
           && |next.children| == |w.children| + 1
           && forall c :: 0 <= c < |w.children| ==> next.children[c].stopped || c in w.lost)
      && (w.lost == {} <==> !LosesOne(LAUNCHED, actions))
  {
    RunKeepsInv(LAUNCHED, actions);
    RunLoses(LAUNCHED, actions);
    var w := Run(LAUNCHED, actions);
    if |Step(w, a).children| > |w.children| { StartsAfterStops(w, a); }
  }

  /** The end of a job starts one child or none, and touches no other. */
  lemma FinishAdds(w: World, outcome: Outcome)
    ensures var next := Finish(w, outcome);
      next.children == w.children ||
      (|next.children| == |w.children| + 1 && next.children[..|w.children|] == w.children)
  {}

  lemma StartsAfterStops(w: World, a: Action)
    requires Inv(w) && |Step(w, a).children| > |w.children|
    ensures |Step(w, a).children| == |w.children| + 1
    ensures forall c :: 0 <= c < |w.children| ==> Step(w, a).children[c].stopped || c in w.lost
  {
    if a.StopSettles? {
      SettleStartsAlone(w, a.settled);
    } else {
      BeginStartsAlone(w, a.outcome);
    }
  }

  /** A start at the beginning of a job: no child is held then. */
  lemma BeginStartsAlone(w: World, outcome: Outcome)
    requires Inv(w) && w.phase == Idle && w.queued > 0 && |Begin(w, outcome).children| > |w.children|
    ensures |Begin(w, outcome).children| == |w.children| + 1
    ensures forall c :: 0 <= c < |w.children| ==> Begin(w, outcome).children[c].stopped || c in w.lost
  {
    var ready := w.(queued := w.queued - 1);
    assert Held(w) == None && Begin(w, outcome) == Finish(ready, outcome);
    FinishAdds(ready, outcome);
    OthersStopped(w, ready, Finish(ready, outcome));
  }

  /** A start after a wait: the child waited for has stopped. */
  lemma SettleStartsAlone(w: World, outcome: Outcome)
    requires Inv(w) && w.phase.Stopping? && |Settle(w, w.phase.child, outcome).children| > |w.children|
    ensures |Settle(w, w.phase.child, outcome).children| == |w.children| + 1
    ensures forall c :: 0 <= c < |w.children| ==> Settle(w, w.phase.child, outcome).children[c].stopped || c in w.lost
  {
    var ready := Gone(w, w.phase.child);
    FinishAdds(ready, outcome);
    OthersStopped(w, ready, Finish(ready, outcome));
  }

  lemma OthersStopped(w: World, ready: World, next: World)
    requires Inv(w) && |ready.children| == |w.children|
    requires forall c :: 0 <= c < |w.children| ==>
        ready.children[c].stopped == (w.children[c].stopped || Held(w) == Some(c))
    requires |next.children| > |w.children| && next.children[..|w.children|] == ready.children
    ensures forall c :: 0 <= c < |w.children| ==> next.children[c].stopped || c in w.lost
  {
    forall c | 0 <= c < |w.children| ensures next.children[c].stopped || c in w.lost {
      assert next.children[..|w.children|][c] == ready.children[c];
    }
  }

  /** The chain has nothing left to do, and every change of an input has been followed by a sync. */
  predicate Drained(w: World) { w.phase == Idle && w.queued == 0 && !w.dirty }

  /**
   * Once the chain drains: a live executor is for the current token and URL, and its child was
   * started with exactly those; and with the payload there an executor runs exactly when there is
   * a token and a URL, the last job's body ran, and starting did not fail.
   */
  lemma DrainedIsInLine(actions: seq<Action>)
    requires Drained(Run(LAUNCHED, actions))
    ensures var w := Run(LAUNCHED, actions);
      && (w.executor.Some? ==>
           && w.executor.value < |w.children|
           && !w.children[w.executor.value].stopped
           && w.sessionToken == Some(w.children[w.executor.value].pair.token)
           && w.apiBaseUrl == Some(w.children[w.executor.value].pair.url))
      && (w.payload ==> (w.executor.Some? <==> w.sessionToken.Some? && HasUrl(w) && w.last == Fine))
  {
    RunKeepsInv(LAUNCHED, actions);
  }

  /**
   * Once the chain drains the renderer is told the truth: a live child's reports while there is an
   * executor; that it could not be started when the last job threw or was skipped; and otherwise
   * which of a session, a server and a payload is missing, the first of them that is.
   */
  lemma DrainedSaysWhy(actions: seq<Action>)
    requires Drained(Run(LAUNCHED, actions))
    ensures var w := Run(LAUNCHED, actions);
      && (w.executor.Some? <==> w.shown == ChildReports)
      && (w.last != Fine <==> w.shown == CouldNotStart)
      && (w.shown == NotSignedIn <==> w.last == Fine && w.sessionToken.None? && w.executor.None?)
      && (w.shown == NoServer <==> w.last == Fine && w.sessionToken.Some? && !HasUrl(w) && w.executor.None?)
      && (w.shown == NoPayload <==>
           w.last == Fine && w.sessionToken.Some? && HasUrl(w) && !w.payload && w.executor.None?)
  {
    RunKeepsInv(LAUNCHED, actions);
  }

  /** A session is what was given, without the white space around it, and none when that leaves nothing. */
  lemma SessionIsTrimmed(token: Option<string>)
    ensures Session(token).Some? <==> token.Some? && exists c :: c in token.value && !IsSpace(c)
    ensures Session(token).Some? ==> exists before, after ::
      && token.value == before + Session(token).value + after && AllSpace(before) && AllSpace(after)
      && !IsSpace(Session(token).value[0]) && !IsSpace(Session(token).value[|Session(token).value| - 1])
  {
    if token.Some? { TrimMeans(token.value); }
  }

  predicate ChangesNoInput(a: Action) { a.PushStackState? || a.JobBegins? || a.StopSettles? }

  /**
   * Syncs with unchanged inputs, however many, start no child and stop none: the executor that is
   * up to date before them is the same one after them.
   */
  lemma {:induction false} UnchangedSyncsDoNothing(w: World, actions: seq<Action>)
    requires w.phase == Idle && w.resolved && UpToDate(w)
    requires forall i :: 0 <= i < |actions| ==> ChangesNoInput(actions[i])
    ensures var after := Run(w, actions);
      && after.children == w.children && after.executor == w.executor
      && after.spawnedFor == w.spawnedFor && after.phase == Idle
    decreases |actions|
  {
    if actions != [] {
      assert ChangesNoInput(actions[0]);
      UnchangedSyncsDoNothing(Step(w, actions[0]), actions[1..]);
    }
  }

  // ----- Draining -----

  /** What the event loop does when nothing new comes in; `outcomes` says how each segment goes. */
  function Drain(w: World, outcomes: nat -> Outcome): World
    decreases w.queued, if w.phase.Stopping? then 1 else 0
  {
    if w.phase.Stopping? then Drain(Settle(w, w.phase.child, outcomes(2 * w.queued + 1)), outcomes)
    else if w.queued > 0 then Drain(Begin(w, outcomes(2 * w.queued)), outcomes)
    else w
  }

  /** A segment changes no input, and with no session it starts nothing. */
  lemma FinishKeepsInputs(w: World, outcome: Outcome)
    ensures var next := Finish(w, outcome);
      && next.sessionToken == w.sessionToken && next.dirty == w.dirty
      && (w.sessionToken.None? ==> next.children == w.children && next.lost == w.lost)
  {}

  /** One segment on from `w`: the inputs are as they were, and with no session no child is new or lost. */
  predicate SameSession(w: World, next: World) {
    && next.sessionToken == w.sessionToken && next.dirty == w.dirty
    && (w.sessionToken.None? ==> |next.children| == |w.children| && next.lost == w.lost)
  }

  lemma SettleGoesOn(w: World, outcome: Outcome)
    requires Inv(w) && w.phase.Stopping?
    ensures var next := Settle(w, w.phase.child, outcome); Inv(next) && SameSession(w, next)
  {
    SettleKeepsInv(w, outcome);
    FinishKeepsInputs(Gone(w, w.phase.child), outcome);
  }

  lemma BeginGoesOn(w: World, outcome: Outcome)
    requires Inv(w) && w.phase == Idle && w.queued > 0
    ensures var next := Begin(w, outcome); Inv(next) && SameSession(w, next)
  {
    BeginKeepsInv(w, outcome);
    FinishKeepsInputs(w.(queued := w.queued - 1), outcome);
  }

  /** Draining ends, with the inputs as they were; with no session it starts no child on the way. */
  lemma {:induction false} DrainEnds(w: World, outcomes: nat -> Outcome)
    requires Inv(w) && !w.dirty
    ensures var after := Drain(w, outcomes); Inv(after) && Drained(after) && SameSession(w, after)
    decreases w.queued, if w.phase.Stopping? then 1 else 0
  {
    if w.phase.Stopping? {
      var next := Settle(w, w.phase.child, outcomes(2 * w.queued + 1));
      SettleGoesOn(w, outcomes(2 * w.queued + 1));
      DrainEnds(next, outcomes);
    } else if w.queued > 0 {
      var next := Begin(w, outcomes(2 * w.queued));
      BeginGoesOn(w, outcomes(2 * w.queued));
      DrainEnds(next, outcomes);
    }
  }

  /**
   * Sign-out always takes effect: from any reachable state, whatever is queued and whatever goes
   * wrong on the way, draining after a sign-out starts no child and leaves no executor, and every
   * child not lost earlier has stopped.
   */
  lemma SignOutStopsEverything(actions: seq<Action>, outcomes: nat -> Outcome)
    ensures var w := Step(Run(LAUNCHED, actions), SetSession(None));
      var after := Drain(w, outcomes);
      && Drained(after) && after.executor.None? && |after.children| == |w.children|
      && forall c :: 0 <= c < |after.children| ==> after.children[c].stopped || c in w.lost
  {
    RunKeepsInv(LAUNCHED, actions);
    StepKeepsInv(Run(LAUNCHED, actions), SetSession(None));
    DrainEnds(Step(Run(LAUNCHED, actions), SetSession(None)), outcomes);
  }

  // ----- Children that are lost -----

  /** The action takes a job to the point where it starts a child: the inputs are there and nothing is held. */
  predicate ReachesStart(w: World, a: Action) {
    match a
    case JobBegins(_) => w.phase == Idle && w.queued > 0 && w.resolved && w.executor.None? && WantsExecutor(w)
    case StopSettles(_) => w.phase.Stopping? && WantsExecutor(w)
    case _ => false
  }

  /** How a start would go, as the action's outcome has it. */
  function StartOf(a: Action): Option<Start> {
    match a
    case JobBegins(outcome) => Some(outcome.start)
    case StopSettles(outcome) => Some(outcome.start)
    case _ => None
  }

  /** A child is started whose first report throws. */
  predicate Loses(w: World, a: Action) { ReachesStart(w, a) && StartOf(a) == Some(ReportThrows) }

  /** A child is started, whether or not it is then lost. */
  predicate Spawns(w: World, a: Action) { ReachesStart(w, a) && StartOf(a) in {Some(Starts), Some(ReportThrows)} }

  lemma FinishSpawns(w: World, outcome: Outcome)
    ensures var next := Finish(w, outcome);
      && next.lost == (if WantsExecutor(w) && outcome.start == ReportThrows then w.lost + {|w.children|} else w.lost)
      && (WantsExecutor(w) && outcome.start in {Starts, ReportThrows} ==>
           |next.children| == |w.children| + 1 && !next.children[|w.children|].stopped)
      && (!(WantsExecutor(w) && outcome.start in {Starts, ReportThrows}) ==> next.children == w.children)
      && (outcome.start != Starts ==> next.executor == w.executor)
  {}

  /** A step loses a child exactly when it starts one whose first report throws. */
  lemma StepLoses(w: World, a: Action)
    requires Inv(w)
    ensures Step(w, a).lost == if Loses(w, a) then w.lost + {|w.children|} else w.lost
  {
    match a
    case JobBegins(outcome) => if w.queued > 0 { FinishSpawns(w.(queued := w.queued - 1), outcome); }
    case StopSettles(outcome) => if w.phase.Stopping? { FinishSpawns(Gone(w, w.phase.child), outcome); }
    case _ =>
  }

  /** Some action of the run starts a child whose first report throws. */
  predicate LosesOne(w: World, actions: seq<Action>)
    decreases |actions|
  {
    actions != [] && (Loses(w, actions[0]) || LosesOne(Step(w, actions[0]), actions[1..]))
  }

  lemma {:induction false} RunLoses(w: World, actions: seq<Action>)
    requires Inv(w)
    ensures w.lost <= Run(w, actions).lost
    ensures LosesOne(w, actions) <==> Run(w, actions).lost != w.lost
    decreases |actions|
  {
    if actions != [] {
      StepKeepsInv(w, actions[0]);
      StepLoses(w, actions[0]);
      RunLoses(Step(w, actions[0]), actions[1..]);
      if Loses(w, actions[0]) { assert |w.children| !in w.lost && |w.children| in Step(w, actions[0]).lost; }
    }
  }

  /**
   * Exactly when a sign-out stops everything: draining after it, whatever throws then, leaves
   * every child stopped if and only if no action before it started a child whose first report
   * threw.
   */
  lemma SignOutStopsAllExactlyWhen(actions: seq<Action>, outcomes: nat -> Outcome)
    ensures var after := Drain(Step(Run(LAUNCHED, actions), SetSession(None)), outcomes);
      (forall c :: 0 <= c < |after.children| ==> after.children[c].stopped) <==> !LosesOne(LAUNCHED, actions)
  {
    var w := Step(Run(LAUNCHED, actions), SetSession(None));
    RunKeepsInv(LAUNCHED, actions);
    StepKeepsInv(Run(LAUNCHED, actions), SetSession(None));
    DrainEnds(w, outcomes);
    RunLoses(LAUNCHED, actions);
    var after := Drain(w, outcomes);
    assert after.lost == Run(LAUNCHED, actions).lost && after.executor.None?;
    if c :| c in after.lost { assert c < |after.children| && !after.children[c].stopped; }
  }

  /** Two children that have not stopped. */
  ghost predicate TwoAtOnce(w: World) {
    exists c, d :: 0 <= c < d < |w.children| && !w.children[c].stopped && !w.children[d].stopped
  }

  /** At some moment of the run. */
  ghost predicate EverTwo(w: World, actions: seq<Action>)
    decreases |actions|
  {
    TwoAtOnce(w) || (actions != [] && EverTwo(Step(w, actions[0]), actions[1..]))
  }

  /** Some action starts a child after one has been lost. */
  predicate StartsAfterLoss(w: World, lost: bool, actions: seq<Action>)
    decreases |actions|
  {
    actions != [] &&
    ((lost && Spawns(w, actions[0])) ||
     StartsAfterLoss(Step(w, actions[0]), lost || Loses(w, actions[0]), actions[1..]))
  }

  lemma LostWithoutTwo(w: World)
    requires Inv(w) && w.lost != {} && !TwoAtOnce(w)
    ensures Held(w).None? && exists c :: w.lost == {c}
  {
    var c :| c in w.lost;
    forall d | d in w.lost ensures d == c { assert !w.children[c].stopped && !w.children[d].stopped; }
    assert w.lost == {c};
    assert !w.children[c].stopped;
  }

  /** With no child lost, no step leaves two; with one lost, exactly a start does. */
  lemma TwoAfterStep(w: World, a: Action)
    requires Inv(w) && !TwoAtOnce(w)
    ensures TwoAtOnce(Step(w, a)) <==> w.lost != {} && Spawns(w, a)
  {
    var next := Step(w, a);
    StepKeepsInv(w, a);
    StepLoses(w, a);
    if w.lost == {} {
      NoneLostSpawns(w, a);
    } else {
      LostWithoutTwo(w);
      OneLostSpawns(w, a);
    }
  }

  lemma NoneLostSpawns(w: World, a: Action)
    requires Inv(w) && w.lost == {} && Inv(Step(w, a))
    requires Step(w, a).lost == if Loses(w, a) then w.lost + {|w.children|} else w.lost
    ensures !TwoAtOnce(Step(w, a))
  {
    if Loses(w, a) {
      match a
      case JobBegins(outcome) => FinishSpawns(w.(queued := w.queued - 1), outcome);
      case StopSettles(outcome) => FinishSpawns(Gone(w, w.phase.child), outcome);
    }
  }

  lemma OneLostSpawns(w: World, a: Action)
    requires Inv(w) && w.lost != {} && Held(w).None? && !TwoAtOnce(w)
    ensures TwoAtOnce(Step(w, a)) <==> Spawns(w, a)
  {
    var c :| c in w.lost;
    assert !w.children[c].stopped;
    match a
    case JobBegins(outcome) =>
      if w.queued > 0 && w.resolved {
        var ready := w.(queued := w.queued - 1);
        FinishSpawns(ready, outcome);
        FinishAdds(ready, outcome);
        var next := Step(w, a);
        assert next == Finish(ready, outcome);
        if Spawns(w, a) {
          assert next.children[..|w.children|][c] == w.children[c];
          assert !next.children[c].stopped && !next.children[|w.children|].stopped;
        } else {
          assert next.children == w.children;
        }
      }
    case _ =>
  }

  lemma {:induction false} TwoChildrenRun(w: World, actions: seq<Action>)
    requires Inv(w) && !TwoAtOnce(w)
    ensures EverTwo(w, actions) <==> StartsAfterLoss(w, w.lost != {}, actions)
    decreases |actions|
  {
    if actions != [] {
      var next := Step(w, actions[0]);
      StepKeepsInv(w, actions[0]);
      StepLoses(w, actions[0]);
      TwoAfterStep(w, actions[0]);
      if !TwoAtOnce(next) { TwoChildrenRun(next, actions[1..]); }
    }
  }

  /**
   * Exactly when two children ever run at once: if and only if some action starts a child after
   * an earlier one started a child whose first report threw.
   */
  lemma TwoChildrenExactlyWhen(actions: seq<Action>)
    ensures EverTwo(LAUNCHED, actions) <==> StartsAfterLoss(LAUNCHED, false, actions)
  {
    TwoChildrenRun(LAUNCHED, actions);
  }

  /** That happens: the first start's report throws, the next sync starts another, and neither has stopped. */
  lemma TwoChildrenCanRun(token: string, url: string)
    requires token != "" && Trim(token) == token && url != ""
    ensures var actions := [PayloadBecomes(true), UrlBecomes(Some(url)), SetSession(Some(token)),
                            JobBegins(Outcome(ReportThrows, true, true)), PushStackState,
                            JobBegins(Outcome(Starts, true, true))];
      var w := Run(LAUNCHED, actions);
      && w.children == [Child(Pair(token, url), false), Child(Pair(token, url), false)]
      && w.executor == Some(1) && TwoAtOnce(w) && LosesOne(LAUNCHED, actions)
  {
    var first := [PayloadBecomes(true), UrlBecomes(Some(url)), SetSession(Some(token))];
    var last := [JobBegins(Outcome(ReportThrows, true, true)), PushStackState, JobBegins(Outcome(Starts, true, true))];
    var w := Step(Step(Step(LAUNCHED, first[0]), first[1]), first[2]);
    RunThree(LAUNCHED, first[0], first[1], first[2], last);
    RunThree(w, last[0], last[1], last[2], []);
    assert last == [last[0], last[1], last[2]] + [] && first == [first[0], first[1], first[2]];
    SecondStarts(w, Pair(token, url));
    RunLoses(LAUNCHED, first + last);
    assert first + last == [first[0], first[1], first[2], last[0], last[1], last[2]];
  }

  lemma SecondStarts(w: World, pair: Pair)
    requires WantsExecutor(w) && w.sessionToken == Some(pair.token) && w.apiBaseUrl == Some(pair.url)
    requires w.phase == Idle && w.queued == 1 && w.resolved && w.executor.None? && w.children == [] && w.lost == {}
    ensures var next := Step(Step(Step(w, JobBegins(Outcome(ReportThrows, true, true))), PushStackState),
                             JobBegins(Outcome(Starts, true, true)));
      && next.children == [Child(pair, false), Child(pair, false)] && next.executor == Some(1)
      && TwoAtOnce(next) && 0 in next.lost
  {
    var lost := Step(w, JobBegins(Outcome(ReportThrows, true, true)));
    assert lost.children == [Child(pair, false)] && lost.lost == {0};
    var next := Step(Step(lost, PushStackState), JobBegins(Outcome(Starts, true, true)));
    assert next.children == [Child(pair, false), Child(pair, false)];
    assert !next.children[0].stopped && !next.children[1].stopped;
  }

  lemma RunThree(w: World, a: Action, b: Action, c: Action, rest: seq<Action>)
    ensures Run(w, [a, b, c] + rest) == Run(Step(Step(Step(w, a), b), c), rest)
  {
    assert ([a, b, c] + rest)[1..] == [b, c] + rest;
    assert Run(w, [a, b, c] + rest) == Run(Step(w, a), [b, c] + rest);
    assert ([b, c] + rest)[1..] == [c] + rest;
    assert Run(Step(w, a), [b, c] + rest) == Run(Step(Step(w, a), b), [c] + rest);
    assert ([c] + rest)[1..] == rest;
  }

  // ----- When a session gets its executor -----

  /** Of the jobs left, some one's body runs and its start succeeds; a body runs unless the handler before it threw. */
  predicate SomeJobStarts(resolved: bool, queued: nat, outcomes: nat -> Outcome)
    decreases queued
  {
    queued > 0 &&
    ((resolved && outcomes(2 * queued).start == Starts) ||
     SomeJobStarts(outcomes(2 * queued).reports, queued - 1, outcomes))
  }

  /** The job that waits goes on to start, or a later one does. */
  predicate StartsAfterWait(queued: nat, outcomes: nat -> Outcome) {
    outcomes(2 * queued + 1).start == Starts || SomeJobStarts(outcomes(2 * queued + 1).reports, queued, outcomes)
  }

  /** Said before draining, from the phase, the queue and what will throw. */
  predicate WillRun(w: World, outcomes: nat -> Outcome) {
    if w.phase.Stopping? then StartsAfterWait(w.queued, outcomes)
    else if UpToDate(w) then true
    else if w.executor.Some? then w.queued > 0 && StartsAfterWait(w.queued - 1, outcomes)
    else SomeJobStarts(w.resolved, w.queued, outcomes)
  }

  predicate WantsExecutor(w: World) { w.sessionToken.Some? && HasUrl(w) && w.payload }

  lemma {:induction false} UpToDateStays(w: World, outcomes: nat -> Outcome)
    requires w.phase == Idle && w.resolved && UpToDate(w)
    ensures UpToDate(Drain(w, outcomes))
    decreases w.queued
  {
    if w.queued > 0 { UpToDateStays(Begin(w, outcomes(2 * w.queued)), outcomes); }
  }

  /** The end of a job that finds the inputs there. */
  lemma FinishWanted(w: World, outcome: Outcome)
    requires WantsExecutor(w) && w.executor.None? && w.resolved
    ensures var next := Finish(w, outcome);
      && WantsExecutor(next) && next.phase == Idle && next.queued == w.queued
      && (outcome.start == Starts ==> UpToDate(next) && next.resolved)
      && (outcome.start != Starts ==> next.executor.None? && next.resolved == outcome.reports)
  {}

  lemma {:induction false} QueueDrains(w: World, outcomes: nat -> Outcome)
    requires WantsExecutor(w) && w.phase == Idle && w.executor.None?
    ensures UpToDate(Drain(w, outcomes)) <==> SomeJobStarts(w.resolved, w.queued, outcomes)
    decreases w.queued
  {
    if w.queued > 0 {
      var outcome := outcomes(2 * w.queued);
      var next := Begin(w, outcome);
      if w.resolved {
        FinishWanted(w.(queued := w.queued - 1), outcome);
        assert next == Finish(w.(queued := w.queued - 1), outcome);
      }
      if w.resolved && outcome.start == Starts {
        UpToDateStays(next, outcomes);
      } else {
        QueueDrains(next, outcomes);
      }
    }
  }

  lemma FinishedDrains(w: World, outcome: Outcome, outcomes: nat -> Outcome)
    requires WantsExecutor(w) && w.executor.None? && w.resolved
    ensures UpToDate(Drain(Finish(w, outcome), outcomes)) <==>
            outcome.start == Starts || SomeJobStarts(outcome.reports, w.queued, outcomes)
  {
    FinishWanted(w, outcome);
    if outcome.start == Starts {
      UpToDateStays(Finish(w, outcome), outcomes);
    } else {
      QueueDrains(Finish(w, outcome), outcomes);
    }
  }

  lemma DrainSettles(w: World, outcomes: nat -> Outcome)
    requires w.phase.Stopping?
    ensures Drain(w, outcomes) == Drain(Settle(w, w.phase.child, outcomes(2 * w.queued + 1)), outcomes)
  {}

  lemma WaitDrains(w: World, outcomes: nat -> Outcome)
    requires WantsExecutor(w) && w.phase.Stopping? && w.executor.None? && w.resolved
    ensures UpToDate(Drain(w, outcomes)) <==> StartsAfterWait(w.queued, outcomes)
  {
    FinishedDrains(Gone(w, w.phase.child), outcomes(2 * w.queued + 1), outcomes);
    DrainSettles(w, outcomes);
  }

  /**
   * Exactly when a session gets its executor: from any reachable state with a token, a URL and a
   * payload, whatever throws on the way, draining ends with an executor for them if and only if
   * it is running already or one of the jobs left, the waiting one included, starts it: a job
   * whose own start works and whose predecessor's handler did not throw.
   */
  lemma DrainRunsExactlyWhen(actions: seq<Action>, outcomes: nat -> Outcome)
    requires WantsExecutor(Run(LAUNCHED, actions))
    ensures UpToDate(Drain(Run(LAUNCHED, actions), outcomes)) <==> WillRun(Run(LAUNCHED, actions), outcomes)
  {
    RunKeepsInv(LAUNCHED, actions);
    DrainRuns(Run(LAUNCHED, actions), outcomes);
  }

  lemma DrainRuns(w: World, outcomes: nat -> Outcome)
    requires Inv(w) && WantsExecutor(w)
    ensures UpToDate(Drain(w, outcomes)) <==> WillRun(w, outcomes)
  {
    if w.phase.Stopping? {
      WaitDrains(w, outcomes);
    } else if UpToDate(w) {
      UpToDateStays(w, outcomes);
    } else if w.executor.Some? {
      if w.queued > 0 { WaitDrains(Begin(w, outcomes(2 * w.queued)), outcomes); }
    } else {
      QueueDrains(w, outcomes);
    }
  }

  /** So a sign-in that is still to be followed, and on which nothing throws, always gets one. */
  lemma SignInStarts(w: World)
    requires Inv(w) && w.resolved && WantsExecutor(w)
    requires w.phase.Stopping? || w.queued > 0
    ensures UpToDate(Drain(w, _ => Outcome(Starts, true, true)))
  {
    DrainRuns(w, _ => Outcome(Starts, true, true));
  }

  // ----- When the chain is rejected -----

  /** A job gets to where it reads the inputs, with no child held. */
  predicate ReadsInputs(w: World, a: Action) {
    match a
    case JobBegins(_) => w.phase == Idle && w.queued > 0 && w.resolved && w.executor.None?
    case StopSettles(_) => w.phase.Stopping?
    case _ => false
  }

  function OutcomeOf(a: Action): Option<Outcome> {
    match a
    case JobBegins(outcome) => Some(outcome)
    case StopSettles(outcome) => Some(outcome)
    case _ => None
  }

  /** The handler runs: the chain was rejected, a start did not go through, or saying why not threw. */
  predicate HandlerRuns(w: World, a: Action) {
    || (a.JobBegins? && w.phase == Idle && w.queued > 0 && !w.resolved)
    || (ReadsInputs(w, a) && WantsExecutor(w) && OutcomeOf(a).value.start != Starts)
    || (ReadsInputs(w, a) && !WantsExecutor(w) && !OutcomeOf(a).value.pushes)
  }

  /**
   * A step leaves the chain rejected exactly when its handler runs and throws, or nothing of a job
   * happens to a rejected one.
   */
  lemma StepRejectsExactlyWhen(w: World, a: Action)
    requires Inv(w)
    ensures Step(w, a).resolved <==> if HandlerRuns(w, a) then OutcomeOf(a).value.reports else w.resolved
  {
    match a
    case JobBegins(_) =>
    case StopSettles(_) =>
    case _ =>
  }

  // ----- Where the chain does not follow -----

  /**
   * A job's body is skipped when the handler of the job before it threw as well, which leaves the
   * chain rejected. No executor is ever live then, so what is lost is a start.
   */
  lemma SkippedOnlyWhenRejected(actions: seq<Action>)
    ensures var w := Run(LAUNCHED, actions); !w.resolved ==> w.executor.None? && w.phase == Idle
  {
    RunKeepsInv(LAUNCHED, actions);
  }

  /**
   * So a sign-in can be swallowed: the first job fails and its handler's push throws; the next
   * one, for which nothing would have thrown, does not run, and the drained chain has no executor
   * for a session that has a token, a URL and a payload.
   */
  lemma SignInCanBeSwallowed(token: string, url: string)
    requires token != "" && Trim(token) == token && url != ""
    ensures var fine := Outcome(Starts, true, true);
      var w := Run(LAUNCHED, [PayloadBecomes(true), UrlBecomes(Some(url)), PushStackState, SetSession(Some(token)),
                              JobBegins(Outcome(IdentityThrows, true, false)), JobBegins(fine)]);
      Drained(w) && w.executor.None? && w.sessionToken == Some(token) && HasUrl(w) && w.payload
  {
    var fine := Outcome(Starts, true, true);
    var w1 := Step(Step(Step(LAUNCHED, PayloadBecomes(true)), UrlBecomes(Some(url))), PushStackState);
    var w2 := Step(w1, SetSession(Some(token)));
    assert w2.sessionToken == Some(token) && w2.queued == 2;
    var actions := [PayloadBecomes(true), UrlBecomes(Some(url)), PushStackState, SetSession(Some(token)),
                    JobBegins(Outcome(IdentityThrows, true, false)), JobBegins(fine)];
    assert actions[1..][1..][1..][1..] == [JobBegins(Outcome(IdentityThrows, true, false)), JobBegins(fine)];
    var rest := [JobBegins(Outcome(IdentityThrows, true, false)), JobBegins(fine)];
    assert Run(LAUNCHED, actions) == Run(w2, rest) by {
      assert Run(Step(LAUNCHED, PayloadBecomes(true)), actions[1..]) == Run(LAUNCHED, actions);
      assert Run(w1, actions[1..][1..][1..]) == Run(LAUNCHED, actions);
    }
    var w3 := Step(w2, rest[0]);
    assert rest[1..][1..] == [];
    assert Run(w2, rest) == Run(w3, rest[1..]) == Step(w3, rest[1]);
  }
}
