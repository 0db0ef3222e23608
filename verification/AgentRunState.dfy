/**
 * Where each agent conversation's run is (apps/mobile/lib/agentRunState.ts), and how the session
 * hook routes what the server says to one conversation's record (apps/mobile/hooks/useAgentSession.ts).
 */
module AgentRunState {
  import opened Prelude

  datatype RunState = Queued | Running | AwaitingApproval | AwaitingCheckin | Stopping | Done | Error

  /** A question on screen, and the run that asked it when it is known. */
  datatype Approval = Approval(callId: string, streamId: Option<string>)
  datatype Checkin = Checkin(n: int, max: int, streamId: Option<string>)

  datatype Iteration = Iteration(n: int, max: int, unlimited: bool)
  datatype Mode = Planning | Manual | Auto

  datatype RunLevel = RunLevel(
    runState: RunState,
    pendingApproval: Option<Approval>,
    pendingCheckin: Option<Checkin>,
    iteration: Option<Iteration>,
    queuePosition: Option<int>,
    runMode: Option<Mode>
  )

  const IDLE_RUN := RunLevel(Done, None, None, None, None, None)

  type RunLevels = map<string, RunLevel>

  datatype Status = Active | Complete | Errored | Cancelled

  datatype Snapshot = Snapshot(
    approval: Option<string>,          // the call asked about
    checkin: Option<(int, int)>,       // steps taken, and the limit
    queued: Option<int>,
    iteration: Option<Iteration>,
    mode: Option<Mode>
  )

  datatype StreamEvent =
    | RunQueued(position: int)
    | RunMode(mode: Mode)
    | Iterated(iteration: Iteration)
    | ApprovalRequest(callId: string)
    | ToolResult(callId: string)
    | StepsCheckin(iteration: Iteration)
    | StepsDecision
    | Other

  /** An update's answer: `Kept` is the very object it was given, which `withRunLevel` does not store. */
  datatype Change = Kept | Replaced(level: RunLevel)

  function Apply(prev: RunLevel, change: Change): RunLevel {
    match change
    case Kept => prev
    case Replaced(level) => level
  }

  /** A prompt names its run unless the id is empty. */
  function Named(streamId: string): Option<string> {
    if streamId == "" then None else Some(streamId)
  }

  // ----- What each message does to one record -----

  function FromSnapshot(snapshot: Snapshot, status: Status, streamId: string): RunLevel {
    RunLevel(
      if status == Active then
        if snapshot.approval.Some? then AwaitingApproval
        else if snapshot.checkin.Some? then AwaitingCheckin
        else if snapshot.queued.Some? then Queued
        else Running
      else if status == Errored then Error else Done,
      if status == Active && snapshot.approval.Some? then Some(Approval(snapshot.approval.value, Named(streamId)))
      else None,
      if status == Active && snapshot.checkin.Some?
      then Some(Checkin(snapshot.checkin.value.0, snapshot.checkin.value.1, Named(streamId))) else None,
      snapshot.iteration,
      snapshot.queued,
      if status == Active then snapshot.mode else None)
  }

  function AfterEvent(prev: RunLevel, event: StreamEvent, streamId: string): Change {
    var pastQueue := !event.RunQueued? && !event.RunMode? && (prev.queuePosition.Some? || prev.runState == Queued);
    var next := if pastQueue
                then prev.(queuePosition := None,
                           runState := if prev.runState == Queued then Running else prev.runState)
                else prev;
    match event
    case RunQueued(position) => Replaced(next.(runState := Queued, queuePosition := Some(position)))
    case RunMode(mode) =>
      if next.runMode == Some(mode) then Kept
      else if next.runMode == None then Replaced(next.(runMode := Some(mode)))
      else Replaced(next.(runMode := Some(mode), pendingApproval := None,
                          runState := if next.runState == AwaitingApproval then Running else next.runState))
    case Iterated(iteration) => Replaced(next.(runState := Running, iteration := Some(iteration)))
    case ApprovalRequest(callId) =>
      Replaced(next.(runState := AwaitingApproval, pendingApproval := Some(Approval(callId, Named(streamId)))))
    case ToolResult(callId) =>
      Replaced(next.(runState := Running,
                     pendingApproval := if next.pendingApproval.Some? && next.pendingApproval.value.callId == callId
                                        then None else next.pendingApproval))
    case StepsCheckin(iteration) =>
      Replaced(next.(runState := AwaitingCheckin, iteration := Some(iteration),
                     pendingCheckin := Some(Checkin(iteration.n, iteration.max, Named(streamId)))))
    case StepsDecision => Replaced(next.(runState := Running, pendingCheckin := None))
    case Other => if pastQueue then Replaced(next) else Kept
  }

  function AfterEnd(prev: RunLevel, status: Status): RunLevel {
    prev.(runState := if status == Errored then Error else Done, iteration := None, queuePosition := None,
          pendingApproval := None, pendingCheckin := None, runMode := None)
  }

  /** Only a rewind that removed runs, the followed one among them if there is one, clears the live run. */
  predicate RewindClearsLiveRun(tracked: Option<string>, removed: set<string>) {
    removed != {} && (tracked.None? || tracked.value in removed)
  }

  function AfterRewind(prev: RunLevel, removed: set<string>, clearsLiveRun: bool): Change {
    var gone := (streamId: Option<string>) =>
      if streamId.Some? && streamId.value != "" then streamId.value in removed else clearsLiveRun;
    var approval := if prev.pendingApproval.Some? && gone(prev.pendingApproval.value.streamId) then None
                    else prev.pendingApproval;
    var checkin := if prev.pendingCheckin.Some? && gone(prev.pendingCheckin.value.streamId) then None
                   else prev.pendingCheckin;
    var dropped := approval != prev.pendingApproval || checkin != prev.pendingCheckin;
    if !dropped && !clearsLiveRun then Kept
    else
      var runState :=
        if approval.Some? then AwaitingApproval
        else if checkin.Some? then AwaitingCheckin
        else if clearsLiveRun then (if prev.runState == Error then Error else Done)
        else if prev.runState == AwaitingApproval || prev.runState == AwaitingCheckin then Running
        else prev.runState;
      Replaced(prev.(runState := runState, pendingApproval := approval, pendingCheckin := checkin,
                     iteration := if clearsLiveRun then None else prev.iteration,
                     queuePosition := if clearsLiveRun then None else prev.queuePosition))
  }

  /** Everything the hook does to one conversation's record; `tracked` is the run followed at that moment. */
  datatype Update =
    | Sync(snapshot: Snapshot, status: Status, syncedStream: string, trackedAtSync: Option<string>)
    | Live(event: StreamEvent, eventStream: string)
    | End(endStatus: Status)
    | Rewind(removed: set<string>, trackedAtRewind: Option<string>)
    | StepsAnswered

  function After(prev: RunLevel, u: Update): Change {
    match u
    case Sync(snapshot, status, streamId, tracked) =>
      // The end of another run says nothing of the one on screen.
      if tracked.Some? && tracked.value != streamId then Kept else Replaced(FromSnapshot(snapshot, status, streamId))
    case Live(event, streamId) => AfterEvent(prev, event, streamId)
    case End(status) => Replaced(AfterEnd(prev, status))
    case Rewind(removed, tracked) => AfterRewind(prev, removed, RewindClearsLiveRun(tracked, removed))
    case StepsAnswered => Replaced(prev.(pendingCheckin := None, runState := Running))
  }

  /** A rewind that removes no run changes nothing, whichever run is followed. */
  lemma EmptyRewindKeeps(prev: RunLevel, tracked: Option<string>)
    ensures After(prev, Rewind({}, tracked)) == Kept
  {}

  // ----- All conversations -----

  function LevelOf(levels: RunLevels, convId: string): RunLevel {
    if convId in levels then levels[convId] else IDLE_RUN
  }

  function WithRunLevel(levels: RunLevels, convId: string, u: Update): RunLevels {
    match After(LevelOf(levels, convId), u)
    case Kept => levels
    case Replaced(level) => levels[convId := level]
  }

  function WithPromoted(levels: RunLevels, localId: string, realId: string): RunLevels {
    if localId !in levels || localId == realId then levels
    else
      var rest := Without(levels, localId);
      if realId in levels then rest else rest[realId := levels[localId]]
  }

  datatype Op =
    | Update(convId: string, update: Update)
    | Promote(localId: string, realId: string)
    | Forget(convId: string)

  function Step(levels: RunLevels, op: Op): RunLevels {
    match op
    case Update(convId, u) => WithRunLevel(levels, convId, u)
    case Promote(localId, realId) => WithPromoted(levels, localId, realId)
    case Forget(convId) => Without(levels, convId)
  }

  function Run(levels: RunLevels, ops: seq<Op>): RunLevels
    decreases |ops|
  {
    if ops == [] then levels else Run(Step(levels, ops[0]), ops[1..])
  }

  lemma {:induction false} RunConcat(levels: RunLevels, a: seq<Op>, b: seq<Op>)
    ensures Run(levels, a + b) == Run(Run(levels, a), b)
    decreases |a|
  {
    if a == [] {
      assert a + b == b;
    } else {
      assert (a + b)[1..] == a[1..] + b;
      RunConcat(Step(levels, a[0]), a[1..], b);
    }
  }

  // ----- Coherence -----

  /** What the header, the bar and the banner rely on: no state without what it is about. */
  predicate Coherent(l: RunLevel) {
    && (l.runState == AwaitingApproval ==> l.pendingApproval.Some?)
    && (l.runState == AwaitingCheckin ==> l.pendingCheckin.Some?)
    && (l.runState == Queued ==> l.queuePosition.Some?)
    && (l.runState == Done || l.runState == Error ==> l.pendingApproval.None? && l.pendingCheckin.None?)
  }

  lemma AfterKeepsCoherent(prev: RunLevel, u: Update)
    requires Coherent(prev)
    ensures Coherent(Apply(prev, After(prev, u)))
  {}

  /**
   * Coherence holds for every conversation after any sequence of snapshots, events, ends, rewinds,
   * answered check-ins, promotions and deletions, whichever runs were being followed meanwhile.
   */
  lemma {:induction false} LevelsStayCoherent(levels: RunLevels, ops: seq<Op>, convId: string)
    requires forall c :: c in levels ==> Coherent(levels[c])
    ensures Coherent(LevelOf(Run(levels, ops), convId))
    decreases |ops|
  {
    if ops != [] {
      var op := ops[0];
      if op.Update? { AfterKeepsCoherent(LevelOf(levels, op.convId), op.update); }
      LevelsStayCoherent(Step(levels, op), ops[1..], convId);
    }
  }

  /** The hook's local close of an answered prompt. */
  function ClearApproval(prev: RunLevel, callId: string): Change {
    if prev.pendingApproval.Some? && prev.pendingApproval.value.callId == callId
    then Replaced(prev.(pendingApproval := None)) else Kept
  }

  /**
   * The one update that is not coherent: closing the answered prompt leaves the state awaiting an
   * approval nobody holds, exactly when the prompt closed is the one being waited for. The next
   * message about the run repairs it, except one that says nothing about the wait.
   */
  lemma ClearApprovalCoherence(prev: RunLevel, callId: string)
    requires Coherent(prev)
    ensures Coherent(Apply(prev, ClearApproval(prev, callId))) <==>
            !(prev.runState == AwaitingApproval && prev.pendingApproval.value.callId == callId)
  {}

  lemma ClearedApprovalIsRepaired(prev: RunLevel, callId: string, u: Update)
    requires Coherent(prev) && prev.runState == AwaitingApproval && prev.pendingApproval.value.callId == callId
    ensures var cleared := Apply(prev, ClearApproval(prev, callId));
      var change := After(cleared, u);
      Coherent(Apply(cleared, change)) <==>
        match u
        case Sync(_, _, streamId, tracked) => tracked.None? || tracked.value == streamId
        case Live(event, _) =>
          !event.Other? && (event.RunMode? ==> prev.runMode.Some? && prev.runMode != Some(event.mode))
        case End(_) => true
        case Rewind(removed, tracked) =>
          || RewindClearsLiveRun(tracked, removed)
          || (prev.pendingCheckin.Some? && prev.pendingCheckin.value.streamId.Some?
              && prev.pendingCheckin.value.streamId.value != "" && prev.pendingCheckin.value.streamId.value in removed)
        case StepsAnswered => true
  {}

  // ----- Isolation -----

  /** One conversation's own updates, in order. */
  function Own(ops: seq<Op>, convId: string): seq<Update>
    decreases |ops|
  {
    if ops == [] then []
    else (if ops[0].Update? && ops[0].convId == convId then [ops[0].update] else []) + Own(ops[1..], convId)
  }

  /** A record folded over updates, with no map and no other conversation in sight. */
  function Fold(level: RunLevel, updates: seq<Update>): RunLevel
    decreases |updates|
  {
    if updates == [] then level else Fold(Apply(level, After(level, updates[0])), updates[1..])
  }

  /** Some update among these stored a record. */
  predicate Heard(level: RunLevel, updates: seq<Update>)
    decreases |updates|
  {
    updates != [] &&
    (After(level, updates[0]).Replaced? || Heard(Apply(level, After(level, updates[0])), updates[1..]))
  }

  /** No promotion and no deletion concerns this conversation. */
  predicate OnlyUpdates(ops: seq<Op>, convId: string) {
    forall i :: 0 <= i < |ops| ==>
      && (ops[i].Promote? ==> ops[i].localId != convId && ops[i].realId != convId)
      && (ops[i].Forget? ==> ops[i].convId != convId)
  }

  /**
   * Isolation: in any interleaving over any conversations, one conversation's record is the fold
   * of its own updates alone, and it has one exactly when it had one or an update of its own made one.
   */
  lemma {:induction false} OwnFoldOnly(levels: RunLevels, ops: seq<Op>, convId: string)
    requires OnlyUpdates(ops, convId)
    ensures LevelOf(Run(levels, ops), convId) == Fold(LevelOf(levels, convId), Own(ops, convId))
    ensures convId in Run(levels, ops) <==> convId in levels || Heard(LevelOf(levels, convId), Own(ops, convId))
    decreases |ops|
  {
    if ops != [] {
      var op := ops[0];
      assert OnlyUpdates(ops[1..], convId);
      OwnFoldOnly(Step(levels, op), ops[1..], convId);
      if op.Update? && op.convId == convId {
        FirstUpdate(LevelOf(levels, convId), op.update, Own(ops[1..], convId));
      } else {
        assert Own(ops, convId) == [] + Own(ops[1..], convId) == Own(ops[1..], convId);
        assert OnlyUpdates([op], convId);
        OthersLeave(levels, op, convId);
      }
    }
  }

  lemma FirstUpdate(level: RunLevel, u: Update, rest: seq<Update>)
    ensures Fold(level, [u] + rest) == Fold(Apply(level, After(level, u)), rest)
    ensures Heard(level, [u] + rest) <==> After(level, u).Replaced? || Heard(Apply(level, After(level, u)), rest)
  {
    assert ([u] + rest)[1..] == rest;
  }

  /** What concerns other conversations leaves a record as it is. */
  lemma OthersLeave(levels: RunLevels, op: Op, convId: string)
    requires OnlyUpdates([op], convId) && !(op.Update? && op.convId == convId)
    ensures LevelOf(Step(levels, op), convId) == LevelOf(levels, convId)
    ensures convId in Step(levels, op) <==> convId in levels
  {
    assert [op][0] == op;
  }

  lemma {:induction false} FoldConcat(level: RunLevel, a: seq<Update>, b: seq<Update>)
    ensures Fold(level, a + b) == Fold(Fold(level, a), b)
    decreases |a|
  {
    if a == [] {
      assert a + b == b;
    } else {
      assert (a + b)[1..] == a[1..] + b;
      FoldConcat(Apply(level, After(level, a[0])), a[1..], b);
    }
  }

  lemma {:induction false} UnheardKeeps(level: RunLevel, updates: seq<Update>)
    requires !Heard(level, updates)
    ensures Fold(level, updates) == level
    decreases |updates|
  {
    if updates != [] { UnheardKeeps(level, updates[1..]); }
  }

  /**
   * Promotion: a placeholder that becomes the real id at any point of any run carries its own fold
   * there, and the real conversation's later updates go on from it; unless the real id was heard
   * from first, when its own fold stands. Either way nothing is left under the placeholder but
   * what comes for it afterwards.
   */
  lemma PromotionCarries(before: seq<Op>, localId: string, realId: string, after: seq<Op>)
    requires localId != realId
    requires OnlyUpdates(before, localId) && OnlyUpdates(before, realId)
    requires OnlyUpdates(after, localId) && OnlyUpdates(after, realId)
    ensures var levels := Run(map[], before + [Promote(localId, realId)] + after);
      && LevelOf(levels, realId) ==
           (if Heard(IDLE_RUN, Own(before, realId))
            then Fold(IDLE_RUN, Own(before, realId) + Own(after, realId))
            else Fold(IDLE_RUN, Own(before, localId) + Own(after, realId)))
      && LevelOf(levels, localId) == Fold(IDLE_RUN, Own(after, localId))
  {
    var start: RunLevels := map[];
    var was := Run(start, before);
    var promoted := WithPromoted(was, localId, realId);
    RunConcat(start, before + [Promote(localId, realId)], after);
    RunConcat(start, before, [Promote(localId, realId)]);
    assert Run(was, [Promote(localId, realId)]) == promoted by {
      assert [Promote(localId, realId)][1..] == [];
    }
    OwnFoldOnly(start, before, localId);
    OwnFoldOnly(start, before, realId);
    OwnFoldOnly(promoted, after, localId);
    OwnFoldOnly(promoted, after, realId);
    FoldConcat(IDLE_RUN, Own(before, realId), Own(after, realId));
    FoldConcat(IDLE_RUN, Own(before, localId), Own(after, realId));
    if !Heard(IDLE_RUN, Own(before, localId)) { UnheardKeeps(IDLE_RUN, Own(before, localId)); }
    if !Heard(IDLE_RUN, Own(before, realId)) { UnheardKeeps(IDLE_RUN, Own(before, realId)); }
  }

  /** A conversation that was deleted starts again from nothing, and no other is touched. */
  lemma DeletedStartsAgain(before: seq<Op>, convId: string, after: seq<Op>, other: string)
    requires OnlyUpdates(after, convId) && other != convId
    ensures LevelOf(Run(map[], before + [Forget(convId)] + after), convId) == Fold(IDLE_RUN, Own(after, convId))
    ensures LevelOf(Run(map[], before + [Forget(convId)]), other) == LevelOf(Run(map[], before), other)
  {
    var start: RunLevels := map[];
    RunConcat(start, before + [Forget(convId)], after);
    RunConcat(start, before, [Forget(convId)]);
    assert [Forget(convId)][1..] == [];
    OwnFoldOnly(Run(start, before + [Forget(convId)]), after, convId);
  }

  // ----- What a record shows, by what was said -----

  /** A record after everything said about its run, from nothing. */
  function Told(said: seq<Update>): RunLevel
    decreases |said|
  {
    if said == [] then IDLE_RUN
    else
      var before := Told(said[..|said| - 1]);
      Apply(before, After(before, said[|said| - 1]))
  }

  lemma ToldOne(said: seq<Update>, n: nat)
    requires n < |said|
    ensures Told(said[..n + 1]) == Apply(Told(said[..n]), After(Told(said[..n]), said[n]))
  {
    assert said[..n + 1][..n] == said[..n];
  }

  lemma {:induction false} ToldIsFold(said: seq<Update>)
    ensures Told(said) == Fold(IDLE_RUN, said)
    decreases |said|
  {
    if said != [] {
      var n := |said| - 1;
      ToldIsFold(said[..n]);
      FoldConcat(IDLE_RUN, said[..n], [said[n]]);
      assert said[..n] + [said[n]] == said && [said[n]][1..] == [];
    }
  }

  /** A conversation's record, in any interleaving, is what its own updates tell. */
  lemma RecordIsWhatWasTold(ops: seq<Op>, convId: string)
    requires OnlyUpdates(ops, convId)
    ensures LevelOf(Run(map[], ops), convId) == Told(Own(ops, convId))
  {
    OwnFoldOnly(map[], ops, convId);
    ToldIsFold(Own(ops, convId));
  }

  /** A snapshot that is taken: of the run followed, or with none followed. */
  predicate Taken(u: Update) { u.Sync? && (u.trackedAtSync.None? || u.trackedAtSync.value == u.syncedStream) }

  predicate Clears(u: Update) { u.Rewind? && RewindClearsLiveRun(u.trackedAtRewind, u.removed) }

  /** A rewind that withdraws a prompt of this run; one that names none is the live run's. */
  predicate Withdraws(u: Update, streamId: Option<string>) {
    u.Rewind? && if streamId.Some? && streamId.value != "" then streamId.value in u.removed else Clears(u)
  }

  /** The mode last announced, by an event or a snapshot, of a run that has not ended. */
  function ModeSaid(said: seq<Update>): Option<Mode>
    decreases |said|
  {
    if said == [] then None
    else
      var u := said[|said| - 1];
      if u.Live? && u.event.RunMode? then Some(u.event.mode)
      else if Taken(u) then (if u.status == Active then u.snapshot.mode else None)
      else if u.End? then None
      else ModeSaid(said[..|said| - 1])
  }

  lemma {:induction false} ModeShown(said: seq<Update>)
    ensures Told(said).runMode == ModeSaid(said)
    decreases |said|
  {
    if said != [] { ModeShown(said[..|said| - 1]); }
  }

  /** Update `j` switches a mode already announced to another. */
  predicate Switches(said: seq<Update>, j: nat)
    requires j < |said|
  {
    && said[j].Live? && said[j].event.RunMode?
    && ModeSaid(said[..j]).Some? && ModeSaid(said[..j]) != Some(said[j].event.mode)
  }

  /** An update asks for this approval: an event, or an active run's snapshot that holds it. */
  predicate Asks(u: Update, a: Approval) {
    || (u.Live? && u.event == ApprovalRequest(a.callId) && a.streamId == Named(u.eventStream))
    || (Taken(u) && u.status == Active && u.snapshot.approval == Some(a.callId) && a.streamId == Named(u.syncedStream))
  }

  /**
   * An update replaces, answers or withdraws it, or says afresh what the run is asking; a mode
   * withdraws it by switching.
   */
  predicate Closes(u: Update, a: Approval, switches: bool) {
    || (u.Live? && (u.event.ApprovalRequest? || u.event == ToolResult(a.callId)))
    || switches || Taken(u) || u.End? || Withdraws(u, a.streamId)
  }

  function AsksAt(said: seq<Update>, a: Approval): nat -> bool { (i: nat) => i < |said| && Asks(said[i], a) }

  function ClosesAt(said: seq<Update>, a: Approval): nat -> bool {
    (j: nat) => j < |said| && Closes(said[j], a, Switches(said, j))
  }

  /** It was asked for, and nothing has closed it since. */
  ghost predicate StillAsked(said: seq<Update>, a: Approval) { Since(|said|, AsksAt(said, a), ClosesAt(said, a)) }

  /** One update's part: what it asks is held, and what was held is held on unless it closes it. */
  lemma ApprovalAfterOne(prev: RunLevel, u: Update, a: Approval)
    ensures var switches := u.Live? && u.event.RunMode? && prev.runMode.Some? && prev.runMode != Some(u.event.mode);
      Apply(prev, After(prev, u)).pendingApproval == Some(a) <==>
      Asks(u, a) || (prev.pendingApproval == Some(a) && !Closes(u, a, switches))
  {
    match u
    case Live(event, stream) => ApprovalAfterEvent(prev, event, stream, a);
    case Sync(_, _, _, _) =>
    case End(_) =>
    case Rewind(_, _) =>
    case StepsAnswered =>
  }

  lemma ApprovalAfterEvent(prev: RunLevel, event: StreamEvent, stream: string, a: Approval)
    ensures var switches := event.RunMode? && prev.runMode.Some? && prev.runMode != Some(event.mode);
      Apply(prev, AfterEvent(prev, event, stream)).pendingApproval == Some(a) <==>
      Asks(Live(event, stream), a) || (prev.pendingApproval == Some(a) && !Closes(Live(event, stream), a, switches))
  {}

  lemma {:induction false} ApprovalUpTo(said: seq<Update>, n: nat, a: Approval)
    requires n <= |said|
    ensures Told(said[..n]).pendingApproval == Some(a) <==> Since(n, AsksAt(said, a), ClosesAt(said, a))
  {
    if n > 0 {
      ApprovalUpTo(said, n - 1, a);
      SinceStep(n - 1, AsksAt(said, a), ClosesAt(said, a));
      ToldOne(said, n - 1);
      ModeShown(said[..n - 1]);
      ApprovalAfterOne(Told(said[..n - 1]), said[n - 1], a);
    }
  }

  lemma ApprovalIsTheOneAsked(said: seq<Update>, a: Approval)
    ensures Told(said).pendingApproval == Some(a) <==> StillAsked(said, a)
  {
    ApprovalUpTo(said, |said|, a);
    assert said[..|said|] == said;
  }

  /**
   * The approval on screen, said by the messages themselves: in any interleaving over any
   * conversations, a conversation holds an approval exactly when some update of its own asked for
   * it, naming its run, and none since asked for another, gave that call's result, switched the
   * mode, ended the run, removed the run that asked, or was a snapshot taken afresh.
   */
  lemma ApprovalOnScreen(ops: seq<Op>, convId: string, a: Approval)
    requires OnlyUpdates(ops, convId)
    ensures LevelOf(Run(map[], ops), convId).pendingApproval == Some(a) <==> StillAsked(Own(ops, convId), a)
  {
    RecordIsWhatWasTold(ops, convId);
    ApprovalIsTheOneAsked(Own(ops, convId), a);
  }

  // ----- Check-ins and counters -----

  predicate AsksSteps(u: Update, c: Checkin) {
    || (u.Live? && u.event.StepsCheckin? &&
         c == Checkin(u.event.iteration.n, u.event.iteration.max, Named(u.eventStream)))
    || (Taken(u) && u.status == Active && u.snapshot.checkin == Some((c.n, c.max)) &&
         c.streamId == Named(u.syncedStream))
  }

  predicate ClosesSteps(u: Update, c: Checkin) {
    || (u.Live? && (u.event.StepsCheckin? || u.event.StepsDecision?))
    || Taken(u) || u.End? || u.StepsAnswered? || Withdraws(u, c.streamId)
  }

  function AsksStepsAt(said: seq<Update>, c: Checkin): nat -> bool { (i: nat) => i < |said| && AsksSteps(said[i], c) }

  function ClosesStepsAt(said: seq<Update>, c: Checkin): nat -> bool {
    (j: nat) => j < |said| && ClosesSteps(said[j], c)
  }

  lemma CheckinAfterOne(prev: RunLevel, u: Update, c: Checkin)
    ensures Apply(prev, After(prev, u)).pendingCheckin == Some(c) <==>
            AsksSteps(u, c) || (prev.pendingCheckin == Some(c) && !ClosesSteps(u, c))
  {}

  lemma {:induction false} CheckinUpTo(said: seq<Update>, n: nat, c: Checkin)
    requires n <= |said|
    ensures Told(said[..n]).pendingCheckin == Some(c) <==> Since(n, AsksStepsAt(said, c), ClosesStepsAt(said, c))
  {
    if n > 0 {
      CheckinUpTo(said, n - 1, c);
      SinceStep(n - 1, AsksStepsAt(said, c), ClosesStepsAt(said, c));
      ToldOne(said, n - 1);
      CheckinAfterOne(Told(said[..n - 1]), said[n - 1], c);
    }
  }

  /**
   * The check-in on screen, likewise: held exactly when an update asked it, naming its run, and
   * none since asked again, answered it here or elsewhere, ended the run, removed the run that
   * asked, or was a snapshot taken afresh.
   */
  lemma CheckinIsTheOneAsked(said: seq<Update>, c: Checkin)
    ensures Told(said).pendingCheckin == Some(c) <==> Since(|said|, AsksStepsAt(said, c), ClosesStepsAt(said, c))
  {
    CheckinUpTo(said, |said|, c);
    assert said[..|said|] == said;
  }

  /** The last update of a kind that decides a field: nothing after `i` is one. */
  ghost predicate LastOf(said: seq<Update>, i: nat, decides: Update -> bool) {
    i < |said| && decides(said[i]) && forall j :: i < j < |said| ==> !decides(said[j])
  }

  predicate CountsSteps(u: Update) {
    (u.Live? && (u.event.Iterated? || u.event.StepsCheckin?)) || Taken(u) || u.End? || Clears(u)
  }

  predicate PlacesInQueue(u: Update) { (u.Live? && !u.event.RunMode?) || Taken(u) || u.End? || Clears(u) }

  lemma LastOfPrefix(said: seq<Update>, i: nat, decides: Update -> bool)
    requires said != [] && !decides(said[|said| - 1])
    ensures LastOf(said, i, decides) <==> LastOf(said[..|said| - 1], i, decides)
  {
    var prefix := said[..|said| - 1];
    assert forall j :: 0 <= j < |prefix| ==> prefix[j] == said[j];
  }

  /** What one update says of the counters, and that any other leaves them. */
  lemma CountersAfterOne(prev: RunLevel, u: Update)
    ensures var l := Apply(prev, After(prev, u));
      && (CountsSteps(u) ==> l.iteration == StepsSaid(u))
      && (!CountsSteps(u) ==> l.iteration == prev.iteration)
      && (PlacesInQueue(u) ==> l.queuePosition == PlaceSaid(u))
      && (!PlacesInQueue(u) ==> l.queuePosition == prev.queuePosition)
  {}

  function StepsSaid(u: Update): Option<Iteration>
    requires CountsSteps(u)
  {
    if u.Live? then Some(u.event.iteration) else if u.Sync? then u.snapshot.iteration else None
  }

  function PlaceSaid(u: Update): Option<int> {
    if u.Live? && u.event.RunQueued? then Some(u.event.position) else if u.Sync? then u.snapshot.queued else None
  }

  /**
   * The step counter and the queue position are each what the last update about them says: the
   * newest count or a snapshot's, until the run ends or is removed; and a place in the queue until
   * anything but a mode is heard of the run.
   */
  lemma {:induction false} CountersAreTheLastSaid(said: seq<Update>, i: nat)
    ensures LastOf(said, i, CountsSteps) ==> Told(said).iteration == StepsSaid(said[i])
    ensures LastOf(said, i, PlacesInQueue) ==> Told(said).queuePosition == PlaceSaid(said[i])
    decreases |said|
  {
    if said != [] {
      var n := |said| - 1;
      CountersAreTheLastSaid(said[..n], i);
      CountersAfterOne(Told(said[..n]), said[n]);
      if !CountsSteps(said[n]) { LastOfPrefix(said, i, CountsSteps); }
      if !PlacesInQueue(said[n]) { LastOfPrefix(said, i, PlacesInQueue); }
    }
  }

  // ----- The state shown -----

  /** A rewind that leaves an approval this record holds, and one that withdraws it. */
  ghost predicate LeavesApproval(said: seq<Update>, j: nat) {
    j < |said| && said[j].Rewind? && exists a :: StillAsked(said[..j], a) && !Withdraws(said[j], a.streamId)
  }

  ghost predicate DropsApproval(said: seq<Update>, j: nat) {
    j < |said| && exists a :: StillAsked(said[..j], a) && Withdraws(said[j], a.streamId)
  }

  ghost predicate StillAskedSteps(said: seq<Update>, c: Checkin) {
    Since(|said|, AsksStepsAt(said, c), ClosesStepsAt(said, c))
  }

  ghost predicate LeavesCheckin(said: seq<Update>, j: nat) {
    j < |said| && said[j].Rewind? && exists c :: StillAskedSteps(said[..j], c) && !Withdraws(said[j], c.streamId)
  }

  ghost predicate DropsCheckin(said: seq<Update>, j: nat) {
    j < |said| && exists c :: StillAskedSteps(said[..j], c) && Withdraws(said[j], c.streamId)
  }

  /** A rewind withdraws one of two prompts and leaves the other. */
  ghost predicate LeavesOneOfTwo(said: seq<Update>, j: nat) {
    (DropsApproval(said, j) && LeavesCheckin(said, j)) || (DropsCheckin(said, j) && LeavesApproval(said, j))
  }

  /** An update that says of itself where the run is. */
  predicate Speaks(u: Update) {
    || (u.Live? && !u.event.RunMode? && !u.event.Other?)
    || Taken(u) || u.End? || u.StepsAnswered?
  }

  predicate ActiveSnapshot(u: Update) { Taken(u) && u.status == Active }

  /** A run that is over, by its end or by a snapshot of it, having failed or not. */
  predicate Finishes(u: Update, failed: bool) {
    || (u.End? && (u.endStatus == Errored) == failed)
    || (Taken(u) && u.status != Active && (u.status == Errored) == failed)
  }

  /** An update says the run is waiting in line, and for nobody. */
  predicate Queues(u: Update) {
    || (u.Live? && u.event.RunQueued?)
    || (ActiveSnapshot(u) && u.snapshot.queued.Some? && u.snapshot.approval.None? && u.snapshot.checkin.None?)
  }

  /** A rewind that says where the run is: it clears the live run, or withdraws a prompt. */
  ghost predicate Acts(said: seq<Update>, i: nat)
    requires i < |said|
  {
    Clears(said[i]) || DropsApproval(said, i) || DropsCheckin(said, i)
  }

  /**
   * Update `i` puts the run in a state. It fails or finishes; it asks for an approval, or a rewind
   * leaves one asked; it asks to go on, or a rewind leaves only that asked; it is put in line; it
   * goes on of itself, when answered, out of the queue, or when what it waited for is withdrawn;
   * and a rewind of the live run that leaves nothing asked makes it done, unless it had failed.
   */
  ghost predicate Enters(said: seq<Update>, i: nat, state: RunState)
    requires i < |said|
    decreases |said|, 0
  {
    var u := said[i];
    match state
    case Error => Finishes(u, true)
    case Done =>
      || Finishes(u, false)
      || (Clears(u) && !LeavesApproval(said, i) && !LeavesCheckin(said, i) && !Says(said[..i], Error))
    case AwaitingApproval =>
      || (u.Live? && u.event.ApprovalRequest?)
      || (ActiveSnapshot(u) && u.snapshot.approval.Some?)
      || (Acts(said, i) && LeavesApproval(said, i))
    case AwaitingCheckin =>
      || (u.Live? && u.event.StepsCheckin?)
      || (ActiveSnapshot(u) && u.snapshot.approval.None? && u.snapshot.checkin.Some?)
      || (Acts(said, i) && LeavesCheckin(said, i) && !LeavesApproval(said, i))
    case Queued => Queues(u)
    case Running =>
      || (u.Live? && (u.event.Iterated? || u.event.ToolResult? || u.event.StepsDecision?))
      || u.StepsAnswered?
      || (ActiveSnapshot(u) && u.snapshot.approval.None? && u.snapshot.checkin.None? && u.snapshot.queued.None?)
      || (u.Live? && u.event.Other? && Says(said[..i], Queued))
      || (Switches(said, i) && Says(said[..i], AwaitingApproval))
      || (u.Rewind? && !Clears(u) && !LeavesApproval(said, i) && !LeavesCheckin(said, i)
          && (Says(said[..i], AwaitingApproval) || Says(said[..i], AwaitingCheckin)))
    case Stopping => false
  }

  /**
   * Update `j` takes the run out of a state: whatever says of itself where the run is; and a
   * switched mode or a withdrawal for one awaiting an approval, a withdrawal or a rewind that
   * leaves an approval for one awaiting a check-in, anything but a mode for one in line, and for
   * that one and one running a rewind that clears it or withdraws one of two prompts.
   */
  ghost predicate Leaves(said: seq<Update>, j: nat, state: RunState)
    requires j < |said|
  {
    var u := said[j];
    Speaks(u) ||
    match state
    case AwaitingApproval => Switches(said, j) || DropsApproval(said, j)
    case AwaitingCheckin => DropsCheckin(said, j) || (Clears(u) && LeavesApproval(said, j))
    case Queued => (u.Live? && u.event.Other?) || Clears(u) || LeavesOneOfTwo(said, j)
    case Running => Clears(u) || LeavesOneOfTwo(said, j)
    case _ => false
  }

  /** The updates say it: one put the run there and none since took it out; done also when nothing was ever said. */
  ghost predicate Says(said: seq<Update>, state: RunState)
    decreases |said|, 1
  {
    || Since(|said|, (i: nat) => i < |said| && Enters(said, i, state), (j: nat) => j < |said| && Leaves(said, j, state))
    || (state == Done && forall j :: 0 <= j < |said| ==> !Speaks(said[j]))
  }

  lemma SincePrefix(said: seq<Update>, n: nat, state: RunState)
    requires n < |said|
    ensures Since(n, (i: nat) => i < |said| && Enters(said, i, state),
                  (j: nat) => j < |said| && Leaves(said, j, state)) <==>
            Since(n, (i: nat) => i < n && Enters(said[..n], i, state), (j: nat) => j < n && Leaves(said[..n], j, state))
  {
    forall i | 0 <= i < n
      ensures Enters(said[..n], i, state) == Enters(said, i, state)
      ensures Leaves(said[..n], i, state) == Leaves(said, i, state)
    {
      SamePrefix(said, n, i, state);
    }
    SinceSame(n, (i: nat) => i < |said| && Enters(said, i, state), (j: nat) => j < |said| && Leaves(said, j, state),
              (i: nat) => i < n && Enters(said[..n], i, state), (j: nat) => j < n && Leaves(said[..n], j, state));
  }

  /** What an update does depends on what came before it alone. */
  lemma SamePrefix(said: seq<Update>, n: nat, i: nat, state: RunState)
    requires i < n < |said|
    ensures Enters(said[..n], i, state) == Enters(said, i, state)
    ensures Leaves(said[..n], i, state) == Leaves(said, i, state)
  {
    assert said[..n][..i] == said[..i] && said[..n][i] == said[i];
  }

  lemma SaysStep(said: seq<Update>, state: RunState)
    requires said != []
    ensures var n := |said| - 1;
      Says(said, state) <==> Enters(said, n, state) || (Says(said[..n], state) && !Leaves(said, n, state))
  {
    var n := |said| - 1;
    SinceStep(n, (i: nat) => i < |said| && Enters(said, i, state), (j: nat) => j < |said| && Leaves(said, j, state));
    SincePrefix(said, n, state);
    assert (forall j :: 0 <= j < |said| ==> !Speaks(said[j])) <==>
           (forall j :: 0 <= j < n ==> !Speaks(said[..n][j])) && !Speaks(said[n]);
  }

  // The same of one update, by the record before it.

  predicate LeavesA(prev: RunLevel, u: Update) {
    u.Rewind? && prev.pendingApproval.Some? && !Withdraws(u, prev.pendingApproval.value.streamId)
  }

  predicate DropsA(prev: RunLevel, u: Update) {
    prev.pendingApproval.Some? && Withdraws(u, prev.pendingApproval.value.streamId)
  }

  predicate LeavesC(prev: RunLevel, u: Update) {
    u.Rewind? && prev.pendingCheckin.Some? && !Withdraws(u, prev.pendingCheckin.value.streamId)
  }

  predicate DropsC(prev: RunLevel, u: Update) {
    prev.pendingCheckin.Some? && Withdraws(u, prev.pendingCheckin.value.streamId)
  }

  predicate SwitchesFrom(prev: RunLevel, u: Update) {
    u.Live? && u.event.RunMode? && prev.runMode.Some? && prev.runMode != Some(u.event.mode)
  }

  predicate EntersFrom(prev: RunLevel, u: Update, state: RunState) {
    match state
    case Error => Finishes(u, true)
    case Done => Finishes(u, false) || (Clears(u) && !LeavesA(prev, u) && !LeavesC(prev, u) && prev.runState != Error)
    case AwaitingApproval =>
      || (u.Live? && u.event.ApprovalRequest?)
      || (ActiveSnapshot(u) && u.snapshot.approval.Some?)
      || ((Clears(u) || DropsA(prev, u) || DropsC(prev, u)) && LeavesA(prev, u))
    case AwaitingCheckin =>
      || (u.Live? && u.event.StepsCheckin?)
      || (ActiveSnapshot(u) && u.snapshot.approval.None? && u.snapshot.checkin.Some?)
      || ((Clears(u) || DropsA(prev, u) || DropsC(prev, u)) && LeavesC(prev, u) && !LeavesA(prev, u))
    case Queued => Queues(u)
    case Running =>
      || (u.Live? && (u.event.Iterated? || u.event.ToolResult? || u.event.StepsDecision?))
      || u.StepsAnswered?
      || (ActiveSnapshot(u) && u.snapshot.approval.None? && u.snapshot.checkin.None? && u.snapshot.queued.None?)
      || (u.Live? && u.event.Other? && prev.runState == Queued)
      || (SwitchesFrom(prev, u) && prev.runState == AwaitingApproval)
      || (u.Rewind? && !Clears(u) && !LeavesA(prev, u) && !LeavesC(prev, u)
          && (prev.runState == AwaitingApproval || prev.runState == AwaitingCheckin))
    case Stopping => false
  }

  predicate LeavesFrom(prev: RunLevel, u: Update, state: RunState) {
    Speaks(u) ||
    match state
    case AwaitingApproval => SwitchesFrom(prev, u) || DropsA(prev, u)
    case AwaitingCheckin => DropsC(prev, u) || (Clears(u) && LeavesA(prev, u))
    case Queued =>
      || (u.Live? && u.event.Other?) || Clears(u)
      || (DropsA(prev, u) && LeavesC(prev, u)) || (DropsC(prev, u) && LeavesA(prev, u))
    case Running =>
      Clears(u) || (DropsA(prev, u) && LeavesC(prev, u)) || (DropsC(prev, u) && LeavesA(prev, u))
    case _ => false
  }

  lemma StateAfterOne(prev: RunLevel, u: Update, state: RunState)
    requires Coherent(prev) && prev.runState != Stopping
    ensures Apply(prev, After(prev, u)).runState == state <==>
            EntersFrom(prev, u, state) || (prev.runState == state && !LeavesFrom(prev, u, state))
  {
    match u
    case Live(_, _) =>
    case Sync(_, _, _, _) =>
    case End(_) =>
    case Rewind(_, _) =>
    case StepsAnswered =>
  }

  lemma {:induction false} ToldIsCoherent(said: seq<Update>)
    ensures Coherent(Told(said)) && Told(said).runState != Stopping
    decreases |said|
  {
    if said != [] {
      ToldIsCoherent(said[..|said| - 1]);
      AfterKeepsCoherent(Told(said[..|said| - 1]), said[|said| - 1]);
    }
  }

  /** What the record holds before an update is what was still asked. */
  lemma PromptsBefore(said: seq<Update>, n: nat)
    requires n < |said|
    ensures var prev := Told(said[..n]);
      && (LeavesApproval(said, n) <==> LeavesA(prev, said[n])) && (DropsApproval(said, n) <==> DropsA(prev, said[n]))
      && (LeavesCheckin(said, n) <==> LeavesC(prev, said[n])) && (DropsCheckin(said, n) <==> DropsC(prev, said[n]))
      && (Switches(said, n) <==> SwitchesFrom(prev, said[n]))
  {
    forall a ensures Told(said[..n]).pendingApproval == Some(a) <==> StillAsked(said[..n], a) {
      ApprovalIsTheOneAsked(said[..n], a);
    }
    forall c ensures Told(said[..n]).pendingCheckin == Some(c) <==> StillAskedSteps(said[..n], c) {
      CheckinIsTheOneAsked(said[..n], c);
    }
    ModeShown(said[..n]);
  }

  lemma SaidBefore(said: seq<Update>, state: RunState)
    requires said != []
    requires var n := |said| - 1;
      forall other :: Says(said[..n], other) <==> Told(said[..n]).runState == other
    ensures var n := |said| - 1; var prev := Told(said[..n]);
      && (Enters(said, n, state) <==> EntersFrom(prev, said[n], state))
      && (Leaves(said, n, state) <==> LeavesFrom(prev, said[n], state))
  {
    PromptsBefore(said, |said| - 1);
  }

  /** A run is in a state exactly when the updates say so: every state, after every sequence of updates. */
  lemma {:induction false} StateIsWhatWasSaid(said: seq<Update>, state: RunState)
    ensures Told(said).runState == state <==> Says(said, state)
    decreases |said|
  {
    if said != [] {
      var n := |said| - 1;
      forall other ensures Says(said[..n], other) <==> Told(said[..n]).runState == other {
        StateIsWhatWasSaid(said[..n], other);
      }
      SaysStep(said, state);
      SaidBefore(said, state);
      ToldIsCoherent(said[..n]);
      StateAfterOne(Told(said[..n]), said[n], state);
    }
  }

  /** On screen, in any interleaving over any conversations: by a conversation's own updates. */
  lemma StateOnScreen(ops: seq<Op>, convId: string, state: RunState)
    requires OnlyUpdates(ops, convId)
    ensures LevelOf(Run(map[], ops), convId).runState == state <==> Says(Own(ops, convId), state)
  {
    RecordIsWhatWasTold(ops, convId);
    StateIsWhatWasSaid(Own(ops, convId), state);
  }

  /** A counter nothing has been said of is absent. */
  lemma {:induction false} CountersStartEmpty(said: seq<Update>)
    ensures (forall j :: 0 <= j < |said| ==> !CountsSteps(said[j])) ==> Told(said).iteration.None?
    ensures (forall j :: 0 <= j < |said| ==> !PlacesInQueue(said[j])) ==> Told(said).queuePosition.None?
    decreases |said|
  {
    if said != [] {
      var n := |said| - 1;
      CountersStartEmpty(said[..n]);
      CountersAfterOne(Told(said[..n]), said[n]);
      assert forall j :: 0 <= j < n ==> said[..n][j] == said[j];
    }
  }

  // ----- Rewinds, over a whole session -----

  /** The streams a record's prompts name. */
  function PromptStreams(l: RunLevel): set<string> {
    (if l.pendingApproval.Some? && l.pendingApproval.value.streamId.Some?
     then {l.pendingApproval.value.streamId.value} else {})
    + (if l.pendingCheckin.Some? && l.pendingCheckin.value.streamId.Some?
       then {l.pendingCheckin.value.streamId.value} else {})
  }

  /** After a rewind no prompt names a removed run, and once the live run is cleared each prompt left names its run. */
  lemma RewindDropsPrompts(prev: RunLevel, removed: set<string>, tracked: Option<string>)
    ensures var clears := RewindClearsLiveRun(tracked, removed);
      var l := Apply(prev, AfterRewind(prev, removed, clears));
      && (forall s :: s in PromptStreams(l) ==> s in PromptStreams(prev) && (s in removed ==> s == "" && !clears))
      && (clears && l.pendingApproval.Some? ==> l.pendingApproval.value.streamId.Some?)
      && (clears && l.pendingCheckin.Some? ==> l.pendingCheckin.value.streamId.Some?)
  {}

  /** The hook's message handler: the records, and the runs that no longer exist. */
  class Session {
    var levels: RunLevels
    var rewound: set<string>

    constructor ()
      ensures levels == map[] && rewound == {}
    {
      levels, rewound := map[], {};
    }

    ghost function View(): Handled
      reads this
    {
      Handled(levels, rewound)
    }

    method OnSync(convId: string, snapshot: Snapshot, status: Status, streamId: string, tracked: Option<string>)
      modifies this
      ensures View() == Handle(old(View()), Update(convId, Sync(snapshot, status, streamId, tracked)))
    {
      if streamId in rewound { return; }
      if tracked.Some? && tracked.value != streamId { return; }
      levels := levels[convId := FromSnapshot(snapshot, status, streamId)];
    }

    method OnEvent(convId: string, event: StreamEvent, streamId: string)
      modifies this
      ensures View() == Handle(old(View()), Update(convId, Live(event, streamId)))
    {
      if streamId in rewound { return; }
      levels := WithRunLevel(levels, convId, Live(event, streamId));
    }

    method OnEnd(convId: string, status: Status)
      modifies this
      ensures View() == Handle(old(View()), Update(convId, End(status)))
    {
      levels := WithRunLevel(levels, convId, End(status));
    }

    method OnRewound(convId: string, removed: set<string>, tracked: Option<string>)
      modifies this
      ensures View() == Handle(old(View()), Update(convId, Rewind(removed, tracked)))
    {
      rewound := rewound + removed;
      levels := WithRunLevel(levels, convId, Rewind(removed, tracked));
    }

    method OnTurnStarted(localId: string, realId: string)
      modifies this
      ensures View() == Handle(old(View()), Promote(localId, realId))
    {
      levels := WithPromoted(levels, localId, realId);
    }

    method HandleSteps(convId: string)
      modifies this
      ensures View() == Handle(old(View()), Update(convId, StepsAnswered))
    {
      levels := WithRunLevel(levels, convId, StepsAnswered);
    }

    method HandleDelete(convId: string)
      modifies this
      ensures View() == Handle(old(View()), Forget(convId))
    {
      levels := Without(levels, convId);
    }
  }

  datatype Handled = Handled(levels: RunLevels, rewound: set<string>)

  /** A removed run's late snapshots and events are dropped before they reach any record. */
  predicate Ignored(rewound: set<string>, op: Op) {
    op.Update? &&
    (|| (op.update.Sync? && op.update.syncedStream in rewound)
     || (op.update.Live? && op.update.eventStream in rewound))
  }

  function Handle(h: Handled, op: Op): Handled {
    if Ignored(h.rewound, op) then h
    else Handled(Step(h.levels, op),
                 if op.Update? && op.update.Rewind? then h.rewound + op.update.removed else h.rewound)
  }

  function HandleAll(h: Handled, ops: seq<Op>): Handled
    decreases |ops|
  {
    if ops == [] then h else HandleAll(Handle(h, ops[0]), ops[1..])
  }

  /** A rewind among the first `n` operations removed the run. */
  predicate RemovedBy(ops: seq<Op>, n: nat, streamId: string)
    requires n <= |ops|
  {
    exists j :: 0 <= j < n && ops[j].Update? && ops[j].update.Rewind? && streamId in ops[j].update.removed
  }

  /** A snapshot or an event of a run that was removed before it. */
  predicate TooLate(ops: seq<Op>, i: nat)
    requires i < |ops|
  {
    ops[i].Update? &&
    (|| (ops[i].update.Sync? && RemovedBy(ops, i, ops[i].update.syncedStream))
     || (ops[i].update.Live? && RemovedBy(ops, i, ops[i].update.eventStream)))
  }

  /** The first `n` operations without those too late. */
  function InTime(ops: seq<Op>, n: nat): seq<Op>
    requires n <= |ops|
  {
    if n == 0 then [] else InTime(ops, n - 1) + (if TooLate(ops, n - 1) then [] else [ops[n - 1]])
  }

  lemma {:induction false} HandleLast(h: Handled, ops: seq<Op>, op: Op)
    ensures HandleAll(h, ops + [op]) == Handle(HandleAll(h, ops), op)
    decreases |ops|
  {
    if ops == [] {
      assert ([] + [op])[1..] == [];
    } else {
      assert (ops + [op])[0] == ops[0] && (ops + [op])[1..] == ops[1..] + [op];
      HandleLast(Handle(h, ops[0]), ops[1..], op);
    }
  }

  lemma {:induction false} HandledUpTo(ops: seq<Op>, n: nat)
    requires n <= |ops|
    ensures var h := HandleAll(Handled(map[], {}), ops[..n]);
      h.levels == Run(map[], InTime(ops, n)) && forall s :: s in h.rewound <==> RemovedBy(ops, n, s)
  {
    if n == 0 {
      assert ops[..0] == [];
    } else {
      HandledUpTo(ops, n - 1);
      assert ops[..n] == ops[..n - 1] + [ops[n - 1]];
      HandleLast(Handled(map[], {}), ops[..n - 1], ops[n - 1]);
      HandledStep(HandleAll(Handled(map[], {}), ops[..n - 1]), ops, n - 1);
    }
  }

  lemma HandledStep(h: Handled, ops: seq<Op>, n: nat)
    requires n < |ops| && h.levels == Run(map[], InTime(ops, n)) && forall s :: s in h.rewound <==> RemovedBy(ops, n, s)
    ensures var next := Handle(h, ops[n]);
      next.levels == Run(map[], InTime(ops, n + 1)) && forall s :: s in next.rewound <==> RemovedBy(ops, n + 1, s)
  {
    var op := ops[n];
    assert Ignored(h.rewound, op) <==> TooLate(ops, n);
    RunConcat(map[], InTime(ops, n), [op]);
    assert [op][1..] == [];
    assert InTime(ops, n) + [] == InTime(ops, n);
  }

  /** A session's records are those of its operations, all but the snapshots and events of runs removed before them. */
  lemma SessionIsWhatCameInTime(ops: seq<Op>)
    ensures HandleAll(Handled(map[], {}), ops).levels == Run(map[], InTime(ops, |ops|))
  {
    HandledUpTo(ops, |ops|);
    assert ops[..|ops|] == ops;
  }

  lemma {:induction false} InTimeOnlyUpdates(ops: seq<Op>, n: nat, convId: string)
    requires n <= |ops| && OnlyUpdates(ops, convId)
    ensures OnlyUpdates(InTime(ops, n), convId)
  {
    if n > 0 { InTimeOnlyUpdates(ops, n - 1, convId); }
  }

  /** So what a session shows of a conversation is what its updates say that did not come too late. */
  lemma SessionShowsWhatWasSaid(ops: seq<Op>, convId: string, state: RunState, a: Approval)
    requires OnlyUpdates(ops, convId)
    ensures var l := LevelOf(HandleAll(Handled(map[], {}), ops).levels, convId);
      var said := Own(InTime(ops, |ops|), convId);
      && (l.runState == state <==> Says(said, state))
      && (l.pendingApproval == Some(a) <==> StillAsked(said, a))
  {
    SessionIsWhatCameInTime(ops);
    InTimeOnlyUpdates(ops, |ops|, convId);
    StateOnScreen(InTime(ops, |ops|), convId, state);
    ApprovalOnScreen(InTime(ops, |ops|), convId, a);
  }

  /** The server addresses each stream under one conversation, and none under a placeholder. */
  ghost predicate WellAddressed(owner: string -> string, op: Op) {
    match op
    case Update(convId, u) =>
      && (u.Sync? ==> owner(u.syncedStream) == convId)
      && (u.Live? ==> owner(u.eventStream) == convId)
      && (u.Rewind? ==> "" !in u.removed && forall s :: s in u.removed ==> owner(s) == convId)
    case Promote(localId, _) => forall s :: owner(s) != localId
    case Forget(_) => true
  }

  ghost predicate PromptsAreLive(owner: string -> string, h: Handled) {
    forall c, s :: c in h.levels && s in PromptStreams(h.levels[c]) ==> owner(s) == c && s !in h.rewound
  }

  lemma AfterPromptStreams(prev: RunLevel, u: Update)
    ensures var l := Apply(prev, After(prev, u));
      forall s :: s in PromptStreams(l) ==>
        || (u.Sync? && s == u.syncedStream)
        || (u.Live? && s == u.eventStream)
        || (s in PromptStreams(prev) && (u.Rewind? && s in u.removed ==> s == ""))
  {}

  lemma HandleKeepsPrompts(owner: string -> string, h: Handled, op: Op)
    requires PromptsAreLive(owner, h) && WellAddressed(owner, op)
    ensures PromptsAreLive(owner, Handle(h, op))
  {
    var next := Handle(h, op);
    if op.Update? && !Ignored(h.rewound, op) {
      AfterPromptStreams(LevelOf(h.levels, op.convId), op.update);
      assert PromptStreams(IDLE_RUN) == {};
    }
    forall c, s | c in next.levels && s in PromptStreams(next.levels[c])
      ensures owner(s) == c && s !in next.rewound
    {
    }
  }

  /**
   * A removed run never asks again: over any whole session in which the server addresses each
   * stream under one conversation, no prompt on any thread names a run that a rewind or retry
   * removed, however late that run's own snapshots and events arrive.
   */
  lemma {:induction false} RemovedRunsNeverAsk(owner: string -> string, h: Handled, ops: seq<Op>, convId: string)
    requires PromptsAreLive(owner, h)
    requires forall i :: 0 <= i < |ops| ==> WellAddressed(owner, ops[i])
    ensures PromptsAreLive(owner, HandleAll(h, ops))
    ensures PromptStreams(LevelOf(HandleAll(h, ops).levels, convId)) !! HandleAll(h, ops).rewound
    decreases |ops|
  {
    if ops == [] {
      assert PromptStreams(IDLE_RUN) == {};
    } else {
      HandleKeepsPrompts(owner, h, ops[0]);
      RemovedRunsNeverAsk(owner, Handle(h, ops[0]), ops[1..], convId);
    }
  }
}
