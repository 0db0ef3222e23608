/**
 * Following runs over a socket that may lose, repeat and reorder what it carries
 * (apps/mobile/hooks/useChatSession.ts, and the same handler in apps/mobile/hooks/useAgentSession.ts):
 * a cursor for each stream, a snapshot that sets it, events taken only in order, and a rate-limited
 * request for what a gap shows to be missing.
 */
module ResumableStreams {
  import opened Prelude

  const RESYNC_COOLDOWN_MS := 500

  /** How a run's messages follow from its events; what the fold does with each event is not modelled. */
  datatype Folding<!S, !E> = Folding(init: S, apply: (S, E) -> S)

  /** The server's snapshot of a run: its log so far, folded. */
  function Fold<S, E>(f: Folding<S, E>, log: seq<E>): S
    decreases |log|
  {
    if log == [] then f.init else f.apply(Fold(f, log[..|log| - 1]), log[|log| - 1])
  }

  datatype Message<S, E> =
    | Sync(conv: string, stream: string, seqNo: nat, snapshot: S, active: bool)
    | Event(conv: string, stream: string, seqNo: nat, payload: E, now: int, socket: bool)
    | End(conv: string)
    | Rewound(conv: string, removed: set<string>)

  datatype Request = Request(stream: string, cursor: nat, at: int)

  datatype Client<S> = Client(
    cursors: map<string, nat>,
    lastAsk: map<string, int>,
    tracked: map<string, string>,
    rewound: set<string>,
    views: map<string, S>,          // each run's messages on screen
    requests: seq<Request>          // every request a gap has made, in order
  )

  function Fresh<S>(): Client<S> { Client(map[], map[], map[], {}, map[], []) }

  function ViewOf<S, E>(f: Folding<S, E>, c: Client<S>, stream: string): S {
    if stream in c.views then c.views[stream] else f.init
  }

  function LastAsk<S>(c: Client<S>, stream: string): int {
    if stream in c.lastAsk then c.lastAsk[stream] else 0
  }

  // ----- What each message does -----

  function AfterSync<S>(c: Client<S>, conv: string, stream: string, seqNo: nat, snapshot: S, active: bool): Client<S> {
    if stream in c.rewound then c
    else
      var shown := c.(views := c.views[stream := snapshot]);
      if active then shown.(cursors := c.cursors[stream := seqNo], tracked := c.tracked[conv := stream])
      else if conv in c.tracked && c.tracked[conv] != stream then shown
      else shown.(tracked := Without(c.tracked, conv))
  }

  function AfterEvent<S, E>(f: Folding<S, E>, c: Client<S>, stream: string, seqNo: nat, payload: E, now: int,
                            socket: bool): Client<S> {
    if stream in c.rewound then c
    else if stream in c.cursors && seqNo != c.cursors[stream] + 1 then
      if socket && now - LastAsk(c, stream) > RESYNC_COOLDOWN_MS
      then c.(lastAsk := c.lastAsk[stream := now], requests := c.requests + [Request(stream, c.cursors[stream], now)])
      else c
    else c.(cursors := c.cursors[stream := seqNo], views := c.views[stream := f.apply(ViewOf(f, c, stream), payload)])
  }

  function AfterRewound<S>(c: Client<S>, conv: string, removed: set<string>): Client<S> {
    Client(c.cursors - removed, c.lastAsk,
           if conv in c.tracked && c.tracked[conv] in removed then Without(c.tracked, conv) else c.tracked,
           c.rewound + removed, c.views - removed, c.requests)
  }

  function Step<S, E>(f: Folding<S, E>, c: Client<S>, m: Message<S, E>): Client<S> {
    match m
    case Sync(conv, stream, seqNo, snapshot, active) => AfterSync(c, conv, stream, seqNo, snapshot, active)
    case Event(_, stream, seqNo, payload, now, socket) => AfterEvent(f, c, stream, seqNo, payload, now, socket)
    case End(conv) => c.(tracked := Without(c.tracked, conv))
    case Rewound(conv, removed) => AfterRewound(c, conv, removed)
  }

  function Run<S, E>(f: Folding<S, E>, c: Client<S>, ms: seq<Message<S, E>>): Client<S>
    decreases |ms|
  {
    if ms == [] then c else Run(f, Step(f, c, ms[0]), ms[1..])
  }

  // ----- The channel -----

  /** What the server can have sent: any event of the log, or a snapshot of any prefix of it. */
  ghost predicate Authentic<S, E>(f: Folding<S, E>, log: string -> seq<E>, m: Message<S, E>) {
    match m
    case Sync(_, stream, seqNo, snapshot, _) => seqNo <= |log(stream)| && snapshot == Fold(f, log(stream)[..seqNo])
    case Event(_, stream, seqNo, payload, _, _) => 1 <= seqNo <= |log(stream)| && payload == log(stream)[seqNo - 1]
    case _ => true
  }

  /** Each stream belongs to one conversation, and everything said about it names that one. */
  ghost predicate Addressed<S, E>(owner: string -> string, m: Message<S, E>) {
    match m
    case Sync(conv, stream, _, _, _) => owner(stream) == conv
    case Event(conv, stream, _, _, _, _) => owner(stream) == conv
    case End(_) => true
    case Rewound(conv, removed) => forall s :: s in removed ==> owner(s) == conv
  }

  /** What is on screen for a run is its log up to the cursor: nothing skipped, nothing applied twice. */
  ghost predicate InStep<S, E>(f: Folding<S, E>, log: string -> seq<E>, c: Client<S>, stream: string) {
    && stream in c.cursors
    && c.cursors[stream] <= |log(stream)|
    && ViewOf(f, c, stream) == Fold(f, log(stream)[..c.cursors[stream]])
  }

  predicate FinishedSync<S, E>(m: Message<S, E>, stream: string) { m.Sync? && m.stream == stream && !m.active }

  predicate Removes<S, E>(m: Message<S, E>, stream: string) { m.Rewound? && stream in m.removed }

  /** Once in step, only a finished run's snapshot or a rewind can take a run out of it. */
  lemma StepKeepsInStep<S, E>(f: Folding<S, E>, log: string -> seq<E>, c: Client<S>, m: Message<S, E>, stream: string)
    requires InStep(f, log, c, stream) && Authentic(f, log, m)
    requires !FinishedSync(m, stream) && !Removes(m, stream)
    ensures InStep(f, log, Step(f, c, m), stream)
  {
    if m.Event? && m.stream == stream && m.seqNo == c.cursors[stream] + 1 {
      var seen := log(stream)[..m.seqNo];
      assert seen[..|seen| - 1] == log(stream)[..m.seqNo - 1];
    }
  }

  lemma {:induction false} RunKeepsInStep<S, E>(f: Folding<S, E>, log: string -> seq<E>, c: Client<S>,
                                                ms: seq<Message<S, E>>, stream: string)
    requires InStep(f, log, c, stream)
    requires forall i :: 0 <= i < |ms| ==>
        Authentic(f, log, ms[i]) && !FinishedSync(ms[i], stream) && !Removes(ms[i], stream)
    ensures InStep(f, log, Run(f, c, ms), stream)
    decreases |ms|
  {
    if ms != [] {
      StepKeepsInStep(f, log, c, ms[0], stream);
      RunKeepsInStep(f, log, Step(f, c, ms[0]), ms[1..], stream);
    }
  }

  lemma {:induction false} RunConcat<S, E>(f: Folding<S, E>, c: Client<S>, a: seq<Message<S, E>>, b: seq<Message<S, E>>)
    ensures Run(f, c, a + b) == Run(f, Run(f, c, a), b)
    decreases |a|
  {
    if a == [] {
      assert a + b == b;
    } else {
      assert (a + b)[1..] == a[1..] + b;
      RunConcat(f, Step(f, c, a[0]), a[1..], b);
    }
  }

  lemma {:induction false} NotRewound<S, E>(f: Folding<S, E>, c: Client<S>, ms: seq<Message<S, E>>, stream: string)
    requires stream !in c.rewound && forall i :: 0 <= i < |ms| ==> !Removes(ms[i], stream)
    ensures stream !in Run(f, c, ms).rewound
    decreases |ms|
  {
    if ms != [] { NotRewound(f, Step(f, c, ms[0]), ms[1..], stream); }
  }

  /**
   * Resumable streams: whatever came before, once a run that was never removed has had a snapshot
   * as an active run, at message `i`, and no snapshot as a finished one since, its messages equal
   * the server's log folded up to the cursor, under any loss, repetition and reordering.
   */
  lemma FollowedRunsAreInStep<S, E>(f: Folding<S, E>, log: string -> seq<E>, ms: seq<Message<S, E>>, i: nat,
                                    stream: string)
    requires forall j :: 0 <= j < |ms| ==> Authentic(f, log, ms[j]) && !Removes(ms[j], stream)
    requires i < |ms| && ms[i].Sync? && ms[i].stream == stream && ms[i].active
    requires forall j :: i < j < |ms| ==> !FinishedSync(ms[j], stream)
    ensures InStep(f, log, Run(f, Fresh(), ms), stream)
  {
    var c0: Client<S> := Fresh();
    assert ms == ms[..i] + ms[i..];
    RunConcat(f, c0, ms[..i], ms[i..]);
    NotRewound(f, c0, ms[..i], stream);
    var c := Run(f, c0, ms[..i]);
    assert ms[i..][0] == ms[i];
    assert InStep(f, log, Step(f, c, ms[i]), stream);
    forall j | 0 <= j < |ms[i..][1..]|
      ensures Authentic(f, log, ms[i..][1..][j]) && !FinishedSync(ms[i..][1..][j], stream) &&
          !Removes(ms[i..][1..][j], stream)
    {
      assert ms[i..][1..][j] == ms[i + 1 + j];
    }
    RunKeepsInStep(f, log, Step(f, c, ms[i]), ms[i..][1..], stream);
  }

  // ----- The run each conversation follows -----

  ghost predicate TrackedInStep<S, E>(f: Folding<S, E>, log: string -> seq<E>, owner: string -> string, c: Client<S>) {
    forall conv :: conv in c.tracked ==> FollowsInStep(f, log, owner, c, conv)
  }

  ghost predicate FollowsInStep<S, E>(f: Folding<S, E>, log: string -> seq<E>, owner: string -> string, c: Client<S>,
                                      conv: string)
    requires conv in c.tracked
  {
    owner(c.tracked[conv]) == conv && c.tracked[conv] !in c.rewound && InStep(f, log, c, c.tracked[conv])
  }

  /** A run still followed after a message is the one followed before it, or the one an active snapshot names. */
  lemma StillFollowed<S, E>(f: Folding<S, E>, log: string -> seq<E>, owner: string -> string, c: Client<S>,
                            m: Message<S, E>, conv: string)
    requires conv in c.tracked ==> FollowsInStep(f, log, owner, c, conv)
    requires Authentic(f, log, m) && Addressed(owner, m) && conv in Step(f, c, m).tracked
    ensures FollowsInStep(f, log, owner, Step(f, c, m), conv)
  {
    var stream := Step(f, c, m).tracked[conv];
    if conv in c.tracked && c.tracked[conv] == stream {
      assert !Removes(m, stream);
      if !FinishedSync(m, stream) {
        StepKeepsInStep(f, log, c, m, stream);
      }
    }
  }

  lemma StepKeepsTracked<S, E>(f: Folding<S, E>, log: string -> seq<E>, owner: string -> string, c: Client<S>,
                               m: Message<S, E>)
    requires TrackedInStep(f, log, owner, c) && Authentic(f, log, m) && Addressed(owner, m)
    ensures TrackedInStep(f, log, owner, Step(f, c, m))
  {
    forall conv | conv in Step(f, c, m).tracked
      ensures FollowsInStep(f, log, owner, Step(f, c, m), conv)
    {
      StillFollowed(f, log, owner, c, m, conv);
    }
  }

  /**
   * What is followed is exact: in every state any messages can lead to, the run each conversation
   * is following shows its log folded up to the cursor that a reconnect will resume from, and no
   * followed run is a removed one. A run followed always has a cursor, so the default of 0 in a resume is never used.
   */
  lemma {:induction false} TrackedRunsAreInStep<S, E>(f: Folding<S, E>, log: string -> seq<E>, owner: string -> string,
                                                      c: Client<S>, ms: seq<Message<S, E>>)
    requires TrackedInStep(f, log, owner, c)
    requires forall i :: 0 <= i < |ms| ==> Authentic(f, log, ms[i]) && Addressed(owner, ms[i])
    ensures TrackedInStep(f, log, owner, Run(f, c, ms))
    decreases |ms|
  {
    if ms != [] {
      StepKeepsTracked(f, log, owner, c, ms[0]);
      TrackedRunsAreInStep(f, log, owner, Step(f, c, ms[0]), ms[1..]);
    }
  }

  /** A message about other runs: it names neither this stream, nor the conversation as ended or newly followed. */
  predicate Elsewhere<S, E>(m: Message<S, E>, conv: string, stream: string) {
    match m
    case Sync(mConv, mStream, _, _, active) => mStream != stream && (active ==> mConv != conv)
    case Event(_, mStream, _, _, _, _) => mStream != stream
    case End(mConv) => mConv != conv
    case Rewound(_, removed) => stream !in removed
  }

  lemma StepElsewhere<S, E>(f: Folding<S, E>, c: Client<S>, m: Message<S, E>, conv: string, stream: string)
    requires conv in c.tracked && c.tracked[conv] == stream && Elsewhere(m, conv, stream)
    ensures var after := Step(f, c, m);
      && conv in after.tracked && after.tracked[conv] == stream
      && (stream in after.cursors <==> stream in c.cursors)
      && (stream in c.cursors ==> after.cursors[stream] == c.cursors[stream])
      && ViewOf(f, after, stream) == ViewOf(f, c, stream) && LastAsk(after, stream) == LastAsk(c, stream)
  {
    match m
    case Sync(_, _, _, _, _) =>
    case Event(_, _, _, _, _, _) => EventElsewhere(f, c, m, stream);
    case End(_) =>
    case Rewound(_, _) =>
  }

  lemma EventElsewhere<S, E>(f: Folding<S, E>, c: Client<S>, m: Message<S, E>, stream: string)
    requires m.Event? && m.stream != stream
    ensures var after := Step(f, c, m);
      && after.tracked == c.tracked && (stream in after.cursors <==> stream in c.cursors)
      && (stream in c.cursors ==> after.cursors[stream] == c.cursors[stream])
      && ViewOf(f, after, stream) == ViewOf(f, c, stream) && LastAsk(after, stream) == LastAsk(c, stream)
  {}

  /**
   * Catch-up never touches the run being followed: through any number of other runs' snapshots,
   * finished ones of the same conversation among them, and other runs' events, ends and rewinds,
   * it stays followed, with its cursor, its messages and its cooldown as they were.
   */
  lemma {:induction false} CatchUpLeavesFollowedRun<S, E>(f: Folding<S, E>, c: Client<S>, ms: seq<Message<S, E>>,
                                                          conv: string, stream: string)
    requires conv in c.tracked && c.tracked[conv] == stream
    requires forall i :: 0 <= i < |ms| ==> Elsewhere(ms[i], conv, stream)
    ensures var after := Run(f, c, ms);
      && conv in after.tracked && after.tracked[conv] == stream
      && (stream in after.cursors <==> stream in c.cursors)
      && (stream in c.cursors ==> after.cursors[stream] == c.cursors[stream])
      && ViewOf(f, after, stream) == ViewOf(f, c, stream) && LastAsk(after, stream) == LastAsk(c, stream)
    decreases |ms|
  {
    if ms != [] {
      StepElsewhere(f, c, ms[0], conv, stream);
      CatchUpLeavesFollowedRun(f, Step(f, c, ms[0]), ms[1..], conv, stream);
    }
  }

  // ----- Asking for what is missing -----

  ghost predicate Spaced(requests: seq<Request>) {
    && (forall i :: 0 <= i < |requests| ==> requests[i].at > RESYNC_COOLDOWN_MS)
    && (forall i, j :: 0 <= i < j < |requests| && requests[i].stream == requests[j].stream ==>
          requests[j].at - requests[i].at > RESYNC_COOLDOWN_MS)
  }

  /** The last request for each stream is the one the cooldown is measured from. */
  ghost predicate Metered<S>(c: Client<S>) {
    && Spaced(c.requests)
    && (forall s :: s in c.lastAsk ==> c.lastAsk[s] > RESYNC_COOLDOWN_MS)
    && (forall i :: 0 <= i < |c.requests| ==>
          c.requests[i].stream in c.lastAsk && c.requests[i].at <= c.lastAsk[c.requests[i].stream])
  }

  lemma AskKeepsMetered<S>(c: Client<S>, r: Request)
    requires Metered(c) && r.at - LastAsk(c, r.stream) > RESYNC_COOLDOWN_MS
    ensures Metered(c.(lastAsk := c.lastAsk[r.stream := r.at], requests := c.requests + [r]))
  {}

  lemma StepKeepsMetered<S, E>(f: Folding<S, E>, c: Client<S>, m: Message<S, E>)
    requires Metered(c)
    ensures Metered(Step(f, c, m))
  {
    var next := Step(f, c, m);
    if next.requests != c.requests {
      AskKeepsMetered(c, Request(m.stream, c.cursors[m.stream], m.now));
    } else {
      assert next.lastAsk == c.lastAsk;
    }
  }

  /**
   * The rate limit: over any messages and any clock, even one that goes backwards, two requests a
   * gap makes for the same stream are more than 500 ms apart.
   */
  lemma {:induction false} GapRequestsAreSpaced<S, E>(f: Folding<S, E>, c: Client<S>, ms: seq<Message<S, E>>)
    requires Metered(c)
    ensures Spaced(Run(f, c, ms).requests)
    decreases |ms|
  {
    if ms != [] {
      StepKeepsMetered(f, c, ms[0]);
      GapRequestsAreSpaced(f, Step(f, c, ms[0]), ms[1..]);
    }
  }

  /** Every cooldown started with a request that was made. */
  ghost predicate Backed<S>(c: Client<S>) {
    forall s :: s in c.lastAsk ==> Made(c.requests, s, c.lastAsk[s])
  }

  ghost predicate Made(requests: seq<Request>, stream: string, at: int) {
    exists i :: 0 <= i < |requests| && requests[i].stream == stream && requests[i].at == at
  }

  lemma MadeStays(requests: seq<Request>, r: Request, stream: string, at: int)
    requires Made(requests, stream, at)
    ensures Made(requests + [r], stream, at)
  {
    var i :| 0 <= i < |requests| && requests[i].stream == stream && requests[i].at == at;
    assert (requests + [r])[i] == requests[i];
  }

  lemma StepKeepsBacked<S, E>(f: Folding<S, E>, c: Client<S>, m: Message<S, E>)
    requires Backed(c)
    ensures Backed(Step(f, c, m))
  {
    var next := Step(f, c, m);
    if next.requests != c.requests {
      var r := Request(m.stream, c.cursors[m.stream], m.now);
      assert next.requests == c.requests + [r] && next.requests[|c.requests|] == r;
      forall s | s in next.lastAsk ensures Made(next.requests, s, next.lastAsk[s]) {
        if s != m.stream { MadeStays(c.requests, r, s, c.lastAsk[s]); }
      }
    } else {
      assert next.lastAsk == c.lastAsk;
    }
  }

  lemma {:induction false} RunKeepsBacked<S, E>(f: Folding<S, E>, c: Client<S>, ms: seq<Message<S, E>>)
    requires Backed(c)
    ensures Backed(Run(f, c, ms))
    decreases |ms|
  {
    if ms != [] {
      StepKeepsBacked(f, c, ms[0]);
      RunKeepsBacked(f, Step(f, c, ms[0]), ms[1..]);
    }
  }

  /**
   * No gap goes unasked: after any messages, an event out of order changes no message and no
   * cursor, and if there is a socket then the stream is asked for now, from exactly the cursor,
   * or was asked for at most 500 ms ago.
   */
  lemma GapIsAskedFor<S, E>(f: Folding<S, E>, ms: seq<Message<S, E>>, m: Message<S, E>) returns (i: nat)
    requires var c := Run(f, Fresh(), ms);
      m.Event? && m.stream !in c.rewound && m.stream in c.cursors && m.seqNo != c.cursors[m.stream] + 1
      && m.socket && m.now > RESYNC_COOLDOWN_MS
    ensures var c := Run(f, Fresh(), ms); var next := Step(f, c, m);
      && next.views == c.views && next.cursors == c.cursors && next.tracked == c.tracked
      && i < |next.requests| && next.requests[i].stream == m.stream
      && m.now - next.requests[i].at <= RESYNC_COOLDOWN_MS
      && (i >= |c.requests| ==> next.requests[i] == Request(m.stream, c.cursors[m.stream], m.now))
  {
    var c: Client<S> := Run(f, Fresh(), ms);
    var start: Client<S> := Fresh();
    RunKeepsBacked(f, start, ms);
    if m.now - LastAsk(c, m.stream) > RESYNC_COOLDOWN_MS {
      i := |c.requests|;
    } else {
      assert m.stream in c.lastAsk && Made(c.requests, m.stream, c.lastAsk[m.stream]);
      i :| 0 <= i < |c.requests| && c.requests[i].stream == m.stream && c.requests[i].at == c.lastAsk[m.stream];
    }
  }

  /** Events `from + 1` to `to` of a stream arrive in order, at `places`, among whatever else arrives. */
  predicate Arrives<S, E>(ms: seq<Message<S, E>>, stream: string, from: nat, to: nat, places: seq<nat>) {
    && from <= to && |places| == to - from
    && (forall k :: 0 <= k < |places| ==>
          places[k] < |ms| && ms[places[k]].Event? && ms[places[k]].stream == stream &&
          ms[places[k]].seqNo == from + 1 + k)
    && (forall j, k :: 0 <= j < k < |places| ==> places[j] < places[k])
  }

  function Before(place: nat): nat { if place == 0 then 0 else place - 1 }

  /** The places as the tail of the messages numbers them, the first one dropped once it has come. */
  function Tail(places: seq<nat>): (r: seq<nat>)
    ensures |r| == |places| - (if places != [] && places[0] == 0 then 1 else 0)
  {
    if places == [] then []
    else if places[0] == 0 then seq(|places| - 1, k requires 0 <= k < |places| - 1 => Before(places[k + 1]))
    else seq(|places|, k requires 0 <= k < |places| => Before(places[k]))
  }

  /** Each place left is one nearer. */
  lemma TailAt(places: seq<nat>, k: nat)
    requires forall i, j :: 0 <= i < j < |places| ==> places[i] < places[j]
    requires k < |Tail(places)|
    ensures Tail(places)[k] == places[k + (|places| - |Tail(places)|)] - 1
  {
    var d := |places| - |Tail(places)|;
    if d == 1 {
      assert places[0] < places[k + 1];
    } else if k > 0 {
      assert places[0] < places[k];
    }
  }

  lemma TailArrives<S, E>(ms: seq<Message<S, E>>, stream: string, from: nat, to: nat, places: seq<nat>)
    requires ms != [] && Arrives(ms, stream, from, to, places)
    ensures Arrives(ms[1..], stream, if places != [] && places[0] == 0 then from + 1 else from, to, Tail(places))
  {
    var tail := Tail(places);
    forall k | 0 <= k < |tail| ensures tail[k] == places[k + (|places| - |tail|)] - 1
      ensures tail[k] < |ms[1..]| && ms[1..][tail[k]] == ms[places[k + (|places| - |tail|)]]
    {
      TailAt(places, k);
    }
  }

  lemma CursorMovesOn<S, E>(f: Folding<S, E>, c: Client<S>, m: Message<S, E>, stream: string)
    requires stream in c.cursors && stream !in c.rewound && !Removes(m, stream) && !(m.Sync? && m.stream == stream)
    ensures var next := Step(f, c, m);
      && stream in next.cursors && stream !in next.rewound && next.cursors[stream] >= c.cursors[stream]
      && (m.Event? && m.stream == stream && m.seqNo == c.cursors[stream] + 1 ==> next.cursors[stream] == m.seqNo)
  {}

  /** No message removes the stream or is a snapshot of it. */
  predicate OnlyEvents<S, E>(ms: seq<Message<S, E>>, stream: string) {
    forall i :: 0 <= i < |ms| ==> !Removes(ms[i], stream) && !(ms[i].Sync? && ms[i].stream == stream)
  }

  lemma OnlyEventsTail<S, E>(ms: seq<Message<S, E>>, stream: string)
    requires ms != [] && OnlyEvents(ms, stream)
    ensures OnlyEvents(ms[1..], stream) && !Removes(ms[0], stream) && !(ms[0].Sync? && ms[0].stream == stream)
  {}

  /** If the first message is the next event awaited, the cursor takes it. */
  lemma FirstArrives<S, E>(f: Folding<S, E>, c: Client<S>, ms: seq<Message<S, E>>, stream: string,
                           from: nat, to: nat, places: seq<nat>)
    requires ms != [] && Arrives(ms, stream, from, to, places) && OnlyEvents(ms, stream)
    requires stream in c.cursors && c.cursors[stream] >= from && stream !in c.rewound
    ensures var next := Step(f, c, ms[0]);
      && stream in next.cursors && stream !in next.rewound
      && next.cursors[stream] >= if places != [] && places[0] == 0 then from + 1 else from
  {
    OnlyEventsTail(ms, stream);
    CursorMovesOn(f, c, ms[0], stream);
  }

  /** With no snapshot of the stream in between, the cursor only moves on, and reaches what arrives in order. */
  lemma {:induction false} CursorReaches<S, E>(f: Folding<S, E>, c: Client<S>, ms: seq<Message<S, E>>, stream: string,
                                               from: nat, to: nat, places: seq<nat>)
    requires stream in c.cursors && c.cursors[stream] >= from && stream !in c.rewound
    requires Arrives(ms, stream, from, to, places) && OnlyEvents(ms, stream)
    ensures stream in Run(f, c, ms).cursors && Run(f, c, ms).cursors[stream] >= to
    decreases |ms|
  {
    if ms != [] {
      var next := if places != [] && places[0] == 0 then from + 1 else from;
      FirstArrives(f, c, ms, stream, from, to, places);
      TailArrives(ms, stream, from, to, places);
      OnlyEventsTail(ms, stream);
      CursorReaches(f, Step(f, c, ms[0]), ms[1..], stream, next, to, Tail(places));
    }
  }

  /**
   * Recovery: an active snapshot at `k`, then the rest of the log in order, mixed with any
   * repetitions, stale events and other streams: the run shows its whole log.
   */
  lemma ResyncRecovers<S, E>(f: Folding<S, E>, log: string -> seq<E>, c: Client<S>, sync: Message<S, E>,
                             ms: seq<Message<S, E>>, places: seq<nat>)
    requires sync.Sync? && sync.active && Authentic(f, log, sync) && sync.stream !in c.rewound
    requires forall i :: 0 <= i < |ms| ==> Authentic(f, log, ms[i]) && !Removes(ms[i], sync.stream)
                                           && !(ms[i].Sync? && ms[i].stream == sync.stream)
    requires Arrives(ms, sync.stream, sync.seqNo, |log(sync.stream)|, places)
    ensures ViewOf(f, Run(f, Step(f, c, sync), ms), sync.stream) == Fold(f, log(sync.stream))
  {
    var synced := Step(f, c, sync);
    assert InStep(f, log, synced, sync.stream);
    RunKeepsInStep(f, log, synced, ms, sync.stream);
    CursorReaches(f, synced, ms, sync.stream, sync.seqNo, |log(sync.stream)|, places);
    assert log(sync.stream)[..|log(sync.stream)|] == log(sync.stream);
  }

  // ----- Where the protocol is not exact -----

  /** The fold that keeps every event: two prefixes of a log look alike only when they are the same. */
  function Appending<E>(): Folding<seq<E>, E> { Folding([], (s: seq<E>, e: E) => s + [e]) }

  lemma {:induction false} AppendingKeepsAll<E>(log: seq<E>)
    ensures Fold(Appending(), log) == log
    decreases |log|
  {
    if log != [] {
      AppendingKeepsAll(log[..|log| - 1]);
      assert log == log[..|log| - 1] + [log[|log| - 1]];
    }
  }

  /**
   * Exactly when one message leaves what is on screen out of step with the cursor: a finished
   * run's snapshot that is not at the cursor, since it moves the messages but not the cursor; and
   * an event of a run with no cursor, of which the first `n` events are on screen, that is not
   * event `n + 1`, since with nothing to compare it with any event is taken. A run has no cursor
   * before its first active snapshot; finished ones may have shown some or all of it (`n` is 0
   * when nothing has).
   */
  lemma LeavesStepExactlyWhen<E>(log: string -> seq<E>, c: Client<seq<E>>, m: Message<seq<E>, E>, stream: string,
                                 n: nat)
    requires Authentic(Appending(), log, m) && stream !in c.rewound && !Removes(m, stream)
    requires stream in c.cursors ==> InStep(Appending(), log, c, stream)
    requires stream !in c.cursors ==> n <= |log(stream)| && ViewOf(Appending(), c, stream) == log(stream)[..n]
    ensures var next := Step(Appending(), c, m);
      stream in next.cursors ==>
        (InStep(Appending(), log, next, stream) <==>
           && !(FinishedSync(m, stream) && m.seqNo != c.cursors[stream])
           && !(m.Event? && m.stream == stream && stream !in c.cursors && m.seqNo != n + 1))
  {
    if FinishedSync(m, stream) && stream in c.cursors {
      AppendingKeepsAll(log(stream)[..m.seqNo]);
      AppendingKeepsAll(log(stream)[..c.cursors[stream]]);
      assert |log(stream)[..m.seqNo]| == m.seqNo;
    } else if m.Event? && m.stream == stream && stream !in c.cursors {
      FirstTaken(log, c, m, n);
    } else if stream in c.cursors {
      StepKeepsInStep(Appending(), log, c, m, stream);
    }
  }

  lemma FirstTaken<E>(log: string -> seq<E>, c: Client<seq<E>>, m: Message<seq<E>, E>, n: nat)
    requires Authentic(Appending(), log, m) && m.Event? && m.stream !in c.rewound && m.stream !in c.cursors
    requires n <= |log(m.stream)| && ViewOf(Appending(), c, m.stream) == log(m.stream)[..n]
    ensures InStep(Appending(), log, Step(Appending(), c, m), m.stream) <==> m.seqNo == n + 1
  {
    var all := log(m.stream);
    AppendingKeepsAll(all[..m.seqNo]);
    assert ViewOf(Appending(), Step(Appending(), c, m), m.stream) == all[..n] + [m.payload];
    assert |all[..m.seqNo]| == m.seqNo && |all[..n] + [m.payload]| == n + 1;
    assert m.seqNo == n + 1 ==> all[..n] + [m.payload] == all[..m.seqNo];
  }

  /** What is on screen for a run with no cursor, never removed, is the start of its log. */
  ghost predicate ShowsStart<E>(log: string -> seq<E>, c: Client<seq<E>>, stream: string) {
    var shown := ViewOf(Appending(), c, stream);
    shown <= log(stream)
  }

  /** The message puts the screen out of step: said of the cursor, the number of events shown and the message alone. */
  predicate Slips<E>(c: Client<seq<E>>, m: Message<seq<E>, E>, stream: string) {
    stream !in c.rewound &&
    (|| (FinishedSync(m, stream) && stream in c.cursors && m.seqNo != c.cursors[stream])
     || (m.Event? && m.stream == stream && stream !in c.cursors && m.seqNo != |ViewOf(Appending(), c, stream)| + 1))
  }

  ghost predicate Faithful<E>(log: string -> seq<E>, c: Client<seq<E>>, stream: string) {
    && (stream in c.rewound ==> stream !in c.cursors)
    && (stream in c.cursors ==> InStep(Appending(), log, c, stream))
    && (stream !in c.rewound && stream !in c.cursors ==> ShowsStart(log, c, stream))
  }

  lemma StepSlips<E>(log: string -> seq<E>, c: Client<seq<E>>, m: Message<seq<E>, E>, stream: string)
    requires Faithful(log, c, stream) && Authentic(Appending(), log, m)
    ensures Faithful(log, Step(Appending(), c, m), stream) <==> !Slips(c, m, stream)
    ensures Slips(c, m, stream) ==>
      stream in Step(Appending(), c, m).cursors && !InStep(Appending(), log, Step(Appending(), c, m), stream)
  {
    if stream in c.rewound || Removes(m, stream) {
      RemovedStays(c, m, stream);
    } else if stream in c.cursors {
      CursorStays(c, m, stream);
      LeavesStepExactlyWhen(log, c, m, stream, 0);
    } else {
      var n := |ViewOf(Appending(), c, stream)|;
      LeavesStepExactlyWhen(log, c, m, stream, n);
      StepWithoutCursor(log, c, m, stream);
    }
  }

  lemma RemovedStays<E>(c: Client<seq<E>>, m: Message<seq<E>, E>, stream: string)
    requires stream in c.rewound ==> stream !in c.cursors
    requires stream in c.rewound || Removes(m, stream)
    ensures var next := Step(Appending(), c, m); stream in next.rewound && stream !in next.cursors
  {}

  lemma CursorStays<E>(c: Client<seq<E>>, m: Message<seq<E>, E>, stream: string)
    requires stream !in c.rewound && stream in c.cursors && !Removes(m, stream)
    ensures var next := Step(Appending(), c, m); stream !in next.rewound && stream in next.cursors
  {}

  lemma StepWithoutCursor<E>(log: string -> seq<E>, c: Client<seq<E>>, m: Message<seq<E>, E>, stream: string)
    requires stream !in c.rewound && stream !in c.cursors && !Removes(m, stream)
    requires ShowsStart(log, c, stream) && Authentic(Appending(), log, m)
    ensures var next := Step(Appending(), c, m);
      && stream !in next.rewound && (m.Event? && m.stream == stream ==> stream in next.cursors)
      && (stream !in next.cursors ==> ShowsStart(log, next, stream))
  {
    if FinishedSync(m, stream) { AppendingKeepsAll(log(stream)[..m.seqNo]); }
  }

  /** After every message, a run that has a cursor shows its log up to it. */
  ghost predicate AlwaysInStep<E>(log: string -> seq<E>, c: Client<seq<E>>, ms: seq<Message<seq<E>, E>>, stream: string)
    decreases |ms|
  {
    && (stream in c.cursors ==> InStep(Appending(), log, c, stream))
    && (ms == [] || AlwaysInStep(log, Step(Appending(), c, ms[0]), ms[1..], stream))
  }

  predicate NeverSlips<E>(c: Client<seq<E>>, ms: seq<Message<seq<E>, E>>, stream: string)
    decreases |ms|
  {
    ms == [] || (!Slips(c, ms[0], stream) && NeverSlips(Step(Appending(), c, ms[0]), ms[1..], stream))
  }

  lemma {:induction false} RunSlips<E>(log: string -> seq<E>, c: Client<seq<E>>, ms: seq<Message<seq<E>, E>>,
                                       stream: string)
    requires Faithful(log, c, stream)
    requires forall i :: 0 <= i < |ms| ==> Authentic(Appending(), log, ms[i])
    ensures AlwaysInStep(log, c, ms, stream) <==> NeverSlips(c, ms, stream)
    decreases |ms|
  {
    if ms != [] {
      StepSlips(log, c, ms[0], stream);
      if !Slips(c, ms[0], stream) { RunSlips(log, Step(Appending(), c, ms[0]), ms[1..], stream); }
    }
  }

  /**
   * Over any run of authentic messages, whatever is lost, repeated, reordered or removed: a stream
   * with a cursor always shows its log up to it if and only if no message slips, that is no
   * finished snapshot comes away from the cursor, and no event comes without a cursor that is not
   * the one after those on screen.
   */
  lemma InStepExactlyWhen<E>(log: string -> seq<E>, ms: seq<Message<seq<E>, E>>, stream: string)
    requires forall i :: 0 <= i < |ms| ==> Authentic(Appending(), log, ms[i])
    ensures AlwaysInStep(log, Fresh(), ms, stream) <==> NeverSlips(Fresh(), ms, stream)
  {
    RunSlips(log, Fresh(), ms, stream);
  }

  /**
   * The finished case is not harmless. A run followed to event 1 of 2 and then seen finished, at
   * event 2, takes a late event 2 once more: it is the one after the cursor.
   */
  lemma LateEventIsAppliedTwice<E>(conv: string, stream: string, a: E, b: E, now: int)
    ensures var f := Appending<E>();
      var ms := [Sync(conv, stream, 1, [a], true), Sync(conv, stream, 2, [a, b], false),
                 Event(conv, stream, 2, b, now, true)];
      && (forall i :: 0 <= i < |ms| ==> Authentic(f, _ => [a, b], ms[i]))
      && ViewOf(f, Run(f, Fresh(), ms), stream) == [a, b, b]
  {
    var f := Appending<E>();
    var ms := [Sync(conv, stream, 1, [a], true), Sync(conv, stream, 2, [a, b], false),
               Event(conv, stream, 2, b, now, true)];
    AppendingKeepsAll([a, b][..1]);
    AppendingKeepsAll([a, b][..2]);
    assert [a, b][..1] == [a] && [a, b][..2] == [a, b];
    var c0: Client<seq<E>> := Fresh();
    var c1 := Step(f, c0, ms[0]);
    var c2 := Step(f, c1, ms[1]);
    var c3 := Step(f, c2, ms[2]);
    assert ms[1..][1..][1..] == [];
    assert Run(f, c0, ms) == Run(f, c1, ms[1..]) == Run(f, c2, ms[1..][1..]) == c3;
  }

  /**
   * Nor is a run known only from a finished snapshot, as every catch-up after a reconnect makes
   * one: it has no cursor, so even its first event, arriving late, is put after its last.
   */
  lemma LateEventAfterCatchUp<E>(conv: string, stream: string, a: E, b: E, now: int)
    ensures var f := Appending<E>();
      var ms := [Sync(conv, stream, 2, [a, b], false), Event(conv, stream, 1, a, now, true)];
      && (forall i :: 0 <= i < |ms| ==> Authentic(f, _ => [a, b], ms[i]))
      && ViewOf(f, Run(f, Fresh(), ms), stream) == [a, b, a]
      && Run(f, Fresh(), ms).cursors == map[stream := 1]
  {
    var f := Appending<E>();
    var ms := [Sync(conv, stream, 2, [a, b], false), Event(conv, stream, 1, a, now, true)];
    AppendingKeepsAll([a, b][..2]);
    assert [a, b][..2] == [a, b];
    var c0: Client<seq<E>> := Fresh();
    var c1 := Step(f, c0, ms[0]);
    assert ms[1..][1..] == [];
    assert Run(f, c0, ms) == Run(f, c1, ms[1..]) == Step(f, c1, ms[1]);
  }
}
