/**
 * Which run a conversation follows is a ref that a React state updater writes
 * (apps/mobile/hooks/useChatSession.ts), and React may run an updater later than the handler that
 * passed it, though never out of turn. The handlers read the ref as it is meanwhile.
 */
module DeferredTracking {
  import opened Prelude
  import opened ResumableStreams

  /** What an updater does to the runs that are followed. */
  datatype Update = Follow(conv: string, stream: string) | Unfollow(conv: string)

  function Land(tracked: map<string, string>, u: Update): map<string, string> {
    match u
    case Follow(conv, stream) => tracked[conv := stream]
    case Unfollow(conv) => Without(tracked, conv)
  }

  function LandAll(tracked: map<string, string>, us: seq<Update>): map<string, string>
    decreases |us|
  {
    if us == [] then tracked else LandAll(Land(tracked, us[0]), us[1..])
  }

  /** The client, `client.tracked` being the ref, and the updaters that have not run. */
  datatype Deferred<S> = Deferred(client: Client<S>, updates: seq<Update>)

  /** What is followed once every updater has run. */
  function Settled<S>(d: Deferred<S>): map<string, string> { LandAll(d.client.tracked, d.updates) }

  function At(tracked: map<string, string>, conv: string): Option<string> {
    if conv in tracked then Some(tracked[conv]) else None
  }

  /** A different run is followed. */
  predicate Other(followed: Option<string>, stream: string) { followed.Some? && followed.value != stream }

  predicate Among(followed: Option<string>, removed: set<string>) { followed.Some? && followed.value in removed }

  /** The updaters a message passes, deciding by what is in `tracked`. */
  function Passed<S, E>(rewound: set<string>, tracked: map<string, string>, m: Message<S, E>): seq<Update> {
    match m
    case Sync(conv, stream, _, _, active) =>
      if stream in rewound then []
      else if active then [Follow(conv, stream)]
      else if Other(At(tracked, conv), stream) then [] else [Unfollow(conv)]
    case Event(_, _, _, _, _, _) => []
    case End(conv) => [Unfollow(conv)]
    case Rewound(conv, removed) => if Among(At(tracked, conv), removed) then [Unfollow(conv)] else []
  }

  /** A message is handled, or React runs the next updater. */
  datatype Turn<S, E> = Hears(message: Message<S, E>) | Lands

  function Hear<S, E>(f: Folding<S, E>, d: Deferred<S>, m: Message<S, E>): Deferred<S> {
    Deferred(Step(f, d.client, m).(tracked := d.client.tracked),
             d.updates + Passed(d.client.rewound, d.client.tracked, m))
  }

  function LandOne<S>(d: Deferred<S>): Deferred<S> {
    if d.updates == [] then d
    else Deferred(d.client.(tracked := Land(d.client.tracked, d.updates[0])), d.updates[1..])
  }

  function Take<S, E>(f: Folding<S, E>, d: Deferred<S>, t: Turn<S, E>): Deferred<S> {
    match t
    case Hears(m) => Hear(f, d, m)
    case Lands => LandOne(d)
  }

  function TakeAll<S, E>(f: Folding<S, E>, d: Deferred<S>, ts: seq<Turn<S, E>>): Deferred<S>
    decreases |ts|
  {
    if ts == [] then d else TakeAll(f, Take(f, d, ts[0]), ts[1..])
  }

  function Heard<S, E>(ts: seq<Turn<S, E>>): seq<Message<S, E>> {
    if ts == [] then []
    else (if ts[0].Hears? then [ts[0].message] else []) + Heard(ts[1..])
  }

  function Start<S>(): Deferred<S> { Deferred(Fresh(), []) }

  /** The socket handler, over the hook's refs, and the state updaters it has passed to React. */
  class Handler<S, E> {
    const folding: Folding<S, E>
    var cursors: map<string, nat>
    var lastResyncAt: map<string, int>
    var streamingByConv: map<string, string>
    var rewoundStreams: set<string>
    var views: map<string, S>
    var requests: seq<Request>
    var updates: seq<Update>

    constructor (folding: Folding<S, E>)
      ensures View() == Start() && this.folding == folding
    {
      this.folding := folding;
      cursors, lastResyncAt, streamingByConv, rewoundStreams, views, requests := map[], map[], map[], {}, map[], [];
      updates := [];
    }

    ghost function View(): Deferred<S>
      reads this
    {
      Deferred(Client(cursors, lastResyncAt, streamingByConv, rewoundStreams, views, requests), updates)
    }

    method SetStreamingByConv(u: Update)
      modifies this`updates
      ensures updates == old(updates) + [u]
    {
      updates := updates + [u];
    }

    method ClearStream(conv: string)
      modifies this`updates
      ensures updates == old(updates) + [Unfollow(conv)]
    {
      SetStreamingByConv(Unfollow(conv));
    }

    /** React runs the next updater, which writes the ref. */
    method RunUpdater()
      modifies this`updates, this`streamingByConv
      ensures View() == Take(folding, old(View()), Lands)
    {
      if |updates| == 0 { return; }
      match updates[0] {
        case Follow(conv, stream) => streamingByConv := streamingByConv[conv := stream];
        case Unfollow(conv) => streamingByConv := Without(streamingByConv, conv);
      }
      updates := updates[1..];
    }

    method OnSync(conv: string, stream: string, seqNo: nat, snapshot: S, active: bool)
      modifies this
      ensures View() == Take(folding, old(View()), Hears(Sync(conv, stream, seqNo, snapshot, active)))
    {
      if stream in rewoundStreams { return; }
      views := views[stream := snapshot];
      if !active {
        if conv !in streamingByConv || streamingByConv[conv] == stream {
          ClearStream(conv);
        }
      } else {
        cursors := cursors[stream := seqNo];
        SetStreamingByConv(Follow(conv, stream));
      }
    }

    method OnEvent(conv: string, stream: string, seqNo: nat, payload: E, now: int, socket: bool)
      modifies this
      ensures View() == Take(folding, old(View()), Hears(Event(conv, stream, seqNo, payload, now, socket)))
    {
      if stream in rewoundStreams { return; }
      if stream in cursors && seqNo != cursors[stream] + 1 {
        var lastAsk := if stream in lastResyncAt then lastResyncAt[stream] else 0;
        if socket && now - lastAsk > RESYNC_COOLDOWN_MS {
          lastResyncAt := lastResyncAt[stream := now];
          requests := requests + [Request(stream, cursors[stream], now)];
        }
        return;
      }
      cursors := cursors[stream := seqNo];
      views := views[stream := folding.apply(if stream in views then views[stream] else folding.init, payload)];
    }

    method OnEnd(conv: string)
      modifies this
      ensures View() == Take(folding, old(View()), Hears(End(conv)))
    {
      ClearStream(conv);
    }

    method OnRewound(conv: string, removed: set<string>)
      modifies this
      ensures View() == Take(folding, old(View()), Hears(Rewound(conv, removed)))
    {
      rewoundStreams := rewoundStreams + removed;
      cursors := cursors - removed;
      if conv in streamingByConv && streamingByConv[conv] in removed {
        ClearStream(conv);
      }
      views := views - removed;
    }
  }

  // ----- What deferral does not touch -----

  /** Alike but for the runs that are followed. */
  predicate SameElse<S(==)>(a: Client<S>, b: Client<S>) {
    && a.cursors == b.cursors && a.lastAsk == b.lastAsk && a.rewound == b.rewound
    && a.views == b.views && a.requests == b.requests
  }

  lemma StepIgnoresTracking<S, E>(f: Folding<S, E>, a: Client<S>, b: Client<S>, m: Message<S, E>)
    requires SameElse(a, b)
    ensures SameElse(Step(f, a, m), Step(f, b, m))
  {
    match m
    case Sync(conv, stream, seqNo, snapshot, active) =>
      SyncIgnoresTracking(a, b, conv, stream, seqNo, snapshot, active);
    case Event(_, stream, seqNo, payload, now, socket) =>
      EventIgnoresTracking(f, a, b, stream, seqNo, payload, now, socket);
    case End(_) =>
    case Rewound(_, _) =>
  }

  lemma SyncIgnoresTracking<S>(a: Client<S>, b: Client<S>, conv: string, stream: string, seqNo: nat, snapshot: S,
                               active: bool)
    requires SameElse(a, b)
    ensures SameElse(AfterSync(a, conv, stream, seqNo, snapshot, active),
                     AfterSync(b, conv, stream, seqNo, snapshot, active))
  {}

  lemma EventIgnoresTracking<S, E>(f: Folding<S, E>, a: Client<S>, b: Client<S>, stream: string, seqNo: nat, payload: E,
                                   now: int, socket: bool)
    requires SameElse(a, b)
    ensures SameElse(AfterEvent(f, a, stream, seqNo, payload, now, socket),
                     AfterEvent(f, b, stream, seqNo, payload, now, socket))
  {
    assert LastAsk(a, stream) == LastAsk(b, stream) && ViewOf(f, a, stream) == ViewOf(f, b, stream);
  }

  /**
   * Whenever updaters run, cursors, messages, requests and removed runs are what they would be if
   * they ran at once: all that is proved of these holds as it stands.
   */
  lemma {:induction false} DeferralOnlyTouchesTracking<S, E>(f: Folding<S, E>, d: Deferred<S>, c: Client<S>,
                                                             ts: seq<Turn<S, E>>)
    requires SameElse(d.client, c)
    ensures SameElse(TakeAll(f, d, ts).client, Run(f, c, Heard(ts)))
    decreases |ts|
  {
    if ts != [] {
      match ts[0]
      case Hears(m) =>
        StepIgnoresTracking(f, d.client, c, m);
        DeferralOnlyTouchesTracking(f, Take(f, d, ts[0]), Step(f, c, m), ts[1..]);
        RunOn(f, c, m, Heard(ts[1..]));
      case Lands =>
        DeferralOnlyTouchesTracking(f, Take(f, d, ts[0]), c, ts[1..]);
        assert [] + Heard(ts[1..]) == Heard(ts[1..]);
    }
  }

  lemma RunOn<S, E>(f: Folding<S, E>, c: Client<S>, m: Message<S, E>, rest: seq<Message<S, E>>)
    ensures Run(f, c, [m] + rest) == Run(f, Step(f, c, m), rest)
  {
    assert ([m] + rest)[1..] == rest;
  }

  // ----- When the settled runs are the right ones -----

  lemma {:induction false} LandConcat(tracked: map<string, string>, a: seq<Update>, b: seq<Update>)
    ensures LandAll(tracked, a + b) == LandAll(LandAll(tracked, a), b)
    decreases |a|
  {
    if a == [] {
      assert a + b == b;
    } else {
      assert (a + b)[1..] == a[1..] + b;
      LandConcat(Land(tracked, a[0]), a[1..], b);
    }
  }

  /** Updaters that run at once do what the client does. */
  lemma PassedAtOnce<S, E>(f: Folding<S, E>, c: Client<S>, m: Message<S, E>)
    ensures Step(f, c, m).tracked == LandAll(c.tracked, Passed(c.rewound, c.tracked, m))
  {
    var us := Passed(c.rewound, c.tracked, m);
    if us != [] { assert us[1..] == [] && LandAll(c.tracked, us) == Land(c.tracked, us[0]); }
  }

  /**
   * A message decides wrongly by a ref that is behind: a finished snapshot lets go of a run that
   * another is about to follow, or keeps its own; a rewind keeps a removed run, or lets go of one
   * it does not remove.
   */
  predicate Misreads<S, E>(d: Deferred<S>, m: Message<S, E>) {
    match m
    case Sync(conv, stream, _, _, active) =>
      var now, settled := At(d.client.tracked, conv), At(Settled(d), conv);
      stream !in d.client.rewound && !active && settled.Some? && Other(now, stream) != Other(settled, stream)
    case Rewound(conv, removed) =>
      var now, settled := At(d.client.tracked, conv), At(Settled(d), conv);
      settled.Some? && Among(now, removed) != Among(settled, removed)
    case _ => false
  }

  lemma LandedSame(tracked: map<string, string>, conv: string)
    ensures LandAll(tracked, []) == tracked && LandAll(tracked, [Unfollow(conv)]) == Without(tracked, conv)
    ensures LandAll(tracked, [Unfollow(conv)]) == tracked <==> conv !in tracked
  {
    assert [Unfollow(conv)][1..] == [];
  }

  /** Exactly then does what will be followed differ from what it would be with updaters run at once. */
  lemma HearingAgrees<S, E>(f: Folding<S, E>, d: Deferred<S>, c: Client<S>, m: Message<S, E>)
    requires SameElse(d.client, c) && Settled(d) == c.tracked
    ensures Settled(Hear(f, d, m)) == Step(f, c, m).tracked <==> !Misreads(d, m)
  {
    LandConcat(d.client.tracked, d.updates, Passed(c.rewound, d.client.tracked, m));
    PassedAtOnce(f, c, m);
    match m
    case Sync(conv, _, _, _, _) => LandedSame(c.tracked, conv);
    case Rewound(conv, _) => LandedSame(c.tracked, conv);
    case _ =>
  }

  lemma LandingKeepsSettled<S>(d: Deferred<S>)
    ensures Settled(LandOne(d)) == Settled(d)
  {}

  /** After every turn, what is or will be followed is what it would be with every updater run at once. */
  predicate AlwaysAgrees<S(==), E>(f: Folding<S, E>, d: Deferred<S>, c: Client<S>, ts: seq<Turn<S, E>>)
    decreases |ts|
  {
    Settled(d) == c.tracked &&
    (ts == [] ||
     AlwaysAgrees(f, Take(f, d, ts[0]), if ts[0].Hears? then Step(f, c, ts[0].message) else c, ts[1..]))
  }

  predicate NeverMisreads<S(==), E>(f: Folding<S, E>, d: Deferred<S>, ts: seq<Turn<S, E>>)
    decreases |ts|
  {
    ts == [] ||
    (!(ts[0].Hears? && Misreads(d, ts[0].message)) && NeverMisreads(f, Take(f, d, ts[0]), ts[1..]))
  }

  lemma {:induction false} AgreesThroughout<S, E>(f: Folding<S, E>, d: Deferred<S>, c: Client<S>, ts: seq<Turn<S, E>>)
    requires SameElse(d.client, c) && Settled(d) == c.tracked
    ensures AlwaysAgrees(f, d, c, ts) <==> NeverMisreads(f, d, ts)
    ensures NeverMisreads(f, d, ts) ==> Settled(TakeAll(f, d, ts)) == Run(f, c, Heard(ts)).tracked
    decreases |ts|
  {
    if ts != [] {
      match ts[0]
      case Hears(m) =>
        StepIgnoresTracking(f, d.client, c, m);
        HearingAgrees(f, d, c, m);
        RunOn(f, c, m, Heard(ts[1..]));
        if !Misreads(d, m) { AgreesThroughout(f, Take(f, d, ts[0]), Step(f, c, m), ts[1..]); }
      case Lands =>
        LandingKeepsSettled(d);
        AgreesThroughout(f, Take(f, d, ts[0]), c, ts[1..]);
        assert [] + Heard(ts[1..]) == Heard(ts[1..]);
    }
  }

  /**
   * Over any run, however late updaters are: what is followed once they have run is at every
   * moment what it would be had they run at once, if and only if no message misreads the ref.
   */
  lemma DeferralIsInvisibleExactlyWhen<S, E>(f: Folding<S, E>, ts: seq<Turn<S, E>>)
    ensures AlwaysAgrees(f, Start(), Fresh(), ts) <==> NeverMisreads(f, Start(), ts)
  {
    AgreesThroughout(f, Start(), Fresh(), ts);
  }

  /**
   * And then the ref, whenever no updater is waiting, names only runs that show their log folded up
   * to the cursor a resume will send, and no removed run.
   */
  lemma SettledRunsAreInStep<S, E>(f: Folding<S, E>, log: string -> seq<E>, owner: string -> string,
                                   ts: seq<Turn<S, E>>)
    requires forall i :: 0 <= i < |Heard(ts)| ==> Authentic(f, log, Heard(ts)[i]) && Addressed(owner, Heard(ts)[i])
    requires NeverMisreads(f, Start(), ts)
    ensures var d := TakeAll(f, Start(), ts); d.updates == [] ==> TrackedInStep(f, log, owner, d.client)
  {
    var d, c: Client<S> := TakeAll(f, Start(), ts), Run(f, Fresh(), Heard(ts));
    AgreesThroughout(f, Start(), Fresh(), ts);
    DeferralOnlyTouchesTracking(f, Start(), Fresh(), ts);
    TrackedRunsAreInStep(f, log, owner, Fresh(), Heard(ts));
    assert d.updates == [] ==> d.client == c;
  }

  /**
   * It matters. A rewind that comes before the updater of the run it removes has run leaves the
   * conversation following a removed run without a cursor, which a resume would ask for from 0.
   */
  lemma RewindBeforeLanding<S, E>(f: Folding<S, E>, conv: string, stream: string, seqNo: nat, snapshot: S)
    ensures var ts: seq<Turn<S, E>> :=
        [Hears(Sync(conv, stream, seqNo, snapshot, true)), Hears(Rewound(conv, {stream})), Lands];
      var d := TakeAll(f, Start(), ts);
      && d.updates == [] && d.client.tracked == map[conv := stream]
      && stream in d.client.rewound && stream !in d.client.cursors
  {
    var d0: Deferred<S> := Start();
    var a, b: Turn<S, E> := Hears(Sync(conv, stream, seqNo, snapshot, true)), Hears(Rewound(conv, {stream}));
    RunThree(f, d0, a, b, Lands);
    var d1 := Take(f, d0, a);
    assert d1.updates == [Follow(conv, stream)];
    var d2 := Take(f, d1, b);
    assert d2.updates == [Follow(conv, stream)] && d2.updates[1..] == [];
  }

  /**
   * Nor is catch-up safe then: an older run's finished snapshot, heard before the updater of the
   * run being followed has run, ends the following of that run.
   */
  lemma CatchUpBeforeLanding<S, E>(f: Folding<S, E>, conv: string, stream: string, older: string, n: nat, k: nat,
                                   s: S, o: S)
    requires older != stream
    ensures var ts: seq<Turn<S, E>> :=
        [Hears(Sync(conv, stream, n, s, true)), Hears(Sync(conv, older, k, o, false)), Lands, Lands];
      var d := TakeAll(f, Start(), ts);
      && d.updates == [] && d.client.tracked == map[] && d.client.cursors == map[stream := n]
      && Run(f, Fresh(), Heard(ts)).tracked == map[conv := stream]
  {
    var d0: Deferred<S> := Start();
    var a, b: Turn<S, E> := Hears(Sync(conv, stream, n, s, true)), Hears(Sync(conv, older, k, o, false));
    var ts := [a, b, Lands, Lands];
    var d2 := Take(f, Take(f, d0, a), b);
    assert d2.updates == [Follow(conv, stream), Unfollow(conv)];
    var d3 := LandOne(d2);
    assert d2.updates[1..] == [Unfollow(conv)] && d3.updates[1..] == [];
    RunFour(f, d0, a, b, Lands, Lands);
    var c0: Client<S> := Fresh();
    var ms := [a.message, b.message];
    HeardTwo(a.message, b.message);
    var c1 := Step(f, c0, ms[0]);
    RunOn(f, c0, ms[0], [ms[1]]);
    RunOn(f, c1, ms[1], []);
    assert ms == [ms[0]] + [ms[1]] && [ms[1]] + [] == [ms[1]];
  }

  lemma HeardTwo<S, E>(m: Message<S, E>, n: Message<S, E>)
    ensures Heard([Hears(m), Hears(n), Lands, Lands]) == [m, n]
  {
    var lands: seq<Turn<S, E>> := [Lands, Lands];
    HeardCons(Hears(m), [Hears(n)] + lands);
    HeardCons(Hears(n), lands);
    HeardCons<S, E>(Lands, [Lands]);
    HeardCons<S, E>(Lands, []);
    assert [Hears(m)] + ([Hears(n)] + lands) == [Hears(m), Hears(n), Lands, Lands];
    var last: seq<Turn<S, E>> := [Lands];
    assert [Lands] + last == lands && [Lands] + [] == last;
  }

  lemma HeardCons<S, E>(t: Turn<S, E>, rest: seq<Turn<S, E>>)
    ensures Heard([t] + rest) == (if t.Hears? then [t.message] else []) + Heard(rest)
  {
    assert ([t] + rest)[1..] == rest;
  }

  lemma RunThree<S, E>(f: Folding<S, E>, d: Deferred<S>, a: Turn<S, E>, b: Turn<S, E>, c: Turn<S, E>)
    ensures TakeAll(f, d, [a, b, c]) == Take(f, Take(f, Take(f, d, a), b), c)
  {
    RunMore(f, d, a, [b, c]);
    RunMore(f, Take(f, d, a), b, [c]);
    RunMore(f, Take(f, Take(f, d, a), b), c, []);
    assert [a] + [b, c] == [a, b, c] && [b] + [c] == [b, c] && [c] + [] == [c];
  }

  lemma RunFour<S, E>(f: Folding<S, E>, d: Deferred<S>, a: Turn<S, E>, b: Turn<S, E>, c: Turn<S, E>, e: Turn<S, E>)
    ensures TakeAll(f, d, [a, b, c, e]) == Take(f, Take(f, Take(f, Take(f, d, a), b), c), e)
  {
    RunMore(f, d, a, [b, c, e]);
    RunThree(f, Take(f, d, a), b, c, e);
    assert [a] + [b, c, e] == [a, b, c, e];
  }

  lemma RunMore<S, E>(f: Folding<S, E>, d: Deferred<S>, t: Turn<S, E>, rest: seq<Turn<S, E>>)
    ensures TakeAll(f, d, [t] + rest) == TakeAll(f, Take(f, d, t), rest)
  {
    assert ([t] + rest)[1..] == rest;
  }
}
