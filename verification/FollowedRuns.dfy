/**
 * Which run each conversation follows, what has been removed and what is asked for, said of the
 * messages alone (apps/mobile/hooks/useChatSession.ts).
 */
module FollowedRuns {
  import opened Prelude
  import opened ResumableStreams
  import opened DeferredTracking

  lemma RunLast<S, E>(f: Folding<S, E>, ms: seq<Message<S, E>>, n: nat)
    requires n < |ms|
    ensures Run(f, Fresh(), ms[..n + 1]) == Step(f, Run(f, Fresh(), ms[..n]), ms[n])
  {
    var c0: Client<S> := Fresh();
    assert ms[..n + 1] == ms[..n] + [ms[n]];
    RunConcat(f, c0, ms[..n], [ms[n]]);
    assert [ms[n]][1..] == [];
  }

  // ----- Removed runs -----

  /** Some message before the `n`th removed the stream. */
  predicate RemovedBy<S, E>(ms: seq<Message<S, E>>, stream: string, n: nat)
    requires n <= |ms|
  {
    exists j :: 0 <= j < n && Removes(ms[j], stream)
  }

  lemma {:induction false} RewoundIsRemoved<S, E>(f: Folding<S, E>, ms: seq<Message<S, E>>, stream: string, n: nat)
    requires n <= |ms|
    ensures stream in Run(f, Fresh(), ms[..n]).rewound <==> RemovedBy(ms, stream, n)
  {
    if n == 0 {
      assert ms[..0] == [];
    } else {
      RewoundIsRemoved(f, ms, stream, n - 1);
      RunLast(f, ms, n - 1);
    }
  }

  /** A run that was removed stays gone, however late its own messages come: no cursor and no message of it is left. */
  lemma {:induction false} RemovedRunsAreGone<S, E>(f: Folding<S, E>, ms: seq<Message<S, E>>, stream: string, n: nat)
    requires n <= |ms| && RemovedBy(ms, stream, n)
    ensures var c := Run(f, Fresh(), ms[..n]); stream !in c.cursors && stream !in c.views
  {
    if RemovedBy(ms, stream, n - 1) {
      RemovedRunsAreGone(f, ms, stream, n - 1);
      RewoundIsRemoved(f, ms, stream, n - 1);
    }
    RunLast(f, ms, n - 1);
  }

  // ----- Followed runs -----

  /** Message `i` makes a conversation follow a stream: an active snapshot of it, not removed by then. */
  predicate Follows<S, E>(ms: seq<Message<S, E>>, conv: string, stream: string, i: nat)
    requires i < |ms|
  {
    ms[i].Sync? && ms[i].active && ms[i].conv == conv && ms[i].stream == stream && !RemovedBy(ms, stream, i)
  }

  /**
   * Message `j` ends it: the same of another stream, the conversation's end, a finished snapshot
   * of the stream, which is heard while it is not removed, or a rewind of the conversation that
   * removes the stream.
   */
  predicate LetsGo<S, E>(ms: seq<Message<S, E>>, conv: string, stream: string, j: nat)
    requires j < |ms|
  {
    match ms[j]
    case Sync(c, s, _, _, active) =>
      c == conv && !RemovedBy(ms, s, j) && (if active then s != stream else s == stream)
    case Event(_, _, _, _, _, _) => false
    case End(c) => c == conv
    case Rewound(c, removed) => c == conv && stream in removed
  }

  ghost predicate SaysFollowed<S, E>(ms: seq<Message<S, E>>, conv: string, stream: string, n: nat) {
    Since(n, (i: nat) => i < |ms| && Follows(ms, conv, stream, i), (j: nat) => j < |ms| && LetsGo(ms, conv, stream, j))
  }

  lemma {:induction false} FollowedUpTo<S, E>(f: Folding<S, E>, ms: seq<Message<S, E>>, conv: string, stream: string,
                                              n: nat)
    requires n <= |ms|
    ensures At(Run(f, Fresh(), ms[..n]).tracked, conv) == Some(stream) <==> SaysFollowed(ms, conv, stream, n)
  {
    if n == 0 {
      assert ms[..0] == [];
    } else {
      FollowedUpTo(f, ms, conv, stream, n - 1);
      RunLast(f, ms, n - 1);
      RewoundIsRemoved(f, ms, stream, n - 1);
      if ms[n - 1].Sync? { RewoundIsRemoved(f, ms, ms[n - 1].stream, n - 1); }
      SinceStep(n - 1, (i: nat) => i < |ms| && Follows(ms, conv, stream, i),
                (j: nat) => j < |ms| && LetsGo(ms, conv, stream, j));
      FollowedStep(f, Run(f, Fresh(), ms[..n - 1]), ms, conv, stream, n - 1);
    }
  }

  lemma FollowedStep<S, E>(f: Folding<S, E>, c: Client<S>, ms: seq<Message<S, E>>, conv: string, stream: string, n: nat)
    requires n < |ms| && (stream in c.rewound <==> RemovedBy(ms, stream, n))
    requires ms[n].Sync? ==> (ms[n].stream in c.rewound <==> RemovedBy(ms, ms[n].stream, n))
    ensures At(Step(f, c, ms[n]).tracked, conv) == Some(stream) <==>
            Follows(ms, conv, stream, n) || (At(c.tracked, conv) == Some(stream) && !LetsGo(ms, conv, stream, n))
  {
    match ms[n]
    case Sync(_, _, _, _, _) =>
    case Event(_, _, _, _, _, _) =>
    case End(_) =>
    case Rewound(_, _) =>
  }

  /**
   * After any messages a conversation follows a stream exactly when an active snapshot of the
   * stream, not removed by then, came for it, and nothing since has let it go.
   */
  lemma FollowedExactlyWhen<S, E>(f: Folding<S, E>, ms: seq<Message<S, E>>, conv: string, stream: string)
    ensures At(Run(f, Fresh(), ms).tracked, conv) == Some(stream) <==> SaysFollowed(ms, conv, stream, |ms|)
  {
    FollowedUpTo(f, ms, conv, stream, |ms|);
    assert ms[..|ms|] == ms;
  }

  /** The same of the ref once the updaters have run, however late, when no message misread it. */
  lemma SettledExactlyWhen<S, E>(f: Folding<S, E>, ts: seq<Turn<S, E>>, conv: string, stream: string)
    requires NeverMisreads(f, Start(), ts)
    ensures At(Settled(TakeAll(f, Start(), ts)), conv) == Some(stream) <==>
            SaysFollowed(Heard(ts), conv, stream, |Heard(ts)|)
  {
    AgreesThroughout(f, Start(), Fresh(), ts);
    FollowedExactlyWhen(f, Heard(ts), conv, stream);
  }

  // ----- Requests -----

  /** Message `j` is an event out of order that finds a socket, and the request asks from the cursor at that moment. */
  ghost predicate AsksFor<S, E>(f: Folding<S, E>, ms: seq<Message<S, E>>, j: nat, r: Request)
    requires j < |ms|
  {
    var c := Run(f, Fresh(), ms[..j]);
    && ms[j].Event? && ms[j].socket && ms[j].stream == r.stream && ms[j].now == r.at
    && r.stream !in c.rewound && r.stream in c.cursors && c.cursors[r.stream] == r.cursor && ms[j].seqNo != r.cursor + 1
  }

  ghost predicate Caused<S, E>(f: Folding<S, E>, ms: seq<Message<S, E>>, n: nat, r: Request) {
    exists j :: 0 <= j < n && j < |ms| && AsksFor(f, ms, j, r)
  }

  /** Nothing is asked for without a gap: every request was made by an event out of order, from the cursor then. */
  lemma {:induction false} RequestsAreForGaps<S, E>(f: Folding<S, E>, ms: seq<Message<S, E>>, n: nat, i: nat)
    requires n <= |ms| && i < |Run(f, Fresh(), ms[..n]).requests|
    ensures Caused(f, ms, n, Run(f, Fresh(), ms[..n]).requests[i])
  {
    assert ms[..0] == [];
    if n > 0 {
      RunLast(f, ms, n - 1);
      var c := Run(f, Fresh(), ms[..n - 1]);
      var r := Run(f, Fresh(), ms[..n]).requests[i];
      if i < |c.requests| {
        RequestsAreForGaps(f, ms, n - 1, i);
        var j :| 0 <= j < n - 1 && j < |ms| && AsksFor(f, ms, j, r);
        assert j < n;
      } else {
        assert AsksFor(f, ms, n - 1, r);
      }
    }
  }
}
