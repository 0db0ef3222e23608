/**
 * What is on screen, message by message (apps/mobile/lib/historyPages.ts,
 * apps/mobile/lib/streamMessages.ts): where each one came from, and what one live message does.
 */
module ThreadContents {
  import opened Prelude
  import opened HistoryPages
  import opened OlderMessages

  // ----- Pages -----

  /** The shown rows among the first `n`. */
  function ShownBefore(rows: seq<Row>, n: nat): nat
    requires n <= |rows|
  {
    if n == 0 then 0 else ShownBefore(rows, n - 1) + (if rows[n - 1].shown then 1 else 0)
  }

  lemma {:induction false} ShownTail(rows: seq<Row>, n: nat)
    requires 0 < n <= |rows|
    ensures ShownBefore(rows, n) == (if rows[0].shown then 1 else 0) + ShownBefore(rows[1..], n - 1)
  {
    if n > 1 {
      ShownTail(rows, n - 1);
      assert rows[1..][n - 2] == rows[n - 1];
    } else {
      assert ShownBefore(rows, 0) == 0 && ShownBefore(rows[1..], 0) == 0;
    }
  }

  /** A page is its shown rows in their order, each with its own id, position and text. */
  lemma {:induction false} PageIsItsRows(rows: seq<Row>, i: nat)
    requires i < |rows| && rows[i].shown
    ensures |Messages(rows)| == ShownBefore(rows, |rows|) && ShownBefore(rows, i) < |Messages(rows)|
    ensures Messages(rows)[ShownBefore(rows, i)] == Message(Some(rows[i].id), Some(rows[i].lamport), rows[i].text)
  {
    PageSize(rows);
    ShownTail(rows, |rows|);
    PageSize(rows[1..]);
    if i > 0 {
      ShownTail(rows, i);
      PageIsItsRows(rows[1..], i - 1);
    }
  }

  lemma {:induction false} PageSize(rows: seq<Row>)
    ensures |Messages(rows)| == ShownBefore(rows, |rows|)
  {
    if rows != [] {
      PageSize(rows[1..]);
      ShownTail(rows, |rows|);
    }
  }

  /** The message of a stored row, as stored. */
  ghost predicate FromRow(store: seq<Row>, m: Message) {
    exists i :: 0 <= i < |store| && store[i].shown
                && m == Message(Some(store[i].id), Some(store[i].lamport), store[i].text)
  }

  /** A message that was sent, as sent, or with the id of a stored row and perhaps its position. */
  ghost predicate FromSend(store: seq<Row>, sent: set<Message>, m: Message) {
    exists b :: b in sent && !Placed(b) && m.text == b.text && (m == b || RowIs(store, m))
  }

  ghost predicate RowIs(store: seq<Row>, m: Message) {
    exists i :: 0 <= i < |store| && store[i].shown && m.id == Some(store[i].id)
                && (m.lamport.None? || m.lamport == Some(store[i].lamport))
  }

  ghost predicate Genuine(store: seq<Row>, sent: set<Message>, m: Message) {
    FromRow(store, m) || FromSend(store, sent, m)
  }

  ghost predicate AllGenuine(t: Thread, sent: set<Message>) {
    forall m :: m in t.msgs ==> Genuine(t.store, sent, m)
  }

  /** The messages sent during a run. */
  function Sent(events: seq<Event>): set<Message> {
    set k | 0 <= k < |events| && events[k].Bubble? && !Placed(events[k].message) :: events[k].message
  }

  lemma {:induction false} PageGenuine(store: seq<Row>, from: nat, end: nat, sent: set<Message>)
    requires from <= end <= |store|
    ensures forall m :: m in Messages(store[from..end]) ==> Genuine(store, sent, m)
    decreases end - from
  {
    if from < end {
      assert store[from..end][1..] == store[from + 1..end] && store[from..end][0] == store[from];
      PageGenuine(store, from + 1, end, sent);
      if store[from].shown { assert FromRow(store, ToMessage(store[from])); }
    }
  }

  lemma MergedHas(current: seq<Message>, page: seq<Message>)
    ensures forall m :: m in Merged(current, page) ==> m in current || m in page
  {
    MergeConserves(current, page);
    forall m | m in Merged(current, page) ensures m in current || m in page {
      assert m in multiset(Merged(current, page));
      IncomingHas(current, page, m);
    }
  }

  lemma {:induction false} IncomingHas(current: seq<Message>, page: seq<Message>, m: Message)
    ensures m in Incoming(current, page) ==> m in page
  {
    if page != [] { IncomingHas(current, page[1..], m); }
  }

  lemma GenuineGrows(store: seq<Row>, row: Row, sent: set<Message>, more: set<Message>, m: Message)
    requires Genuine(store, sent, m)
    ensures Genuine(store + [row], sent, m) && Genuine(store, sent + more, m)
  {
    assert forall i :: 0 <= i < |store| ==> (store + [row])[i] == store[i];
  }

  lemma {:induction false} ReplaceHas(msgs: seq<Message>, m: Message)
    ensures forall x :: x in Replace(msgs, m) ==> x in msgs || x == m
  {
    if msgs != [] && msgs[0].id != m.id { ReplaceHas(msgs[1..], m); }
  }

  lemma {:induction false} InsertHas(msgs: seq<Message>, m: Message)
    ensures forall x :: x in InsertBeforeLater(msgs, m) ==> x in msgs || x == m
  {
    if msgs != [] && !(Placed(msgs[0]) && Pos(msgs[0]) > Pos(m)) { InsertHas(msgs[1..], m); }
  }

  lemma {:induction false} PositionHas(msgs: seq<Message>, m: Message)
    ensures forall x :: x in Position(msgs, m) ==>
      x in msgs || exists y :: y in msgs && y.id == m.id && !Placed(y) && x == y.(lamport := m.lamport)
  {
    if msgs != [] && msgs[0].id != m.id { PositionHas(msgs[1..], m); }
  }

  lemma {:induction false} RenamedHas(msgs: seq<Message>, pending: string, id: string)
    ensures forall x :: x in Renamed(msgs, pending, id) ==>
      x in msgs || exists y :: y in msgs && y.id == Some(pending) && x == y.(id := Some(id))
  {
    if msgs != [] { RenamedHas(msgs[1..], pending, id); }
  }

  lemma MergeGenuine(t: Thread, from: nat, end: nat, sent: set<Message>)
    requires AllGenuine(t, sent) && from <= end <= |t.store|
    ensures forall m :: m in Merged(t.msgs, Messages(t.store[from..end])) ==> Genuine(t.store, sent, m)
  {
    PageGenuine(t.store, from, end, sent);
    MergedHas(t.msgs, Messages(t.store[from..end]));
  }

  lemma LiveGenuine(t: Thread, e: Event, sent: set<Message>)
    requires AllGenuine(t, sent) && (e.Append? || e.Heard? || e.Snapshot? || e.Bubble? || e.Promote?)
    ensures AllGenuine(Step(t, e), sent + Sent([e]))
  {
    var t' := Step(t, e);
    forall m | m in t.msgs ensures Genuine(t'.store, sent + Sent([e]), m) {
      if e.Append? { GenuineGrows(t.store, e.row, sent, Sent([e]), m); }
      GenuineGrows(t.store, Row("", 0, false, ""), sent, Sent([e]), m);
      if e.Append? && t'.store != t.store { GenuineGrows(t.store, e.row, sent + Sent([e]), {}, m); }
    }
    match e
    case Append(row, _) =>
      if t' != t && row.shown {
        assert t'.store[|t.store|] == row;
        assert FromRow(t'.store, ToMessage(row));
      }
    case Heard(i) => HeardGenuine(t, i, sent + Sent([e]));
    case Snapshot(i) => SnapshotGenuine(t, i, sent + Sent([e]));
    case Bubble(m) =>
      if !Placed(m) {
        assert [e][0] == e && m in Sent([e]);
        assert FromSend(t'.store, sent + Sent([e]), m);
      }
    case Promote(pending, i) => PromotedGenuine(t, pending, i, sent + Sent([e]));
  }

  lemma HeardGenuine(t: Thread, i: nat, sent: set<Message>)
    requires AllGenuine(t, sent)
    ensures AllGenuine(Step(t, Heard(i)), sent)
  {
    if i < |t.store| && t.store[i].shown {
      var m := ToMessage(t.store[i]);
      assert FromRow(t.store, m);
      PositionHas(t.msgs, m);
      forall x, y | y in t.msgs && y.id == m.id && !Placed(y) && x == y.(lamport := m.lamport)
        ensures Genuine(t.store, sent, x)
      {
        assert RowIs(t.store, x);
        var b :| b in sent && !Placed(b) && y.text == b.text;
        assert FromSend(t.store, sent, x);
      }
    }
  }

  lemma SnapshotGenuine(t: Thread, i: nat, sent: set<Message>)
    requires AllGenuine(t, sent)
    ensures AllGenuine(Step(t, Snapshot(i)), sent)
  {
    if i < |t.store| && t.store[i].shown {
      var m := ToMessage(t.store[i]);
      assert FromRow(t.store, m);
      ReplaceHas(t.msgs, m);
      InsertHas(t.msgs, m);
    }
  }

  lemma PromotedGenuine(t: Thread, pending: string, i: nat, sent: set<Message>)
    requires AllGenuine(t, sent)
    ensures AllGenuine(Step(t, Promote(pending, i)), sent)
  {
    if Promotable(t, pending, i) {
      var id := t.store[i].id;
      RenamedHas(t.msgs, pending, id);
      forall x, y | y in t.msgs && y.id == Some(pending) && x == y.(id := Some(id)) ensures Genuine(t.store, sent, x) {
        assert !FromRow(t.store, y) && !RowIs(t.store, y);
        var b :| b in sent && !Placed(b) && y.text == b.text && y == b;
        assert RowIs(t.store, x);
        assert FromSend(t.store, sent, x);
      }
    }
  }

  lemma StepGenuine(t: Thread, e: Event, sent: set<Message>)
    requires AllGenuine(t, sent)
    ensures AllGenuine(Step(t, e), sent + Sent([e]))
  {
    if e.Append? || e.Heard? || e.Snapshot? || e.Bubble? || e.Promote? {
      LiveGenuine(t, e, sent);
    } else {
      assert Sent([e]) == {} && sent + {} == sent;
      if e.NewestArrives? && IsPage(t.store, e.from, e.end) {
        PageGenuine(t.store, e.from, e.end, sent);
        MergeGenuine(t, e.from, e.end, sent);
      } else if e.OlderArrives? && t.requests != [] && StoredId(t.store, t.requests[0]) {
        var end := IndexOf(t.store, t.requests[0]);
        if IsPage(t.store, e.from, end) { MergeGenuine(t, e.from, end, sent); }
      }
    }
  }

  lemma {:induction false} RunGenuine(t: Thread, events: seq<Event>, sent: set<Message>)
    requires AllGenuine(t, sent)
    ensures AllGenuine(Run(t, events), sent + Sent(events))
    decreases |events|
  {
    if events == [] {
      assert sent + Sent(events) == sent;
    } else {
      StepGenuine(t, events[0], sent);
      RunGenuine(Step(t, events[0]), events[1..], sent + Sent([events[0]]));
      SentSplits(events);
      assert sent + Sent([events[0]]) + Sent(events[1..]) == sent + Sent(events);
    }
  }

  lemma SentSplits(events: seq<Event>)
    requires events != []
    ensures Sent(events) == Sent([events[0]]) + Sent(events[1..])
  {
    forall m | m in Sent(events) ensures m in Sent([events[0]]) + Sent(events[1..]) {
      var k :| 0 <= k < |events| && events[k].Bubble? && !Placed(events[k].message) && events[k].message == m;
      if k == 0 { assert [events[0]][0] == events[0]; } else { assert events[1..][k - 1] == events[k]; }
    }
    forall m | m in Sent([events[0]]) + Sent(events[1..]) ensures m in Sent(events) {
      if m in Sent(events[1..]) {
        var k :| 0 <= k < |events[1..]| && events[1..][k].Bubble? && !Placed(events[1..][k].message) &&
            events[1..][k].message == m;
        assert events[k + 1] == events[1..][k];
      }
    }
  }

  // ----- Threads from the cache -----

  /** A thread is the cache's until the newest page is applied. */
  lemma {:induction false} CacheUntilPage(t: Thread, events: seq<Event>)
    requires t.newest != Applied
    ensures Run(t, events).fromCache == (t.fromCache && Run(t, events).newest != Applied)
    ensures Run(t, events).newest != Applied ==> Run(t, events).fromCache == t.fromCache
    decreases |events|
  {
    if events != [] {
      var next := Step(t, events[0]);
      if next.newest == Applied { AppliedStays(next, events[1..]); } else { CacheUntilPage(next, events[1..]); }
    }
  }

  lemma {:induction false} AppliedStays(t: Thread, events: seq<Event>)
    requires t.newest == Applied && !t.fromCache
    ensures Run(t, events).newest == Applied && !Run(t, events).fromCache
    decreases |events|
  {
    if events != [] { AppliedStays(Step(t, events[0]), events[1..]); }
  }

  /**
   * What the cache painted goes. However a cached thread has been used before the newest page
   * arrives, what is on screen then is that page, and whatever follows, every message on screen is
   * a stored row as stored or was sent after the page.
   */
  lemma CachedThreadBecomesPage(start: Thread, before: seq<Event>, from: nat, end: nat, after: seq<Event>)
    requires Start(start) && start.fromCache
    requires var t := Run(start, before);
      t.newest == Pending && IsPage(t.store, from, end) && Messages(t.store[from..end]) != []
    ensures var t := Run(start, before); var shown := Step(t, NewestArrives(from, end));
      && shown.msgs == Messages(t.store[from..end]) && shown.newest == Applied
      && AllGenuine(Run(shown, after), Sent(after))
  {
    var t := Run(start, before);
    CacheUntilPage(start, before);
    var shown := Step(t, NewestArrives(from, end));
    PageGenuine(t.store, from, end, {});
    RunGenuine(shown, after, {});
    assert {} + Sent(after) == Sent(after);
  }

  lemma {:induction false} PagesArePlaced(rows: seq<Row>)
    ensures forall m :: m in Messages(rows) ==> Placed(m)
  {
    if rows != [] { PagesArePlaced(rows[1..]); }
  }

  /**
   * An unsent bubble stays on screen when a newest page that is not empty arrives, exactly unless
   * the cache painted the thread.
   */
  lemma SentStaysExactlyWhen(t: Thread, from: nat, end: nat, m: Message)
    requires t.newest == Pending && IsPage(t.store, from, end) && Messages(t.store[from..end]) != []
    requires m in t.msgs && !Placed(m)
    ensures m in Step(t, NewestArrives(from, end)).msgs <==> !t.fromCache
  {
    var page := Messages(t.store[from..end]);
    PagesArePlaced(t.store[from..end]);
    MergeConserves(t.msgs, page);
    if !t.fromCache {
      assert m in multiset(t.msgs);
      assert m in multiset(Merged(t.msgs, page));
    }
  }

  /** A thread that starts empty only ever shows stored rows as stored, and what was sent. */
  lemma EmptyThreadIsGenuine(start: Thread, events: seq<Event>)
    requires start.msgs == []
    ensures AllGenuine(Run(start, events), Sent(events))
  {
    RunGenuine(start, events, {});
    assert {} + Sent(events) == Sent(events);
  }

  // ----- One live message -----

  /** The first message with an id. */
  ghost predicate FirstWith(msgs: seq<Message>, id: string, k: nat) {
    k < |msgs| && msgs[k].id == Some(id) && forall j :: 0 <= j < k ==> msgs[j].id != Some(id)
  }

  /** `k` is right before the first message placed after `limit`, or at the end. */
  ghost predicate BeforeLater(msgs: seq<Message>, limit: int, k: nat) {
    && k <= |msgs| && (k < |msgs| ==> Placed(msgs[k]) && Pos(msgs[k]) > limit)
    && forall j :: 0 <= j < k && Placed(msgs[j]) ==> Pos(msgs[j]) <= limit
  }

  lemma {:induction false} ReplacesFirst(msgs: seq<Message>, m: Message, k: nat)
    requires m.id.Some? && FirstWith(msgs, m.id.value, k)
    ensures Replace(msgs, m) == msgs[k := m]
  {
    if k > 0 {
      assert FirstWith(msgs[1..], m.id.value, k - 1);
      ReplacesFirst(msgs[1..], m, k - 1);
    }
  }

  lemma {:induction false} PositionsFirst(msgs: seq<Message>, m: Message, k: nat)
    requires m.id.Some? && FirstWith(msgs, m.id.value, k)
    ensures Position(msgs, m) == if Placed(msgs[k]) then msgs else msgs[k := msgs[k].(lamport := m.lamport)]
  {
    if k > 0 {
      assert FirstWith(msgs[1..], m.id.value, k - 1);
      PositionsFirst(msgs[1..], m, k - 1);
      assert msgs == [msgs[0]] + msgs[1..];
    }
  }

  lemma {:induction false} InsertsBeforeLater(msgs: seq<Message>, m: Message, k: nat)
    requires BeforeLater(msgs, Pos(m), k)
    ensures InsertBeforeLater(msgs, m) == msgs[..k] + [m] + msgs[k..]
  {
    if k > 0 {
      assert BeforeLater(msgs[1..], Pos(m), k - 1);
      InsertsBeforeLater(msgs[1..], m, k - 1);
    } else if msgs != [] {
      assert msgs[..0] + [m] + msgs[0..] == [m] + msgs;
    }
  }

  /**
   * What a snapshot of a stored row does to the thread: the first message with its id becomes the
   * row's; one not shown goes right before the first message placed after it, behind any bubble;
   * unless it is before everything placed while older history is unloaded, when nothing changes.
   */
  lemma SnapshotPlaces(t: Thread, i: nat, k: nat)
    requires i < |t.store| && t.store[i].shown
    ensures var m := ToMessage(t.store[i]); var msgs := Step(t, Snapshot(i)).msgs;
      && (FirstWith(t.msgs, t.store[i].id, k) ==> msgs == t.msgs[k := m])
      && (!Shows(t.msgs, t.store[i].id) && BeforeLater(t.msgs, Pos(m), k) ==>
           msgs == if Cursor(t.scroll.seen).Some? && HasPlaced(t.msgs)
                      && (forall x :: x in t.msgs && Placed(x) ==> Pos(m) < Pos(x))
                   then t.msgs else t.msgs[..k] + [m] + t.msgs[k..])
  {
    var m := ToMessage(t.store[i]);
    if FirstWith(t.msgs, t.store[i].id, k) { ReplacesFirst(t.msgs, m, k); }
    if BeforeLater(t.msgs, Pos(m), k) { InsertsBeforeLater(t.msgs, m, k); }
  }

  /**
   * What a `message.start` does: the first message with its id gets its position if it has none, or
   * the message goes last.
   */
  lemma StartPlaces(t: Thread, i: nat, k: nat)
    requires i < |t.store| && t.store[i].shown
    ensures var m := ToMessage(t.store[i]); var msgs := Step(t, Heard(i)).msgs;
      && (FirstWith(t.msgs, t.store[i].id, k) ==>
           msgs == if Placed(t.msgs[k]) then t.msgs else t.msgs[k := t.msgs[k].(lamport := Some(t.store[i].lamport))])
      && (!Shows(t.msgs, t.store[i].id) ==> msgs == t.msgs + [m])
  {
    if FirstWith(t.msgs, t.store[i].id, k) { PositionsFirst(t.msgs, ToMessage(t.store[i]), k); }
  }

  /** What is sent, and what starts live as it is stored, goes last. */
  lemma NewestGoLast(t: Thread, m: Message, row: Row)
    requires !Placed(m) && m.id.Some? && !StoredId(t.store, m.id.value) && !Shows(t.msgs, m.id.value)
    requires row.id != "" && !StoredId(t.store, row.id) && !Shows(t.msgs, row.id)
    ensures Step(t, Bubble(m)).msgs == t.msgs + [m]
    ensures row.shown ==>
        Step(t, Append(row, true)).msgs == t.msgs + [Message(Some(row.id), Some(row.lamport), row.text)]
    ensures Step(t, Append(row, false)).msgs == t.msgs && Step(t, Append(row, true)).store == t.store + [row]
  {}

  /** The newest page is asked for once, unless asking failed: then opening the thread asks again. */
  lemma OpeningAsksOnce(t: Thread)
    requires t.newest == NotAsked
    ensures var asked := Step(t, AskNewest);
      && asked.newest == Pending && Step(asked, AskNewest) == asked
      && Step(asked, NewestFails) == t && Step(Step(asked, NewestFails), AskNewest) == asked
  {}

  /** What the newest page does: an empty one leaves the thread as it is, and an empty thread becomes the page. */
  lemma NewestPageOrNothing(t: Thread, from: nat, end: nat)
    requires t.newest == Pending && IsPage(t.store, from, end)
    ensures var shown := Step(t, NewestArrives(from, end));
      && (Messages(t.store[from..end]) == [] ==> shown == t.(newest := Empty))
      && (t.msgs == [] ==> shown.msgs == Messages(t.store[from..end]))
  {}

  /** What a promotion does: the bubble gets the row's id and keeps its place and its text. */
  lemma {:induction false} PromotionRenames(msgs: seq<Message>, pending: string, id: string, k: nat)
    requires k < |msgs|
    ensures |Renamed(msgs, pending, id)| == |msgs|
    ensures Renamed(msgs, pending, id)[k] == if msgs[k].id == Some(pending) then msgs[k].(id := Some(id)) else msgs[k]
  {
    RenamedSize(msgs, pending, id);
    if k > 0 { PromotionRenames(msgs[1..], pending, id, k - 1); }
  }

  lemma {:induction false} RenamedSize(msgs: seq<Message>, pending: string, id: string)
    ensures |Renamed(msgs, pending, id)| == |msgs|
  {
    if msgs != [] { RenamedSize(msgs[1..], pending, id); }
  }

  // ----- The spinner -----

  predicate Loading(t: Thread) { t.scroll.paging.Some? && t.scroll.paging.value.loading }

  /** A read of an older page starts, and is answered or fails, or the newest page is applied. */
  predicate StartsRead(t: Thread, e: Event) { e.LoadOlder? && OlderWanted(t.scroll).Some? }

  predicate EndsRead(t: Thread, e: Event) {
    || (e.OlderFails? && t.requests != [])
    || (e.OlderArrives? && t.requests != [] && StoredId(t.store, t.requests[0])
        && IsPage(t.store, e.from, IndexOf(t.store, t.requests[0])))
    || (e.NewestArrives? && t.newest == Pending && IsPage(t.store, e.from, e.end)
        && Messages(t.store[e.from..e.end]) != [])
  }

  lemma LoadingStep(t: Thread, e: Event)
    ensures Loading(Step(t, e)) <==> StartsRead(t, e) || (Loading(t) && !EndsRead(t, e))
  {}

  lemma {:induction false} RunLast(t: Thread, events: seq<Event>)
    requires events != []
    ensures Run(t, events) == Step(Run(t, events[..|events| - 1]), events[|events| - 1])
    decreases |events|
  {
    var n := |events| - 1;
    if n > 0 {
      RunLast(Step(t, events[0]), events[1..]);
      assert events[1..][..n - 1] == events[..n][1..] && events[..n][0] == events[0];
    } else {
      assert events[1..] == [] && events[..0] == [];
    }
  }

  ghost predicate ReadGoesOn(start: Thread, events: seq<Event>, n: nat) {
    Since(n, (i: nat) => i < |events| && StartsRead(Run(start, events[..i]), events[i]),
          (j: nat) => j < |events| && EndsRead(Run(start, events[..j]), events[j]))
  }

  lemma {:induction false} LoadingUpTo(start: Thread, events: seq<Event>, n: nat)
    requires n <= |events| && !Loading(start)
    ensures Loading(Run(start, events[..n])) <==> ReadGoesOn(start, events, n)
  {
    if n == 0 {
      assert events[..0] == [];
    } else {
      LoadingUpTo(start, events, n - 1);
      RunLast(start, events[..n]);
      assert events[..n][..n - 1] == events[..n - 1];
      LoadingStep(Run(start, events[..n - 1]), events[n - 1]);
      SinceStep(n - 1, (i: nat) => i < |events| && StartsRead(Run(start, events[..i]), events[i]),
                (j: nat) => j < |events| && EndsRead(Run(start, events[..j]), events[j]));
    }
  }

  /** The thread says it is loading exactly while a read of an older page has neither been answered nor failed. */
  lemma LoadingExactlyWhen(start: Thread, events: seq<Event>)
    requires Start(start)
    ensures Loading(Run(start, events)) <==> ReadGoesOn(start, events, |events|)
  {
    LoadingUpTo(start, events, |events|);
    assert events[..|events|] == events;
  }

  /**
   * A read that failed can be asked for again, from the same cursor, once it has settled and the
   * component has rendered.
   */
  lemma FailedReadCanRetry(t: Thread)
    requires Inv(t) && OlderWanted(t.scroll).Some?
    ensures var failed := Step(Step(Step(Step(t, LoadOlder), OlderFails), OlderSettles), Render);
      OlderWanted(failed.scroll) == OlderWanted(t.scroll) && failed.msgs == t.msgs
  {}
}
