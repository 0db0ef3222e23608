/**
 * Scrolling back through a thread's history (apps/mobile/hooks/useOlderMessages.ts), with the
 * first page of a thread and the live messages that reach it meanwhile.
 */
module OlderMessages {
  import opened Prelude
  import opened HistoryPages

  // ----- The hook's own state -----

  /**
   * One conversation's scroll-back state. `seen` is the ref the callbacks read, which follows
   * `paging` only when the component renders.
   */
  datatype Scroll = Scroll(paging: Option<HistoryPaging>, seen: Option<HistoryPaging>, inFlight: bool)

  const UNREAD := Scroll(None, None, false)

  function Recorded(s: Scroll, hasMore: bool, before: Option<string>): Scroll {
    s.(paging := Some(PagingFrom(hasMore, before)))
  }

  function Rendered(s: Scroll): Scroll { s.(seen := s.paging) }

  /** The cursor a read of `seen` finds; the empty string is none. */
  function Cursor(p: Option<HistoryPaging>): Option<string> {
    if p.Some? && p.value.before.Some? && p.value.before.value != "" then p.value.before else None
  }

  /** What `loadOlder` asks the server for, if anything. */
  function OlderWanted(s: Scroll): Option<string> {
    if s.inFlight then None else Cursor(s.seen)
  }

  function Asked(s: Scroll): Scroll {
    if OlderWanted(s).None? then s
    else s.(paging := Some(HistoryPaging(OlderWanted(s), true)), inFlight := true)
  }

  function ReadFailed(s: Scroll, before: string): Scroll {
    s.(paging := Some(HistoryPaging(Some(before), false)))
  }

  function Settled(s: Scroll): Scroll { s.(inFlight := false) }

  /** The hook, over every conversation. */
  class Hook {
    var paging: map<string, HistoryPaging>
    var pagingRef: map<string, HistoryPaging>
    var inFlight: set<string>

    constructor ()
      ensures forall c :: Of(c) == UNREAD
    {
      paging, pagingRef, inFlight := map[], map[], {};
    }

    function Of(c: string): Scroll
      reads this
    {
      Scroll(if c in paging then Some(paging[c]) else None,
             if c in pagingRef then Some(pagingRef[c]) else None,
             c in inFlight)
    }

    method Record(c: string, hasMore: bool, before: Option<string>)
      modifies this
      ensures Of(c) == Recorded(old(Of(c)), hasMore, before)
      ensures forall d :: d != c ==> Of(d) == old(Of(d))
    {
      paging := paging[c := PagingFrom(hasMore, before)];
    }

    method Render()
      modifies this
      ensures forall d :: Of(d) == Rendered(old(Of(d)))
    {
      pagingRef := paging;
    }

    /** Starts a read of the next older page; `request` is the cursor sent, if one was. */
    method LoadOlder(c: string) returns (request: Option<string>)
      modifies this
      ensures request == OlderWanted(old(Of(c))) && Of(c) == Asked(old(Of(c)))
      ensures forall d :: d != c ==> Of(d) == old(Of(d))
    {
      var before := if c in pagingRef then pagingRef[c].before else None;
      if before.None? || before.value == "" || c in inFlight {
        return None;
      }
      inFlight := inFlight + {c};
      paging := paging[c := HistoryPaging(before, true)];
      return before;
    }

    method OlderFailed(c: string, before: string)
      modifies this
      ensures Of(c) == ReadFailed(old(Of(c)), before)
      ensures forall d :: d != c ==> Of(d) == old(Of(d))
    {
      paging := paging[c := HistoryPaging(Some(before), false)];
    }

    method OlderSettled(c: string)
      modifies this
      ensures Of(c) == Settled(old(Of(c)))
      ensures forall d :: d != c ==> Of(d) == old(Of(d))
    {
      inFlight := inFlight - {c};
    }

    method HasOlder(c: string) returns (r: bool)
      ensures r <==> Cursor(Of(c).seen).Some?
    {
      r := c in pagingRef && pagingRef[c].before.Some? && pagingRef[c].before.value != "";
    }
  }

  // ----- One conversation, on the server and on screen -----

  /** A stored row. Tool results and cancelled rows are stored but are no message of their own. */
  datatype Row = Row(id: string, lamport: int, shown: bool, text: string)

  datatype NewestPage = NotAsked | Pending | Applied | Empty

  datatype Thread = Thread(
    store: seq<Row>,             // what the server holds, oldest first
    msgs: seq<Message>,          // what is on screen
    fromCache: bool,
    newest: NewestPage,
    newestEnd: nat,              // where the applied newest page ended in the store
    scroll: Scroll,
    requests: seq<string>        // older reads not settled yet
  )

  function ToMessage(r: Row): Message { Message(Some(r.id), Some(r.lamport), r.text) }

  /** `reconstructMessages`, as far as paging sees it: the rows that are messages. */
  function Messages(rows: seq<Row>): seq<Message> {
    if rows == [] then []
    else (if rows[0].shown then [ToMessage(rows[0])] else []) + Messages(rows[1..])
  }

  predicate StoreOk(store: seq<Row>) {
    && (forall i :: 0 <= i < |store| ==> store[i].id != "")
    && (forall i, j :: 0 <= i < j < |store| ==> store[i].id != store[j].id)
  }

  predicate StoredId(store: seq<Row>, id: string) {
    exists i :: 0 <= i < |store| && store[i].id == id
  }

  function IndexOf(store: seq<Row>, id: string): (i: nat)
    requires StoredId(store, id)
    ensures i < |store| && store[i].id == id
  {
    if store[0].id == id then 0
    else
      assert StoredId(store[1..], id) by {
        var i :| 0 <= i < |store| && store[i].id == id;
        assert store[1..][i - 1].id == id;
      }
      1 + IndexOf(store[1..], id)
  }

  /** A page's cursor: its oldest row, when something older is left. */
  function PageCursor(store: seq<Row>, from: nat): Option<string>
    requires from <= |store|
  {
    if 0 < from < |store| then Some(store[from].id) else None
  }

  /** A page a server can answer with: rows up to `end`, at least one of them unless there are none. */
  predicate IsPage(store: seq<Row>, from: nat, end: nat) {
    from <= end <= |store| && (from == 0 || from < end)
  }

  predicate Shows(msgs: seq<Message>, id: string) {
    exists k :: 0 <= k < |msgs| && msgs[k].id == Some(id)
  }

  /** A snapshot's message, placed where `applySnapshotToMsgs` places one the thread lacks. */
  function PlaceSnapshot(msgs: seq<Message>, m: Message, olderUnloaded: bool): seq<Message>
    requires Placed(m) && m.id.Some?
  {
    if Shows(msgs, m.id.value) then Replace(msgs, m)
    else if olderUnloaded && HasPlaced(msgs) && (forall x :: x in msgs && Placed(x) ==> Pos(m) < Pos(x)) then msgs
    else InsertBeforeLater(msgs, m)
  }

  function Replace(msgs: seq<Message>, m: Message): seq<Message> {
    if msgs == [] then []
    else if msgs[0].id == m.id then [m] + msgs[1..]
    else [msgs[0]] + Replace(msgs[1..], m)
  }

  function InsertBeforeLater(msgs: seq<Message>, m: Message): seq<Message> {
    if msgs == [] then [m]
    else if Placed(msgs[0]) && Pos(msgs[0]) > Pos(m) then [m] + msgs
    else [msgs[0]] + InsertBeforeLater(msgs[1..], m)
  }

  /** A bubble given its stored id, in place; every message with the pending id gets it. */
  function Renamed(msgs: seq<Message>, pending: string, id: string): seq<Message> {
    if msgs == [] then []
    else [if msgs[0].id == Some(pending) then msgs[0].(id := Some(id)) else msgs[0]] + Renamed(msgs[1..], pending, id)
  }

  /** A pending id, made by the client and so never a stored one, and the row the server names. */
  predicate Promotable(t: Thread, pending: string, index: nat) {
    pending != "" && !StoredId(t.store, pending) && index < |t.store| && t.store[index].shown
  }

  /** A message that starts, live: one on screen without a position is given it, one not on screen goes last. */
  function StartMessage(msgs: seq<Message>, m: Message): seq<Message>
    requires m.id.Some?
  {
    if Shows(msgs, m.id.value) then Position(msgs, m) else msgs + [m]
  }

  function Position(msgs: seq<Message>, m: Message): seq<Message> {
    if msgs == [] then []
    else if msgs[0].id == m.id then (if Placed(msgs[0]) then msgs else [msgs[0].(lamport := m.lamport)] + msgs[1..])
    else [msgs[0]] + Position(msgs[1..], m)
  }

  datatype Event =
    | Append(row: Row, heard: bool)            // the server stores a row; its `message.start` may reach the thread
    | Heard(index: nat)                        // a `message.start` comes for a row stored already
    | Snapshot(index: nat)                     // a run's snapshot describes a stored row
    | Bubble(message: Message)                 // a send paints its bubble
    | Promote(pending: string, index: nat)     // the bubble is given the id of the row that stores it
    | AskNewest                                // the thread is opened
    | NewestArrives(from: nat, end: nat)
    | NewestFails
    | Render
    | LoadOlder                                // the list reached its oldest message
    | OlderArrives(from: nat)
    | OlderFails
    | OlderSettles

  /** The thread with an older page merged and its cursor recorded. */
  function WithOlder(t: Thread, from: nat, end: nat): Thread
    requires from <= end <= |t.store|
  {
    t.(msgs := PrependOlder(t.msgs, Messages(t.store[from..end])),
       scroll := Recorded(t.scroll, from > 0, PageCursor(t.store, from)))
  }

  function Step(t: Thread, e: Event): Thread {
    match e
    case Append(row, heard) =>
      if row.id == "" || StoredId(t.store, row.id) || Shows(t.msgs, row.id) then t
      else t.(store := t.store + [row], msgs := if heard && row.shown then t.msgs + [ToMessage(row)] else t.msgs)
    case Heard(i) =>
      if i >= |t.store| || !t.store[i].shown then t else t.(msgs := StartMessage(t.msgs, ToMessage(t.store[i])))
    case Snapshot(i) =>
      if i >= |t.store| || !t.store[i].shown then t
      else t.(msgs := PlaceSnapshot(t.msgs, ToMessage(t.store[i]), Cursor(t.scroll.seen).Some?))
    case Bubble(m) =>
      if Placed(m) || m.id.None? || StoredId(t.store, m.id.value) || Shows(t.msgs, m.id.value) then t
      else t.(msgs := t.msgs + [m])
    case Promote(pending, i) =>
      if Promotable(t, pending, i) then t.(msgs := Renamed(t.msgs, pending, t.store[i].id)) else t
    case AskNewest => if t.newest == NotAsked then t.(newest := Pending) else t
    case NewestArrives(from, end) =>
      if t.newest != Pending || !IsPage(t.store, from, end) then t
      else
        var page := Messages(t.store[from..end]);
        if page == [] then t.(newest := Empty)
        else t.(newest := Applied, newestEnd := end, fromCache := false,
                msgs := WithNewestPage(t.msgs, page, t.fromCache),
                scroll := Recorded(t.scroll, from > 0, PageCursor(t.store, from)))
    case NewestFails => if t.newest == Pending then t.(newest := NotAsked) else t
    case Render => t.(scroll := Rendered(t.scroll))
    case LoadOlder =>
      var before := OlderWanted(t.scroll);
      t.(scroll := Asked(t.scroll), requests := if before.Some? then t.requests + [before.value] else t.requests)
    case OlderArrives(from) =>
      if t.requests == [] || !StoredId(t.store, t.requests[0]) then t
      else
        var end := IndexOf(t.store, t.requests[0]);
        if !IsPage(t.store, from, end) then t
        else WithOlder(t, from, end)
    case OlderFails =>
      if t.requests == [] then t else t.(scroll := ReadFailed(t.scroll, t.requests[0]))
    case OlderSettles =>
      if t.requests == [] then t else t.(scroll := Settled(t.scroll), requests := t.requests[1..])
  }

  function Run(t: Thread, events: seq<Event>): Thread
    decreases |events|
  {
    if events == [] then t else Run(Step(t, events[0]), events[1..])
  }

  /** A conversation as the app first knows it: on the server, and perhaps in the offline cache. */
  ghost predicate Start(t: Thread) {
    && StoreOk(t.store) && OnceEach(t.msgs) && (t.msgs == [] || t.fromCache)
    && t.newest == NotAsked && t.scroll == UNREAD && t.requests == []
  }

  // ----- What the cursor promises -----

  ghost predicate OnceEach(msgs: seq<Message>) {
    forall id :: id != "" ==> CountId(msgs, id) <= 1
  }

  /** Every stored message from row `from` to the end of the newest page is on screen. */
  ghost predicate Loaded(t: Thread, from: nat) {
    forall i :: from <= i < t.newestEnd && i < |t.store| && t.store[i].shown ==> CountId(t.msgs, t.store[i].id) >= 1
  }

  /** `c` is a true cursor: a stored row with history before it, and everything from it on loaded. */
  ghost predicate TrueCursor(t: Thread, c: string) {
    t.newest == Applied && StoredId(t.store, c) && Loaded(t, IndexOf(t.store, c))
  }

  ghost predicate CursorsTrue(t: Thread) {
    && (Cursor(t.scroll.paging).Some? ==> TrueCursor(t, Cursor(t.scroll.paging).value))
    && (Cursor(t.scroll.seen).Some? ==> TrueCursor(t, Cursor(t.scroll.seen).value))
    && (forall k :: 0 <= k < |t.requests| ==> t.requests[k] != "" && TrueCursor(t, t.requests[k]))
    && (t.scroll.paging.Some? && Cursor(t.scroll.paging).None? ==> t.newest == Applied && Loaded(t, 0))
  }

  ghost predicate Inv(t: Thread) {
    && StoreOk(t.store) && t.newestEnd <= |t.store|
    && |t.requests| <= 1 && (t.scroll.inFlight <==> |t.requests| == 1)
    && CursorsTrue(t)
  }

  // ----- Counting -----

  lemma {:induction false} CountShows(msgs: seq<Message>, id: string)
    ensures CountId(msgs, id) > 0 <==> Shows(msgs, id)
  {
    if msgs != [] {
      CountShows(msgs[1..], id);
      if Shows(msgs, id) && msgs[0].id != Some(id) {
        var k :| 0 <= k < |msgs| && msgs[k].id == Some(id);
        assert msgs[1..][k - 1].id == Some(id);
      }
      if Shows(msgs[1..], id) {
        var k :| 0 <= k < |msgs[1..]| && msgs[1..][k].id == Some(id);
        assert msgs[k + 1].id == Some(id);
      }
    }
  }

  lemma {:induction false} CountSame(a: seq<Message>, b: seq<Message>, id: string)
    requires multiset(a) == multiset(b)
    ensures CountId(a, id) == CountId(b, id)
  {
    if a == [] {
      assert |multiset(b)| == |b|;
    } else {
      assert a[0] in multiset(b);
      var k :| 0 <= k < |b| && b[k] == a[0];
      CountRemove(b, k, id);
      CountFirst(a);
      CountSame(a[1..], b[..k] + b[k + 1..], id);
    }
  }

  lemma CountRemove(b: seq<Message>, k: nat, id: string)
    requires k < |b|
    ensures CountId(b, id) == CountId(b[..k] + b[k + 1..], id) + if b[k].id == Some(id) then 1 else 0
    ensures multiset(b[..k] + b[k + 1..]) == multiset(b) - multiset{b[k]}
  {
    assert b == b[..k] + ([b[k]] + b[k + 1..]);
    CountIdConcat(b[..k], b[k + 1..], id);
    CountIdConcat(b[..k], [b[k]] + b[k + 1..], id);
    assert ([b[k]] + b[k + 1..])[1..] == b[k + 1..];
  }

  lemma {:induction false} CountIncoming(current: seq<Message>, page: seq<Message>, id: string)
    requires id != ""
    ensures CountId(Incoming(current, page), id) == if Shows(current, id) then 0 else CountId(page, id)
  {
    if page != [] {
      CountIncoming(current, page[1..], id);
      var m := page[0];
      if m.id == Some(id) {
        assert Holds(current, m) <==> Shows(current, id) by {
          if Shows(current, id) {
            var k :| 0 <= k < |current| && current[k].id == Some(id);
            assert current[k] in current;
          }
        }
      }
      var head := if Holds(current, m) then [] else [m];
      CountIdConcat(head, Incoming(current, page[1..]), id);
    }
  }

  /** Merging a page keeps what is shown and adds what is not: per id, the loaded copy wins. */
  lemma MergeCounts(current: seq<Message>, page: seq<Message>, id: string)
    requires id != ""
    ensures CountId(Merged(current, page), id) ==
            if CountId(current, id) > 0 then CountId(current, id) else CountId(page, id)
  {
    MergeConserves(current, page);
    CountSame(Merged(current, page), current + Incoming(current, page), id);
    CountIdConcat(current, Incoming(current, page), id);
    CountIncoming(current, page, id);
    CountShows(current, id);
  }

  lemma {:induction false} CountRows(rows: seq<Row>, id: string)
    requires StoreOk(rows)
    ensures CountId(Messages(rows), id) ==
            if exists i :: 0 <= i < |rows| && rows[i].id == id && rows[i].shown then 1 else 0
  {
    if rows != [] {
      var head := if rows[0].shown then [ToMessage(rows[0])] else [];
      CountRows(rows[1..], id);
      CountIdConcat(head, Messages(rows[1..]), id);
      if i :| 0 <= i < |rows| && rows[i].id == id && rows[i].shown {
        if i > 0 { assert rows[1..][i - 1].id == id; }
      }
      if i :| 0 <= i < |rows[1..]| && rows[1..][i].id == id && rows[1..][i].shown {
        assert rows[i + 1].id == id;
      }
    }
  }

  /** A page shows each of its messages once, and nothing else. */
  lemma CountPage(store: seq<Row>, from: nat, end: nat, id: string)
    requires StoreOk(store) && from <= end <= |store|
    ensures CountId(Messages(store[from..end]), id) <= 1
    ensures forall i :: from <= i < end && store[i].shown && store[i].id == id ==>
        CountId(Messages(store[from..end]), id) == 1
  {
    var rows := store[from..end];
    assert StoreOk(rows);
    CountRows(rows, id);
    forall i | from <= i < end && store[i].shown && store[i].id == id
      ensures CountId(Messages(rows), id) == 1
    {
      assert rows[i - from].id == id && rows[i - from].shown;
    }
  }

  lemma {:induction false} CountReplace(msgs: seq<Message>, m: Message, id: string)
    ensures CountId(Replace(msgs, m), id) == CountId(msgs, id)
  {
    if msgs != [] && msgs[0].id != m.id {
      CountReplace(msgs[1..], m, id);
    }
  }

  lemma {:induction false} CountInsert(msgs: seq<Message>, m: Message, id: string)
    ensures CountId(InsertBeforeLater(msgs, m), id) == CountId(msgs, id) + if m.id == Some(id) then 1 else 0
  {
    if msgs == [] {
      assert [m][1..] == [];
    } else if !(Placed(msgs[0]) && Pos(msgs[0]) > Pos(m)) {
      CountInsert(msgs[1..], m, id);
    }
  }

  lemma CountPlace(msgs: seq<Message>, m: Message, olderUnloaded: bool, id: string)
    requires Placed(m) && m.id.Some?
    ensures CountId(msgs, id) <= CountId(PlaceSnapshot(msgs, m, olderUnloaded), id)
    ensures CountId(PlaceSnapshot(msgs, m, olderUnloaded), id) <= Max(CountId(msgs, id), 1)
  {
    CountReplace(msgs, m, id);
    CountInsert(msgs, m, id);
    CountShows(msgs, id);
  }

  lemma {:induction false} CountPosition(msgs: seq<Message>, m: Message, id: string)
    ensures CountId(Position(msgs, m), id) == CountId(msgs, id)
  {
    if msgs != [] && msgs[0].id != m.id {
      CountPosition(msgs[1..], m, id);
    }
  }

  lemma CountStart(msgs: seq<Message>, m: Message, id: string)
    requires m.id.Some?
    ensures CountId(msgs, id) <= CountId(StartMessage(msgs, m), id) <= Max(CountId(msgs, id), 1)
  {
    CountPosition(msgs, m, id);
    CountPush(msgs, m, id);
    CountShows(msgs, m.id.value);
  }

  /** A promotion counts the bubble under its stored id instead. */
  lemma {:induction false} CountRenamed(msgs: seq<Message>, pending: string, stored: string, id: string)
    requires pending != stored
    ensures CountId(Renamed(msgs, pending, stored), id) ==
      if id == pending then 0 else CountId(msgs, id) + if id == stored then CountId(msgs, pending) else 0
  {
    if msgs != [] { CountRenamed(msgs[1..], pending, stored, id); }
  }

  lemma CountPush(msgs: seq<Message>, m: Message, id: string)
    ensures CountId(msgs + [m], id) == CountId(msgs, id) + if m.id == Some(id) then 1 else 0
  {
    CountIdConcat(msgs, [m], id);
    assert [m][1..] == [];
  }

  // ----- The invariant over every run -----

  /** No stored message shown is lost, and the store only grows. */
  ghost predicate Grows(t: Thread, t': Thread) {
    && t.store <= t'.store && StoreOk(t'.store)
    && t'.newest == t.newest && t'.newestEnd == t.newestEnd && t'.newestEnd <= |t.store|
    && forall i :: 0 <= i < |t.store| ==> CountId(t.msgs, t.store[i].id) <= CountId(t'.msgs, t.store[i].id)
  }

  lemma GrowsKeepsCursor(t: Thread, t': Thread, c: string)
    requires Grows(t, t') && TrueCursor(t, c)
    ensures TrueCursor(t', c)
  {
    var i := IndexOf(t.store, c);
    assert t'.store[i].id == c;
    assert IndexOf(t'.store, c) == i;
    GrowsKeepsLoaded(t, t', i);
  }

  lemma GrowsKeepsLoaded(t: Thread, t': Thread, from: nat)
    requires Grows(t, t') && Loaded(t, from)
    ensures Loaded(t', from)
  {
    forall i | from <= i < t'.newestEnd && i < |t'.store| && t'.store[i].shown
      ensures CountId(t'.msgs, t'.store[i].id) >= 1
    {
      assert t'.store[i] == t.store[i];
    }
  }

  lemma GrowsKeepsInv(t: Thread, t': Thread)
    requires Inv(t) && Grows(t, t') && t'.scroll == t.scroll && t'.requests == t.requests
    ensures Inv(t')
  {
    forall c | TrueCursor(t, c) ensures TrueCursor(t', c) { GrowsKeepsCursor(t, t', c); }
    if Loaded(t, 0) { GrowsKeepsLoaded(t, t', 0); }
  }

  lemma LiveKeepsInv(t: Thread, e: Event)
    requires Inv(t) && (e.Append? || e.Heard? || e.Snapshot? || e.Bubble? || e.Promote?)
    ensures Inv(Step(t, e))
  {
    var t' := Step(t, e);
    forall i | 0 <= i < |t.store| ensures CountId(t.msgs, t.store[i].id) <= CountId(t'.msgs, t.store[i].id) {
      LiveCounts(t, e, t.store[i].id);
    }
    if e.Append? && t' != t {
      AppendOk(t.store, e.row);
    }
    GrowsKeepsInv(t, t');
  }

  /** Live messages take no stored one away, and only a promotion makes one appear twice. */
  lemma LiveCounts(t: Thread, e: Event, id: string)
    requires e.Append? || e.Heard? || e.Snapshot? || e.Bubble? || e.Promote?
    ensures StoredId(t.store, id) ==> CountId(t.msgs, id) <= CountId(Step(t, e).msgs, id)
    ensures !e.Promote? ==> CountId(Step(t, e).msgs, id) <= Max(CountId(t.msgs, id), 1)
  {
    match e
    case Append(row, _) => CountPush(t.msgs, ToMessage(row), id); CountShows(t.msgs, id);
    case Heard(i) =>
      if i < |t.store| { CountStart(t.msgs, ToMessage(t.store[i]), id); }
    case Snapshot(i) =>
      if i < |t.store| { CountPlace(t.msgs, ToMessage(t.store[i]), Cursor(t.scroll.seen).Some?, id); }
    case Bubble(m) => CountPush(t.msgs, m, id); CountShows(t.msgs, id);
    case Promote(pending, i) =>
      if Promotable(t, pending, i) {
        assert StoredId(t.store, t.store[i].id);
        CountRenamed(t.msgs, pending, t.store[i].id, id);
      }
  }

  lemma AppendOk(store: seq<Row>, row: Row)
    requires StoreOk(store) && row.id != "" && !StoredId(store, row.id)
    ensures StoreOk(store + [row])
  {}

  lemma ReadsFollowNewest(t: Thread)
    requires Inv(t)
    ensures t.requests != [] ==> t.newest == Applied
  {
    if t.requests != [] { assert TrueCursor(t, t.requests[0]); }
  }

  lemma NewestKeepsInv(t: Thread, from: nat, end: nat)
    requires Inv(t)
    ensures Inv(Step(t, NewestArrives(from, end)))
  {
    var t' := Step(t, NewestArrives(from, end));
    if t.newest == Pending && IsPage(t.store, from, end) {
      var page := Messages(t.store[from..end]);
      assert t.scroll.paging.None? && Cursor(t.scroll.seen).None?;
      ReadsFollowNewest(t);
      if page != [] {
        forall i | from <= i < end && t.store[i].shown ensures CountId(t'.msgs, t.store[i].id) >= 1 {
          CountPage(t.store, from, end, t.store[i].id);
          MergeCounts(t.msgs, page, t.store[i].id);
        }
        assert Loaded(t', from);
        if from > 0 { assert IndexOf(t'.store, t.store[from].id) == from; }
      }
    }
  }

  /** Merging any page of the store keeps all that was shown. */
  lemma PageGrows(t: Thread, from: nat, end: nat)
    requires Inv(t) && from <= end <= |t.store|
    ensures Grows(t, t.(msgs := PrependOlder(t.msgs, Messages(t.store[from..end]))))
  {
    var page := Messages(t.store[from..end]);
    forall i | 0 <= i < |t.store|
      ensures CountId(t.msgs, t.store[i].id) <= CountId(PrependOlder(t.msgs, page), t.store[i].id)
    {
      MergeCounts(t.msgs, page, t.store[i].id);
    }
  }

  lemma OlderKeepsInv(t: Thread, from: nat)
    requires Inv(t)
    ensures Inv(Step(t, OlderArrives(from)))
  {
    if t.requests != [] && StoredId(t.store, t.requests[0]) && IsPage(t.store, from, IndexOf(t.store, t.requests[0])) {
      var c := t.requests[0];
      assert t.requests == [c] && TrueCursor(t, c);
      WithOlderKeepsInv(t, from, IndexOf(t.store, c));
      OlderArrivesShape(t, from, c);
    }
  }

  lemma WithOlderKeepsInv(t: Thread, from: nat, end: nat)
    requires Inv(t) && t.newest == Applied && from <= end <= |t.store| && (from == 0 || from < end) && Loaded(t, end)
    ensures Inv(WithOlder(t, from, end))
  {
    var merged := t.(msgs := PrependOlder(t.msgs, Messages(t.store[from..end])));
    PageGrows(t, from, end);
    GrowsKeepsInv(t, merged);
    PageLoads(t, from, end);
    RecordedKeepsInv(merged, from);
  }

  lemma RecordedKeepsInv(t: Thread, from: nat)
    requires Inv(t) && t.newest == Applied && from <= |t.store| && Loaded(t, from) && (from == 0 || from < |t.store|)
    ensures Inv(t.(scroll := Recorded(t.scroll, from > 0, PageCursor(t.store, from))))
  {
    var t' := t.(scroll := Recorded(t.scroll, from > 0, PageCursor(t.store, from)));
    forall c | TrueCursor(t, c) ensures TrueCursor(t', c) {}
    if from > 0 {
      assert t.store[from].id == PageCursor(t.store, from).value;
      assert IndexOf(t.store, t.store[from].id) == from;
    }
  }

  /** An older page joins what was loaded after it. */
  lemma PageLoads(t: Thread, from: nat, end: nat)
    requires Inv(t) && from <= end <= |t.store| && Loaded(t, end)
    ensures Loaded(t.(msgs := PrependOlder(t.msgs, Messages(t.store[from..end]))), from)
  {
    var merged := t.(msgs := PrependOlder(t.msgs, Messages(t.store[from..end])));
    forall i | from <= i < t.newestEnd && i < |t.store| && t.store[i].shown
      ensures CountId(merged.msgs, t.store[i].id) >= 1
    {
      CountPage(t.store, from, end, t.store[i].id);
      MergeCounts(t.msgs, Messages(t.store[from..end]), t.store[i].id);
    }
  }

  /** Asking, failing, settling and rendering move no message. */
  lemma ScrollKeepsInv(t: Thread, e: Event)
    requires Inv(t) && (e.Render? || e.LoadOlder? || e.OlderFails? || e.OlderSettles?)
    ensures Inv(Step(t, e))
  {
    var t' := Step(t, e);
    assert t'.msgs == t.msgs && t'.store == t.store;
    forall c | TrueCursor(t, c) ensures TrueCursor(t', c) {}
    assert Loaded(t, 0) ==> Loaded(t', 0);
  }

  lemma AskKeepsInv(t: Thread, e: Event)
    requires Inv(t) && (e.AskNewest? || e.NewestFails?)
    ensures Inv(Step(t, e))
  {
    ReadsFollowNewest(t);
  }

  lemma StepKeepsInv(t: Thread, e: Event)
    requires Inv(t)
    ensures Inv(Step(t, e))
  {
    match e
    case Append(_, _) => LiveKeepsInv(t, e);
    case Heard(_) => LiveKeepsInv(t, e);
    case Snapshot(_) => LiveKeepsInv(t, e);
    case Bubble(_) => LiveKeepsInv(t, e);
    case Promote(_, _) => LiveKeepsInv(t, e);
    case NewestArrives(from, end) => NewestKeepsInv(t, from, end);
    case OlderArrives(from) => OlderKeepsInv(t, from);
    case AskNewest => AskKeepsInv(t, e);
    case NewestFails => AskKeepsInv(t, e);
    case Render => ScrollKeepsInv(t, e);
    case LoadOlder => ScrollKeepsInv(t, e);
    case OlderFails => ScrollKeepsInv(t, e);
    case OlderSettles => ScrollKeepsInv(t, e);
  }

  lemma {:induction false} RunKeepsInv(t: Thread, events: seq<Event>)
    requires Inv(t)
    ensures Inv(Run(t, events))
    decreases |events|
  {
    if events != [] {
      StepKeepsInv(t, events[0]);
      RunKeepsInv(Step(t, events[0]), events[1..]);
    }
  }

  // ----- Nothing twice -----

  /** A bubble still on screen is given an id that is on screen already. */
  predicate Doubles(t: Thread, e: Event) {
    && e.Promote? && Promotable(t, e.pending, e.index)
    && Shows(t.msgs, e.pending) && Shows(t.msgs, t.store[e.index].id)
  }

  /** A step shows a message twice exactly when it gives a bubble an id that is on screen already. */
  lemma OnceExactlyUnlessDoubled(t: Thread, e: Event)
    requires Inv(t) && OnceEach(t.msgs)
    ensures OnceEach(Step(t, e).msgs) <==> !Doubles(t, e)
  {
    if e.Promote? {
      PromotedOnce(t, e);
    } else if e.Append? || e.Heard? || e.Snapshot? || e.Bubble? {
      forall id | id != "" ensures CountId(Step(t, e).msgs, id) <= 1 { LiveCounts(t, e, id); }
    } else if e.NewestArrives? {
      if IsPage(t.store, e.from, e.end) { PageShowsOnce(t, e.from, e.end); }
    } else if e.OlderArrives? {
      if t.requests != [] && StoredId(t.store, t.requests[0]) {
        var end := IndexOf(t.store, t.requests[0]);
        if IsPage(t.store, e.from, end) { PageShowsOnce(t, e.from, end); }
      }
    }
  }

  lemma PageShowsOnce(t: Thread, from: nat, end: nat)
    requires StoreOk(t.store) && OnceEach(t.msgs) && from <= end <= |t.store|
    ensures OnceEach(Messages(t.store[from..end])) && OnceEach(Merged(t.msgs, Messages(t.store[from..end])))
  {
    var page := Messages(t.store[from..end]);
    forall id | id != "" ensures CountId(page, id) <= 1 && CountId(Merged(t.msgs, page), id) <= 1 {
      CountPage(t.store, from, end, id);
      MergeCounts(t.msgs, page, id);
    }
  }

  lemma PromotedOnce(t: Thread, e: Event)
    requires Inv(t) && OnceEach(t.msgs) && e.Promote?
    ensures OnceEach(Step(t, e).msgs) <==> !Doubles(t, e)
  {
    if Promotable(t, e.pending, e.index) {
      var stored, after := t.store[e.index].id, Step(t, e).msgs;
      assert StoredId(t.store, stored);
      CountShows(t.msgs, e.pending);
      CountShows(t.msgs, stored);
      CountRenamed(t.msgs, e.pending, stored, stored);
      forall id | id != "" && id != stored ensures CountId(after, id) <= 1 {
        CountRenamed(t.msgs, e.pending, stored, id);
      }
    }
  }

  /** After every step of a run each message is shown at most once. */
  ghost predicate AlwaysOnce(t: Thread, events: seq<Event>)
    decreases |events|
  {
    OnceEach(t.msgs) && (events == [] || AlwaysOnce(Step(t, events[0]), events[1..]))
  }

  predicate NoneDoubles(t: Thread, events: seq<Event>)
    decreases |events|
  {
    events == [] || (!Doubles(t, events[0]) && NoneDoubles(Step(t, events[0]), events[1..]))
  }

  lemma {:induction false} OnceThroughout(t: Thread, events: seq<Event>)
    requires Inv(t) && OnceEach(t.msgs)
    ensures AlwaysOnce(t, events) <==> NoneDoubles(t, events)
    ensures NoneDoubles(t, events) ==> OnceEach(Run(t, events).msgs)
    decreases |events|
  {
    if events != [] {
      StepKeepsInv(t, events[0]);
      OnceExactlyUnlessDoubled(t, events[0]);
      if !Doubles(t, events[0]) { OnceThroughout(Step(t, events[0]), events[1..]); }
    }
  }

  /**
   * Nothing is ever shown twice, over any run, exactly when no bubble still on screen is given the
   * id of a message that is on screen already.
   */
  lemma NothingTwiceExactlyWhen(start: Thread, events: seq<Event>)
    requires Start(start) && start.newestEnd == 0
    ensures AlwaysOnce(start, events) <==> NoneDoubles(start, events)
  {
    OnceThroughout(start, events);
  }

  /**
   * It happens: a bubble sent while the newest page loads, which arrives with the row that stores
   * it, and then the promotion. The message is there twice.
   */
  lemma PromotionCanDouble(row: Row, pending: string, text: string)
    requires row.shown && row.id != "" && pending != "" && pending != row.id
    ensures var start := Thread([], [], false, NotAsked, 0, UNREAD, []);
      var events := [Bubble(Message(Some(pending), None, text)), AskNewest, Append(row, false),
                     NewestArrives(0, 1), Promote(pending, 0)];
      && Start(start) && Run(start, events).msgs == [ToMessage(row), Message(Some(row.id), None, text)]
      && CountId(Run(start, events).msgs, row.id) == 2
  {
    var bubble := Message(Some(pending), None, text);
    var t0 := Thread([], [], false, NotAsked, 0, UNREAD, []);
    var t3 := Thread([row], [bubble], false, Pending, 0, UNREAD, []);
    var last := [NewestArrives(0, 1), Promote(pending, 0)];
    BubbleThenRow(t0, bubble, row);
    RunThree(t0, Bubble(bubble), AskNewest, Append(row, false), last);
    PageThenPromotion(t3, row, bubble);
    RunTwo(t3, last[0], last[1]);
    assert [Bubble(bubble), AskNewest, Append(row, false)] + last ==
           [Bubble(bubble), AskNewest, Append(row, false), NewestArrives(0, 1), Promote(pending, 0)];
    CountTwo(ToMessage(row), Message(Some(row.id), None, text), row.id);
  }

  lemma CountTwo(a: Message, b: Message, id: string)
    requires a.id == Some(id) && b.id == Some(id)
    ensures CountId([a, b], id) == 2
  {
    CountIdConcat([a], [b], id);
    assert [a] + [b] == [a, b] && [a][1..] == [] && [b][1..] == [];
  }

  lemma RunTwo(t: Thread, a: Event, b: Event)
    ensures Run(t, [a, b]) == Step(Step(t, a), b)
  {
    assert [a, b][1..] == [b] && [b][1..] == [];
    assert Run(t, [a, b]) == Run(Step(t, a), [b]);
    assert Run(Step(t, a), [b]) == Run(Step(Step(t, a), b), []);
  }

  lemma PageThenPromotion(t: Thread, row: Row, bubble: Message)
    requires t == Thread([row], [bubble], false, Pending, 0, UNREAD, [])
    requires row.shown && row.id != "" && !Placed(bubble)
    requires bubble.id.Some? && bubble.id.value != "" && bubble.id.value != row.id
    ensures Step(Step(t, NewestArrives(0, 1)), Promote(bubble.id.value, 0)).msgs ==
            [ToMessage(row), bubble.(id := Some(row.id))]
  {
    PageAroundBubble(row, bubble);
    assert [row][0..1] == [row];
    var shown := [ToMessage(row), bubble];
    assert Step(t, NewestArrives(0, 1)).msgs == shown;
    RenamedLast(ToMessage(row), bubble, row.id);
  }

  lemma RenamedLast(m: Message, bubble: Message, id: string)
    requires bubble.id.Some? && m.id != bubble.id
    ensures Renamed([m, bubble], bubble.id.value, id) == [m, bubble.(id := Some(id))]
  {
    assert [m, bubble][1..] == [bubble] && [bubble][1..] == [];
    assert Renamed([bubble], bubble.id.value, id) == [bubble.(id := Some(id))];
  }

  lemma BubbleThenRow(t: Thread, bubble: Message, row: Row)
    requires t == Thread([], [], false, NotAsked, 0, UNREAD, [])
    requires bubble.id.Some? && !Placed(bubble) && bubble.id != Some(row.id) && row.id != ""
    ensures Step(Step(Step(t, Bubble(bubble)), AskNewest), Append(row, false)) ==
            Thread([row], [bubble], false, Pending, 0, UNREAD, [])
  {
    assert Step(t, Bubble(bubble)).msgs == [bubble];
    assert !Shows([bubble], row.id);
  }

  lemma PageAroundBubble(row: Row, bubble: Message)
    requires row.shown && bubble.id.Some? && !Placed(bubble) && bubble.id != Some(row.id)
    ensures Messages([row]) == [ToMessage(row)]
    ensures Merged([bubble], [ToMessage(row)]) == [ToMessage(row), bubble]
  {
    assert [row][1..] == [] && [ToMessage(row)][1..] == [];
    assert Incoming([bubble], [ToMessage(row)]) == [ToMessage(row)];
  }

  lemma RunThree(t: Thread, a: Event, b: Event, c: Event, rest: seq<Event>)
    ensures Run(t, [a, b, c] + rest) == Run(Step(Step(Step(t, a), b), c), rest)
  {
    assert ([a, b, c] + rest)[1..] == [b, c] + rest;
    assert Run(t, [a, b, c] + rest) == Run(Step(t, a), [b, c] + rest);
    assert ([b, c] + rest)[1..] == [c] + rest;
    assert Run(Step(t, a), [b, c] + rest) == Run(Step(Step(t, a), b), [c] + rest);
    assert ([c] + rest)[1..] == rest;
  }

  /**
   * The cursor tells the truth. Whatever order pages, failures, renders, live messages, snapshots,
   * bubbles and promotions come in: every stored message from the recorded cursor to the end of
   * the newest page is on screen, no recorded cursor means all of it up to there is, and at most
   * one older page is being read at a time. No message is shown twice, as long as no bubble on
   * screen has been given the id of a message on screen already.
   */
  lemma CursorTellsTheTruth(start: Thread, events: seq<Event>)
    requires Start(start) && start.newestEnd == 0
    ensures var t := Run(start, events);
      && (Cursor(t.scroll.paging).Some? ==>
           StoredId(t.store, Cursor(t.scroll.paging).value) &&
           Loaded(t, IndexOf(t.store, Cursor(t.scroll.paging).value)))
      && (t.scroll.paging.Some? && Cursor(t.scroll.paging).None? ==> Loaded(t, 0))
      && (t.scroll.paging.Some? ==> t.newest == Applied)
      && |t.requests| <= 1
      && (NoneDoubles(start, events) ==> OnceEach(t.msgs))
  {
    RunKeepsInv(start, events);
    OnceThroughout(start, events);
  }

  /** One scroll to the top, answered: the read starts, its page arrives, it settles, and the component renders. */
  function ScrollBack(t: Thread, from: nat): Thread {
    Step(Step(Step(Step(t, LoadOlder), OlderArrives(from)), OlderSettles), Render)
  }

  /** Scrolling back makes progress: a page read from an up-to-date cursor moves it to an older row, or ends it. */
  lemma ScrollBackMovesBack(t: Thread, from: nat)
    requires Inv(t) && t.requests == [] && t.scroll.seen == t.scroll.paging && Cursor(t.scroll.paging).Some?
    requires StoredId(t.store, Cursor(t.scroll.paging).value)
    requires IsPage(t.store, from, IndexOf(t.store, Cursor(t.scroll.paging).value))
    ensures var t' := ScrollBack(t, from);
      && Inv(t') && t'.requests == [] && t'.scroll.seen == t'.scroll.paging && t'.store == t.store
      && Loaded(t', from) && (OnceEach(t.msgs) ==> OnceEach(t'.msgs))
      && (from == 0 ==> Cursor(t'.scroll.paging).None?)
      && (from > 0 ==>
           from < IndexOf(t.store, Cursor(t.scroll.paging).value) && Cursor(t'.scroll.paging) == Some(t.store[from].id))
  {
    var c := Cursor(t.scroll.paging).value;
    ScrollBackShape(t, from, c);
    ScrollBackKeepsInv(t, from);
    assert TrueCursor(t, c);
    PageLoads(t, from, IndexOf(t.store, c));
    if OnceEach(t.msgs) { PageShowsOnce(t, from, IndexOf(t.store, c)); }
  }

  lemma ScrollBackKeepsInv(t: Thread, from: nat)
    requires Inv(t)
    ensures Inv(ScrollBack(t, from))
  {
    StepKeepsInv(t, LoadOlder);
    StepKeepsInv(Step(t, LoadOlder), OlderArrives(from));
    StepKeepsInv(Step(Step(t, LoadOlder), OlderArrives(from)), OlderSettles);
    StepKeepsInv(Step(Step(Step(t, LoadOlder), OlderArrives(from)), OlderSettles), Render);
  }

  lemma ScrollBackShape(t: Thread, from: nat, c: string)
    requires !t.scroll.inFlight && t.requests == [] && t.scroll.seen == t.scroll.paging &&
        Cursor(t.scroll.paging) == Some(c)
    requires StoredId(t.store, c) && IsPage(t.store, from, IndexOf(t.store, c))
    ensures var p := Some(PagingFrom(from > 0, PageCursor(t.store, from)));
      ScrollBack(t, from) == WithOlder(t, from, IndexOf(t.store, c)).(scroll := Scroll(p, p, false))
  {
    var asked := t.(scroll := Asked(t.scroll), requests := [c]);
    AskShape(t, c);
    OlderArrivesShape(asked, from, c);
    SettleShape(Step(asked, OlderArrives(from)));
  }

  lemma AskShape(t: Thread, c: string)
    requires !t.scroll.inFlight && t.requests == [] && Cursor(t.scroll.seen) == Some(c) &&
        Cursor(t.scroll.paging) == Some(c)
    ensures Step(t, LoadOlder) == t.(scroll := Asked(t.scroll), requests := [c])
  {}

  lemma SettleShape(t: Thread)
    ensures Step(Step(t, OlderSettles), Render).(scroll := t.scroll, requests := t.requests) == t
  {}

  lemma OlderArrivesShape(t: Thread, from: nat, c: string)
    requires t.requests == [c] && StoredId(t.store, c) && IsPage(t.store, from, IndexOf(t.store, c))
    ensures Step(t, OlderArrives(from)) == WithOlder(t, from, IndexOf(t.store, c))
  {}
}
