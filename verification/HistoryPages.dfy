/**
 * History merged into a loaded thread (apps/mobile/lib/historyPages.ts): stored pages, live
 * messages and unsent bubbles brought into one order by `lamport`.
 */
module HistoryPages {
  import opened Prelude

  /** A message. An unsent bubble has no position; an older server gives no positions at all. */
  datatype Message = Message(id: Option<string>, lamport: Option<int>, text: string)

  /** `before` is where to read on from, further back; none at the start of history. */
  datatype HistoryPaging = HistoryPaging(before: Option<string>, loading: bool)

  predicate Placed(m: Message) { m.lamport.Some? }

  predicate AllPlaced(s: seq<Message>) { forall k :: 0 <= k < |s| ==> Placed(s[k]) }

  /** A placed message's position. */
  function Pos(m: Message): int { if Placed(m) then m.lamport.value else 0 }

  predicate HasPlaced(s: seq<Message>) { exists k :: 0 <= k < |s| && Placed(s[k]) }

  /** An id the merge can compare by; the empty string is no id. */
  predicate HasId(m: Message) { m.id.Some? && m.id.value != "" }

  predicate Holds(s: seq<Message>, m: Message) {
    HasId(m) && exists x :: x in s && HasId(x) && x.id == m.id
  }

  /** The page's messages that are not already loaded. */
  function Incoming(current: seq<Message>, history: seq<Message>): seq<Message> {
    if history == [] then []
    else (if Holds(current, history[0]) then [] else [history[0]]) + Incoming(current, history[1..])
  }

  // ----- Sorting -----

  predicate Ascending(s: seq<Message>) {
    AllPlaced(s) && forall i, j :: 0 <= i < j < |s| ==> Pos(s[i]) <= Pos(s[j])
  }

  function Insert(m: Message, s: seq<Message>): seq<Message>
    requires Placed(m) && AllPlaced(s)
  {
    if s == [] || Pos(m) <= Pos(s[0]) then [m] + s else [s[0]] + Insert(m, s[1..])
  }

  /** The page in position order; equal positions stay as they came. */
  function SortByLamport(s: seq<Message>): (r: seq<Message>)
    requires AllPlaced(s)
    ensures Ascending(r) && multiset(r) == multiset(s)
  {
    if s == [] then []
    else
      var rest := SortByLamport(s[1..]);
      InsertSorts(s[0], rest);
      InsertAdds(s[0], rest);
      CountFirst(s);
      Insert(s[0], rest)
  }

  lemma CountFirst(s: seq<Message>)
    requires s != []
    ensures multiset(s) == multiset{s[0]} + multiset(s[1..])
  {
    assert s == [s[0]] + s[1..];
  }

  lemma {:induction false} InsertAdds(m: Message, s: seq<Message>)
    requires Placed(m) && AllPlaced(s)
    ensures multiset(Insert(m, s)) == multiset{m} + multiset(s) && AllPlaced(Insert(m, s))
  {
    if !(s == [] || Pos(m) <= Pos(s[0])) {
      InsertAdds(m, s[1..]);
      CountFirst(s);
    }
  }

  predicate AllFrom(s: seq<Message>, floor: int) { forall k :: 0 <= k < |s| ==> Pos(s[k]) >= floor }

  lemma {:induction false} InsertSorts(m: Message, s: seq<Message>)
    requires Placed(m) && Ascending(s)
    ensures Ascending(Insert(m, s))
    ensures forall floor :: AllFrom(s, floor) && Pos(m) >= floor ==> AllFrom(Insert(m, s), floor)
  {
    if !(s == [] || Pos(m) <= Pos(s[0])) {
      InsertSorts(m, s[1..]);
      assert AllFrom(s[1..], Pos(s[0]));
      assert AllFrom(Insert(m, s[1..]), Pos(s[0]));
    }
  }

  /** The messages at position `v`, in order. */
  function At(s: seq<Message>, v: int): seq<Message> {
    if s == [] then [] else (if s[0].lamport == Some(v) then [s[0]] else []) + At(s[1..], v)
  }

  /** Stability: messages at one position keep the order they arrived in. */
  lemma {:induction false} SortIsStable(s: seq<Message>, v: int)
    requires AllPlaced(s)
    ensures At(SortByLamport(s), v) == At(s, v)
  {
    if s != [] {
      SortIsStable(s[1..], v);
      InsertIsStable(s[0], SortByLamport(s[1..]), v);
    }
  }

  /** The first message counts, or not, and then the rest. */
  lemma AtCons(m: Message, rest: seq<Message>, v: int)
    ensures At([m] + rest, v) == (if m.lamport == Some(v) then [m] else []) + At(rest, v)
  {
    assert ([m] + rest)[1..] == rest;
  }

  lemma {:induction false} InsertIsStable(m: Message, s: seq<Message>, v: int)
    requires Placed(m) && Ascending(s)
    ensures At(Insert(m, s), v) == (if m.lamport == Some(v) then [m] else []) + At(s, v)
  {
    if s == [] || Pos(m) <= Pos(s[0]) {
      AtCons(m, s, v);
    } else {
      var first, rest := s[0], s[1..];
      InsertIsStable(m, rest, v);
      AtCons(first, Insert(m, rest), v);
      AtCons(first, rest, v);
      assert s == [first] + rest;
      assert m.lamport == Some(v) ==> first.lamport != Some(v);
    }
  }

  lemma {:induction false} SortOfAscending(s: seq<Message>)
    requires Ascending(s)
    ensures SortByLamport(s) == s
  {
    if s != [] {
      SortOfAscending(s[1..]);
    }
  }

  // ----- The merge -----

  /** The prefix `flushUpTo(limit)` emits. */
  function Upto(s: seq<Message>, limit: int): (r: seq<Message>)
    requires AllPlaced(s)
    ensures r <= s
  {
    if s == [] || Pos(s[0]) > limit then [] else [s[0]] + Upto(s[1..], limit)
  }

  function Above(s: seq<Message>, limit: int): seq<Message>
    requires AllPlaced(s)
  {
    s[|Upto(s, limit)|..]
  }

  /**
   * The walk over the loaded messages: before each placed one, what sorts before it; after the last
   * placed one, the rest.
   */
  function Walk(current: seq<Message>, s: seq<Message>): seq<Message>
    requires AllPlaced(s)
    decreases |current|
  {
    if !HasPlaced(current) then s + current
    else if Placed(current[0]) then
      var limit := Pos(current[0]);
      Upto(s, limit) + [current[0]] + Walk(current[1..], Above(s, limit))
    else [current[0]] + Walk(current[1..], s)
  }

  function FirstPlaced(s: seq<Message>): int
    requires HasPlaced(s)
  {
    if Placed(s[0]) then Pos(s[0]) else FirstPlaced(s[1..])
  }

  /** The thread the merge makes. */
  function Merged(current: seq<Message>, history: seq<Message>): seq<Message> {
    MergedNew(current, Incoming(current, history))
  }

  function MergedNew(current: seq<Message>, incoming: seq<Message>): seq<Message> {
    if incoming == [] then current
    else if !HasPlaced(current) || !AllPlaced(incoming) then incoming + current
    else
      var s, limit := SortByLamport(incoming), FirstPlaced(current);
      Upto(s, limit) + Walk(current, Above(s, limit))
  }

  method MergeHistory(current: seq<Message>, history: seq<Message>) returns (out: seq<Message>)
    ensures out == Merged(current, history)
  {
    var incoming := Incoming(current, history);
    if |incoming| == 0 {
      return current;
    }
    var lastPlaced := |current| - 1;
    while lastPlaced >= 0 && !Placed(current[lastPlaced])
      invariant -1 <= lastPlaced < |current|
      invariant forall k :: lastPlaced < k < |current| ==> !Placed(current[k])
    {
      lastPlaced := lastPlaced - 1;
    }
    if lastPlaced < 0 || !AllPlaced(incoming) {
      return incoming + current;
    }
    out := MergeSorted(current, SortByLamport(incoming), lastPlaced);
  }

  /** Neither side is empty: the part of the page before the first placed message, then the pass over the thread. */
  method MergeSorted(current: seq<Message>, sorted: seq<Message>, lastPlaced: nat) returns (out: seq<Message>)
    requires lastPlaced < |current| && Placed(current[lastPlaced]) && AllPlaced(sorted)
    requires forall k :: lastPlaced < k < |current| ==> !Placed(current[k])
    ensures HasPlaced(current)
    ensures out == Upto(sorted, FirstPlaced(current)) + Walk(current, Above(sorted, FirstPlaced(current)))
  {
    var older, next := FlushUpTo(sorted, 0, FirstPlaced(current));
    UptoFromIs(sorted, 0, FirstPlaced(current));
    assert sorted[0..] == sorted;
    var walked := WalkLoaded(current, sorted[next..], lastPlaced);
    out := older + walked;
  }

  /** What the pass still has to emit at the loaded message `i`: after the last placed one, only what is loaded. */
  function Remaining(current: seq<Message>, lastPlaced: nat, i: nat, s: seq<Message>): seq<Message>
    requires i <= |current| && AllPlaced(s)
  {
    if i <= lastPlaced then Walk(current[i..], s) else current[i..]
  }

  /** The pass over the loaded messages (`current.forEach`), with what is left of the page in order. */
  method WalkLoaded(current: seq<Message>, sorted: seq<Message>, lastPlaced: nat) returns (out: seq<Message>)
    requires lastPlaced < |current| && Placed(current[lastPlaced]) && AllPlaced(sorted)
    requires forall k :: lastPlaced < k < |current| ==> !Placed(current[k])
    ensures out == Walk(current, sorted)
  {
    out := [];
    var next: nat, i := 0, 0;
    ghost var goal := Remaining(current, lastPlaced, 0, sorted[0..]);
    ghost var left := goal;
    while i < |current|
      invariant 0 <= i <= |current| && next <= |sorted|
      invariant goal == out + left
      invariant left == Remaining(current, lastPlaced, i, sorted[next..])
    {
      var emitted: seq<Message>;
      emitted, next := EmitOne(current, sorted, lastPlaced, i, next);
      i := i + 1;
      ghost var later := Remaining(current, lastPlaced, i, sorted[next..]);
      Regroup(out, emitted, later);
      out, left := out + emitted, later;
    }
    PassEnds(current, lastPlaced, sorted, sorted[next..], out);
  }

  lemma PassEnds(current: seq<Message>, lastPlaced: nat, sorted: seq<Message>, s: seq<Message>, out: seq<Message>)
    requires lastPlaced < |current| && AllPlaced(sorted) && AllPlaced(s)
    requires Remaining(current, lastPlaced, 0, sorted[0..]) == out + Remaining(current, lastPlaced, |current|, s)
    ensures out == Walk(current, sorted)
  {
    assert current[0..] == current && sorted[0..] == sorted && current[|current|..] == [];
    assert out + [] == out;
  }

  /** One turn of the pass: what sorts before the message, the message, and after the last placed one the rest. */
  method EmitOne(current: seq<Message>, sorted: seq<Message>, lastPlaced: nat, i: nat, from: nat)
    returns (emitted: seq<Message>, next: nat)
    requires i < |current| && lastPlaced < |current| && Placed(current[lastPlaced])
    requires from <= |sorted| && AllPlaced(sorted)
    requires forall k :: lastPlaced < k < |current| ==> !Placed(current[k])
    ensures next <= |sorted|
    ensures Remaining(current, lastPlaced, i, sorted[from..]) ==
        emitted + Remaining(current, lastPlaced, i + 1, sorted[next..])
  {
    emitted, next := [], from;
    if Placed(current[i]) {
      emitted, next := FlushUpTo(sorted, from, Pos(current[i]));
      UptoFromIs(sorted, from, Pos(current[i]));
    }
    ghost var s, flushed, after := sorted[from..], emitted, sorted[next..];
    assert after == s[|flushed|..];
    RemainingOne(current, lastPlaced, i, s, flushed, after);
    emitted := emitted + [current[i]];
    if i == lastPlaced {
      emitted := emitted + sorted[next..];
      next := |sorted|;
      assert sorted[next..] == [];
    }
  }

  /** That turn, said of what remains: `before` is flushed and `after` is left. */
  lemma RemainingOne(current: seq<Message>, lastPlaced: nat, i: nat, s: seq<Message>, before: seq<Message>,
                     after: seq<Message>)
    requires i < |current| && lastPlaced < |current| && Placed(current[lastPlaced]) && AllPlaced(s)
    requires forall k :: lastPlaced < k < |current| ==> !Placed(current[k])
    requires before == (if Placed(current[i]) then Upto(s, Pos(current[i])) else []) && after == s[|before|..]
    ensures Remaining(current, lastPlaced, i, s) ==
            if i == lastPlaced then (before + [current[i]] + after) + Remaining(current, lastPlaced, i + 1, [])
            else (before + [current[i]]) + Remaining(current, lastPlaced, i + 1, after)
  {
    var m, rest := current[i], current[i + 1..];
    assert current[i..] == [m] + rest;
    if i <= lastPlaced {
      if i < lastPlaced {
        assert Placed(rest[lastPlaced - (i + 1)]);
      } else {
        assert !HasPlaced(rest);
      }
      WalkOver(m, rest, s, before, after);
    }
  }

  /**
   * A walk over `m` and `rest`, the cut of `s` at `m` named: when a placed message is still to
   * come, and when none is.
   */
  lemma WalkOver(m: Message, rest: seq<Message>, s: seq<Message>, before: seq<Message>, after: seq<Message>)
    requires AllPlaced(s) && (Placed(m) || HasPlaced(rest))
    requires before == (if Placed(m) then Upto(s, Pos(m)) else []) && after == s[|before|..]
    ensures Walk([m] + rest, s) == (before + [m]) + Walk(rest, after)
    ensures !HasPlaced(rest) ==> Walk([m] + rest, s) == (before + [m] + after) + rest
  {
    var current := [m] + rest;
    assert current[0] == m && current[1..] == rest;
    if Placed(m) {
      WalkHead(current, s);
    } else {
      assert forall k :: 0 <= k < |rest| ==> current[k + 1] == rest[k];
      WalkBubble(current, s);
      assert after == s && before + [m] == [m];
    }
    if !HasPlaced(rest) { Regroup(before + [m], after, rest); }
  }

  /** What is emitted from `next` on, by index. */
  function UptoFrom(sorted: seq<Message>, next: nat, limit: int): (r: seq<Message>)
    requires AllPlaced(sorted) && next <= |sorted|
    ensures next + |r| <= |sorted|
    decreases |sorted| - next
  {
    if next == |sorted| || Pos(sorted[next]) > limit then [] else [sorted[next]] + UptoFrom(sorted, next + 1, limit)
  }

  lemma {:induction false} UptoFromIs(sorted: seq<Message>, next: nat, limit: int)
    requires AllPlaced(sorted) && next <= |sorted|
    ensures UptoFrom(sorted, next, limit) == Upto(sorted[next..], limit)
    decreases |sorted| - next
  {
    if next < |sorted| {
      assert sorted[next..][1..] == sorted[next + 1..];
      UptoFromIs(sorted, next + 1, limit);
    }
  }

  /** `flushUpTo`: the sorted messages from `next` on that do not sort after `limit`. */
  method FlushUpTo(sorted: seq<Message>, from: nat, limit: int) returns (out: seq<Message>, next: nat)
    requires AllPlaced(sorted) && from <= |sorted|
    ensures next == from + |out| <= |sorted|
    ensures out == UptoFrom(sorted, from, limit)
  {
    out, next := [], from;
    while next < |sorted| && Pos(sorted[next]) <= limit
      invariant from <= next <= |sorted| && |out| == next - from
      invariant UptoFrom(sorted, from, limit) == out + UptoFrom(sorted, next, limit)
    {
      Regroup(out, [sorted[next]], UptoFrom(sorted, next + 1, limit));
      out := out + [sorted[next]];
      next := next + 1;
    }
    assert out + [] == out;
  }

  lemma FlushAbove(s: seq<Message>, limit: int)
    requires AllPlaced(s)
    ensures s == Upto(s, limit) + Above(s, limit)
  {}

  /** Scroll-back: more history, put where it sorts. */
  function PrependOlder(current: seq<Message>, older: seq<Message>): seq<Message> {
    Merged(current, older)
  }

  /** Opening a thread: the page, around whatever live messages came before it. */
  function WithNewestPage(current: seq<Message>, page: seq<Message>, fromCache: bool): seq<Message> {
    if current == [] || fromCache then page else Merged(current, page)
  }

  /** A page's cursor, kept only when the server says there is more. */
  function PagingFrom(hasMore: bool, before: Option<string>): HistoryPaging {
    HistoryPaging(if hasMore && before.Some? && before.value != "" then before else None, false)
  }

  // ----- Conservation -----

  /** `out` is `a` and `b` shuffled together, each in its own order. */
  ghost predicate Interleaves(a: seq<Message>, b: seq<Message>, out: seq<Message>)
    decreases |out|
  {
    if out == [] then a == [] && b == [] else
      || (a != [] && out[0] == a[0] && Interleaves(a[1..], b, out[1..]))
      || (b != [] && out[0] == b[0] && Interleaves(a, b[1..], out[1..]))
  }

  lemma {:induction false} InterleavesOne(a: seq<Message>)
    ensures Interleaves(a, [], a) && Interleaves([], a, a)
  {
    if a != [] { InterleavesOne(a[1..]); }
  }

  /** Emitting more of `b` first keeps the shuffle. */
  lemma {:induction false} InterleavesAfter(p: seq<Message>, a: seq<Message>, b: seq<Message>, out: seq<Message>)
    requires Interleaves(a, b, out)
    ensures Interleaves(a, p + b, p + out)
  {
    if p == [] {
      assert p + b == b && p + out == out;
    } else {
      InterleavesAfter(p[1..], a, b, out);
      assert (p + b)[1..] == p[1..] + b && (p + out)[1..] == p[1..] + out;
    }
  }

  lemma InterleavesHead(m: Message, a: seq<Message>, b: seq<Message>, out: seq<Message>)
    requires Interleaves(a, b, out)
    ensures Interleaves([m] + a, b, [m] + out)
  {
    assert ([m] + a)[1..] == a && ([m] + out)[1..] == out;
  }

  /** The walk over a placed message, over a bubble with one still to come, and over the rest. */
  lemma WalkHead(current: seq<Message>, s: seq<Message>)
    requires AllPlaced(s) && current != [] && Placed(current[0])
    ensures Walk(current, s) == Upto(s, Pos(current[0])) + [current[0]] + Walk(current[1..], Above(s, Pos(current[0])))
  {
    assert HasPlaced(current);
  }

  lemma WalkBubble(current: seq<Message>, s: seq<Message>)
    requires AllPlaced(s) && HasPlaced(current) && !Placed(current[0])
    ensures Walk(current, s) == [current[0]] + Walk(current[1..], s)
  {}

  /** One placed message of a walk, when what follows it is shuffled already. */
  lemma InterleavesPlaced(m: Message, a: seq<Message>, before: seq<Message>, after: seq<Message>, tail: seq<Message>)
    requires Interleaves(a, after, tail)
    ensures Interleaves([m] + a, before + after, before + [m] + tail)
  {
    InterleavesHead(m, a, after, tail);
    InterleavesAfter(before, [m] + a, after, [m] + tail);
    assert before + ([m] + tail) == before + [m] + tail;
  }

  lemma {:induction false} WalkInterleaves(current: seq<Message>, s: seq<Message>)
    requires AllPlaced(s)
    ensures Interleaves(current, s, Walk(current, s))
    decreases |current|
  {
    if !HasPlaced(current) {
      NothingPlaced(current, s);
    } else {
      var m, rest := current[0], current[1..];
      assert current == [m] + rest;
      if Placed(m) {
        var before, after := Upto(s, Pos(m)), Above(s, Pos(m));
        WalkInterleaves(rest, after);
        InterleavesPlaced(m, rest, before, after, Walk(rest, after));
        FlushAbove(s, Pos(m));
        WalkHead(current, s);
      } else {
        WalkInterleaves(rest, s);
        InterleavesHead(m, rest, s, Walk(rest, s));
        WalkBubble(current, s);
      }
    }
  }

  lemma NothingPlaced(current: seq<Message>, s: seq<Message>)
    requires AllPlaced(s) && !HasPlaced(current)
    ensures Interleaves(current, s, Walk(current, s))
  {
    InterleavesOne(current);
    InterleavesAfter(s, current, [], current);
    assert s + [] == s;
  }

  /**
   * The merge loses nothing, shows nothing twice and never reorders what is loaded: the result
   * is the loaded thread shuffled with the page's new messages, in their order by position
   * (or in page order where the merge has no positions to go by).
   */
  lemma MergeConserves(current: seq<Message>, history: seq<Message>)
    ensures var incoming := Incoming(current, history);
      Interleaves(current,
                  if HasPlaced(current) && AllPlaced(incoming) then SortByLamport(incoming) else incoming,
                  Merged(current, history))
    ensures multiset(Merged(current, history)) == multiset(current) + multiset(Incoming(current, history))
  {
    var incoming := Incoming(current, history);
    InterleavesOne(current);
    if incoming == [] {
      assert Merged(current, history) == current;
    } else if HasPlaced(current) && AllPlaced(incoming) {
      SortedConserves(current, SortByLamport(incoming), FirstPlaced(current));
    } else {
      InterleavesAfter(incoming, current, [], current);
      assert incoming + [] == incoming;
    }
  }

  lemma SortedConserves(current: seq<Message>, s: seq<Message>, limit: int)
    requires AllPlaced(s)
    ensures var out := Upto(s, limit) + Walk(current, Above(s, limit));
      Interleaves(current, s, out) && multiset(out) == multiset(current) + multiset(s)
  {
    WalkInterleaves(current, Above(s, limit));
    InterleavesAfter(Upto(s, limit), current, Above(s, limit), Walk(current, Above(s, limit)));
    FlushAbove(s, limit);
    InterleavesCount(current, s, Upto(s, limit) + Walk(current, Above(s, limit)));
  }

  lemma {:induction false} InterleavesCount(a: seq<Message>, b: seq<Message>, out: seq<Message>)
    requires Interleaves(a, b, out)
    ensures multiset(out) == multiset(a) + multiset(b)
    decreases |out|
  {
    if out != [] {
      assert out == [out[0]] + out[1..];
      if a != [] && out[0] == a[0] && Interleaves(a[1..], b, out[1..]) {
        InterleavesCount(a[1..], b, out[1..]);
        assert a == [a[0]] + a[1..];
      } else {
        InterleavesCount(a, b[1..], out[1..]);
        assert b == [b[0]] + b[1..];
      }
    }
  }

  /** How many messages carry `id`. */
  function CountId(s: seq<Message>, id: string): nat {
    if s == [] then 0 else (if s[0].id == Some(id) then 1 else 0) + CountId(s[1..], id)
  }

  lemma {:induction false} CountIdConcat(a: seq<Message>, b: seq<Message>, id: string)
    ensures CountId(a + b, id) == CountId(a, id) + CountId(b, id)
  {
    if a == [] { assert a + b == b; } else {
      assert (a + b)[1..] == a[1..] + b;
      CountIdConcat(a[1..], b, id);
    }
  }

  // ----- Order -----

  /** The positions in the order the thread shows them. */
  function Positions(s: seq<Message>): seq<int> {
    if s == [] then [] else (if Placed(s[0]) then [Pos(s[0])] else []) + Positions(s[1..])
  }

  predicate Sorted(p: seq<int>) { forall i, j :: 0 <= i < j < |p| ==> p[i] <= p[j] }

  lemma {:induction false} PositionsConcat(a: seq<Message>, b: seq<Message>)
    ensures Positions(a + b) == Positions(a) + Positions(b)
  {
    if a == [] {
      assert a + b == b;
    } else {
      var whole := a + b;
      assert whole[0] == a[0] && whole[1..] == a[1..] + b;
      PositionsConcat(a[1..], b);
      var first := if Placed(a[0]) then [Pos(a[0])] else [];
      assert Positions(whole) == first + (Positions(a[1..]) + Positions(b)) ==
          (first + Positions(a[1..])) + Positions(b);
    }
  }

  lemma {:induction false} PositionsOfPlaced(s: seq<Message>)
    requires AllPlaced(s)
    ensures |Positions(s)| == |s| && forall k :: 0 <= k < |s| ==> Positions(s)[k] == Pos(s[k])
  {
    if s != [] { PositionsOfPlaced(s[1..]); }
  }

  lemma {:induction false} PositionsOfBubbles(s: seq<Message>)
    requires !HasPlaced(s)
    ensures Positions(s) == []
  {
    if s != [] {
      assert s[0] in s;
      assert forall m :: m in s[1..] ==> m in s;
      PositionsOfBubbles(s[1..]);
    }
  }

  lemma {:induction false} UptoSplits(s: seq<Message>, limit: int)
    requires Ascending(s)
    ensures forall k :: 0 <= k < |Upto(s, limit)| ==> Pos(Upto(s, limit)[k]) <= limit
    ensures forall k :: 0 <= k < |Above(s, limit)| ==> Pos(Above(s, limit)[k]) > limit
    ensures Ascending(Upto(s, limit)) && Ascending(Above(s, limit))
  {
    if !(s == [] || Pos(s[0]) > limit) {
      UptoSplits(s[1..], limit);
    }
  }

  lemma SortedConcat(a: seq<int>, b: seq<int>, c: int)
    requires Sorted(a) && Sorted(b)
    requires forall k :: 0 <= k < |a| ==> a[k] <= c
    requires forall k :: 0 <= k < |b| ==> c <= b[k]
    ensures Sorted(a + b)
  {}

  predicate FromFloor(p: seq<int>, floor: int) { forall k :: 0 <= k < |p| ==> floor <= p[k] }

  /** What a walk shows up to and with a placed message. */
  lemma WalkedHead(s: seq<Message>, m: Message, floor: int)
    requires Ascending(s) && Placed(m) && AllFrom(s, floor) && floor <= Pos(m)
    ensures BetweenSorted(Positions(Upto(s, Pos(m)) + [m]), floor, Pos(m))
    ensures Ascending(Above(s, Pos(m))) && AllFrom(Above(s, Pos(m)), Pos(m))
  {
    var before := Upto(s, Pos(m));
    UptoSplits(s, Pos(m));
    HeadAscends(before, m, floor);
    PlacedPositions(before + [m], floor, Pos(m));
  }

  predicate BetweenSorted(p: seq<int>, floor: int, limit: int) {
    Sorted(p) && forall k :: 0 <= k < |p| ==> floor <= p[k] <= limit
  }

  lemma HeadAscends(before: seq<Message>, m: Message, floor: int)
    requires Ascending(before) && AllFrom(before, floor) && Placed(m) && floor <= Pos(m)
    requires forall k :: 0 <= k < |before| ==> Pos(before[k]) <= Pos(m)
    ensures Ascending(before + [m]) && AllFrom(before + [m], floor)
    ensures forall k :: 0 <= k < |before + [m]| ==> Pos((before + [m])[k]) <= Pos(m)
  {}

  lemma PlacedPositions(s: seq<Message>, floor: int, limit: int)
    requires Ascending(s) && AllFrom(s, floor) && forall k :: 0 <= k < |s| ==> Pos(s[k]) <= limit
    ensures BetweenSorted(Positions(s), floor, limit)
  {
    PositionsOfPlaced(s);
  }

  lemma PositionsTail(current: seq<Message>)
    requires current != [] && Placed(current[0]) && Sorted(Positions(current))
    ensures Positions(current)[0] == Pos(current[0])
    ensures Sorted(Positions(current[1..])) && FromFloor(Positions(current[1..]), Pos(current[0]))
  {
    assert Positions(current) == [Pos(current[0])] + Positions(current[1..]);
    assert Positions(current[1..]) == Positions(current)[1..];
  }

  /** Walking a sorted thread keeps it sorted, and nothing falls below what both sides start at. */
  lemma {:induction false} WalkSorted(current: seq<Message>, s: seq<Message>, floor: int)
    requires Ascending(s) && Sorted(Positions(current))
    requires AllFrom(s, floor) && FromFloor(Positions(current), floor)
    ensures Sorted(Positions(Walk(current, s))) && FromFloor(Positions(Walk(current, s)), floor)
    decreases |current|
  {
    if !HasPlaced(current) {
      PositionsOfBubbles(current);
      PositionsConcat(s, current);
      PositionsOfPlaced(s);
    } else if Placed(current[0]) {
      var limit := Pos(current[0]);
      PositionsTail(current);
      WalkedHead(s, current[0], floor);
      WalkSorted(current[1..], Above(s, limit), limit);
      var head, tail := Upto(s, limit) + [current[0]], Walk(current[1..], Above(s, limit));
      PositionsConcat(head, tail);
      SortedConcat(Positions(head), Positions(tail), limit);
    } else {
      assert Positions(current) == [] + Positions(current[1..]) == Positions(current[1..]);
      WalkSorted(current[1..], s, floor);
      assert Walk(current, s)[1..] == Walk(current[1..], s);
    }
  }

  /**
   * Order: merging positioned messages into a sorted thread leaves it sorted exactly when the
   * thread had a position to merge by, or the page itself came in order.
   */
  lemma MergeKeepsOrder(current: seq<Message>, history: seq<Message>)
    requires Sorted(Positions(current)) && AllPlaced(Incoming(current, history))
    ensures Sorted(Positions(Merged(current, history))) <==>
            HasPlaced(current) || Ascending(Incoming(current, history))
  {
    var incoming := Incoming(current, history);
    if incoming == [] {
      assert Ascending(incoming);
    } else if !HasPlaced(current) {
      PositionsConcat(incoming, current);
      PositionsOfBubbles(current);
      PositionsOfPlaced(incoming);
      assert Positions(Merged(current, history)) == Positions(incoming);
    } else {
      var s, limit := SortByLamport(incoming), FirstPlaced(current);
      FirstPositionIsFirstPlaced(current);
      UptoSplits(s, limit);
      WalkSorted(current, Above(s, limit), limit);
      PositionsConcat(Upto(s, limit), Walk(current, Above(s, limit)));
      PositionsOfPlaced(Upto(s, limit));
      SortedConcat(Positions(Upto(s, limit)), Positions(Walk(current, Above(s, limit))), limit);
    }
  }

  lemma {:induction false} FirstPositionIsFirstPlaced(s: seq<Message>)
    requires HasPlaced(s)
    ensures Positions(s) != [] && Positions(s)[0] == FirstPlaced(s)
  {
    if !Placed(s[0]) {
      var m :| m in s && Placed(m);
      assert s == [s[0]] + s[1..];
      assert m in s[1..];
      FirstPositionIsFirstPlaced(s[1..]);
    }
  }
}
