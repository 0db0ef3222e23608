/**
 * Where a merge puts each message (apps/mobile/lib/historyPages.ts), said of positions alone: with
 * which messages of the page are new, this settles the merged thread.
 */
module MergePlaces {
  import opened Prelude
  import opened HistoryPages
  import opened MergeConfluence

  // ----- What is new -----

  /** A message of the page that is not on screen: it has no id, or none on screen has it. */
  ghost predicate IsNew(current: seq<Message>, m: Message) {
    m.id.None? || m.id.value == "" || forall k :: 0 <= k < |current| ==> current[k].id != m.id
  }

  lemma NewIsNotHeld(current: seq<Message>, m: Message)
    ensures IsNew(current, m) <==> !Holds(current, m)
  {
    if Holds(current, m) {
      var x :| x in current && HasId(x) && x.id == m.id;
      var k :| 0 <= k < |current| && current[k] == x;
    }
    if !IsNew(current, m) {
      var k :| 0 <= k < |current| && current[k].id == m.id;
      assert current[k] in current;
    }
  }

  /** The new messages among the first `n` of the page. */
  ghost function NewBefore(current: seq<Message>, page: seq<Message>, n: nat): nat
    requires n <= |page|
  {
    if n == 0 then 0 else NewBefore(current, page, n - 1) + (if IsNew(current, page[n - 1]) then 1 else 0)
  }

  lemma {:induction false} NewTail(current: seq<Message>, page: seq<Message>, n: nat)
    requires 0 < n <= |page|
    ensures NewBefore(current, page, n) ==
        (if IsNew(current, page[0]) then 1 else 0) + NewBefore(current, page[1..], n - 1)
  {
    if n > 1 {
      NewTail(current, page, n - 1);
      assert page[1..][n - 2] == page[n - 1];
    } else {
      assert NewBefore(current, page, 0) == 0 && NewBefore(current, page[1..], 0) == 0;
    }
  }

  lemma {:induction false} NewSize(current: seq<Message>, page: seq<Message>)
    ensures |Incoming(current, page)| == NewBefore(current, page, |page|)
  {
    if page != [] {
      NewSize(current, page[1..]);
      NewTail(current, page, |page|);
      NewIsNotHeld(current, page[0]);
    }
  }

  /** What a merge takes from a page: its new messages, each once, in the page's order. */
  lemma {:induction false} IncomingIsWhatIsNew(current: seq<Message>, page: seq<Message>, i: nat)
    requires i < |page| && IsNew(current, page[i])
    ensures |Incoming(current, page)| == NewBefore(current, page, |page|)
    ensures NewBefore(current, page, i) < |Incoming(current, page)|
    ensures Incoming(current, page)[NewBefore(current, page, i)] == page[i]
  {
    NewSize(current, page);
    NewIsNotHeld(current, page[0]);
    if i > 0 {
      NewTail(current, page, i);
      IncomingIsWhatIsNew(current, page[1..], i - 1);
      var head := if Holds(current, page[0]) then [] else [page[0]];
      assert Incoming(current, page) == head + Incoming(current, page[1..]);
    }
  }

  // ----- Where it goes -----

  /**
   * A message at `at` goes before the loaded message `i` in a walk: a placed one up to there is not
   * before it, or none is left to be.
   */
  ghost predicate Passes(current: seq<Message>, at: int, i: nat) {
    || (exists j :: 0 <= j <= i && j < |current| && Placed(current[j]) && at <= Pos(current[j]))
    || (forall j :: i <= j < |current| ==> !Placed(current[j]))
  }

  /** In a merge what is not after the first placed message also passes every loaded one. */
  ghost predicate GoesBefore(current: seq<Message>, at: int, i: nat) {
    (HasPlaced(current) && at <= FirstPlaced(current)) || Passes(current, at, i)
  }

  /** The first `n` of a run go before the loaded message `i`, and no others. */
  ghost predicate PassCount(current: seq<Message>, s: seq<Message>, i: nat, n: nat) {
    && n <= |s| && (forall k :: 0 <= k < n ==> Passes(current, Pos(s[k]), i))
    && (forall k :: n <= k < |s| ==> !Passes(current, Pos(s[k]), i))
  }

  /** A message at `at` goes before the loaded messages from `i` on, and no others. */
  ghost predicate PassFrom(current: seq<Message>, at: int, i: nat) {
    && i <= |current| && (forall j :: 0 <= j < i ==> !Passes(current, at, j))
    && (forall j :: i <= j < |current| ==> Passes(current, at, j))
  }

  lemma PassesTail(m: Message, rest: seq<Message>, at: int, i: nat)
    requires i <= |rest|
    ensures Passes([m] + rest, at, i + 1) <==> (Placed(m) && at <= Pos(m)) || Passes(rest, at, i)
  {
    var current := [m] + rest;
    if Passes(current, at, i + 1) && !(Placed(m) && at <= Pos(m)) {
      if j :| 0 <= j <= i + 1 && j < |current| && Placed(current[j]) && at <= Pos(current[j]) {
        assert rest[j - 1] == current[j];
      } else {
        assert forall j :: i <= j < |rest| ==> rest[j] == current[j + 1];
      }
    }
    if Placed(m) && at <= Pos(m) { assert current[0] == m; }
    if Passes(rest, at, i) {
      if j :| 0 <= j <= i && j < |rest| && Placed(rest[j]) && at <= Pos(rest[j]) {
        assert current[j + 1] == rest[j];
      } else {
        assert forall j :: i + 1 <= j < |current| ==> current[j] == rest[j - 1];
      }
    }
  }

  lemma PassesHead(m: Message, rest: seq<Message>, at: int)
    requires Placed(m) || HasPlaced(rest)
    ensures Passes([m] + rest, at, 0) <==> Placed(m) && at <= Pos(m)
  {
    var current := [m] + rest;
    if !Placed(m) {
      var k :| 0 <= k < |rest| && Placed(rest[k]);
      assert current[k + 1] == rest[k];
    }
    assert current[0] == m;
  }

  /** Behind a placed message, what is cut off before it has passed everything. */
  lemma PassCountTail(m: Message, rest: seq<Message>, u: seq<Message>, later: seq<Message>, i: nat, n: nat)
    requires i < |rest| && PassCount([m] + rest, u + later, i + 1, n)
    requires if Placed(m) then Within(u, Pos(m)) && Beyond(later, Pos(m)) else u == []
    ensures |u| <= n && PassCount(rest, later, i, n - |u|)
  {
    var s := u + later;
    assert n < |s| ==> !Passes([m] + rest, Pos(s[n]), i + 1);
    if n < |u| { PassesTail(m, rest, Pos(u[n]), i); }
    forall k | 0 <= k < |later| ensures Passes(rest, Pos(later[k]), i) <==> k < n - |u| {
      assert s[k + |u|] == later[k];
      PassesTail(m, rest, Pos(later[k]), i);
    }
  }

  lemma PassCountHead(m: Message, rest: seq<Message>, u: seq<Message>, later: seq<Message>, n: nat)
    requires (Placed(m) || HasPlaced(rest)) && PassCount([m] + rest, u + later, 0, n)
    requires if Placed(m) then Within(u, Pos(m)) && Beyond(later, Pos(m)) else u == []
    ensures n == |u|
  {
    var s := u + later;
    assert n < |s| ==> !Passes([m] + rest, Pos(s[n]), 0);
    if n < |s| { PassesHead(m, rest, Pos(s[n])); }
    if |u| < |s| { PassesHead(m, rest, Pos(s[|u|])); assert s[|u|] == later[0]; }
    assert forall k :: 0 <= k < |u| ==> s[k] == u[k];
  }

  /** A walk over `m` and `rest`, with what `m` cuts off named. */
  lemma WalkParts(m: Message, rest: seq<Message>, s: seq<Message>) returns (u: seq<Message>, later: seq<Message>)
    requires (Placed(m) || HasPlaced(rest)) && Ascending(s)
    ensures s == u + later && Ascending(later) && Walk([m] + rest, s) == u + [m] + Walk(rest, later)
    ensures if Placed(m) then Within(u, Pos(m)) && Beyond(later, Pos(m)) else u == []
    ensures if Placed(m) then u == Upto(s, Pos(m)) && later == Above(s, Pos(m)) else later == s
  {
    if Placed(m) {
      u, later := Upto(s, Pos(m)), Above(s, Pos(m));
      Cut(s, Pos(m));
    } else {
      u, later := [], s;
      assert [] + s == s;
    }
    WalkOver(m, rest, s, u, later);
  }

  /** How many of a run a walk puts before the loaded message `i`. */
  function WalkedBefore(current: seq<Message>, s: seq<Message>, i: nat): nat
    requires AllPlaced(s) && i < |current|
    decreases |current|
  {
    if !HasPlaced(current) then |s|
    else if Placed(current[0]) then
      |Upto(s, Pos(current[0]))| +
      if i == 0 then 0 else WalkedBefore(current[1..], Above(s, Pos(current[0])), i - 1)
    else if i == 0 then 0 else WalkedBefore(current[1..], s, i - 1)
  }

  /** One message of a walk, its parts named. */
  lemma CountParts(current: seq<Message>, s: seq<Message>, i: nat)
    returns (m: Message, rest: seq<Message>, u: seq<Message>, later: seq<Message>)
    requires HasPlaced(current) && Ascending(s) && i < |current|
    ensures current == [m] + rest && (Placed(m) || HasPlaced(rest))
    ensures s == u + later && Ascending(later) && Walk(current, s) == u + [m] + Walk(rest, later)
    ensures if Placed(m) then Within(u, Pos(m)) && Beyond(later, Pos(m)) else u == []
    ensures WalkedBefore(current, s, i) == |u| + if i == 0 then 0 else WalkedBefore(rest, later, i - 1)
  {
    m, rest, u, later := Parts(current, s);
    CountStep(m, rest, s, i);
  }

  lemma CountStep(m: Message, rest: seq<Message>, s: seq<Message>, i: nat)
    requires AllPlaced(s) && i <= |rest| && HasPlaced([m] + rest)
    ensures WalkedBefore([m] + rest, s, i) ==
      if Placed(m) then
        |Upto(s, Pos(m))| + if i == 0 then 0 else WalkedBefore(rest, Above(s, Pos(m)), i - 1)
      else if i == 0 then 0 else WalkedBefore(rest, s, i - 1)
  {
    assert ([m] + rest)[0] == m && ([m] + rest)[1..] == rest;
  }

  lemma {:induction false} WalkPuts(current: seq<Message>, s: seq<Message>, i: nat)
    requires Ascending(s) && i < |current|
    ensures i + WalkedBefore(current, s, i) < |Walk(current, s)|
    ensures Walk(current, s)[i + WalkedBefore(current, s, i)] == current[i]
    decreases |current|
  {
    if HasPlaced(current) {
      var m, rest, u, later := CountParts(current, s, i);
      if i > 0 { WalkPuts(rest, later, i - 1); }
      PutStep(current, m, rest, Walk(current, s), u, Walk(rest, later), i,
              if i == 0 then 0 else WalkedBefore(rest, later, i - 1));
    }
  }

  lemma PutStep<T>(whole: seq<T>, m: T, rest: seq<T>, walk: seq<T>, u: seq<T>, w: seq<T>, i: nat, n: nat)
    requires whole == [m] + rest && walk == u + [m] + w && i < |whole|
    requires if i == 0 then n == 0 else i - 1 + n < |w| && w[i - 1 + n] == rest[i - 1]
    ensures i + (|u| + n) < |walk| && walk[i + (|u| + n)] == whole[i]
  {}

  lemma PassCountFirst(current: seq<Message>, s: seq<Message>, n: nat)
    requires HasPlaced(current) && Ascending(s) && PassCount(current, s, 0, n)
    ensures current != [] && n == WalkedBefore(current, s, 0)
  {
    var m, rest, u, later := CountParts(current, s, 0);
    PassCountHead(m, rest, u, later, n);
  }

  lemma PassCountStep(current: seq<Message>, s: seq<Message>, i: nat, n: nat)
    returns (rest: seq<Message>, later: seq<Message>, n': nat)
    requires HasPlaced(current) && Ascending(s) && 0 < i < |current| && PassCount(current, s, i, n)
    ensures |rest| + 1 == |current| && Ascending(later) && PassCount(rest, later, i - 1, n')
    ensures n - n' == WalkedBefore(current, s, i) - WalkedBefore(rest, later, i - 1)
  {
    var m, u;
    m, rest, u, later := CountParts(current, s, i);
    PassCountTail(m, rest, u, later, i - 1, n);
    n' := n - |u|;
  }

  lemma {:induction false} PassCountIs(current: seq<Message>, s: seq<Message>, i: nat, n: nat)
    requires Ascending(s) && i < |current| && PassCount(current, s, i, n)
    ensures n == WalkedBefore(current, s, i)
    decreases |current|
  {
    if !HasPlaced(current) {
      assert n < |s| ==> !Passes(current, Pos(s[n]), i);
    } else if i == 0 {
      PassCountFirst(current, s, n);
    } else {
      var rest, later, n' := PassCountStep(current, s, i, n);
      PassCountIs(rest, later, i - 1, n');
    }
  }

  lemma WalkPutsLoaded(current: seq<Message>, s: seq<Message>, i: nat, n: nat)
    requires Ascending(s) && i < |current| && PassCount(current, s, i, n)
    ensures i + n < |Walk(current, s)| && Walk(current, s)[i + n] == current[i]
  {
    PassCountIs(current, s, i, n);
    WalkPuts(current, s, i);
  }

  lemma Parts(current: seq<Message>, s: seq<Message>)
    returns (m: Message, rest: seq<Message>, u: seq<Message>, later: seq<Message>)
    requires HasPlaced(current) && Ascending(s)
    ensures current == [m] + rest && (Placed(m) || HasPlaced(rest))
    ensures s == u + later && Ascending(later) && Walk(current, s) == u + [m] + Walk(rest, later)
    ensures if Placed(m) then Within(u, Pos(m)) && Beyond(later, Pos(m)) else u == []
    ensures if Placed(m) then u == Upto(s, Pos(m)) && later == Above(s, Pos(m)) else later == s
  {
    m, rest := current[0], current[1..];
    assert current == [m] + rest;
    HeadOrRest(m, rest);
    u, later := WalkParts(m, rest, s);
  }

  lemma HeadOrRest(m: Message, rest: seq<Message>)
    requires HasPlaced([m] + rest)
    ensures Placed(m) || HasPlaced(rest)
  {
    var k :| 0 <= k < |[m] + rest| && Placed(([m] + rest)[k]);
    if k > 0 { assert rest[k - 1] == ([m] + rest)[k]; }
  }

  /** A new message goes before the head exactly when it is among those the head cuts off. */
  lemma NewHead(m: Message, rest: seq<Message>, u: seq<Message>, later: seq<Message>, at: int, k: nat, i: nat)
    requires (Placed(m) || HasPlaced(rest)) && k < |u + later| && at == Pos((u + later)[k])
    requires PassFrom([m] + rest, at, i)
    requires if Placed(m) then Within(u, Pos(m)) && Beyond(later, Pos(m)) else u == []
    ensures i == 0 <==> k < |u|
    ensures i == 0 <==> Placed(m) && at <= Pos(m)
  {
    PassesHead(m, rest, at);
    assert i == 0 <==> Passes([m] + rest, at, 0);
    assert (u + later)[k] == if k < |u| then u[k] else later[k - |u|];
  }

  lemma NewStep<T>(s: seq<T>, u: seq<T>, later: seq<T>, m: T, walk: seq<T>, w: seq<T>, k: nat, i: nat)
    requires s == u + later && walk == u + [m] + w && |u| <= k < |s| && i > 0
    requires k - |u| + (i - 1) < |w| && w[k - |u| + (i - 1)] == later[k - |u|]
    ensures k + i < |walk| && walk[k + i] == s[k]
  {}

  lemma PassFromTail(m: Message, rest: seq<Message>, at: int, i: nat)
    requires PassFrom([m] + rest, at, i + 1) && !(Placed(m) && at <= Pos(m))
    ensures PassFrom(rest, at, i)
  {
    forall j | 0 <= j < |rest| ensures Passes(rest, at, j) <==> j >= i {
      PassesTail(m, rest, at, j);
      assert Passes([m] + rest, at, j + 1) <==> j + 1 >= i + 1;
    }
  }

  lemma {:induction false} WalkPutsNew(current: seq<Message>, s: seq<Message>, k: nat, i: nat)
    requires Ascending(s) && k < |s| && PassFrom(current, Pos(s[k]), i)
    ensures k + i < |Walk(current, s)| && Walk(current, s)[k + i] == s[k]
    decreases |current|
  {
    if !HasPlaced(current) {
      assert |current| > 0 ==> Passes(current, Pos(s[k]), 0);
    } else {
      if i == 0 {
        NewFirst(current, s, k);
      } else {
        var m, rest, u, later := NewParts(current, s, k, i);
        WalkPutsNew(rest, later, k - |u|, i - 1);
        NewStep(s, u, later, m, Walk(current, s), Walk(rest, later), k, i);
      }
    }
  }

  lemma NewFirst(current: seq<Message>, s: seq<Message>, k: nat)
    requires HasPlaced(current) && Ascending(s) && k < |s| && PassFrom(current, Pos(s[k]), 0)
    ensures k < |Walk(current, s)| && Walk(current, s)[k] == s[k]
  {
    var m, rest, u, later := Parts(current, s);
    NewHead(m, rest, u, later, Pos(s[k]), k, 0);
    assert (u + later)[k] == u[k] && (u + [m] + Walk(rest, later))[k] == u[k];
  }

  lemma NewParts(current: seq<Message>, s: seq<Message>, k: nat, i: nat)
    returns (m: Message, rest: seq<Message>, u: seq<Message>, later: seq<Message>)
    requires HasPlaced(current) && Ascending(s) && k < |s| && i > 0 && PassFrom(current, Pos(s[k]), i)
    ensures |rest| < |current| && s == u + later && Ascending(later) && Walk(current, s) == u + [m] + Walk(rest, later)
    ensures |u| <= k && PassFrom(rest, Pos(later[k - |u|]), i - 1)
  {
    m, rest, u, later := Parts(current, s);
    NewBehindHead(m, rest, u, later, k, i);
  }

  lemma NewBehindHead(m: Message, rest: seq<Message>, u: seq<Message>, later: seq<Message>, k: nat, i: nat)
    requires (Placed(m) || HasPlaced(rest)) && k < |u + later| && i > 0 && PassFrom([m] + rest, Pos((u + later)[k]), i)
    requires if Placed(m) then Within(u, Pos(m)) && Beyond(later, Pos(m)) else u == []
    ensures |u| <= k && PassFrom(rest, Pos(later[k - |u|]), i - 1)
  {
    var at := Pos((u + later)[k]);
    NewHead(m, rest, u, later, at, k, i);
    assert (u + later)[k] == later[k - |u|];
    PassFromTail(m, rest, at, i - 1);
  }

  // ----- In a merge -----

  ghost predicate BeforeCount(current: seq<Message>, s: seq<Message>, i: nat, n: nat) {
    && n <= |s| && (forall k :: 0 <= k < n ==> GoesBefore(current, Pos(s[k]), i))
    && (forall k :: n <= k < |s| ==> !GoesBefore(current, Pos(s[k]), i))
  }

  ghost predicate BeforeFrom(current: seq<Message>, at: int, i: nat) {
    && i <= |current| && (forall j :: 0 <= j < i ==> !GoesBefore(current, at, j))
    && (forall j :: i <= j < |current| ==> GoesBefore(current, at, j))
  }

  /** A merge by position. */
  ghost predicate ByPosition(current: seq<Message>, page: seq<Message>) {
    HasPlaced(current) && AllPlaced(Incoming(current, page))
  }

  function Sorted(current: seq<Message>, page: seq<Message>): seq<Message>
    requires AllPlaced(Incoming(current, page))
  {
    SortByLamport(Incoming(current, page))
  }

  lemma MergedForm(current: seq<Message>, page: seq<Message>)
    requires ByPosition(current, page)
    ensures var s, limit := Sorted(current, page), FirstPlaced(current);
      Merged(current, page) == Upto(s, limit) + Walk(current, Above(s, limit))
  {
    if Incoming(current, page) == [] { WalkNothing(current); }
  }

  /** A loaded message is in the merged thread behind those loaded before it and just the new ones that go before it. */
  lemma MergePutsLoaded(current: seq<Message>, page: seq<Message>, i: nat, n: nat)
    requires ByPosition(current, page) && i < |current| && BeforeCount(current, Sorted(current, page), i, n)
    ensures i + n < |Merged(current, page)| && Merged(current, page)[i + n] == current[i]
  {
    var s, limit := Sorted(current, page), FirstPlaced(current);
    MergedForm(current, page);
    Cut(s, limit);
    LoadedBehind(current, Upto(s, limit), Above(s, limit), i, n);
  }

  lemma LoadedBehind(current: seq<Message>, u: seq<Message>, later: seq<Message>, i: nat, n: nat)
    requires HasPlaced(current) && i < |current| && BeforeCount(current, u + later, i, n) && Ascending(later)
    requires Within(u, FirstPlaced(current)) && Beyond(later, FirstPlaced(current))
    ensures i + n < |u + Walk(current, later)| && (u + Walk(current, later))[i + n] == current[i]
  {
    var s := u + later;
    assert n < |s| ==> !GoesBefore(current, Pos(s[n]), i);
    assert forall k :: 0 <= k < |u| ==> s[k] == u[k];
    forall k | 0 <= k < |later| ensures Passes(current, Pos(later[k]), i) <==> k < n - |u| {
      assert s[k + |u|] == later[k];
      assert GoesBefore(current, Pos(s[k + |u|]), i) <==> k + |u| < n;
    }
    WalkPutsLoaded(current, later, i, n - |u|);
  }

  /**
   * A new message is in the merged thread behind the new ones sorted before it and the loaded ones
   * it does not go before.
   */
  lemma MergePutsNew(current: seq<Message>, page: seq<Message>, k: nat, i: nat)
    requires ByPosition(current, page) && k < |Sorted(current, page)|
    requires BeforeFrom(current, Pos(Sorted(current, page)[k]), i)
    ensures k + i < |Merged(current, page)| && Merged(current, page)[k + i] == Sorted(current, page)[k]
  {
    var s, limit := Sorted(current, page), FirstPlaced(current);
    MergedForm(current, page);
    Cut(s, limit);
    NewBehind(current, Upto(s, limit), Above(s, limit), k, i);
  }

  lemma NewBehind(current: seq<Message>, u: seq<Message>, later: seq<Message>, k: nat, i: nat)
    requires HasPlaced(current) && k < |u + later| && BeforeFrom(current, Pos((u + later)[k]), i) && Ascending(later)
    requires Within(u, FirstPlaced(current)) && Beyond(later, FirstPlaced(current))
    ensures k + i < |u + Walk(current, later)| && (u + Walk(current, later))[k + i] == (u + later)[k]
  {
    if k < |u| {
      assert (u + later)[k] == u[k];
      AheadOfAll(current, Pos(u[k]), i);
    } else {
      assert (u + later)[k] == later[k - |u|];
      NewAfterFirst(current, later, k - |u|, i);
      assert (u + Walk(current, later))[k + i] == Walk(current, later)[k - |u| + i];
    }
  }

  lemma NewAfterFirst(current: seq<Message>, later: seq<Message>, j: nat, i: nat)
    requires HasPlaced(current) && j < |later| && BeforeFrom(current, Pos(later[j]), i) && Ascending(later)
    requires Pos(later[j]) > FirstPlaced(current)
    ensures j + i < |Walk(current, later)| && Walk(current, later)[j + i] == later[j]
  {
    PastTheFirst(current, Pos(later[j]), i);
    WalkPutsNew(current, later, j, i);
  }

  lemma AheadOfAll(current: seq<Message>, at: int, i: nat)
    requires HasPlaced(current) && at <= FirstPlaced(current) && BeforeFrom(current, at, i)
    ensures i == 0
  {
    assert GoesBefore(current, at, 0);
  }

  lemma PastTheFirst(current: seq<Message>, at: int, i: nat)
    requires HasPlaced(current) && at > FirstPlaced(current) && BeforeFrom(current, at, i)
    ensures PassFrom(current, at, i)
  {
    assert forall j :: 0 <= j < |current| ==> (GoesBefore(current, at, j) <==> Passes(current, at, j));
  }

  /** Such a place there always is: what goes before one loaded message goes before the next. */
  lemma EveryNewHasAPlace(current: seq<Message>, at: int) returns (i: nat)
    ensures BeforeFrom(current, at, i)
  {
    i := 0;
    while i < |current| && !GoesBefore(current, at, i)
      invariant i <= |current| && forall j :: 0 <= j < i ==> !GoesBefore(current, at, j)
    {
      i := i + 1;
    }
    forall j | i <= j < |current| ensures GoesBefore(current, at, j) {
      if j0 :| 0 <= j0 <= i && j0 < |current| && Placed(current[j0]) && at <= Pos(current[j0]) { assert j0 <= j; }
    }
  }

  lemma EveryLoadedHasAPlace(current: seq<Message>, s: seq<Message>, i: nat) returns (n: nat)
    requires Ascending(s)
    ensures BeforeCount(current, s, i, n)
  {
    n := 0;
    while n < |s| && GoesBefore(current, Pos(s[n]), i)
      invariant n <= |s| && forall k :: 0 <= k < n ==> GoesBefore(current, Pos(s[k]), i)
    {
      n := n + 1;
    }
    forall k | n <= k < |s| ensures !GoesBefore(current, Pos(s[k]), i) {
      EarlierGoesBefore(current, Pos(s[n]), Pos(s[k]), i);
    }
  }

  lemma EarlierGoesBefore(current: seq<Message>, lo: int, hi: int, i: nat)
    requires lo <= hi
    ensures GoesBefore(current, hi, i) ==> GoesBefore(current, lo, i)
  {}

  /** With nothing to merge by, or something new without a position, what is new goes in front as it came. */
  lemma OtherwiseInFront(current: seq<Message>, page: seq<Message>)
    requires !ByPosition(current, page)
    ensures Merged(current, page) == Incoming(current, page) + current
  {
    if Incoming(current, page) == [] { assert [] + current == current; }
  }
}
