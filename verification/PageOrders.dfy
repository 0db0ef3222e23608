/**
 * Any number of pages (apps/mobile/lib/historyPages.ts): whether the thread they make depends on
 * the order they arrive in.
 */
module PageOrders {
  import opened Prelude
  import opened HistoryPages
  import opened MergeConfluence

  /** Pages merged one after the other. */
  function MergedAll(current: seq<Message>, pages: seq<seq<Message>>): seq<Message>
    decreases |pages|
  {
    if pages == [] then current else MergedAll(Merged(current, pages[0]), pages[1..])
  }

  /** Two pages with no message in common, whose new messages never have the same position. */
  ghost predicate Independent(current: seq<Message>, p1: seq<Message>, p2: seq<Message>) {
    NoSharedId(p1, p2) && NoSharedId(p2, p1) && Apart(Incoming(current, p1), Incoming(current, p2))
  }

  /** A page whose new messages all have a position, in order where the thread has none to merge by. */
  ghost predicate Sound(current: seq<Message>, p: seq<Message>) {
    AllPlaced(Incoming(current, p)) && (HasPlaced(current) || Ascending(Incoming(current, p)))
  }

  /** Sound pages, each independent of every other. */
  ghost predicate Mergeable(current: seq<Message>, pages: multiset<seq<Message>>) {
    && (forall p :: p in pages ==> Sound(current, p))
    && (forall p1, p2 :: p1 in pages && p2 in pages - multiset{p1} ==> Independent(current, p1, p2))
  }

  /** An unsent bubble leads a thread with positions, and both pages reach behind it. */
  ghost predicate BothReach(current: seq<Message>, p1: seq<Message>, p2: seq<Message>) {
    HasPlaced(current) && !Placed(current[0]) && ReachesBehind(current, p1) && ReachesBehind(current, p2)
  }

  ghost predicate OneReaches(current: seq<Message>, pages: multiset<seq<Message>>) {
    forall p1, p2 :: p1 in pages && p2 in pages - multiset{p1} ==> !BothReach(current, p1, p2)
  }

  // ----- What one merge leaves of the rest -----

  lemma MergeKeepsOthers(current: seq<Message>, p: seq<Message>, q: seq<Message>)
    requires Independent(current, p, q) && Sound(current, q)
    ensures Incoming(Merged(current, p), q) == Incoming(current, q)
    ensures Sound(Merged(current, p), q)
  {
    IncomingUnchanged(current, p, q);
    if HasPlaced(current) { MergeKeepsPlaced(current, p); }
  }

  lemma MergeKeepsPlaced(current: seq<Message>, p: seq<Message>)
    requires HasPlaced(current)
    ensures HasPlaced(Merged(current, p))
  {
    var k :| 0 <= k < |current| && Placed(current[k]);
    var m := current[k];
    MergeConserves(current, p);
    assert m in multiset(Merged(current, p));
    assert m in Merged(current, p);
  }

  lemma MergeKeepsMergeable(current: seq<Message>, p: seq<Message>, pages: multiset<seq<Message>>)
    requires Mergeable(current, pages) && p in pages
    ensures Mergeable(Merged(current, p), pages - multiset{p})
    ensures forall q :: q in pages - multiset{p} ==> Incoming(Merged(current, p), q) == Incoming(current, q)
  {
    var rest := pages - multiset{p};
    forall q | q in rest
      ensures Sound(Merged(current, p), q) && Incoming(Merged(current, p), q) == Incoming(current, q)
    {
      MergeKeepsOthers(current, p, q);
    }
    forall q1, q2 | q1 in rest && q2 in rest - multiset{q1} ensures Independent(Merged(current, p), q1, q2) {
      assert q2 in pages - multiset{q1} && q2 in rest;
      assert Independent(current, q1, q2);
    }
  }

  /** How a thread starts once a page is merged into it. */
  lemma MergedStart(current: seq<Message>, p: seq<Message>)
    requires Sound(current, p)
    ensures var merged := Merged(current, p);
      && (!HasPlaced(current) ==> merged == current || (HasPlaced(merged) && Placed(merged[0])))
      && (HasPlaced(current) && (Placed(current[0]) || ReachesBehind(current, p)) ==>
           HasPlaced(merged) && Placed(merged[0]))
      && (HasPlaced(current) && !Placed(current[0]) && !ReachesBehind(current, p) ==>
           HasPlaced(merged) && FirstPlaced(merged) == FirstPlaced(current))
  {
    MergedIsRun(current, p);
    var s := Run(current, p);
    if HasPlaced(current) {
      var b, body := SplitLead(current);
      MergedRunForm(b, body, s);
      ReachesIffUpto(current, p);
      StartOf(b, body, s);
    } else if s != [] {
      assert (s + current)[0] == s[0];
    } else {
      assert [] + current == current;
    }
  }

  lemma StartOf(b: seq<Message>, p: seq<Message>, s: seq<Message>)
    requires !HasPlaced(b) && p != [] && Placed(p[0]) && AllPlaced(s)
    ensures var merged := Upto(s, Pos(p[0])) + (b + Walk(p, Above(s, Pos(p[0]))));
      && merged != [] && HasPlaced(merged)
      && (b == [] || Upto(s, Pos(p[0])) != [] ==> Placed(merged[0]))
      && (Upto(s, Pos(p[0])) == [] ==> FirstPlaced(merged) == Pos(p[0]))
  {
    var u, w := Upto(s, Pos(p[0])), Walk(p, Above(s, Pos(p[0])));
    WalkStart(p, Above(s, Pos(p[0])));
    CutOnce(s, Pos(p[0]));
    LeadingBubbles(b, w, []);
    if u == [] {
      assert u + (b + w) == b + w;
      if b == [] { assert b + w == w; }
    } else {
      assert (u + (b + w))[0] == u[0];
    }
  }

  /** A page that is merged puts no two others in the way of one bubble that were not. */
  lemma MergeKeepsPair(current: seq<Message>, p: seq<Message>, q1: seq<Message>, q2: seq<Message>)
    requires Sound(current, p) && !BothReach(current, q1, q2)
    requires Incoming(Merged(current, p), q1) == Incoming(current, q1)
    requires Incoming(Merged(current, p), q2) == Incoming(current, q2)
    ensures !BothReach(Merged(current, p), q1, q2)
  {
    MergedStart(current, p);
  }

  lemma MergeKeepsOneReaches(current: seq<Message>, p: seq<Message>, pages: multiset<seq<Message>>)
    requires Mergeable(current, pages) && OneReaches(current, pages) && p in pages
    ensures OneReaches(Merged(current, p), pages - multiset{p})
  {
    var merged, rest := Merged(current, p), pages - multiset{p};
    MergeKeepsMergeable(current, p, pages);
    forall q1, q2 | q1 in rest && q2 in rest - multiset{q1} ensures !BothReach(merged, q1, q2) {
      assert q2 in pages - multiset{q1} && q2 in rest;
      MergeKeepsPair(current, p, q1, q2);
    }
  }

  // ----- Moving a page to the front -----

  lemma MergedAllCons(current: seq<Message>, p: seq<Message>, rest: seq<seq<Message>>)
    ensures MergedAll(current, [p] + rest) == MergedAll(Merged(current, p), rest)
  {
    assert ([p] + rest)[1..] == rest;
  }

  /** What a set of mergeable pages says of two of them. */
  lemma Pair(current: seq<Message>, pages: multiset<seq<Message>>, p1: seq<Message>, p2: seq<Message>)
    requires Mergeable(current, pages) && p1 in pages && p2 in pages - multiset{p1}
    ensures Sound(current, p1) && Sound(current, p2) && Independent(current, p1, p2)
    ensures OneReaches(current, pages) ==> !BothReach(current, p1, p2)
  {
    assert p2 in pages;
  }

  lemma AfterFirst(current: seq<Message>, p: seq<Message>, tail: seq<seq<Message>>)
    requires Mergeable(current, multiset([p] + tail)) && OneReaches(current, multiset([p] + tail))
    ensures Mergeable(Merged(current, p), multiset(tail)) && OneReaches(Merged(current, p), multiset(tail))
  {
    var pages := multiset([p] + tail);
    assert p in pages && multiset(tail) == pages - multiset{p};
    MergeKeepsMergeable(current, p, pages);
    MergeKeepsOneReaches(current, p, pages);
  }

  /** Two pages that are not both in the way of one bubble may change places. */
  lemma SwapFirst(current: seq<Message>, p1: seq<Message>, p2: seq<Message>, rest: seq<seq<Message>>)
    requires Sound(current, p1) && Sound(current, p2) && Independent(current, p1, p2) && !BothReach(current, p1, p2)
    ensures MergedAll(Merged(current, p1), [p2] + rest) == MergedAll(Merged(current, p2), [p1] + rest)
  {
    MergeIsConfluent(current, p1, p2);
    MergedAllCons(Merged(current, p1), p2, rest);
    MergedAllCons(Merged(current, p2), p1, rest);
  }

  lemma {:induction false} ToFront(current: seq<Message>, before: seq<seq<Message>>, p: seq<Message>,
                                   after: seq<seq<Message>>)
    requires Mergeable(current, multiset(before + ([p] + after))) &&
        OneReaches(current, multiset(before + ([p] + after)))
    ensures MergedAll(current, before + ([p] + after)) == MergedAll(current, [p] + (before + after))
    decreases |before|
  {
    if before == [] {
      assert before + ([p] + after) == [p] + (before + after);
    } else {
      var first, tail := before[0], before[1..];
      assert before + ([p] + after) == [first] + (tail + ([p] + after));
      assert before + after == [first] + (tail + after);
      ToFrontStep(current, first, tail, p, after);
      ToFront(Merged(current, first), tail, p, after);
    }
  }

  lemma ToFrontStep(current: seq<Message>, first: seq<Message>, tail: seq<seq<Message>>, p: seq<Message>,
                    after: seq<seq<Message>>)
    requires var pages := multiset([first] + (tail + ([p] + after)));
      Mergeable(current, pages) && OneReaches(current, pages)
    ensures var rest := multiset(tail + ([p] + after));
      Mergeable(Merged(current, first), rest) && OneReaches(Merged(current, first), rest)
    ensures MergedAll(current, [first] + (tail + ([p] + after))) ==
        MergedAll(Merged(current, first), tail + ([p] + after))
    ensures MergedAll(Merged(current, first), [p] + (tail + after)) ==
        MergedAll(current, [p] + ([first] + (tail + after)))
  {
    var pages := multiset([first] + (tail + ([p] + after)));
    AfterFirst(current, first, tail + ([p] + after));
    MergedAllCons(current, first, tail + ([p] + after));
    MergedAllCons(current, p, [first] + (tail + after));
    assert pages - multiset{first} == multiset(tail) + multiset{p} + multiset(after);
    Pair(current, pages, first, p);
    SwapFirst(current, first, p, tail + after);
  }

  lemma TakeOut<T>(s: seq<T>, k: nat)
    requires k < |s|
    ensures multiset(s[..k] + s[k + 1..]) == multiset(s) - multiset{s[k]}
  {
    assert s == s[..k] + [s[k]] + s[k + 1..];
  }

  /** While no two pages reach behind a leading bubble, every order makes the same thread. */
  lemma {:induction false} AnyOrder(current: seq<Message>, pages: seq<seq<Message>>, order: seq<seq<Message>>)
    requires multiset(order) == multiset(pages)
    requires Mergeable(current, multiset(pages)) && OneReaches(current, multiset(pages))
    ensures MergedAll(current, order) == MergedAll(current, pages)
    decreases |pages|
  {
    if pages == [] {
      assert |order| == |multiset(order)| == |multiset(pages)|;
    } else {
      var p, tail := pages[0], pages[1..];
      assert pages == [p] + tail;
      assert p in multiset(order);
      var k :| 0 <= k < |order| && order[k] == p;
      var before, after := order[..k], order[k + 1..];
      assert order == before + ([p] + after);
      SameWithoutOne(before, p, after, tail);
      ToFront(current, before, p, after);
      MergedAllCons(current, p, before + after);
      AfterFirst(current, p, tail);
      AnyOrder(Merged(current, p), tail, before + after);
    }
  }

  lemma SameWithoutOne<T>(before: seq<T>, p: T, after: seq<T>, tail: seq<T>)
    requires multiset(before + ([p] + after)) == multiset([p] + tail)
    ensures multiset(before + after) == multiset(tail)
  {
    assert multiset(before + ([p] + after)) - multiset{p} == multiset(before + after);
    assert multiset([p] + tail) - multiset{p} == multiset(tail);
  }

  // ----- A bubble that two pages reach behind -----

  /** A thread around its first bubble: placed messages before it, the last of them the largest, and some after it. */
  datatype Fence = Fence(before: seq<Message>, last: Message, bubble: Message, after: seq<Message>)

  function Whole(f: Fence): seq<Message> { f.before + ([f.last] + ([f.bubble] + f.after)) }

  /** Placed messages at or before `limit`. */
  predicate Low(s: seq<Message>, limit: int) { AllPlaced(s) && Within(s, limit) }

  predicate Fenced(f: Fence) {
    Low(f.before, Pos(f.last)) && Placed(f.last) && !Placed(f.bubble) && HasPlaced(f.after)
  }

  lemma LowConcat(a: seq<Message>, x: Message, b: seq<Message>, limit: int)
    requires Low(a, limit) && Placed(x) && Pos(x) <= limit && Low(b, limit)
    ensures Low(a + [x] + b, limit)
  {}

  lemma LowCut(s: seq<Message>, limit: int)
    requires Ascending(s)
    ensures Low(Upto(s, limit), limit) && Ascending(Above(s, limit))
  {
    Cut(s, limit);
  }

  /** What a walk puts before `m` and after it, when no message of `u` sorts after `m`. */
  lemma {:induction false} WalkToLast(u: seq<Message>, m: Message, rest: seq<Message>, s: seq<Message>)
    returns (before: seq<Message>)
    requires Low(u, Pos(m)) && Placed(m) && Ascending(s)
    ensures Walk(u + ([m] + rest), s) == before + ([m] + Walk(rest, Above(s, Pos(m))))
    ensures |before| == |u| + |Upto(s, Pos(m))| && Low(before, Pos(m))
    decreases |u|
  {
    LowCut(s, Pos(m));
    if u == [] {
      before := Upto(s, Pos(m));
      WalkOver(m, rest, s, before, Above(s, Pos(m)));
      Regroup(before, [m], Walk(rest, Above(s, Pos(m))));
      assert u + ([m] + rest) == [m] + rest;
    } else {
      var x, tail := u[0], u[1..];
      assert u + ([m] + rest) == [x] + (tail + ([m] + rest));
      LowCut(s, Pos(x));
      var later := WalkToLast(tail, m, rest, Above(s, Pos(x)));
      before := WalkLastStep(x, tail + ([m] + rest), later, m, rest, s);
    }
  }

  lemma WalkLastStep(x: Message, tail: seq<Message>, later: seq<Message>, m: Message, rest: seq<Message>,
                     s: seq<Message>)
    returns (before: seq<Message>)
    requires Placed(x) && Pos(x) <= Pos(m) && Ascending(s) && Low(Upto(s, Pos(x)), Pos(x)) && Low(later, Pos(m))
    requires Walk(tail, Above(s, Pos(x))) == later + ([m] + Walk(rest, Above(Above(s, Pos(x)), Pos(m))))
    ensures Walk([x] + tail, s) == before + ([m] + Walk(rest, Above(s, Pos(m))))
    ensures Low(before, Pos(m))
    ensures |before| == 1 + |later| + |Upto(s, Pos(m))| - |Upto(Above(s, Pos(x)), Pos(m))|
  {
    var u := Upto(s, Pos(x));
    WalkOver(x, tail, s, u, Above(s, Pos(x)));
    CutFurther(s, Pos(x), Pos(m));
    before := u + [x] + later;
    LowConcat(u, x, later, Pos(m));
    Regroup(u + [x], later, [m] + Walk(rest, Above(s, Pos(m))));
  }

  /** A walk moves the fence by what sorts at or before it; by position it stays where it is. */
  lemma FenceWalks(f: Fence, s: seq<Message>) returns (g: Fence)
    requires Fenced(f) && Ascending(s)
    ensures Fenced(g) && Whole(g) == Walk(Whole(f), s)
    ensures g.last == f.last && |g.before| == |f.before| + |Upto(s, Pos(f.last))|
  {
    var tail, later := [f.bubble] + f.after, Above(s, Pos(f.last));
    LowCut(s, Pos(f.last));
    var before := WalkToLast(f.before, f.last, tail, s);
    assert !HasPlaced([f.bubble]);
    BubbleThenPlaced(f.bubble, f.after, later);
    g := Fence(before, f.last, f.bubble, Walk(f.after, later));
  }

  lemma BubbleThenPlaced(bubble: Message, after: seq<Message>, s: seq<Message>)
    requires !Placed(bubble) && HasPlaced(after) && AllPlaced(s)
    ensures Walk([bubble] + after, s) == [bubble] + Walk(after, s) && HasPlaced(Walk(after, s))
  {
    WalkOver(bubble, after, s, [], s);
    assert [] + [bubble] == [bubble];
    WalkKeepsPlaced(after, s);
  }

  /** A fenced thread starts with a placed message. */
  lemma FenceStarts(f: Fence)
    requires Fenced(f)
    ensures Whole(f) != [] && Placed(Whole(f)[0]) && HasPlaced(Whole(f))
  {
    assert Whole(f)[0] == if f.before == [] then f.last else f.before[0];
  }

  lemma FenceMoves(f: Fence, page: seq<Message>) returns (g: Fence)
    requires Fenced(f) && Sound(Whole(f), page)
    ensures Fenced(g) && Whole(g) == Merged(Whole(f), page)
    ensures g.last == f.last && |g.before| == |f.before| + |Upto(Run(Whole(f), page), Pos(f.last))|
  {
    FenceStarts(f);
    MergedIsRun(Whole(f), page);
    MergedRunPlaced(Whole(f), Run(Whole(f), page));
    g := FenceWalks(f, Run(Whole(f), page));
  }

  /** A page that reaches behind a leading bubble fences it. */
  lemma ReachFences(b: seq<Message>, p: seq<Message>, s: seq<Message>) returns (f: Fence)
    requires !HasPlaced(b) && b != [] && p != [] && Placed(p[0]) && Ascending(s) && Upto(s, Pos(p[0])) != []
    ensures Fenced(f) && Whole(f) == MergedRun(b + p, s)
    ensures |f.before| == |Upto(s, Pos(p[0]))| - 1 && Pos(f.last) == LastPos(Upto(s, Pos(p[0])))
  {
    MergedRunForm(b, p, s);
    WalkStart(p, Above(s, Pos(p[0])));
    Cut(s, Pos(p[0]));
    f := FenceBetween(Upto(s, Pos(p[0])), b, Walk(p, Above(s, Pos(p[0]))));
  }

  lemma FenceBetween(u: seq<Message>, b: seq<Message>, w: seq<Message>) returns (f: Fence)
    requires Ascending(u) && u != [] && !HasPlaced(b) && b != [] && w != [] && Placed(w[0])
    ensures Fenced(f) && Whole(f) == u + (b + w) && |f.before| == |u| - 1 && Pos(f.last) == LastPos(u)
  {
    var n := |u| - 1;
    f := Fence(u[..n], u[n], b[0], b[1..] + w);
    assert !Placed(b[0]) && f.after[|b| - 1] == w[0];
    assert u == u[..n] + [u[n]] && b == [b[0]] + b[1..];
  }

  lemma WholesDiffer(f: Fence, g: Fence)
    requires Fenced(f) && Fenced(g) && |f.before| < |g.before|
    ensures Whole(f) != Whole(g)
  {
    var n := |f.before| + 1;
    assert Whole(f)[n] == f.bubble;
    assert Whole(g)[n] == if n < |g.before| then g.before[n] else g.last;
  }

  /** The same page moves the further fence at least as far. */
  lemma FencesMove(f: Fence, g: Fence, page: seq<Message>) returns (f': Fence, g': Fence)
    requires Fenced(f) && Fenced(g) && |f.before| < |g.before| && Pos(f.last) <= Pos(g.last)
    requires Sound(Whole(f), page) && Sound(Whole(g), page) && Incoming(Whole(f), page) == Incoming(Whole(g), page)
    ensures Fenced(f') && Whole(f') == Merged(Whole(f), page) && Fenced(g') && Whole(g') == Merged(Whole(g), page)
    ensures |f'.before| < |g'.before| && Pos(f'.last) <= Pos(g'.last)
  {
    f' := FenceMoves(f, page);
    g' := FenceMoves(g, page);
    CutFurther(Run(Whole(f), page), Pos(f.last), Pos(g.last));
  }

  ghost predicate SameNews(t1: seq<Message>, t2: seq<Message>, pages: multiset<seq<Message>>) {
    && Mergeable(t1, pages) && Mergeable(t2, pages)
    && forall q :: q in pages ==> Incoming(t1, q) == Incoming(t2, q)
  }

  lemma SameNewsLater(t1: seq<Message>, t2: seq<Message>, p: seq<Message>, tail: seq<seq<Message>>)
    requires SameNews(t1, t2, multiset([p] + tail))
    ensures Sound(t1, p) && Sound(t2, p) && Incoming(t1, p) == Incoming(t2, p)
    ensures SameNews(Merged(t1, p), Merged(t2, p), multiset(tail))
  {
    var pages := multiset([p] + tail);
    assert p in pages && multiset(tail) == pages - multiset{p};
    MergeKeepsMergeable(t1, p, pages);
    MergeKeepsMergeable(t2, p, pages);
  }

  /** Fences at different places stay at different places, whatever else is merged. */
  lemma {:induction false} FencesStayApart(f: Fence, g: Fence, rest: seq<seq<Message>>)
    requires Fenced(f) && Fenced(g) && |f.before| < |g.before| && Pos(f.last) <= Pos(g.last)
    requires SameNews(Whole(f), Whole(g), multiset(rest))
    ensures MergedAll(Whole(f), rest) != MergedAll(Whole(g), rest)
    decreases |rest|
  {
    if rest == [] {
      WholesDiffer(f, g);
    } else {
      var p, tail := rest[0], rest[1..];
      assert rest == [p] + tail;
      SameNewsLater(Whole(f), Whole(g), p, tail);
      var f', g' := FencesMove(f, g, p);
      FencesStayApart(f', g', tail);
      MergedAllCons(Whole(f), p, tail);
      MergedAllCons(Whole(g), p, tail);
    }
  }

  /** The thread that two such pages make, the first one fencing the bubble. */
  lemma FirstThenSecond(current: seq<Message>, b: seq<Message>, p: seq<Message>, p1: seq<Message>, p2: seq<Message>)
    returns (f: Fence)
    requires current == b + p && !HasPlaced(b) && b != [] && p != [] && Placed(p[0]) && HasPlaced(current)
    requires Sound(current, p1) && Sound(current, p2) && Independent(current, p1, p2)
    requires Upto(Run(current, p1), Pos(p[0])) != []
    ensures Fenced(f) && Whole(f) == Merged(Merged(current, p1), p2)
    ensures Pos(f.last) == LastPos(Upto(Run(current, p1), Pos(p[0])))
    ensures |f.before| == |Upto(Run(current, p1), Pos(p[0]))| - 1 + |Upto(Run(current, p2), Pos(f.last))|
  {
    MergedIsRun(current, p1);
    var first := ReachFences(b, p, Run(current, p1));
    MergeKeepsOthers(current, p1, p2);
    f := FenceMoves(first, p2);
  }

  /** The two threads that two such pages make, by which comes first. */
  lemma TwoFences(current: seq<Message>, p1: seq<Message>, p2: seq<Message>) returns (f: Fence, g: Fence)
    requires Sound(current, p1) && Sound(current, p2) && Independent(current, p1, p2) && BothReach(current, p1, p2)
    ensures Fenced(f) && Whole(f) == Merged(Merged(current, p1), p2)
    ensures Fenced(g) && Whole(g) == Merged(Merged(current, p2), p1)
    ensures Pos(f.last) < Pos(g.last) ==> |f.before| < |g.before|
    ensures Pos(g.last) < Pos(f.last) ==> |g.before| < |f.before|
    ensures Pos(f.last) != Pos(g.last)
  {
    var b, p := SplitLead(current);
    ReachesIffUpto(current, p1);
    ReachesIffUpto(current, p2);
    RunsApart(current, p1, p2);
    LastsApart(Run(current, p1), Run(current, p2), Pos(p[0]));
    f := FirstThenSecond(current, b, p, p1, p2);
    g := FirstThenSecond(current, b, p, p2, p1);
    TwoCuts(Run(current, p1), Run(current, p2), Pos(p[0]));
  }

  /** Of two runs that end at different positions, the one that ends later puts more ahead of the bubble. */
  lemma TwoCuts(s1: seq<Message>, s2: seq<Message>, limit: int)
    requires Ascending(s1) && Ascending(s2) && Upto(s1, limit) != [] && Upto(s2, limit) != []
    ensures var l1, l2 := LastPos(Upto(s1, limit)), LastPos(Upto(s2, limit));
      var n1, n2 := |Upto(s1, limit)| + |Upto(s2, l1)|, |Upto(s2, limit)| + |Upto(s1, l2)|;
      (l1 < l2 ==> n1 < n2) && (l2 < l1 ==> n2 < n1)
  {
    var l1, l2 := LastPos(Upto(s1, limit)), LastPos(Upto(s2, limit));
    assert l1 <= limit by { Cut(s1, limit); }
    assert l2 <= limit by { Cut(s2, limit); }
    CutSizes(s2, limit, l1);
    CutSizes(s1, limit, l2);
  }

  lemma TwoMergesLeave(current: seq<Message>, p1: seq<Message>, p2: seq<Message>, rest: multiset<seq<Message>>)
    requires Mergeable(current, multiset{p1, p2} + rest)
    ensures Mergeable(Merged(Merged(current, p1), p2), rest)
    ensures forall q :: q in rest ==> Incoming(Merged(Merged(current, p1), p2), q) == Incoming(current, q)
  {
    var all, second := multiset{p1, p2} + rest, multiset{p2} + rest;
    assert all - multiset{p1} == second && second - multiset{p2} == rest;
    MergeKeepsMergeable(current, p1, all);
    MergeKeepsMergeable(Merged(current, p1), p2, second);
    assert forall q :: q in rest ==> q in second;
  }

  lemma NewsAfterTwo(current: seq<Message>, p1: seq<Message>, p2: seq<Message>, rest: multiset<seq<Message>>)
    requires Mergeable(current, multiset{p1, p2} + rest)
    ensures SameNews(Merged(Merged(current, p1), p2), Merged(Merged(current, p2), p1), rest)
  {
    TwoMergesLeave(current, p1, p2, rest);
    assert multiset{p1, p2} == multiset{p2, p1};
    TwoMergesLeave(current, p2, p1, rest);
  }

  /** Two pages that both reach behind a leading bubble: two orders of all the pages that differ. */
  lemma OrdersDiffer(current: seq<Message>, p1: seq<Message>, p2: seq<Message>, rest: seq<seq<Message>>)
    requires Sound(current, p1) && Sound(current, p2) && Independent(current, p1, p2) && BothReach(current, p1, p2)
    requires SameNews(Merged(Merged(current, p1), p2), Merged(Merged(current, p2), p1), multiset(rest))
    ensures MergedAll(current, [p1, p2] + rest) != MergedAll(current, [p2, p1] + rest)
  {
    var f, g := TwoFences(current, p1, p2);
    TwoFirst(current, p1, p2, rest);
    TwoFirst(current, p2, p1, rest);
    if Pos(f.last) < Pos(g.last) {
      FencesStayApart(f, g, rest);
    } else {
      SameNewsTurned(Whole(f), Whole(g), multiset(rest));
      FencesStayApart(g, f, rest);
    }
  }

  lemma SameNewsTurned(t1: seq<Message>, t2: seq<Message>, pages: multiset<seq<Message>>)
    requires SameNews(t1, t2, pages)
    ensures SameNews(t2, t1, pages)
  {}

  lemma TwoFirst(current: seq<Message>, p1: seq<Message>, p2: seq<Message>, rest: seq<seq<Message>>)
    ensures MergedAll(current, [p1, p2] + rest) == MergedAll(Merged(Merged(current, p1), p2), rest)
  {
    assert [p1, p2] + rest == [p1] + ([p2] + rest);
    MergedAllCons(current, p1, [p2] + rest);
    MergedAllCons(Merged(current, p1), p2, rest);
  }

  // ----- The result -----

  /**
   * Any number of sound pages, each independent of every other: every order they can arrive in
   * makes the same thread if and only if no two of them reach behind an unsent bubble that leads
   * a thread with positions.
   */
  lemma PagesInAnyOrderExactlyWhen(current: seq<Message>, pages: seq<seq<Message>>)
    requires Mergeable(current, multiset(pages))
    ensures (forall order :: multiset(order) == multiset(pages) ==>
               MergedAll(current, order) == MergedAll(current, pages))
            <==> OneReaches(current, multiset(pages))
  {
    if OneReaches(current, multiset(pages)) {
      forall order | multiset(order) == multiset(pages) ensures MergedAll(current, order) == MergedAll(current, pages) {
        AnyOrder(current, pages, order);
      }
    } else {
      var order := SomeOrderDiffers(current, pages);
    }
  }

  lemma SomeOrderDiffers(current: seq<Message>, pages: seq<seq<Message>>) returns (order: seq<seq<Message>>)
    requires Mergeable(current, multiset(pages)) && !OneReaches(current, multiset(pages))
    ensures multiset(order) == multiset(pages) && MergedAll(current, order) != MergedAll(current, pages)
  {
    var p1, p2 :| p1 in multiset(pages) && p2 in multiset(pages) - multiset{p1} && BothReach(current, p1, p2);
    var rest := Others(pages, p1, p2);
    TwoOrders(current, p1, p2, rest, multiset(pages));
    order := Other(MergedAll(current, [p1, p2] + rest), [p1, p2] + rest,
                   MergedAll(current, [p2, p1] + rest), [p2, p1] + rest, MergedAll(current, pages));
  }

  lemma TwoOrders(current: seq<Message>, p1: seq<Message>, p2: seq<Message>, rest: seq<seq<Message>>,
                  all: multiset<seq<Message>>)
    requires Mergeable(current, all) && all == multiset{p1, p2} + multiset(rest)
    requires p1 in all && p2 in all - multiset{p1} && BothReach(current, p1, p2)
    ensures MergedAll(current, [p1, p2] + rest) != MergedAll(current, [p2, p1] + rest)
    ensures multiset([p1, p2] + rest) == all == multiset([p2, p1] + rest)
  {
    Pair(current, all, p1, p2);
    NewsAfterTwo(current, p1, p2, multiset(rest));
    OrdersDiffer(current, p1, p2, rest);
    SameTwo(p1, p2, rest);
  }

  lemma SameTwo<T>(a: T, b: T, rest: seq<T>)
    ensures multiset([a, b] + rest) == multiset{a, b} + multiset(rest) == multiset([b, a] + rest)
  {}

  /** Of two things that differ, one that is not a given thing. */
  function Other<T(==), U>(x: T, byX: U, y: T, byY: U, z: T): (r: U)
    requires x != y
    ensures (r == byX && x != z) || (r == byY && y != z)
  {
    if x != z then byX else byY
  }

  lemma Others(pages: seq<seq<Message>>, p1: seq<Message>, p2: seq<Message>) returns (rest: seq<seq<Message>>)
    requires p1 in multiset(pages) && p2 in multiset(pages) - multiset{p1}
    ensures multiset{p1, p2} + multiset(rest) == multiset(pages)
  {
    var others := LeaveOut(pages, p1);
    rest := LeaveOut(others, p2);
    PutBack(multiset(pages), p1, p2);
  }

  lemma LeaveOut<T>(s: seq<T>, x: T) returns (rest: seq<T>)
    requires x in multiset(s)
    ensures multiset(rest) == multiset(s) - multiset{x}
  {
    var k :| 0 <= k < |s| && s[k] == x;
    rest := s[..k] + s[k + 1..];
    TakeOut(s, k);
  }

  lemma PutBack<T>(all: multiset<T>, a: T, b: T)
    requires a in all && b in all - multiset{a}
    ensures multiset{a, b} + (all - multiset{a} - multiset{b}) == all
  {}
}
