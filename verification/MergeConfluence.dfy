/**
 * Whether the order in which pages arrive matters to the thread they make
 * (apps/mobile/lib/historyPages.ts). Two pages merged one after the other give the same thread
 * either way, except when an unsent bubble leads a thread that both pages reach behind.
 */
module MergeConfluence {
  import opened Prelude
  import opened HistoryPages

  /** Two ordered runs of messages as one; `a` first where positions are equal. */
  function Zip(a: seq<Message>, b: seq<Message>): seq<Message>
    decreases |a| + |b|
  {
    if a == [] then b
    else if b == [] then a
    else if Pos(a[0]) <= Pos(b[0]) then [a[0]] + Zip(a[1..], b)
    else [b[0]] + Zip(a, b[1..])
  }

  /** No message of one run shares a position with one of the other. */
  predicate Apart(a: seq<Message>, b: seq<Message>) {
    forall i, j :: 0 <= i < |a| && 0 <= j < |b| ==> Pos(a[i]) != Pos(b[j])
  }

  lemma {:induction false} ZipCommutes(a: seq<Message>, b: seq<Message>)
    requires Apart(a, b)
    ensures Zip(a, b) == Zip(b, a)
    decreases |a| + |b|
  {
    if a != [] && b != [] {
      if Pos(a[0]) <= Pos(b[0]) {
        ZipCommutes(a[1..], b);
      } else {
        ZipCommutes(a, b[1..]);
      }
    }
  }

  lemma {:induction false} ZipPlaced(a: seq<Message>, b: seq<Message>)
    requires AllPlaced(a) && AllPlaced(b)
    ensures AllPlaced(Zip(a, b)) && |Zip(a, b)| == |a| + |b|
    decreases |a| + |b|
  {
    if a != [] && b != [] {
      if Pos(a[0]) <= Pos(b[0]) {
        ZipPlaced(a[1..], b);
      } else {
        ZipPlaced(a, b[1..]);
      }
    }
  }

  // ----- Cutting at a position -----

  /** All of `s` is at or before `limit`. */
  predicate Within(s: seq<Message>, limit: int) {
    forall k :: 0 <= k < |s| ==> Pos(s[k]) <= limit
  }

  /** All of `s` is after `limit`. */
  predicate Beyond(s: seq<Message>, limit: int) {
    forall k :: 0 <= k < |s| ==> Pos(s[k]) > limit
  }

  lemma {:induction false} CutIsUnique(a: seq<Message>, b: seq<Message>, limit: int)
    requires AllPlaced(a + b) && Within(a, limit) && (b == [] || Pos(b[0]) > limit)
    ensures Upto(a + b, limit) == a && Above(a + b, limit) == b
  {
    if a == [] {
      assert a + b == b;
    } else {
      assert (a + b)[0] == a[0] && (a + b)[1..] == a[1..] + b;
      CutIsUnique(a[1..], b, limit);
    }
  }

  lemma Cut(s: seq<Message>, limit: int)
    requires Ascending(s)
    ensures s == Upto(s, limit) + Above(s, limit)
    ensures Within(Upto(s, limit), limit) && Beyond(Above(s, limit), limit)
    ensures Ascending(Upto(s, limit)) && Ascending(Above(s, limit))
  {
    UptoSplits(s, limit);
  }

  lemma CutStep(s: seq<Message>, limit: int)
    requires AllPlaced(s) && s != [] && Pos(s[0]) <= limit
    ensures Upto(s, limit) == [s[0]] + Upto(s[1..], limit) && Above(s, limit) == Above(s[1..], limit)
  {}

  /** Cutting at a later position cuts the remainder of an earlier cut. */
  lemma {:induction false} CutFurther(s: seq<Message>, lo: int, hi: int)
    requires AllPlaced(s) && lo <= hi
    ensures Upto(s, hi) == Upto(s, lo) + Upto(Above(s, lo), hi)
    ensures Above(Above(s, lo), hi) == Above(s, hi)
    decreases |s|
  {
    if s == [] || Pos(s[0]) > lo {
      assert Upto(s, lo) == [] && Above(s, lo) == s;
    } else {
      CutStep(s, lo);
      CutStep(s, hi);
      CutFurther(s[1..], lo, hi);
    }
  }

  lemma {:induction false} CutAgain(s: seq<Message>, lo: int, hi: int)
    requires AllPlaced(s) && lo <= hi
    ensures Upto(Upto(s, hi), lo) == Upto(s, lo)
    ensures Above(Upto(s, hi), lo) == Upto(Above(s, lo), hi)
    decreases |s|
  {
    if s == [] || Pos(s[0]) > lo {
      assert Upto(s, lo) == [] && Above(s, lo) == s;
      assert Upto(Upto(s, hi), lo) == [];
    } else {
      CutStep(s, lo);
      CutStep(s, hi);
      CutAgain(s[1..], lo, hi);
      CutStep(Upto(s, hi), lo);
    }
  }

  lemma {:induction false} ZipWithin(a: seq<Message>, b: seq<Message>, limit: int)
    requires Within(a, limit) && Within(b, limit)
    ensures Within(Zip(a, b), limit)
    decreases |a| + |b|
  {
    if a != [] && b != [] {
      if Pos(a[0]) <= Pos(b[0]) { ZipWithin(a[1..], b, limit); } else { ZipWithin(a, b[1..], limit); }
    }
  }

  lemma ZipNothing(a: seq<Message>)
    ensures Zip(a, []) == a && Zip([], a) == a
  {}

  lemma ZipLeft(a: seq<Message>, b: seq<Message>)
    requires a != [] && (b == [] || Pos(a[0]) <= Pos(b[0]))
    ensures Zip(a, b) == [a[0]] + Zip(a[1..], b)
  {
    if b == [] { ZipNothing(a[1..]); }
  }

  lemma ZipRight(a: seq<Message>, b: seq<Message>)
    requires b != [] && (a == [] || Pos(a[0]) > Pos(b[0]))
    ensures Zip(a, b) == [b[0]] + Zip(a, b[1..])
  {
    if a == [] { ZipNothing(b[1..]); }
  }

  /** A run that ends before the other starts goes first, whichever side it is on. */
  lemma {:induction false} ZipFirst(a: seq<Message>, a': seq<Message>, b': seq<Message>, limit: int)
    requires Within(a, limit) && Beyond(b', limit)
    ensures Zip(a + a', b') == a + Zip(a', b')
    decreases |a|
  {
    if a == [] {
      assert a + a' == a';
    } else {
      var whole := a + a';
      assert whole[0] == a[0] && whole[1..] == a[1..] + a';
      ZipLeft(whole, b');
      ZipFirst(a[1..], a', b', limit);
      OneMore(a, Zip(a', b'));
    }
  }

  lemma {:induction false} ZipSecond(b: seq<Message>, a': seq<Message>, b': seq<Message>, limit: int)
    requires Within(b, limit) && Beyond(a', limit)
    ensures Zip(a', b + b') == b + Zip(a', b')
    decreases |b|
  {
    if b == [] {
      assert b + b' == b';
    } else {
      var whole := b + b';
      assert whole[0] == b[0] && whole[1..] == b[1..] + b';
      ZipRight(a', whole);
      ZipSecond(b[1..], a', b', limit);
      OneMore(b, Zip(a', b'));
    }
  }

  lemma OneMore(a: seq<Message>, rest: seq<Message>)
    requires a != []
    ensures [a[0]] + (a[1..] + rest) == a + rest
  {}

  lemma {:induction false} ZipParts(a: seq<Message>, b: seq<Message>, a': seq<Message>, b': seq<Message>, limit: int)
    requires Within(a, limit) && Within(b, limit) && Beyond(a', limit) && Beyond(b', limit)
    ensures Zip(a + a', b + b') == Zip(a, b) + Zip(a', b')
    decreases |a| + |b|
  {
    if a == [] || b == [] {
      ZipNothing(a);
      ZipNothing(b);
      ZipFirst(a, a', b', limit);
      ZipSecond(b, a', b', limit);
      assert [] + a' == a' && [] + b' == b';
    } else {
      assert (a + a')[0] == a[0] && (a + a')[1..] == a[1..] + a';
      assert (b + b')[0] == b[0] && (b + b')[1..] == b[1..] + b';
      if Pos(a[0]) <= Pos(b[0]) {
        ZipParts(a[1..], b, a', b', limit);
      } else {
        ZipParts(a, b[1..], a', b', limit);
      }
    }
  }

  /** Zipping and cutting commute. */
  lemma ZipCut(a: seq<Message>, b: seq<Message>, limit: int)
    requires Ascending(a) && Ascending(b)
    ensures AllPlaced(Zip(a, b))
    ensures Upto(Zip(a, b), limit) == Zip(Upto(a, limit), Upto(b, limit))
    ensures Above(Zip(a, b), limit) == Zip(Above(a, limit), Above(b, limit))
  {
    Cut(a, limit);
    Cut(b, limit);
    ZipPlaced(a, b);
    ZipOfCuts(Upto(a, limit), Upto(b, limit), Above(a, limit), Above(b, limit), limit);
  }

  lemma ZipOfCuts(u: seq<Message>, v: seq<Message>, u': seq<Message>, v': seq<Message>, limit: int)
    requires Within(u, limit) && Within(v, limit) && Beyond(u', limit) && Beyond(v', limit)
    requires AllPlaced(Zip(u + u', v + v'))
    ensures Upto(Zip(u + u', v + v'), limit) == Zip(u, v) && Above(Zip(u + u', v + v'), limit) == Zip(u', v')
  {
    ZipParts(u, v, u', v', limit);
    ZipWithin(u, v, limit);
    assert Zip(u', v') == [] ||
        Zip(u', v')[0] == (if u' == [] || (v' != [] && Pos(u'[0]) > Pos(v'[0])) then v'[0] else u'[0]);
    CutIsUnique(Zip(u, v), Zip(u', v'), limit);
  }

  /** An element splits a zip into what goes before it and what goes after. */
  lemma {:induction false} ZipAtHead(s: seq<Message>, m: Message, t: seq<Message>)
    requires Ascending(s)
    ensures Zip(s, [m] + t) == Upto(s, Pos(m)) + [m] + Zip(Above(s, Pos(m)), t)
    decreases |s|
  {
    var tail := [m] + t;
    assert tail[1..] == t && tail[0] == m;
    if s == [] {
      assert Zip(s, tail) == tail;
    } else if Pos(s[0]) <= Pos(m) {
      ZipAtHead(s[1..], m, t);
      var u, v := Upto(s[1..], Pos(m)), Zip(Above(s[1..], Pos(m)), t);
      assert Above(s, Pos(m)) == Above(s[1..], Pos(m));
      assert [s[0]] + (u + [m] + v) == ([s[0]] + u) + [m] + v;
    } else {
      assert Above(s, Pos(m)) == s;
    }
  }

  // ----- Two walks are one -----

  lemma {:induction false} WalkKeepsPlaced(current: seq<Message>, s: seq<Message>)
    requires AllPlaced(s) && HasPlaced(current)
    ensures HasPlaced(Walk(current, s))
    decreases |current|
  {
    if Placed(current[0]) {
      assert current[0] in Walk(current, s);
    } else {
      PlacedInTail(current);
      WalkKeepsPlaced(current[1..], s);
      var m :| m in Walk(current[1..], s) && Placed(m);
      assert m in Walk(current, s);
    }
  }

  lemma PlacedInTail(s: seq<Message>)
    requires HasPlaced(s) && !Placed(s[0])
    ensures HasPlaced(s[1..])
  {
    var k :| 0 <= k < |s| && Placed(s[k]);
    assert s[1..][k - 1] == s[k];
  }

  /** Walking past an ordered run `u` that ends before `m`, then `m`, then the rest. */
  lemma {:induction false} WalkPast(u: seq<Message>, m: Message, rest: seq<Message>, s: seq<Message>)
    requires Ascending(u) && Ascending(s) && Placed(m) && Within(u, Pos(m))
    ensures Walk(u + [m] + rest, s) == Zip(Upto(s, Pos(m)), u) + [m] + Walk(rest, Above(s, Pos(m)))
    decreases |u|
  {
    var whole, hi := u + [m] + rest, Pos(m);
    if u == [] {
      assert whole == [m] + rest && whole[1..] == rest;
      WalkHead(whole, s);
      assert Zip(Upto(s, hi), []) == Upto(s, hi);
    } else {
      var x, lo := u[0], Pos(u[0]);
      assert whole[0] == x && whole[1..] == u[1..] + [m] + rest;
      WalkHead(whole, s);
      Cut(s, lo);
      WalkPast(u[1..], m, rest, Above(s, lo));
      ZipPast(u, hi, s);
      CutFurther(s, lo, hi);
      Regroup5(Upto(s, lo), [x], Zip(Upto(Above(s, lo), hi), u[1..]), [m], Walk(rest, Above(s, hi)));
    }
  }

  lemma Regroup5(a: seq<Message>, b: seq<Message>, c: seq<Message>, d: seq<Message>, e: seq<Message>)
    ensures a + b + (c + d + e) == (a + b + c) + d + e
  {}

  lemma ZipPast(u: seq<Message>, hi: int, s: seq<Message>)
    requires AllPlaced(u) && Ascending(s) && u != [] && Pos(u[0]) <= hi
    ensures Zip(Upto(s, hi), u) == Upto(s, Pos(u[0])) + [u[0]] + Zip(Upto(Above(s, Pos(u[0])), hi), u[1..])
  {
    CutAgain(s, Pos(u[0]), hi);
    UptoSplits(s, hi);
    assert u == [u[0]] + u[1..];
    ZipAtHead(Upto(s, hi), u[0], u[1..]);
  }

  lemma {:induction false} WalkBubblesOnly(run: seq<Message>, bubbles: seq<Message>, s: seq<Message>)
    requires Ascending(run) && Ascending(s) && !HasPlaced(bubbles)
    ensures Walk(run + bubbles, s) == Zip(s, run) + bubbles
    decreases |run|
  {
    if run == [] {
      assert run + bubbles == bubbles;
      assert Zip(s, []) == s;
    } else {
      var whole, lo := run + bubbles, Pos(run[0]);
      assert whole[0] == run[0] && whole[0] in whole && whole[1..] == run[1..] + bubbles;
      Cut(s, lo);
      WalkBubblesOnly(run[1..], bubbles, Above(s, lo));
      assert run == [run[0]] + run[1..];
      ZipAtHead(s, run[0], run[1..]);
    }
  }

  /** Walking twice is walking once with both runs zipped together. */
  lemma {:induction false} WalkTwice(current: seq<Message>, s1: seq<Message>, s2: seq<Message>)
    requires Ascending(s1) && Ascending(s2)
    ensures AllPlaced(Zip(s2, s1))
    ensures Walk(Walk(current, s1), s2) == Walk(current, Zip(s2, s1))
    decreases |current|
  {
    ZipPlaced(s2, s1);
    if !HasPlaced(current) {
      WalkBubblesOnly(s1, current, s2);
    } else if Placed(current[0]) {
      var m, limit := current[0], Pos(current[0]);
      Cut(s1, limit);
      Cut(s2, limit);
      var rest := Walk(current[1..], Above(s1, limit));
      WalkPast(Upto(s1, limit), m, rest, s2);
      WalkTwice(current[1..], Above(s1, limit), Above(s2, limit));
      ZipCut(s2, s1, limit);
    } else {
      PlacedInTail(current);
      WalkKeepsPlaced(current[1..], s1);
      var inner := Walk(current[1..], s1);
      assert Walk(current, s1) == [current[0]] + inner;
      var x :| x in inner && Placed(x);
      assert x in Walk(current, s1);
      assert Walk(current, s1)[1..] == inner;
      WalkTwice(current[1..], s1, s2);
    }
  }

  // ----- Merging pages one after the other -----

  /** The merge of messages already in order. */
  function MergedRun(current: seq<Message>, s: seq<Message>): seq<Message>
    requires AllPlaced(s)
  {
    if !HasPlaced(current) then s + current
    else Upto(s, FirstPlaced(current)) + Walk(current, Above(s, FirstPlaced(current)))
  }

  lemma {:induction false} WalkNothing(current: seq<Message>)
    ensures Walk(current, []) == current
    decreases |current|
  {
    if !HasPlaced(current) {
      assert [] + current == current;
    } else {
      var m, rest := current[0], current[1..];
      assert current == [m] + rest;
      if !Placed(m) { PlacedInTail(current); }
      WalkNothing(rest);
      WalkOver(m, rest, [], [], []);
      assert [] + [m] == [m];
    }
  }

  /** The new messages of a page, as the merge orders them. */
  function Run(current: seq<Message>, page: seq<Message>): seq<Message>
    requires AllPlaced(Incoming(current, page))
  {
    SortByLamport(Incoming(current, page))
  }

  lemma MergedIsRun(current: seq<Message>, page: seq<Message>)
    requires AllPlaced(Incoming(current, page))
    requires HasPlaced(current) || Ascending(Incoming(current, page))
    ensures Merged(current, page) == MergedRun(current, Run(current, page))
  {
    var incoming := Incoming(current, page);
    if incoming == [] {
      WalkNothing(current);
      assert [] + current == current;
    } else if !HasPlaced(current) {
      SortOfAscending(incoming);
    }
  }

  lemma {:induction false} LeadingBubbles(b: seq<Message>, p: seq<Message>, s: seq<Message>)
    requires !HasPlaced(b) && p != [] && Placed(p[0]) && AllPlaced(s)
    ensures HasPlaced(b + p) && FirstPlaced(b + p) == Pos(p[0])
    ensures Walk(b + p, s) == b + Walk(p, s)
    decreases |b|
  {
    assert (b + p)[|b|] in b + p;
    if b == [] {
      assert b + p == p;
    } else {
      assert (b + p)[1..] == b[1..] + p && (b + p)[0] == b[0] && b[0] in b;
      assert forall m :: m in b[1..] ==> m in b;
      LeadingBubbles(b[1..], p, s);
    }
  }

  /** The merge into a thread of leading bubbles `b` and a body `p` that starts placed. */
  lemma MergedRunForm(b: seq<Message>, p: seq<Message>, s: seq<Message>)
    requires !HasPlaced(b) && p != [] && Placed(p[0]) && AllPlaced(s)
    ensures MergedRun(b + p, s) == Upto(s, Pos(p[0])) + (b + Walk(p, Above(s, Pos(p[0]))))
  {
    LeadingBubbles(b, p, Above(s, Pos(p[0])));
  }

  /** The merge into a thread that starts placed is the walk alone. */
  lemma MergedRunPlaced(p: seq<Message>, s: seq<Message>)
    requires p != [] && Placed(p[0]) && AllPlaced(s)
    ensures MergedRun(p, s) == Walk(p, s)
  {
    var limit := Pos(p[0]);
    CutOnce(s, limit);
    WalkHead(p, s);
    WalkHead(p, Above(s, limit));
    JoinHead(Upto(s, limit), p[0], Walk(p[1..], Above(s, limit)));
    assert HasPlaced(p) && FirstPlaced(p) == limit by { assert p[0] in p; }
  }

  lemma CutOnce(s: seq<Message>, limit: int)
    requires AllPlaced(s)
    ensures Upto(Above(s, limit), limit) == [] && Above(Above(s, limit), limit) == Above(s, limit)
  {
    CutFurther(s, limit, limit);
  }

  lemma JoinHead(u: seq<Message>, m: Message, tail: seq<Message>)
    ensures u + ([] + [m] + tail) == u + [m] + tail
  {}

  /** A walk starts with what sorts before the thread's start, or where the thread starts. */
  lemma WalkStart(p: seq<Message>, s: seq<Message>)
    requires p != [] && Placed(p[0]) && AllPlaced(s)
    ensures Walk(p, s) != [] && Placed(Walk(p, s)[0])
    ensures Upto(s, Pos(p[0])) == [] ==> Walk(p, s)[0] == p[0]
  {
    WalkHead(p, s);
    if Upto(s, Pos(p[0])) != [] {
      assert Walk(p, s)[0] == s[0];
    }
  }

  /** No leading bubble: two merges are one walk. */
  lemma TwoRunsNoLead(p: seq<Message>, s1: seq<Message>, s2: seq<Message>)
    requires p != [] && Placed(p[0]) && Ascending(s1) && Ascending(s2)
    ensures AllPlaced(Zip(s2, s1))
    ensures MergedRun(MergedRun(p, s1), s2) == Walk(p, Zip(s2, s1))
  {
    MergedRunPlaced(p, s1);
    WalkStart(p, s1);
    MergedRunPlaced(Walk(p, s1), s2);
    WalkTwice(p, s1, s2);
  }

  /** Nothing placed: both runs, zipped, ahead of the bubbles. */
  lemma TwoRunsNoPlace(bubbles: seq<Message>, s1: seq<Message>, s2: seq<Message>)
    requires !HasPlaced(bubbles) && Ascending(s1) && Ascending(s2)
    ensures MergedRun(MergedRun(bubbles, s1), s2) == Zip(s2, s1) + bubbles
  {
    if s1 == [] {
      assert s1 + bubbles == bubbles;
      assert Zip(s2, []) == s2;
    } else {
      var w := s1 + bubbles;
      assert w[0] == s1[0];
      MergedRunPlaced(w, s2);
      WalkBubblesOnly(s1, bubbles, s2);
    }
  }

  /** A leading bubble the first page does not reach behind: only the second page moves ahead of it. */
  lemma TwoRunsFirstShort(b: seq<Message>, p: seq<Message>, s1: seq<Message>, s2: seq<Message>)
    requires !HasPlaced(b) && p != [] && Placed(p[0]) && Ascending(s1) && Ascending(s2)
    requires Upto(s1, Pos(p[0])) == []
    ensures AllPlaced(Zip(Above(s2, Pos(p[0])), s1))
    ensures MergedRun(MergedRun(b + p, s1), s2) ==
            Upto(s2, Pos(p[0])) + (b + Walk(p, Zip(Above(s2, Pos(p[0])), s1)))
  {
    var limit := Pos(p[0]);
    assert MergedRun(b + p, s1) == b + Walk(p, s1) by {
      MergedRunForm(b, p, s1);
      assert Above(s1, limit) == s1;
    }
    WalkStart(p, s1);
    MergedRunForm(b, Walk(p, s1), s2);
    assert Ascending(Above(s2, limit)) by { Cut(s2, limit); }
    WalkTwice(p, s1, Above(s2, limit));
  }

  /** The position of a run's last message, and the run without it. */
  function LastPos(s: seq<Message>): int
    requires s != []
  {
    Pos(s[|s| - 1])
  }

  /** A leading bubble the first page reaches behind: it stays right after that page's older messages. */
  lemma TwoRunsFirstReaches(b: seq<Message>, p: seq<Message>, s1: seq<Message>, s2: seq<Message>)
    returns (older: seq<Message>, newer: seq<Message>)
    requires !HasPlaced(b) && p != [] && Placed(p[0]) && Ascending(s1) && Ascending(s2)
    requires Upto(s1, Pos(p[0])) != []
    ensures AllPlaced(older) && |older| == |Upto(s1, Pos(p[0]))| + |Upto(s2, LastPos(Upto(s1, Pos(p[0]))))|
    ensures Upto(s2, LastPos(Upto(s1, Pos(p[0])))) == [] ==> older == Upto(s1, Pos(p[0]))
    ensures AllPlaced(newer)
    ensures newer == Zip(Above(s2, LastPos(Upto(s1, Pos(p[0])))), Above(s1, Pos(p[0])))
    ensures MergedRun(MergedRun(b + p, s1), s2) == older + (b + Walk(p, newer))
  {
    FirstReaches(b, p, s1, s2);
    Cut(s1, Pos(p[0]));
    older, newer := TwoRunsAround(b, p, Upto(s1, Pos(p[0])), Above(s1, Pos(p[0])), s2);
  }

  lemma TwoRunsAround(b: seq<Message>, p: seq<Message>, u1: seq<Message>, r1: seq<Message>, s2: seq<Message>)
    returns (older: seq<Message>, newer: seq<Message>)
    requires !HasPlaced(b) && p != [] && Placed(p[0]) && u1 != []
    requires Ascending(u1) && Ascending(r1) && Ascending(s2)
    ensures AllPlaced(older) && |older| == |u1| + |Upto(s2, LastPos(u1))|
    ensures Upto(s2, LastPos(u1)) == [] ==> older == u1
    ensures AllPlaced(newer) && newer == Zip(Above(s2, LastPos(u1)), r1)
    ensures Walk(u1 + (b + Walk(p, r1)), s2) == older + (b + Walk(p, newer))
  {
    var init, last := u1[..|u1| - 1], u1[|u1| - 1];
    assert u1 == init + [last];
    assert Ascending(init) && Within(init, Pos(last));
    Cut(s2, Pos(last));
    older, newer := TwoRunsTail(b, p, init, last, r1, s2);
  }

  /** A page that reaches behind the leading bubbles leaves a thread that starts placed. */
  lemma FirstReaches(b: seq<Message>, p: seq<Message>, s1: seq<Message>, s2: seq<Message>)
    requires !HasPlaced(b) && p != [] && Placed(p[0]) && AllPlaced(s1) && AllPlaced(s2)
    requires Upto(s1, Pos(p[0])) != []
    ensures MergedRun(MergedRun(b + p, s1), s2) == Walk(Upto(s1, Pos(p[0])) + (b + Walk(p, Above(s1, Pos(p[0])))), s2)
  {
    MergedRunForm(b, p, s1);
    MergedRunPlaced(MergedRun(b + p, s1), s2);
  }

  lemma TwoRunsTail(b: seq<Message>, p: seq<Message>, init: seq<Message>, last: Message, r1: seq<Message>,
                    s2: seq<Message>)
    returns (older: seq<Message>, newer: seq<Message>)
    requires !HasPlaced(b) && p != [] && Placed(p[0]) && Placed(last)
    requires Ascending(init) && Within(init, Pos(last)) && Ascending(r1) && Ascending(s2)
    requires Ascending(Above(s2, Pos(last)))
    ensures AllPlaced(older) && |older| == |init| + 1 + |Upto(s2, Pos(last))|
    ensures Upto(s2, Pos(last)) == [] ==> older == init + [last]
    ensures AllPlaced(newer) && newer == Zip(Above(s2, Pos(last)), r1)
    ensures Walk(init + [last] + (b + Walk(p, r1)), s2) == older + (b + Walk(p, newer))
  {
    var a, w := Pos(last), Walk(p, r1);
    WalkPast(init, last, b + w, s2);
    WalkStart(p, r1);
    LeadingBubbles(b, w, Above(s2, a));
    WalkTwice(p, r1, Above(s2, a));
    ZipPlaced(Upto(s2, a), init);
    older, newer := Zip(Upto(s2, a), init) + [last], Zip(Above(s2, a), r1);
  }

  /** Threads whose first bubble sits at different places are different. */
  lemma BubblePlacesDiffer(x: seq<Message>, y: seq<Message>, b: seq<Message>, v: seq<Message>, w: seq<Message>)
    requires AllPlaced(x) && AllPlaced(y) && b != [] && !Placed(b[0]) && |x| < |y|
    ensures x + (b + v) != y + (b + w)
  {
    assert (x + (b + v))[|x|] == b[0] && (y + (b + w))[|x|] == y[|x|];
  }

  /** A run cut twice: the first cut takes all of it exactly when it is not below the last message. */
  lemma CutAll(first: seq<Message>, more: seq<Message>, at: int)
    requires first + more != [] && Within(first, at) && Beyond(more, at)
    ensures at < LastPos(first + more) <==> more != []
  {
    var u := first + more;
    if more == [] {
      assert u[|u| - 1] == first[|u| - 1];
    } else {
      assert u[|u| - 1] == more[|more| - 1];
    }
  }

  /** A cut below a run's last message leaves that message out; one at or after it takes it all. */
  lemma CutSizes(s: seq<Message>, limit: int, at: int)
    requires Ascending(s) && at <= limit && Upto(s, limit) != []
    ensures at < LastPos(Upto(s, limit)) ==> |Upto(s, at)| < |Upto(s, limit)|
    ensures at >= LastPos(Upto(s, limit)) ==> |Upto(s, at)| == |Upto(s, limit)|
  {
    var first, more := Upto(s, at), Upto(Above(s, at), limit);
    CutFurther(s, at, limit);
    Cut(s, at);
    CutAll(first, more, at);
  }

  /** Both pages reach behind the leading bubble: whichever holds the newest older message decides where it ends up. */
  lemma TwoRunsBothReach(b: seq<Message>, p: seq<Message>, s1: seq<Message>, s2: seq<Message>)
    requires b != [] && !HasPlaced(b) && p != [] && Placed(p[0]) && Ascending(s1) && Ascending(s2)
    requires var u1, u2 := Upto(s1, Pos(p[0])), Upto(s2, Pos(p[0]));
      u1 != [] && u2 != [] && LastPos(u1) < LastPos(u2)
    ensures MergedRun(MergedRun(b + p, s1), s2) != MergedRun(MergedRun(b + p, s2), s1)
  {
    var limit := Pos(p[0]);
    var lo, hi := LastPos(Upto(s1, limit)), LastPos(Upto(s2, limit));
    assert hi <= limit by { Cut(s2, limit); }
    CutSizes(s2, limit, lo);
    CutSizes(s1, limit, hi);
    var x, v := TwoRunsFirstReaches(b, p, s1, s2);
    var y, w := TwoRunsFirstReaches(b, p, s2, s1);
    assert b[0] in b;
    BubblePlacesDiffer(x, y, b, Walk(p, v), Walk(p, w));
  }

  // ----- The result -----

  /** The page brings a message that belongs at or before the first placed message of the thread. */
  ghost predicate ReachesBehind(current: seq<Message>, page: seq<Message>)
    requires HasPlaced(current)
  {
    exists m :: m in Incoming(current, page) && Pos(m) <= FirstPlaced(current)
  }

  ghost predicate NoSharedId(p1: seq<Message>, p2: seq<Message>) {
    forall m :: m in p1 ==> !Holds(p2, m)
  }

  lemma {:induction false} IncomingSame(c1: seq<Message>, c2: seq<Message>, page: seq<Message>)
    requires forall m :: m in page ==> (Holds(c1, m) <==> Holds(c2, m))
    ensures Incoming(c1, page) == Incoming(c2, page)
  {
    if page != [] {
      assert page[0] in page;
      assert forall m :: m in page[1..] ==> m in page;
      IncomingSame(c1, c2, page[1..]);
    }
  }

  lemma {:induction false} IncomingFromPage(current: seq<Message>, page: seq<Message>)
    ensures forall m :: m in Incoming(current, page) <==> m in page && !Holds(current, m)
  {
    if page != [] {
      IncomingFromPage(current, page[1..]);
      assert page == [page[0]] + page[1..];
    }
  }

  /** A page with no shared id changes nothing about what another page brings. */
  lemma IncomingUnchanged(current: seq<Message>, p1: seq<Message>, p2: seq<Message>)
    requires NoSharedId(p1, p2)
    ensures Incoming(Merged(current, p1), p2) == Incoming(current, p2)
  {
    MergeConserves(current, p1);
    IncomingFromPage(current, p1);
    var merged := Merged(current, p1);
    forall m | m in p2
      ensures Holds(merged, m) <==> Holds(current, m)
    {
      if Holds(merged, m) {
        var x :| x in merged && HasId(x) && x.id == m.id;
        assert x in multiset(merged);
        assert x in multiset(current) || x in multiset(Incoming(current, p1));
        assert x in p1 ==> !Holds(p2, x);
      }
      if Holds(current, m) {
        var x :| x in current && HasId(x) && x.id == m.id;
        assert x in multiset(current);
        assert x in multiset(merged);
      }
    }
    IncomingSame(merged, current, p2);
  }

  lemma {:induction false} SplitLead(s: seq<Message>) returns (b: seq<Message>, p: seq<Message>)
    requires HasPlaced(s)
    ensures s == b + p && !HasPlaced(b) && p != [] && Placed(p[0])
    ensures Pos(p[0]) == FirstPlaced(s) && (b == [] <==> Placed(s[0]))
  {
    if Placed(s[0]) {
      b, p := [], s;
    } else {
      PlacedInTail(s);
      b, p := SplitLead(s[1..]);
      b := [s[0]] + b;
    }
  }

  lemma ReachesIffUpto(current: seq<Message>, page: seq<Message>)
    requires HasPlaced(current) && AllPlaced(Incoming(current, page))
    ensures ReachesBehind(current, page) <==> Upto(Run(current, page), FirstPlaced(current)) != []
  {
    var s, limit := Run(current, page), FirstPlaced(current);
    if Upto(s, limit) != [] {
      assert s[0] in multiset(s);
      assert s[0] in Incoming(current, page);
    }
    if ReachesBehind(current, page) {
      var m :| m in Incoming(current, page) && Pos(m) <= limit;
      assert m in multiset(Incoming(current, page));
      assert m in multiset(s);
      assert m in s;
    }
  }

  lemma SortedFrom(s: seq<Message>, i: nat) returns (k: nat)
    requires AllPlaced(s) && i < |SortByLamport(s)|
    ensures k < |s| && s[k] == SortByLamport(s)[i]
  {
    var m := SortByLamport(s)[i];
    assert m in multiset(SortByLamport(s));
    assert m in s;
    k :| 0 <= k < |s| && s[k] == m;
  }

  lemma RunsApart(current: seq<Message>, p1: seq<Message>, p2: seq<Message>)
    requires AllPlaced(Incoming(current, p1)) && AllPlaced(Incoming(current, p2))
    requires Apart(Incoming(current, p1), Incoming(current, p2))
    ensures Apart(Run(current, p1), Run(current, p2))
  {
    forall i, j | 0 <= i < |Run(current, p1)| && 0 <= j < |Run(current, p2)|
      ensures Pos(Run(current, p1)[i]) != Pos(Run(current, p2)[j])
    {
      var k := SortedFrom(Incoming(current, p1), i);
      var l := SortedFrom(Incoming(current, p2), j);
    }
  }

  /**
   * Confluence. Two pages with no message in common, whose new messages all have a position and
   * never the same one, give the same thread in either order exactly when it is not the case that
   * an unsent bubble leads a thread with positions and both pages reach behind it. (A thread with
   * no position at all takes pages as they come, so there they have to be in order themselves.)
   */
  lemma MergeIsConfluent(current: seq<Message>, p1: seq<Message>, p2: seq<Message>)
    requires NoSharedId(p1, p2) && NoSharedId(p2, p1)
    requires AllPlaced(Incoming(current, p1)) && AllPlaced(Incoming(current, p2))
    requires Apart(Incoming(current, p1), Incoming(current, p2))
    requires HasPlaced(current) || (Ascending(Incoming(current, p1)) && Ascending(Incoming(current, p2)))
    ensures Merged(Merged(current, p1), p2) == Merged(Merged(current, p2), p1) <==>
            !(HasPlaced(current) && !Placed(current[0]) && ReachesBehind(current, p1) && ReachesBehind(current, p2))
  {
    var s1, s2 := Run(current, p1), Run(current, p2);
    RunsApart(current, p1, p2);
    MergedTwice(current, p1, p2);
    MergedTwice(current, p2, p1);
    ZipCommutes(s1, s2);
    if !HasPlaced(current) {
      TwoRunsNoPlace(current, s1, s2);
      TwoRunsNoPlace(current, s2, s1);
    } else {
      var b, p := SplitLead(current);
      RunsConfluent(b, p, s1, s2);
      ReachesIffUpto(current, p1);
      ReachesIffUpto(current, p2);
    }
  }

  lemma MergedTwice(current: seq<Message>, p1: seq<Message>, p2: seq<Message>)
    requires NoSharedId(p1, p2)
    requires AllPlaced(Incoming(current, p1)) && AllPlaced(Incoming(current, p2))
    requires HasPlaced(current) || (Ascending(Incoming(current, p1)) && Ascending(Incoming(current, p2)))
    ensures Merged(Merged(current, p1), p2) == MergedRun(MergedRun(current, Run(current, p1)), Run(current, p2))
  {
    MergedIsRun(current, p1);
    IncomingUnchanged(current, p1, p2);
    var merged := Merged(current, p1);
    if HasPlaced(current) {
      var m :| m in current && Placed(m);
      MergeConserves(current, p1);
      assert m in multiset(merged);
      assert m in merged;
    }
    MergedIsRun(merged, p2);
  }

  /** The same result for ordered runs, around leading bubbles `b` and a body `p`. */
  lemma RunsConfluent(b: seq<Message>, p: seq<Message>, s1: seq<Message>, s2: seq<Message>)
    requires !HasPlaced(b) && p != [] && Placed(p[0]) && Ascending(s1) && Ascending(s2) && Apart(s1, s2)
    ensures MergedRun(MergedRun(b + p, s1), s2) == MergedRun(MergedRun(b + p, s2), s1) <==>
            b == [] || Upto(s1, Pos(p[0])) == [] || Upto(s2, Pos(p[0])) == []
  {
    if b == [] || Upto(s1, Pos(p[0])) == [] || Upto(s2, Pos(p[0])) == [] {
      RunsAgree(b, p, s1, s2);
    } else {
      RunsBothReach(b, p, s1, s2);
    }
  }

  lemma RunsAgree(b: seq<Message>, p: seq<Message>, s1: seq<Message>, s2: seq<Message>)
    requires !HasPlaced(b) && p != [] && Placed(p[0]) && Ascending(s1) && Ascending(s2) && Apart(s1, s2)
    requires b == [] || Upto(s1, Pos(p[0])) == [] || Upto(s2, Pos(p[0])) == []
    ensures MergedRun(MergedRun(b + p, s1), s2) == MergedRun(MergedRun(b + p, s2), s1)
  {
    if b == [] {
      assert b + p == p;
      RunsNoLead(p, s1, s2);
    } else if Upto(s1, Pos(p[0])) == [] {
      RunsOneShort(b, p, s1, s2);
    } else {
      RunsOneShort(b, p, s2, s1);
    }
  }

  lemma RunsNoLead(p: seq<Message>, s1: seq<Message>, s2: seq<Message>)
    requires p != [] && Placed(p[0]) && Ascending(s1) && Ascending(s2) && Apart(s1, s2)
    ensures MergedRun(MergedRun(p, s1), s2) == MergedRun(MergedRun(p, s2), s1)
  {
    TwoRunsNoLead(p, s1, s2);
    TwoRunsNoLead(p, s2, s1);
    ZipCommutes(s1, s2);
  }

  /** Two runs that are apart end at different positions behind the thread's start. */
  lemma LastsApart(s1: seq<Message>, s2: seq<Message>, limit: int)
    requires AllPlaced(s1) && AllPlaced(s2) && Apart(s1, s2) && Upto(s1, limit) != [] && Upto(s2, limit) != []
    ensures LastPos(Upto(s1, limit)) != LastPos(Upto(s2, limit))
  {
    var u1, u2 := Upto(s1, limit), Upto(s2, limit);
    assert u1[|u1| - 1] == s1[|u1| - 1] && u2[|u2| - 1] == s2[|u2| - 1];
  }

  lemma RunsBothReach(b: seq<Message>, p: seq<Message>, s1: seq<Message>, s2: seq<Message>)
    requires b != [] && !HasPlaced(b) && p != [] && Placed(p[0]) && Ascending(s1) && Ascending(s2) && Apart(s1, s2)
    requires Upto(s1, Pos(p[0])) != [] && Upto(s2, Pos(p[0])) != []
    ensures MergedRun(MergedRun(b + p, s1), s2) != MergedRun(MergedRun(b + p, s2), s1)
  {
    LastsApart(s1, s2, Pos(p[0]));
    if LastPos(Upto(s1, Pos(p[0]))) < LastPos(Upto(s2, Pos(p[0]))) {
      TwoRunsBothReach(b, p, s1, s2);
    } else {
      TwoRunsBothReach(b, p, s2, s1);
    }
  }

  lemma RunsOneShort(b: seq<Message>, p: seq<Message>, s1: seq<Message>, s2: seq<Message>)
    requires !HasPlaced(b) && p != [] && Placed(p[0]) && Ascending(s1) && Ascending(s2) && Apart(s1, s2)
    requires Upto(s1, Pos(p[0])) == []
    ensures MergedRun(MergedRun(b + p, s1), s2) == MergedRun(MergedRun(b + p, s2), s1)
  {
    var limit := Pos(p[0]);
    var r2 := Above(s2, limit);
    assert Apart(r2, s1) by { Cut(s2, limit); }
    ZipCommutes(r2, s1);
    TwoRunsFirstShort(b, p, s1, s2);
    if Upto(s2, limit) == [] {
      assert r2 == s2;
      TwoRunsFirstShort(b, p, s2, s1);
      assert Above(s1, limit) == s1;
    } else {
      var a := LastPos(Upto(s2, limit));
      assert a <= limit by { Cut(s2, limit); }
      CutFurther(s1, a, limit);
      assert Upto(s1, a) == [] && Above(s1, a) == s1;
      var older, newer := TwoRunsFirstReaches(b, p, s2, s1);
    }
  }

  /**
   * A bubble sent while the thread loads, then two pages that both reach behind it: where it ends
   * up depends on which came first.
   */
  lemma LeadingBubbleIsNotConfluent(bubble: Message, reply: Message, older: Message, newer: Message)
    requires !Placed(bubble) && Placed(reply) && Placed(older) && Placed(newer)
    requires Pos(older) < Pos(newer) <= Pos(reply)
    requires !Holds([bubble, reply], older) && !Holds([bubble, reply], newer)
    requires !Holds([newer, bubble, reply], older) && !Holds([older, bubble, reply], newer)
    ensures Merged(Merged([bubble, reply], [older]), [newer]) == [older, bubble, newer, reply]
    ensures Merged(Merged([bubble, reply], [newer]), [older]) == [older, newer, bubble, reply]
  {
    var current := [bubble, reply];
    assert Placed(current[1]) && FirstPlaced(current) == Pos(reply);
    OnePlaced(current, older);
    OnePlaced(current, newer);
    assert [older] + current == [older, bubble, reply];
    assert [newer] + current == [newer, bubble, reply];
    MergedAfterOlder(older, bubble, reply, newer);
    MergedBefore(newer, bubble, reply, older);
  }

  lemma MergedBefore(newer: Message, bubble: Message, reply: Message, m: Message)
    requires Placed(newer) && Placed(m) && !Holds([newer, bubble, reply], m) && Pos(m) < Pos(newer)
    ensures Merged([newer, bubble, reply], [m]) == [m, newer, bubble, reply]
  {
    var current := [newer, bubble, reply];
    assert Placed(current[0]) && FirstPlaced(current) == Pos(newer);
    OnePlaced(current, m);
    assert [m] + current == [m, newer, bubble, reply];
  }

  lemma WalkOne(reply: Message, m: Message)
    requires Placed(reply) && Placed(m) && Pos(m) <= Pos(reply)
    ensures Walk([reply], [m]) == [m, reply]
  {
    WalkHead([reply], [m]);
    CutStep([m], Pos(reply));
    assert [m][1..] == [] && Above([m], Pos(reply)) == [] && [reply][1..] == [];
  }

  lemma MergedAfterOlder(older: Message, bubble: Message, reply: Message, m: Message)
    requires Placed(older) && !Placed(bubble) && Placed(reply) && Placed(m) && !Holds([older, bubble, reply], m)
    requires Pos(older) < Pos(m) <= Pos(reply)
    ensures Merged([older, bubble, reply], [m]) == [older, bubble, m, reply]
  {
    var current := [older, bubble, reply];
    assert Placed(current[0]) && FirstPlaced(current) == Pos(older);
    OnePlaced(current, m);
    WalkThree(older, bubble, reply, m);
  }

  lemma WalkThree(older: Message, bubble: Message, reply: Message, m: Message)
    requires Placed(older) && !Placed(bubble) && Placed(reply) && Placed(m) && Pos(older) < Pos(m) <= Pos(reply)
    ensures Walk([older, bubble, reply], [m]) == [older, bubble, m, reply]
  {
    var rest := [bubble, reply];
    assert Upto([m], Pos(older)) == [] && Above([m], Pos(older)) == [m];
    WalkOver(older, rest, [m], [], [m]);
    assert [older] + rest == [older, bubble, reply];
    assert rest[1] == reply;
    WalkBubble(rest, [m]);
    assert rest[1..] == [reply];
    WalkOne(reply, m);
  }

  lemma OnePlaced(current: seq<Message>, m: Message)
    requires HasPlaced(current) && Placed(m) && !Holds(current, m)
    ensures Merged(current, [m]) ==
            if Pos(m) <= FirstPlaced(current) then [m] + current else Walk(current, [m])
  {
    assert [m][1..] == [];
    assert Incoming(current, [m]) == [m];
    assert SortByLamport([m]) == [m];
    if Pos(m) <= FirstPlaced(current) {
      assert Upto([m], FirstPlaced(current)) == [m];
      WalkNothing(current);
    } else {
      assert Upto([m], FirstPlaced(current)) == [];
    }
  }
}
