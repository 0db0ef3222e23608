/** Small vocabulary shared by every component of the model. */
module Prelude {

  /** A value that may be absent: the source's `null` or `undefined`. */
  datatype Option<+T> = None | Some(value: T)

  function Max(x: int, y: int): int {
    if x >= y then x else y
  }

  function Min(x: int, y: int): int {
    if x <= y then x else y
  }

  /** Concatenation associates, which the solver has to be told of. */
  lemma Regroup<T>(a: seq<T>, b: seq<T>, c: seq<T>)
    ensures a + (b + c) == (a + b) + c
  {}

  /** Among the first `n` moments something starts, and nothing after it ends it. */
  ghost predicate Since(n: nat, starts: nat -> bool, ends: nat -> bool) {
    exists i :: 0 <= i < n && starts(i) && forall j :: i < j < n ==> !ends(j)
  }

  lemma SinceStep(n: nat, starts: nat -> bool, ends: nat -> bool)
    ensures Since(n + 1, starts, ends) <==> starts(n) || (Since(n, starts, ends) && !ends(n))
  {
    if Since(n + 1, starts, ends) && !starts(n) {
      var i :| 0 <= i < n + 1 && starts(i) && forall j :: i < j < n + 1 ==> !ends(j);
      assert i < n && !ends(n);
    }
    if Since(n, starts, ends) && !ends(n) {
      var i :| 0 <= i < n && starts(i) && forall j :: i < j < n ==> !ends(j);
      assert i < n + 1 && starts(i);
    }
  }

  /** Only what starts and ends it among those moments matters. */
  lemma SinceSame(n: nat, starts: nat -> bool, ends: nat -> bool, starts': nat -> bool, ends': nat -> bool)
    requires forall i: nat :: i < n ==> starts(i) == starts'(i) && ends(i) == ends'(i)
    ensures Since(n, starts, ends) <==> Since(n, starts', ends')
  {
    if Since(n, starts, ends) {
      var i :| 0 <= i < n && starts(i) && forall j :: i < j < n ==> !ends(j);
      assert starts'(i);
    }
    if Since(n, starts', ends') {
      var i :| 0 <= i < n && starts'(i) && forall j :: i < j < n ==> !ends'(j);
      assert starts(i);
    }
  }

  /** `key` removed from `m`. */
  function Without<K, V>(m: map<K, V>, key: K): map<K, V> {
    map k | k in m && k != key :: m[k]
  }

  /** The decimal numeral of `n`, as `String(n)` writes it. */
  function Decimal(n: nat): string {
    if n < 10 then [DIGITS[n]] else Decimal(n / 10) + [DIGITS[n % 10]]
  }

  const DIGITS: seq<char> := "0123456789"

  /** The white space and line ends that `String.prototype.trim` removes. */
  predicate IsSpace(c: char) {
    var u := c as int;
    || 0x09 <= u <= 0x0D || u == 0x20 || u == 0xA0 || u == 0x1680 || 0x2000 <= u <= 0x200A
    || u == 0x2028 || u == 0x2029 || u == 0x202F || u == 0x205F || u == 0x3000 || u == 0xFEFF
  }

  function TrimStart(s: string): string {
    if s != "" && IsSpace(s[0]) then TrimStart(s[1..]) else s
  }

  function TrimEnd(s: string): string {
    if s != "" && IsSpace(s[|s| - 1]) then TrimEnd(s[..|s| - 1]) else s
  }

  function Trim(s: string): string { TrimEnd(TrimStart(s)) }

  lemma {:induction false} TrimStartStarts(s: string)
    ensures TrimStart(s) == "" || !IsSpace(TrimStart(s)[0])
  {
    if s != "" && IsSpace(s[0]) { TrimStartStarts(s[1..]); }
  }

  lemma {:induction false} TrimEndEnds(s: string)
    ensures TrimEnd(s) == "" || (!IsSpace(TrimEnd(s)[|TrimEnd(s)| - 1]) && TrimEnd(s)[0] == s[0])
  {
    if s != "" && IsSpace(s[|s| - 1]) { TrimEndEnds(s[..|s| - 1]); }
  }

  lemma TrimTwice(s: string)
    ensures Trim(Trim(s)) == Trim(s)
  {
    TrimStartStarts(s);
    TrimEndEnds(TrimStart(s));
  }

  predicate AllSpace(s: string) { forall i :: 0 <= i < |s| ==> IsSpace(s[i]) }

  lemma {:induction false} TrimStartMeans(s: string) returns (before: string)
    ensures s == before + TrimStart(s) && AllSpace(before)
  {
    if s != "" && IsSpace(s[0]) {
      var rest := TrimStartMeans(s[1..]);
      before := [s[0]] + rest;
      Regroup([s[0]], rest, TrimStart(s[1..]));
      assert s == [s[0]] + s[1..];
    } else {
      before := "";
    }
  }

  lemma {:induction false} TrimEndMeans(s: string) returns (after: string)
    ensures s == TrimEnd(s) + after && AllSpace(after)
  {
    if s != "" && IsSpace(s[|s| - 1]) {
      var rest := TrimEndMeans(s[..|s| - 1]);
      after := rest + [s[|s| - 1]];
      assert s == s[..|s| - 1] + [s[|s| - 1]];
    } else {
      after := "";
    }
  }

  /** What is trimmed is the white space at both ends, all of it, and nothing else. */
  lemma TrimMeans(s: string)
    ensures exists before, after :: s == before + Trim(s) + after && AllSpace(before) && AllSpace(after)
    ensures Trim(s) != "" ==> !IsSpace(Trim(s)[0]) && !IsSpace(Trim(s)[|Trim(s)| - 1])
    ensures Trim(s) == "" <==> AllSpace(s)
  {
    var before := TrimStartMeans(s);
    var after := TrimEndMeans(TrimStart(s));
    TrimStartStarts(s);
    TrimEndEnds(TrimStart(s));
    assert s == before + Trim(s) + after;
    if Trim(s) != "" { assert s[|before|] == Trim(s)[0]; }
  }

  /** A UTF-16 code unit, and a string as the language has it: any units, paired surrogates or not. */
  type Unit = x: int | 0 <= x < 0x1_0000
  type Text = seq<Unit>

  type Byte = x: int | 0 <= x < 0x100

  predicate InRange(u: Unit, first: char, last: char) { first as int <= u <= last as int }

  predicate IsLetterOrDigit(u: Unit) { InRange(u, 'A', 'Z') || InRange(u, 'a', 'z') || InRange(u, '0', '9') }
}
