/**
 * Where each server's session token is kept (apps/mobile/lib/auth.ts): one slot for each endpoint,
 * under a key escaped for SecureStore.
 */
module TokenKeys {
  import opened Prelude

  const SLASH: Unit := 0x2F
  const UNDERSCORE: Unit := 0x5F
  const COLON: Unit := 0x3A

  /** loxaic-session-token */
  const FLAT_TOKEN_KEY: Text :=
    [0x6C, 0x6F, 0x78, 0x61, 0x69, 0x63, 0x2D, 0x73, 0x65, 0x73, 0x73, 0x69, 0x6F, 0x6E, 0x2D, 0x74, 0x6F, 0x6B,
     0x65, 0x6E]

  function StripSlashes(endpoint: Text): (r: Text)
    ensures |r| <= |endpoint| && r == endpoint[..|r|]
    ensures r == [] || r[|r| - 1] != SLASH
    ensures forall i :: |r| <= i < |endpoint| ==> endpoint[i] == SLASH
  {
    if endpoint != [] && endpoint[|endpoint| - 1] == SLASH then StripSlashes(endpoint[..|endpoint| - 1]) else endpoint
  }

  /** The slot for an endpoint; an empty one counts as none. */
  function TokenKey(endpoint: Option<Text>): Text {
    if endpoint.None? || endpoint.value == [] then FLAT_TOKEN_KEY
    else FLAT_TOKEN_KEY + [COLON] + StripSlashes(endpoint.value)
  }

  // ----- Escaping -----

  /** A unit SecureStore allows in a key: A-Z a-z 0-9 . _ - */
  predicate Allowed(u: Unit) {
    IsLetterOrDigit(u) || u == '.' as int || u == UNDERSCORE || u == '-' as int
  }

  /** A lower-case hexadecimal digit. */
  function LowerHex(n: int): (u: Unit)
    requires 0 <= n < 16
    ensures IsLowerHex(u) && LowerHexValue(u) == n
  {
    if n < 10 then '0' as int + n else 'a' as int + n - 10
  }

  predicate IsLowerHex(u: Unit) { InRange(u, '0', '9') || InRange(u, 'a', 'f') }

  function LowerHexValue(u: Unit): (n: int)
    requires IsLowerHex(u)
    ensures 0 <= n < 16
  {
    if InRange(u, '0', '9') then u - '0' as int else u - 'a' as int + 10
  }

  /** `toString(16)`, padded to two digits. */
  function HexOf(n: nat): (t: Text)
    ensures |t| >= 2 && (n < 0x100 ==> |t| == 2)
    ensures forall i :: 0 <= i < |t| ==> IsLowerHex(t[i])
    decreases n
  {
    if n < 0x100 then [LowerHex(n / 16), LowerHex(n % 16)] else HexOf(n / 16) + [LowerHex(n % 16)]
  }

  function Escaped(u: Unit): (t: Text)
    ensures t != []
  {
    if Allowed(u) then [u] else [UNDERSCORE] + HexOf(u)
  }

  function SecureKey(key: Text): Text {
    if key == [] then [] else Escaped(key[0]) + SecureKey(key[1..])
  }

  /** A key written by `SecureKey` uses only what SecureStore allows. */
  lemma {:induction false} SecureKeyIsAllowed(key: Text)
    ensures forall i :: 0 <= i < |SecureKey(key)| ==> Allowed(SecureKey(key)[i])
    decreases |key|
  {
    if key != [] { SecureKeyIsAllowed(key[1..]); }
  }

  // ----- Reading a key back -----

  /** `_` and the two digits of a unit that is escaped; before the code of an allowed unit, `_` is itself. */
  predicate IsEscape(t: Text, i: nat) {
    i + 2 < |t| && t[i] == UNDERSCORE && IsLowerHex(t[i + 1]) && IsLowerHex(t[i + 2]) && !Allowed(CodeAt(t, i))
  }

  function CodeAt(t: Text, i: nat): Unit
    requires i + 2 < |t| && IsLowerHex(t[i + 1]) && IsLowerHex(t[i + 2])
  {
    LowerHexValue(t[i + 1]) * 16 + LowerHexValue(t[i + 2])
  }

  /** The reverse: an escape is the unit with that code, and anything else is itself. */
  function Unescape(t: Text): Text
    decreases |t|
  {
    if t == [] then []
    else if IsEscape(t, 0) then [CodeAt(t, 0)] + Unescape(t[3..])
    else [t[0]] + Unescape(t[1..])
  }

  /** Every unit has a two-digit code, and no underscore already reads as an escape. */
  predicate Reversible(key: Text) {
    && (forall i :: 0 <= i < |key| ==> key[i] < 0x100)
    && (forall i :: 0 <= i < |key| ==> !IsEscape(key, i))
  }

  /** What follows an underscore in an escaped key: a digit there is a digit of the key itself. */
  lemma DigitsSurvive(key: Text)
    ensures SecureKey(key) != [] && IsLowerHex(SecureKey(key)[0]) <==> key != [] && IsLowerHex(key[0])
    ensures key != [] && IsLowerHex(key[0]) ==> SecureKey(key) == [key[0]] + SecureKey(key[1..])
  {}

  predicate TwoDigits(t: Text) { |t| >= 2 && IsLowerHex(t[0]) && IsLowerHex(t[1]) }

  lemma TwoDigitsSurvive(key: Text)
    ensures TwoDigits(SecureKey(key)) <==> TwoDigits(key)
    ensures TwoDigits(key) ==> SecureKey(key) == [key[0], key[1]] + SecureKey(key[2..])
  {
    DigitsSurvive(key);
    if key != [] && IsLowerHex(key[0]) {
      var rest := key[1..];
      DigitsSurvive(rest);
      if rest != [] { assert key[2..] == rest[1..]; }
      TwoInARow(key, SecureKey(key), SecureKey(rest), if rest == [] then [] else SecureKey(rest[1..]));
    }
  }

  lemma TwoInARow(key: Text, text: Text, tail: Text, last: Text)
    requires key != [] && IsLowerHex(key[0]) && text == [key[0]] + tail
    requires tail != [] && IsLowerHex(tail[0]) <==> TwoDigits(key)
    requires TwoDigits(key) ==> tail == [key[1]] + last
    ensures TwoDigits(text) <==> TwoDigits(key)
    ensures TwoDigits(key) ==> text == [key[0], key[1]] + last
  {}

  /** An underscore reads as an escape once what follows is escaped exactly when it did before. */
  lemma EscapeSurvives(key: Text)
    requires key != [] && key[0] == UNDERSCORE
    ensures IsEscape(SecureKey(key), 0) <==> IsEscape(key, 0)
    ensures IsEscape(key, 0) ==>
      SecureKey(key) == [key[0], key[1], key[2]] + SecureKey(key[3..]) && CodeAt(SecureKey(key), 0) == CodeAt(key, 0)
  {
    var rest := key[1..];
    TwoDigitsSurvive(rest);
    if |key| >= 3 { assert key[3..] == rest[2..]; }
    SameAfterUnderscore(key, rest, SecureKey(key), SecureKey(rest), if |rest| < 2 then [] else SecureKey(rest[2..]));
  }

  lemma SameAfterUnderscore(key: Text, rest: Text, text: Text, tail: Text, last: Text)
    requires key == [UNDERSCORE] + rest && text == [UNDERSCORE] + tail
    requires TwoDigits(tail) <==> TwoDigits(rest)
    requires TwoDigits(rest) ==> tail == [rest[0], rest[1]] + last
    ensures IsEscape(text, 0) <==> IsEscape(key, 0)
    ensures IsEscape(key, 0) ==> text == [key[0], key[1], key[2]] + last && CodeAt(text, 0) == CodeAt(key, 0)
  {
    StartsWithEscape(key, rest);
    StartsWithEscape(text, tail);
  }

  lemma StartsWithEscape(t: Text, tail: Text)
    requires t == [UNDERSCORE] + tail
    ensures IsEscape(t, 0) <==> TwoDigits(tail) && !Allowed(LowerHexValue(tail[0]) * 16 + LowerHexValue(tail[1]))
  {}

  lemma UnescapeEscaped(u: Unit, t: Text)
    requires !Allowed(u) && u < 0x100
    ensures Unescape(Escaped(u) + t) == [u] + Unescape(t)
  {
    var s := Escaped(u) + t;
    assert s[1] == LowerHex(u / 16) && s[2] == LowerHex(u % 16) && s[3..] == t;
    assert CodeAt(s, 0) == u;
  }

  lemma UnescapeLiteral(u: Unit, t: Text)
    requires !IsEscape([u] + t, 0)
    ensures Unescape([u] + t) == [u] + Unescape(t)
  {
    assert ([u] + t)[1..] == t;
  }

  lemma TailReversible(key: Text)
    requires key != [] && Reversible(key)
    ensures Reversible(key[1..])
  {
    forall i | 0 <= i < |key[1..]| ensures key[1..][i] < 0x100 && !IsEscape(key[1..], i) {
      assert key[1..][i] == key[i + 1] && !IsEscape(key, i + 1);
    }
  }

  lemma {:induction false} UnescapeReverses(key: Text)
    requires Reversible(key)
    ensures Unescape(SecureKey(key)) == key
    decreases |key|
  {
    if key != [] {
      TailReversible(key);
      UnescapeReverses(key[1..]);
      if Allowed(key[0]) {
        if key[0] == UNDERSCORE { EscapeSurvives(key); }
        UnescapeLiteral(key[0], SecureKey(key[1..]));
      } else {
        UnescapeEscaped(key[0], SecureKey(key[1..]));
      }
    }
  }

  /** Reading back gives units below 0x100 only. */
  lemma {:induction false} UnescapedIsNarrow(t: Text)
    requires forall i :: 0 <= i < |t| ==> t[i] < 0x100
    ensures forall i :: 0 <= i < |Unescape(t)| ==> Unescape(t)[i] < 0x100
    decreases |t|
  {
    if t != [] { UnescapedIsNarrow(if IsEscape(t, 0) then t[3..] else t[1..]); }
  }

  /** Among keys of narrow units, one that does not come back comes back shorter. */
  lemma {:induction false} UnescapedLength(key: Text)
    requires forall i :: 0 <= i < |key| ==> key[i] < 0x100
    ensures |Unescape(SecureKey(key))| <= |key|
    ensures !Reversible(key) ==> |Unescape(SecureKey(key))| < |key|
    decreases |key|
  {
    if key != [] {
      UnescapedLength(key[1..]);
      if !Allowed(key[0]) {
        UnescapeEscaped(key[0], SecureKey(key[1..]));
      } else if !IsEscape(key, 0) {
        if key[0] == UNDERSCORE { EscapeSurvives(key); }
        UnescapeLiteral(key[0], SecureKey(key[1..]));
      } else {
        SwallowedEscape(key);
        UnescapedLength(key[3..]);
      }
      if !IsEscape(key, 0) && Reversible(key[1..]) { HeadReversible(key); }
    }
  }

  lemma HeadReversible(key: Text)
    requires key != [] && key[0] < 0x100 && !IsEscape(key, 0) && Reversible(key[1..])
    ensures Reversible(key)
  {
    forall i | 0 <= i < |key| ensures key[i] < 0x100 && !IsEscape(key, i) {
      if i > 0 { assert key[1..][i - 1] == key[i] && !IsEscape(key[1..], i - 1); }
    }
  }

  lemma SwallowedEscape(key: Text)
    requires IsEscape(key, 0)
    ensures |Unescape(SecureKey(key))| == 1 + |Unescape(SecureKey(key[3..]))|
  {
    EscapeSurvives(key);
    assert SecureKey(key)[3..] == SecureKey(key[3..]);
  }

  /**
   * Escaping reverses exactly when every unit is below 0x100, so that its code has two digits,
   * and no underscore is followed by the two lower-case digits of a unit that would be escaped,
   * since an underscore is left as it is.
   */
  lemma SecureKeyReversesWhen(key: Text)
    ensures Unescape(SecureKey(key)) == key <==> Reversible(key)
  {
    if Reversible(key) {
      UnescapeReverses(key);
    } else if forall i :: 0 <= i < |key| ==> key[i] < 0x100 {
      UnescapedLength(key);
    } else {
      SecureKeyIsAllowed(key);
      UnescapedIsNarrow(SecureKey(key));
    }
  }

  /** What is read back escapes to the same text: every slot is some reversible key's. */
  lemma {:induction false} UnescapeKeepsSlot(t: Text)
    requires forall i :: 0 <= i < |t| ==> Allowed(t[i])
    ensures SecureKey(Unescape(t)) == t
    decreases |t|
  {
    if t != [] {
      if IsEscape(t, 0) {
        UnescapeKeepsSlot(t[3..]);
        EscapedAgain(t[1], t[2]);
        var rest := Unescape(t[3..]);
        assert ([CodeAt(t, 0)] + rest)[1..] == rest;
        assert t == [UNDERSCORE, t[1], t[2]] + t[3..];
      } else {
        UnescapeKeepsSlot(t[1..]);
        var rest := Unescape(t[1..]);
        assert ([t[0]] + rest)[1..] == rest;
        assert t == [t[0]] + t[1..];
      }
    }
  }

  lemma EscapedAgain(high: Unit, low: Unit)
    requires IsLowerHex(high) && IsLowerHex(low)
    requires !Allowed(LowerHexValue(high) * 16 + LowerHexValue(low))
    ensures Escaped(LowerHexValue(high) * 16 + LowerHexValue(low)) == [UNDERSCORE, high, low]
  {
    var n: int := LowerHexValue(high) * 16 + LowerHexValue(low);
    assert n / 16 == LowerHexValue(high) && n % 16 == LowerHexValue(low);
    assert HexOf(n) == [high, low];
  }

  /**
   * No decoder does better: a key that this one does not give back shares its escaped form with a
   * different key, the one it does give back, which is reversible. Two reversible keys never share.
   */
  lemma OthersShare(key: Text)
    requires !Reversible(key)
    ensures var shared := Unescape(SecureKey(key));
      shared != key && Reversible(shared) && SecureKey(shared) == SecureKey(key)
  {
    SecureKeyIsAllowed(key);
    UnescapeKeepsSlot(SecureKey(key));
    SecureKeyReversesWhen(key);
    SecureKeyReversesWhen(Unescape(SecureKey(key)));
  }

  lemma SecureKeyKeepsApart(a: Text, b: Text)
    requires Reversible(a) && Reversible(b)
    ensures SecureKey(a) == SecureKey(b) <==> a == b
  {
    UnescapeReverses(a);
    UnescapeReverses(b);
  }

  // ----- One slot for each server -----

  /** Where native builds keep the token; the web keeps it under the key itself. */
  function Slot(endpoint: Option<Text>): Text { SecureKey(TokenKey(endpoint)) }

  /** Plain text in front leaves a key's escapes where they are. */
  lemma PrefixReversible(head: Text, e: Text)
    requires forall i :: 0 <= i < |head| ==> head[i] < 0x100 && head[i] != UNDERSCORE
    ensures Reversible(head + e) <==> Reversible(e)
  {
    var key := head + e;
    assert forall i :: 0 <= i < |e| ==> key[|head| + i] == e[i];
    forall i | 0 <= i < |e| ensures IsEscape(key, |head| + i) <==> IsEscape(e, i) {
      if i + 2 < |e| { assert key[|head| + i + 1] == e[i + 1] && key[|head| + i + 2] == e[i + 2]; }
    }
    if Reversible(key) {
      forall i | 0 <= i < |e| ensures e[i] < 0x100 && !IsEscape(e, i) {
        assert key[|head| + i] < 0x100 && !IsEscape(key, |head| + i);
      }
    } else if Reversible(e) {
      forall i | 0 <= i < |key| ensures key[i] < 0x100 && !IsEscape(key, i) {
        if i >= |head| { assert e[i - |head|] < 0x100 && !IsEscape(e, i - |head|); }
      }
    }
  }

  /** What comes before every endpoint in its key. */
  function Head(): (head: Text)
    ensures forall i :: 0 <= i < |head| ==> head[i] < 0x100 && head[i] != UNDERSCORE
  {
    FLAT_TOKEN_KEY + [COLON]
  }

  lemma TokenKeyReverses(endpoint: Text)
    requires endpoint != []
    ensures Reversible(TokenKey(Some(endpoint))) <==> Reversible(StripSlashes(endpoint))
  {
    PrefixReversible(Head(), StripSlashes(endpoint));
  }

  /** On the web, two endpoints share a slot exactly when they are the same but for trailing slashes. */
  lemma TokenKeysKeepServersApart(a: Text, b: Text)
    requires a != [] && b != []
    ensures TokenKey(Some(a)) == TokenKey(Some(b)) <==> StripSlashes(a) == StripSlashes(b)
    ensures TokenKey(Some(a)) != TokenKey(None)
  {
    var head := FLAT_TOKEN_KEY + [COLON];
    assert TokenKey(Some(a))[|head|..] == StripSlashes(a);
    assert TokenKey(Some(b))[|head|..] == StripSlashes(b);
  }

  /**
   * On native builds, two endpoints that reverse share a slot exactly when they are the same but
   * for trailing slashes: no host is ever handed another's token.
   */
  lemma SlotsKeepServersApart(a: Text, b: Text)
    requires a != [] && b != [] && Reversible(StripSlashes(a)) && Reversible(StripSlashes(b))
    ensures Slot(Some(a)) == Slot(Some(b)) <==> StripSlashes(a) == StripSlashes(b)
  {
    TokenKeyReverses(a);
    TokenKeyReverses(b);
    SecureKeyKeepsApart(TokenKey(Some(a)), TokenKey(Some(b)));
    TokenKeysKeepServersApart(a, b);
  }

  /** No endpoint's slot, reversible or not, is the unscoped one. */
  lemma NoSlotIsTheFlatOne(endpoint: Text)
    requires endpoint != []
    ensures Slot(Some(endpoint)) != Slot(None)
  {
    LongerThanPrefix(FLAT_TOKEN_KEY, StripSlashes(endpoint));
  }

  lemma LongerThanPrefix(prefix: Text, e: Text)
    ensures SecureKey(prefix + [COLON] + e) != SecureKey(prefix)
  {
    LongerKeys(prefix, [COLON] + e);
    assert prefix + [COLON] + e == prefix + ([COLON] + e);
  }

  lemma {:induction false} LongerKeys(a: Text, b: Text)
    requires b != []
    ensures |SecureKey(a + b)| > |SecureKey(a)|
    decreases |a|
  {
    if a == [] {
      assert a + b == b;
    } else {
      assert (a + b)[1..] == a[1..] + b;
      LongerKeys(a[1..], b);
    }
  }

  /**
   * Outside that class slots do collide. An endpoint ending `_3a` shares its slot with the one
   * that ends with a colon there, and U+013A shares with U+0013 followed by `a`: both pairs are
   * different servers, whatever comes before.
   */
  lemma SlotsCollide(host: Text)
    ensures Slot(Some(host + [UNDERSCORE, 0x33, 0x61])) == Slot(Some(host + [COLON]))
    ensures StripSlashes(host + [UNDERSCORE, 0x33, 0x61]) != StripSlashes(host + [COLON])
    ensures Slot(Some(host + [0x13A])) == Slot(Some(host + [0x13, 0x61]))
    ensures StripSlashes(host + [0x13A]) != StripSlashes(host + [0x13, 0x61])
  {
    var head := FLAT_TOKEN_KEY + [COLON] + host;
    KeepsEnd(host, [UNDERSCORE, 0x33, 0x61]);
    KeepsEnd(host, [COLON]);
    KeepsEnd(host, [0x13A]);
    KeepsEnd(host, [0x13, 0x61]);
    SecureKeyConcat(head, [UNDERSCORE, 0x33, 0x61]);
    SecureKeyConcat(head, [COLON]);
    SecureKeyConcat(head, [0x13A]);
    SecureKeyConcat(head, [0x13, 0x61]);
    ShortKeys();
    assert (host + [UNDERSCORE, 0x33, 0x61])[|host|] != (host + [COLON])[|host|];
    assert (host + [0x13A])[|host|] != (host + [0x13, 0x61])[|host|];
  }

  lemma ShortKeys()
    ensures SecureKey([UNDERSCORE, 0x33, 0x61]) == SecureKey([COLON]) == [UNDERSCORE, 0x33, 0x61]
    ensures SecureKey([0x13A]) == SecureKey([0x13, 0x61]) == [UNDERSCORE, 0x31, 0x33, 0x61]
  {
    var a: Text := [UNDERSCORE, 0x33, 0x61];
    assert a[1..] == [0x33, 0x61] && a[1..][1..] == [0x61] && a[1..][1..][1..] == [];
    var b: Text := [0x13, 0x61];
    assert b[1..] == [0x61] && b[1..][1..] == [];
    assert HexOf(0x13A) == HexOf(0x13) + [LowerHex(0xA)];
    var c: Text := [COLON];
    var d: Text := [0x13A];
    assert c[1..] == [] && d[1..] == [];
    assert Escaped(COLON) == [UNDERSCORE, LowerHex(3), LowerHex(0xA)];
    assert SecureKey(c) == Escaped(COLON) + SecureKey(c[1..]);
    assert SecureKey([0x61]) == [0x61];
    assert SecureKey(a[1..]) == [0x33] + SecureKey([0x61]);
    assert SecureKey(a) == [UNDERSCORE] + SecureKey(a[1..]);
  }

  /** An endpoint that does not end with a slash is its own slot's name. */
  lemma KeepsEnd(host: Text, end: Text)
    requires end != [] && end[|end| - 1] != SLASH
    ensures StripSlashes(host + end) == host + end
    ensures TokenKey(Some(host + end)) == FLAT_TOKEN_KEY + [COLON] + host + end
  {
    assert (host + end)[|host + end| - 1] == end[|end| - 1];
  }

  lemma {:induction false} SecureKeyConcat(a: Text, b: Text)
    ensures SecureKey(a + b) == SecureKey(a) + SecureKey(b)
    decreases |a|
  {
    if a == [] {
      assert a + b == b;
    } else {
      assert (a + b)[1..] == a[1..] + b;
      SecureKeyConcat(a[1..], b);
    }
  }
}
