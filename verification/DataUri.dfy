/**
 * Reading `data:` URIs (apps/mobile/lib/attachmentUpload.ts): data URLs (section 3 of RFC 2397),
 * base64 (section 4 of RFC 4648) and percent encoding (section 2.1 of RFC 3986).
 */
module DataUri {
  import opened Prelude

  const PERCENT: Unit := 0x25
  const COMMA: Unit := 0x2C
  const EQUALS: Unit := 0x3D
  const DATA: Text := [0x64, 0x61, 0x74, 0x61, 0x3A]                    // data:
  const BASE64: Text := [0x3B, 0x62, 0x61, 0x73, 0x65, 0x36, 0x34]      // ;base64

  // ----- The shape of a data URI -----

  datatype Parsed = Parsed(isBase64: bool, payload: Text)

  predicate EndsWith(t: Text, suffix: Text) { |t| >= |suffix| && t[|t| - |suffix|..] == suffix }

  function FirstComma(t: Text): (r: nat)
    ensures r <= |t| && (r < |t| ==> t[r] == COMMA) && COMMA !in t[..r]
  {
    if t == [] || t[0] == COMMA then 0 else 1 + FirstComma(t[1..])
  }

  function Parse(uri: Text): Option<Parsed> {
    if |uri| < |DATA| || uri[..|DATA|] != DATA then None
    else
      var rest := uri[|DATA|..];
      var comma := FirstComma(rest);
      if comma == |rest| then None else Some(Parsed(EndsWith(rest[..comma], BASE64), rest[comma + 1..]))
  }

  /** Whatever its media type and parameters say, a URI splits at the first comma after `data:`. */
  lemma ParseOf(media: Text, payload: Text)
    requires COMMA !in media
    ensures Parse(DATA + media + [COMMA] + payload) == Some(Parsed(EndsWith(media, BASE64), payload))
  {
    var uri := DATA + media + [COMMA] + payload;
    var rest := media + [COMMA] + payload;
    assert uri == DATA + rest;
    assert uri[..|DATA|] == DATA && uri[|DATA|..] == rest;
    var comma := FirstComma(rest);
    assert rest[|media|] == COMMA;
    assert comma >= |media|;
    assert rest[..comma] == media && rest[comma + 1..] == payload;
  }

  /** Anything else is no data URI: it does not start with `data:`, or has no comma after that. */
  lemma OthersDoNotParse(uri: Text)
    ensures Parse(uri).None? <==> !(DATA <= uri) || COMMA !in uri[|DATA|..]
  {}

  // ----- Base64 -----

  /** The six bits a character stands for. */
  function Sextet(u: Unit): (r: Option<int>)
    ensures r.Some? ==> 0 <= r.value < 64
  {
    if InRange(u, 'A', 'Z') then Some(u - 'A' as int)
    else if InRange(u, 'a', 'z') then Some(u - 'a' as int + 26)
    else if InRange(u, '0', '9') then Some(u - '0' as int + 52)
    else if u == '+' as int then Some(62)
    else if u == '/' as int then Some(63)
    else None
  }

  /** The alphabet of section 4 of RFC 4648: capitals, small letters, digits, `+` and `/`, in that order. */
  lemma AlphabetInOrder(k: nat)
    ensures k < 26 ==> Sextet('A' as int + k) == Some(k) && Sextet('a' as int + k) == Some(26 + k)
    ensures k < 10 ==> Sextet('0' as int + k) == Some(52 + k)
    ensures Sextet('+' as int) == Some(62) && Sextet('/' as int) == Some(63) && Sextet(EQUALS).None?
  {}

  function Letter(v: int): (u: Unit)
    requires 0 <= v < 64
    ensures Sextet(u) == Some(v)
  {
    if v < 26 then v + 'A' as int
    else if v < 52 then v - 26 + 'a' as int
    else if v < 62 then v - 52 + '0' as int
    else if v == 62 then '+' as int
    else '/' as int
  }

  predicate IsAsciiSpace(u: Unit) { u == 0x09 || u == 0x0A || u == 0x0C || u == 0x0D || u == 0x20 }

  function WithoutSpace(t: Text): (r: Text)
    ensures |r| <= |t|
  {
    if t == [] then [] else (if IsAsciiSpace(t[0]) then [] else [t[0]]) + WithoutSpace(t[1..])
  }

  /** Of a text it takes out tabs, line feeds, form feeds, carriage returns and spaces, and leaves the rest. */
  lemma {:induction false} SpacesAreTakenOut(a: Text, u: Unit, b: Text)
    ensures WithoutSpace(a + ([u] + b)) ==
            WithoutSpace(a) + (if u in {9, 10, 12, 13, 32} then [] else [u]) + WithoutSpace(b)
    decreases |a|
  {
    if a == [] {
      assert a + ([u] + b) == [u] + b && ([u] + b)[1..] == b;
    } else {
      var whole, kept := a + ([u] + b), if u in {9, 10, 12, 13, 32} then [] else [u];
      assert whole[0] == a[0] && whole[1..] == a[1..] + ([u] + b);
      SpacesAreTakenOut(a[1..], u, b);
      var head := if IsAsciiSpace(a[0]) then [] else [a[0]];
      Regroup(WithoutSpace(a[1..]), kept, WithoutSpace(b));
      Regroup(head, WithoutSpace(a[1..]), kept + WithoutSpace(b));
      Regroup(WithoutSpace(a), kept, WithoutSpace(b));
    }
  }

  function SpaceCount(t: Text): nat { |t| - |WithoutSpace(t)| }

  /** Up to two `=` at the end of a whole number of quartets. */
  function Padding(t: Text): nat {
    if |t| % 4 == 0 && EndsWith(t, [EQUALS, EQUALS]) then 2
    else if |t| % 4 == 0 && EndsWith(t, [EQUALS]) then 1
    else 0
  }

  predicate AllSextets(t: Text) { forall i :: 0 <= i < |t| ==> Sextet(t[i]).Some? }

  /** Three bytes from each quartet; a last pair gives one, a last triple two, and loose bits go. */
  function DecodeGroups(t: Text): seq<Byte>
    requires AllSextets(t) && |t| % 4 != 1
  {
    if t == [] then []
    else
      var v0 := Sextet(t[0]).value;
      var v1 := Sextet(t[1]).value;
      [v0 * 4 + v1 / 16] +
      if |t| == 2 then [] else
        var v2 := Sextet(t[2]).value;
        [v1 % 16 * 16 + v2 / 4] +
        if |t| == 3 then [] else [v2 % 4 * 64 + Sextet(t[3]).value] + DecodeGroups(t[4..])
  }

  /** The platform's `atob`: forgiving base64, or an exception. */
  function Atob(t: Text): Option<seq<Byte>> {
    var clean := WithoutSpace(t);
    var data := clean[..|clean| - Padding(clean)];
    if |data| % 4 == 1 || !AllSextets(data) then None else Some(DecodeGroups(data))
  }

  /** Base64 of section 4 of RFC 4648, with its padding or without. */
  function EncodeGroups(b: seq<Byte>, pad: Text): Text {
    if b == [] then []
    else if |b| == 1 then [Letter(b[0] / 4), Letter(b[0] % 4 * 16)] + pad + pad
    else if |b| == 2 then [Letter(b[0] / 4), Letter(b[0] % 4 * 16 + b[1] / 16), Letter(b[1] % 16 * 4)] + pad
    else [Letter(b[0] / 4), Letter(b[0] % 4 * 16 + b[1] / 16), Letter(b[1] % 16 * 4 + b[2] / 64), Letter(b[2] % 64)]
         + EncodeGroups(b[3..], pad)
  }

  function Base64(b: seq<Byte>): Text { EncodeGroups(b, [EQUALS]) }

  lemma TripleBits(x: Byte, y: Byte, z: Byte)
    ensures x / 4 * 4 + (x % 4 * 16 + y / 16) / 16 == x
    ensures (x % 4 * 16 + y / 16) % 16 * 16 + (y % 16 * 4 + z / 64) / 4 == y
    ensures (y % 16 * 4 + z / 64) % 4 * 64 + z % 64 == z
  {}

  lemma DecodeQuartet(c0: Unit, c1: Unit, c2: Unit, c3: Unit, rest: Text)
    requires Sextet(c0).Some? && Sextet(c1).Some? && Sextet(c2).Some? && Sextet(c3).Some?
    requires AllSextets(rest) && |rest| % 4 != 1
    ensures var t := [c0, c1, c2, c3] + rest;
      var v1, v2 := Sextet(c1).value, Sextet(c2).value;
      && AllSextets(t) && |t| % 4 == |rest| % 4
      && DecodeGroups(t) ==
         [Sextet(c0).value * 4 + v1 / 16, v1 % 16 * 16 + v2 / 4, v2 % 4 * 64 + Sextet(c3).value] + DecodeGroups(rest)
  {
    assert ([c0, c1, c2, c3] + rest)[4..] == rest;
  }

  /** Three bytes make four characters, which decode to them, whatever follows. */
  lemma QuartetRoundTrip(x: Byte, y: Byte, z: Byte, rest: Text)
    requires AllSextets(rest) && |rest| % 4 != 1
    ensures var t := [Letter(x / 4), Letter(x % 4 * 16 + y / 16), Letter(y % 16 * 4 + z / 64), Letter(z % 64)] + rest;
      AllSextets(t) && |t| % 4 == |rest| % 4 && DecodeGroups(t) == [x, y, z] + DecodeGroups(rest)
  {
    DecodeQuartet(Letter(x / 4), Letter(x % 4 * 16 + y / 16), Letter(y % 16 * 4 + z / 64), Letter(z % 64), rest);
    TripleBits(x, y, z);
  }

  lemma LastBytesRoundTrip(b: seq<Byte>)
    requires |b| < 3
    ensures var t := EncodeGroups(b, []);
      AllSextets(t) && |t| % 4 != 1 && DecodeGroups(t) == b
  {
    if |b| >= 1 { TripleBits(b[0], if |b| == 2 then b[1] else 0, 0); }
  }

  lemma {:induction false} GroupsRoundTrip(b: seq<Byte>)
    ensures var t := EncodeGroups(b, []);
      AllSextets(t) && |t| % 4 != 1 && DecodeGroups(t) == b
    decreases |b|
  {
    if |b| >= 3 {
      var later := b[3..];
      var rest := EncodeGroups(later, []);
      GroupsRoundTrip(later);
      var head := EncodeCons(b, []);
      QuartetRoundTrip(b[0], b[1], b[2], rest);
      assert EncodeGroups(b, []) == head + rest && b == [b[0], b[1], b[2]] + later;
    } else {
      LastBytesRoundTrip(b);
    }
  }

  function PadFor(b: seq<Byte>): Text {
    if |b| % 3 == 1 then [EQUALS, EQUALS] else if |b| % 3 == 2 then [EQUALS] else []
  }

  /** The characters of three bytes and of those that follow. */
  lemma EncodeCons(b: seq<Byte>, pad: Text) returns (head: Text)
    requires |b| >= 3
    ensures |head| == 4 && EncodeGroups(b, pad) == head + EncodeGroups(b[3..], pad)
    ensures head ==
        [Letter(b[0] / 4), Letter(b[0] % 4 * 16 + b[1] / 16), Letter(b[1] % 16 * 4 + b[2] / 64), Letter(b[2] % 64)]
  {
    head := [Letter(b[0] / 4), Letter(b[0] % 4 * 16 + b[1] / 16), Letter(b[1] % 16 * 4 + b[2] / 64), Letter(b[2] % 64)];
  }

  function LastQuartet(n: nat): nat { if n % 3 == 0 then 0 else n % 3 + 1 }

  lemma {:induction false} GroupsLength(b: seq<Byte>)
    ensures |EncodeGroups(b, [])| % 4 == LastQuartet(|b|)
    decreases |b|
  {
    if |b| >= 3 {
      var rest := b[3..];
      var head := EncodeCons(b, []);
      GroupsLength(rest);
      FourMore(|EncodeGroups(rest, [])|, |rest|);
    }
  }

  lemma FourMore(chars: nat, bytes: nat)
    ensures (4 + chars) % 4 == chars % 4 && LastQuartet(bytes + 3) == LastQuartet(bytes)
  {}

  lemma {:induction false} PadsTheEnd(b: seq<Byte>)
    ensures Base64(b) == EncodeGroups(b, []) + PadFor(b)
    decreases |b|
  {
    if |b| >= 3 {
      var rest := b[3..];
      var head := EncodeCons(b, [EQUALS]);
      var same := EncodeCons(b, []);
      PadsTheEnd(rest);
      SamePad(b, rest);
      Regroup(head, EncodeGroups(rest, []), PadFor(b));
    }
  }

  lemma SamePad(b: seq<Byte>, rest: seq<Byte>)
    requires |b| == |rest| + 3
    ensures PadFor(b) == PadFor(rest)
  {}

  predicate Spaceless(t: Text) { forall i :: 0 <= i < |t| ==> !IsAsciiSpace(t[i]) }

  lemma {:induction false} NothingToStrip(t: Text)
    requires Spaceless(t)
    ensures WithoutSpace(t) == t
  {
    if t != [] {
      assert Spaceless(t[1..]);
      NothingToStrip(t[1..]);
    }
  }

  lemma SextetsAreSpaceless(t: Text)
    requires AllSextets(t)
    ensures Spaceless(t)
  {
    forall i | 0 <= i < |t| ensures !IsAsciiSpace(t[i]) {
      assert Sextet(t[i]).Some?;
    }
  }

  predicate Completes(pad: Text, data: Text) {
    pad == [] || (pad == [EQUALS] && |data| % 4 == 3) || (pad == [EQUALS, EQUALS] && |data| % 4 == 2)
  }

  /** Characters of the alphabet, in a length base64 can have, with exactly the padding that completes it. */
  lemma AtobOf(data: Text, pad: Text)
    requires AllSextets(data) && |data| % 4 != 1 && Completes(pad, data)
    ensures Atob(data + pad) == Some(DecodeGroups(data))
  {
    var t := data + pad;
    SextetsAreSpaceless(data);
    assert Spaceless(t);
    NothingToStrip(t);
    PaddingOf(data, pad);
    AtobOfClean(t, data, pad);
  }

  lemma AtobOfClean(t: Text, data: Text, pad: Text)
    requires t == data + pad && WithoutSpace(t) == t && Padding(t) == |pad|
    requires AllSextets(data) && |data| % 4 != 1
    ensures Atob(t) == Some(DecodeGroups(data))
  {
    assert t[..|t| - |pad|] == data;
  }

  lemma PaddingOf(data: Text, pad: Text)
    requires AllSextets(data) && |data| % 4 != 1 && Completes(pad, data)
    ensures Padding(data + pad) == |pad|
  {
    if pad == [] {
      assert data + [] == data;
      SextetsEndInNoPad(data);
    } else {
      LastTwo(data + pad, EQUALS);
      if |pad| == 1 { SextetsEndInNoPad(data); }
    }
  }

  lemma SextetsEndInNoPad(data: Text)
    requires AllSextets(data)
    ensures data != [] ==> data[|data| - 1] != EQUALS
    ensures Padding(data) == 0
  {
    LastTwo(data, EQUALS);
    if data != [] { assert Sextet(data[|data| - 1]).Some?; }
  }

  lemma LastTwo(t: Text, u: Unit)
    ensures EndsWith(t, [u]) <==> |t| >= 1 && t[|t| - 1] == u
    ensures EndsWith(t, [u, u]) <==> |t| >= 2 && t[|t| - 1] == u && t[|t| - 2] == u
  {
    LastOne(t, u);
    if |t| >= 2 {
      var rest := t[..|t| - 2];
      assert t == rest + [t[|t| - 2], t[|t| - 1]];
      LastPair(rest, t[|t| - 2], t[|t| - 1], u);
    }
  }

  lemma LastOne(t: Text, u: Unit)
    ensures EndsWith(t, [u]) <==> |t| >= 1 && t[|t| - 1] == u
  {
    if |t| >= 1 { assert t[|t| - 1..] == [t[|t| - 1]]; }
  }

  lemma LastPair(rest: Text, x: Unit, y: Unit, u: Unit)
    ensures EndsWith(rest + [x, y], [u, u]) <==> x == u && y == u
  {
    assert (rest + [x, y])[|rest|..] == [x, y];
  }

  /** Base64 decodes to the bytes it was made of, with its padding or with the padding left off. */
  lemma Base64RoundTrip(b: seq<Byte>)
    ensures Atob(Base64(b)) == Some(b)
    ensures Atob(EncodeGroups(b, [])) == Some(b)
  {
    var data := EncodeGroups(b, []);
    GroupsRoundTrip(b);
    GroupsLength(b);
    PadsTheEnd(b);
    AtobOf(data, PadFor(b));
    AtobOf(data, []);
    assert data + [] == data;
  }

  // ----- The size without decoding -----

  function TypedPadding(payload: Text): int {
    if EndsWith(payload, [EQUALS, EQUALS]) then 2 else if EndsWith(payload, [EQUALS]) then 1 else 0
  }

  function Base64Length(payload: Text): int { |payload| * 3 / 4 - TypedPadding(payload) }

  lemma {:induction false} DecodedLength(t: Text)
    requires AllSextets(t) && |t| % 4 != 1
    ensures |DecodeGroups(t)| == |t| * 3 / 4
    decreases |t|
  {
    if |t| >= 4 { DecodedLength(t[4..]); }
  }

  lemma SextetsEndPlain(t: Text)
    requires AllSextets(t)
    ensures !EndsWith(t, [EQUALS]) && !EndsWith(t, [EQUALS, EQUALS])
  {
    if t != [] {
      assert Sextet(t[|t| - 1]).Some?;
      if EndsWith(t, [EQUALS]) { LastOf(t, [EQUALS]); }
      if EndsWith(t, [EQUALS, EQUALS]) { LastOf(t, [EQUALS, EQUALS]); }
    }
  }

  lemma LastOf(t: Text, suffix: Text)
    requires EndsWith(t, suffix) && suffix != []
    ensures t[|t| - 1] == suffix[|suffix| - 1]
  {
    assert t[|t| - |suffix|..][|suffix| - 1] == t[|t| - 1];
  }

  lemma TwoEndsOne(t: Text)
    requires EndsWith(t, [EQUALS, EQUALS])
    ensures EndsWith(t, [EQUALS])
  {
    assert t[|t| - 1] == t[|t| - 2..][1];
  }

  /** What `atob` accepts has its padding, if any, only where it is peeled off. */
  lemma AcceptedPadding(clean: Text)
    requires AllSextets(clean[..|clean| - Padding(clean)])
    ensures EndsWith(clean, [EQUALS, EQUALS]) <==> Padding(clean) == 2
    ensures EndsWith(clean, [EQUALS]) <==> Padding(clean) >= 1
  {
    if Padding(clean) == 0 {
      assert clean[..|clean|] == clean;
      SextetsEndPlain(clean);
    } else if EndsWith(clean, [EQUALS, EQUALS]) {
      TwoEndsOne(clean);
    }
  }

  lemma PaddedThirds(n: nat, p: nat)
    requires p <= n && p <= 2 && (p > 0 ==> n % 4 == 0)
    ensures (n - p) * 3 / 4 == n * 3 / 4 - p
  {}

  lemma {:induction false} StripConcat(a: Text, b: Text)
    ensures WithoutSpace(a + b) == WithoutSpace(a) + WithoutSpace(b)
    decreases |a|
  {
    if a == [] {
      assert a + b == b;
    } else {
      var first := if IsAsciiSpace(a[0]) then [] else [a[0]];
      StripConcat(a[1..], b);
      StripOne(a[0], a[1..] + b);
      StripOne(a[0], a[1..]);
      assert a + b == [a[0]] + (a[1..] + b) && a == [a[0]] + a[1..];
      Regroup(first, WithoutSpace(a[1..]), WithoutSpace(b));
    }
  }

  lemma StripOne(u: Unit, rest: Text)
    ensures WithoutSpace([u] + rest) == (if IsAsciiSpace(u) then [] else [u]) + WithoutSpace(rest)
  {
    assert ([u] + rest)[1..] == rest;
  }

  /** What ends in characters that are no space ends in them once space is gone. */
  lemma StrippedEnd(t: Text, suffix: Text)
    requires EndsWith(t, suffix) && Spaceless(suffix)
    ensures EndsWith(WithoutSpace(t), suffix)
  {
    var before := t[..|t| - |suffix|];
    assert t == before + suffix;
    StripConcat(before, suffix);
    NothingToStrip(suffix);
    assert (WithoutSpace(before) + suffix)[|WithoutSpace(before)|..] == suffix;
  }

  /** The padding sits at the very end of the payload as typed. */
  predicate PaddingAtEnd(payload: Text) { EndsInPad(payload, Padding(WithoutSpace(payload))) }

  predicate EndsInPad(t: Text, p: nat) {
    p <= |t| && forall i :: |t| - p <= i < |t| ==> t[i] == EQUALS
  }

  lemma EndOf(payload: Text, n: nat)
    requires 1 <= n <= 2
    ensures var ends := if n == 1 then [EQUALS] else [EQUALS, EQUALS];
      EndsWith(payload, ends) <==> |payload| >= n && forall i :: |payload| - n <= i < |payload| ==> payload[i] == EQUALS
  {
    var ends := if n == 1 then [EQUALS] else [EQUALS, EQUALS];
    if EndsWith(payload, ends) {
      var tail := payload[|payload| - n..];
      forall i | |payload| - n <= i < |payload| ensures payload[i] == EQUALS {
        assert payload[i] == tail[i - (|payload| - n)];
      }
    }
  }

  /**
   * The size check before the upload: for every payload `atob` accepts the size is never below
   * the decoded length, and it is that length exactly when there is no white space, or a single
   * one in a payload whose characters make whole quartets, outside the padding.
   */
  lemma SizeIsExactWhen(payload: Text)
    requires Atob(payload).Some?
    ensures Base64Length(payload) >= |Atob(payload).value|
    ensures Base64Length(payload) == |Atob(payload).value| <==>
            || SpaceCount(payload) == 0
            || (SpaceCount(payload) == 1 && |WithoutSpace(payload)| % 4 == 0 && PaddingAtEnd(payload))
  {
    var clean := WithoutSpace(payload);
    var p := Padding(clean);
    DecodedLength(clean[..|clean| - p]);
    PaddedThirds(|clean|, p);
    TypedPaddingIs(payload);
    QuartersOf(|clean|, SpaceCount(payload));
    assert (|clean| + SpaceCount(payload)) * 3 / 4 == |payload| * 3 / 4;
    if SpaceCount(payload) == 0 { NoSpaceStripsNothing(payload); }
  }

  /**
   * The padding counted in what was typed is at most the padding peeled off, and all of it exactly
   * when it is at the end.
   */
  lemma TypedPaddingIs(payload: Text)
    requires var clean := WithoutSpace(payload); AllSextets(clean[..|clean| - Padding(clean)])
    ensures TypedPadding(payload) <= Padding(WithoutSpace(payload))
    ensures TypedPadding(payload) == Padding(WithoutSpace(payload)) <==> PaddingAtEnd(payload)
    ensures SpaceCount(payload) == 0 ==> PaddingAtEnd(payload)
  {
    var clean := WithoutSpace(payload);
    AcceptedPadding(clean);
    TypedEnd(payload);
    TypedCases(payload, Padding(clean));
    if SpaceCount(payload) == 0 { NoSpaceStripsNothing(payload); }
  }

  lemma TypedCases(payload: Text, p: nat)
    requires p <= 2
    requires EndsWith(payload, [EQUALS]) ==> p >= 1
    requires EndsWith(payload, [EQUALS, EQUALS]) ==> p == 2
    ensures TypedPadding(payload) <= p
    ensures TypedPadding(payload) == p <==> EndsInPad(payload, p)
  {
    EndOf(payload, 1);
    EndOf(payload, 2);
  }

  lemma PadsAreSpaceless()
    ensures Spaceless([EQUALS]) && Spaceless([EQUALS, EQUALS])
  {}

  lemma TypedEnd(payload: Text)
    ensures EndsWith(payload, [EQUALS]) ==> EndsWith(WithoutSpace(payload), [EQUALS])
    ensures EndsWith(payload, [EQUALS, EQUALS]) ==> EndsWith(WithoutSpace(payload), [EQUALS, EQUALS])
  {
    PadsAreSpaceless();
    if EndsWith(payload, [EQUALS]) { StrippedEnd(payload, [EQUALS]); }
    if EndsWith(payload, [EQUALS, EQUALS]) { StrippedEnd(payload, [EQUALS, EQUALS]); }
  }

  lemma {:induction false} NoSpaceStripsNothing(t: Text)
    requires SpaceCount(t) == 0
    ensures WithoutSpace(t) == t
  {
    if t != [] { NoSpaceStripsNothing(t[1..]); }
  }

  lemma QuartersOf(n: nat, spaces: nat)
    requires n % 4 != 1
    ensures (n + spaces) * 3 / 4 >= n * 3 / 4
    ensures (n + spaces) * 3 / 4 == n * 3 / 4 <==> spaces == 0 || (spaces == 1 && n % 4 == 0)
  {
    var q, r := n / 4, n % 4;
    assert n * 3 == 4 * (3 * q) + 3 * r;
    assert (n + spaces) * 3 == 4 * (3 * q) + 3 * (r + spaces);
    assert n * 3 / 4 == 3 * q + 3 * r / 4;
    assert (n + spaces) * 3 / 4 == 3 * q + 3 * (r + spaces) / 4;
    if r + spaces >= 4 {
      assert 3 * (r + spaces) / 4 >= 3;
    }
  }

  // ----- Percent encoding -----

  function HexDigit(u: Unit): (r: Option<int>)
    ensures r.Some? ==> 0 <= r.value < 16
  {
    if InRange(u, '0', '9') then Some(u - '0' as int)
    else if InRange(u, 'a', 'f') then Some(u - 'a' as int + 10)
    else if InRange(u, 'A', 'F') then Some(u - 'A' as int + 10)
    else None
  }

  /** `%` and two hexadecimal digits of either case. */
  predicate IsEscape(t: Text, i: nat) {
    i + 2 < |t| && t[i] == PERCENT && HexDigit(t[i + 1]).Some? && HexDigit(t[i + 2]).Some?
  }

  function EscapeValue(t: Text, i: nat): Byte
    requires IsEscape(t, i)
  {
    HexDigit(t[i + 1]).value * 16 + HexDigit(t[i + 2]).value
  }

  /** UTF-8 of one code unit alone; a surrogate alone has none, and becomes the replacement character. */
  function UnitBytes(u: Unit): (r: seq<Byte>)
    ensures |r| == if u < 0x80 then 1 else if u < 0x800 then 2 else 3
  {
    if u < 0x80 then [u]
    else if u < 0x800 then [0xC0 + u / 0x40, 0x80 + u % 0x40]
    else if 0xD800 <= u < 0xE000 then [0xEF, 0xBF, 0xBD]
    else [0xE0 + u / 0x1000, 0x80 + u / 0x40 % 0x40, 0x80 + u % 0x40]
  }

  /** Hexadecimal digits, in either case. */
  lemma HexDigitsAreThese(u: Unit, v: int)
    requires 0 <= v < 16
    ensures HexDigit(u) == Some(v) <==> u == "0123456789abcdef"[v] as int || u == "0123456789ABCDEF"[v] as int
  {}

  /** A percent sign and two digits are an escape wherever they stand, at the end too. */
  lemma EscapesAnywhere(before: Text, x: Unit, y: Unit, after: Text)
    ensures var t := before + ([PERCENT, x, y] + after);
      && (IsEscape(t, |before|) <==> HexDigit(x).Some? && HexDigit(y).Some?)
      && (IsEscape(t, |before|) ==> EscapeValue(t, |before|) == HexDigit(x).value * 16 + HexDigit(y).value)
  {
    var t := before + ([PERCENT, x, y] + after);
    assert t[|before|] == PERCENT && t[|before| + 1] == x && t[|before| + 2] == y;
  }

  predicate Continues(b: Byte) { 0x80 <= b < 0xC0 }

  /** A code point read from one, two or three bytes of UTF-8 (section 3 of RFC 3629). */
  function CodePoint(b: seq<Byte>): Option<int> {
    if |b| == 1 && b[0] < 0x80 then Some(b[0])
    else if |b| == 2 && 0xC0 <= b[0] < 0xE0 && Continues(b[1]) then
      var (x: int, y: int) := (b[0], b[1]);
      Some((x - 0xC0) * 0x40 + (y - 0x80))
    else if |b| == 3 && 0xE0 <= b[0] < 0xF0 && Continues(b[1]) && Continues(b[2]) then
      var (x: int, y: int, z: int) := (b[0], b[1], b[2]);
      Some((x - 0xE0) * 0x1000 + (y - 0x80) * 0x40 + (z - 0x80))
    else None
  }

  /** A unit's bytes read back as it, in as few bytes as can hold it; a surrogate's as the replacement character. */
  lemma UnitReadsBack(u: Unit)
    ensures CodePoint(UnitBytes(u)) == Some(if 0xD800 <= u < 0xE000 then 0xFFFD else u)
    ensures |UnitBytes(u)| == 1 <==> u < 0x80
    ensures |UnitBytes(u)| == 2 <==> 0x80 <= u < 0x800
  {
    if 0x80 <= u < 0x800 { TwoParts(u); } else if u >= 0x800 { ThreeParts(u); }
  }

  lemma TwoParts(u: int)
    requires 0 <= u < 0x800
    ensures 0 <= u / 0x40 < 0x20 && 0 <= u % 0x40 < 0x40 && u / 0x40 * 0x40 + u % 0x40 == u
  {}

  lemma ThreeParts(u: int)
    requires 0 <= u < 0x1_0000
    ensures 0 <= u / 0x1000 < 0x10 && 0 <= u / 0x40 % 0x40 < 0x40 && 0 <= u % 0x40 < 0x40
    ensures u / 0x1000 * 0x1000 + u / 0x40 % 0x40 * 0x40 + u % 0x40 == u
  {
    assert u / 0x40 / 0x40 == u / 0x1000;
  }

  /** Decoding from `i` on. */
  function DecodeFrom(t: Text, i: nat): seq<Byte>
    requires i <= |t|
    decreases |t| - i
  {
    if i == |t| then []
    else if IsEscape(t, i) then [EscapeValue(t, i)] + DecodeFrom(t, i + 3)
    else UnitBytes(t[i]) + DecodeFrom(t, i + 1)
  }

  function PercentDecode(t: Text): seq<Byte> { DecodeFrom(t, 0) }

  method PercentDecodeBytes(text: Text) returns (out: seq<Byte>)
    ensures out == PercentDecode(text)
  {
    out := [];
    var i := 0;
    while i < |text|
      invariant 0 <= i <= |text|
      invariant out + DecodeFrom(text, i) == PercentDecode(text)
    {
      if IsEscape(text, i) {
        Regroup(out, [EscapeValue(text, i)], DecodeFrom(text, i + 3));
        out := out + [EscapeValue(text, i)];
        i := i + 2;
      } else {
        Regroup(out, UnitBytes(text[i]), DecodeFrom(text, i + 1));
        if text[i] < 0x80 {
          out := out + [text[i]];
        } else {
          out := out + UnitBytes(text[i]);
        }
      }
      i := i + 1;
    }
  }

  /**
   * `t`, from `i` on, spells `b`: each byte escaped, or left as it is, which takes a byte below
   * 0x80, and for `%` itself one that what follows does not turn into an escape.
   */
  predicate Spells(t: Text, i: nat, b: seq<Byte>)
    requires i <= |t|
    decreases |b|
  {
    if b == [] then i == |t|
    else
      || (IsEscape(t, i) && EscapeValue(t, i) == b[0] && Spells(t, i + 3, b[1..]))
      || (i < |t| && t[i] == b[0] && b[0] < 0x80 && !IsEscape(t, i) && Spells(t, i + 1, b[1..]))
  }

  /**
   * Percent decoding inverts every encoding that escapes at least the bytes from 0x80 and each
   * `%` that would read as an escape, in either case of digits; and of text below 0x80 it
   * accepts no other reading.
   */
  lemma {:induction false} PercentDecodeInverts(t: Text, i: nat, b: seq<Byte>)
    requires i <= |t| && forall k :: 0 <= k < |t| ==> t[k] < 0x80
    ensures DecodeFrom(t, i) == b <==> Spells(t, i, b)
    decreases |b|
  {
    if i == |t| {
    } else if b == [] {
    } else {
      var d := DecodeFrom(t, i);
      if IsEscape(t, i) {
        PercentDecodeInverts(t, i + 3, b[1..]);
        assert d[1..] == DecodeFrom(t, i + 3);
      } else {
        PercentDecodeInverts(t, i + 1, b[1..]);
        assert d[1..] == DecodeFrom(t, i + 1);
      }
      assert b == [b[0]] + b[1..];
    }
  }

  // ----- Text that was never encoded -----

  predicate High(u: Unit) { 0xD800 <= u < 0xDC00 }

  predicate Low(u: Unit) { 0xDC00 <= u < 0xE000 }

  predicate PairAt(t: Text, i: nat) { i + 1 < |t| && High(t[i]) && Low(t[i + 1]) }

  /** UTF-8 of text from `i` on, four bytes for a surrogate pair. */
  function Utf8From(t: Text, i: nat): seq<Byte>
    requires i <= |t|
    decreases |t| - i
  {
    if i == |t| then []
    else if PairAt(t, i) then
      var (high: int, low: int) := (t[i], t[i + 1]);
      var point := 0x1_0000 + (high - 0xD800) * 0x400 + (low - 0xDC00);
      [0xF0 + point / 0x4_0000, 0x80 + point / 0x1000 % 0x40, 0x80 + point / 0x40 % 0x40, 0x80 + point % 0x40]
      + Utf8From(t, i + 2)
    else UnitBytes(t[i]) + Utf8From(t, i + 1)
  }

  function PairsFrom(t: Text, i: nat): nat
    requires i <= |t|
    decreases |t| - i
  {
    if i == |t| then 0 else if PairAt(t, i) then 1 + PairsFrom(t, i + 2) else PairsFrom(t, i + 1)
  }

  predicate Unescaped(t: Text) { forall k :: 0 <= k < |t| ==> !IsEscape(t, k) }

  lemma DecodeOne(t: Text, i: nat)
    requires i < |t| && Unescaped(t)
    ensures DecodeFrom(t, i) == UnitBytes(t[i]) + DecodeFrom(t, i + 1)
  {
    assert !IsEscape(t, i);
  }

  /** Each pair costs two bytes more than its UTF-8, and without one the two agree. */
  lemma {:induction false} PairsCost(t: Text, i: nat)
    requires i <= |t| && Unescaped(t)
    ensures |DecodeFrom(t, i)| == |Utf8From(t, i)| + 2 * PairsFrom(t, i)
    ensures PairsFrom(t, i) == 0 ==> DecodeFrom(t, i) == Utf8From(t, i)
    decreases |t| - i
  {
    if i < |t| {
      DecodeOne(t, i);
      if PairAt(t, i) {
        DecodeOne(t, i + 1);
        PairsCost(t, i + 2);
      } else {
        PairsCost(t, i + 1);
      }
    }
  }

  lemma {:induction false} PairsCounted(t: Text, i: nat)
    requires i <= |t|
    ensures PairsFrom(t, i) == 0 <==> forall k :: i <= k < |t| ==> !PairAt(t, k)
    decreases |t| - i
  {
    if i < |t| && !PairAt(t, i) {
      PairsCounted(t, i + 1);
    }
  }

  /**
   * Text that was never encoded becomes its UTF-8 exactly when it has no character beyond the
   * basic plane: each half of a surrogate pair is encoded alone and turns into a replacement
   * character, two bytes too many and the character gone.
   */
  lemma PlainTextIsUtf8(t: Text)
    requires Unescaped(t)
    ensures PercentDecode(t) == Utf8From(t, 0) <==> forall k :: 0 <= k < |t| ==> !PairAt(t, k)
  {
    PairsCost(t, 0);
    PairsCounted(t, 0);
  }

  // ----- The two readers together -----

  datatype Bytes = Read(bytes: seq<Byte>) | BadBase64 | Unreadable | TooLarge(size: nat)

  /** The bytes behind a URI; `fetched` is what reading anything but a data URI gives, if it works. */
  function ReadUri(uri: Text, maxBytes: Option<int>, fetched: Option<seq<Byte>>): Bytes {
    var parsed := Parse(uri);
    var bytes :=
      if parsed.None? then fetched
      else if parsed.value.isBase64 then Atob(parsed.value.payload)
      else Some(PercentDecode(parsed.value.payload));
    if bytes.None? then (if parsed.Some? then BadBase64 else Unreadable)
    else if maxBytes.Some? && |bytes.value| > maxBytes.value then TooLarge(|bytes.value|)
    else Read(bytes.value)
  }

  method ReadUriBytes(uri: Text, maxBytes: Option<int>, fetched: Option<seq<Byte>>) returns (r: Bytes)
    ensures r == ReadUri(uri, maxBytes, fetched)
  {
    var m := Parse(uri);
    var bytes: seq<Byte>;
    if m.Some? {
      if m.value.isBase64 {
        var bin := Atob(m.value.payload);
        if bin.None? { return BadBase64; }
        var filled := new Byte[|bin.value|](_ => 0);
        for i := 0 to |bin.value|
          invariant filled[..i] == bin.value[..i]
        {
          filled[i] := bin.value[i];
        }
        assert filled[..] == filled[..|bin.value|] == bin.value;
        bytes := filled[..];
      } else {
        bytes := PercentDecodeBytes(m.value.payload);
      }
    } else {
      if fetched.None? { return Unreadable; }
      bytes := fetched.value;
    }
    if maxBytes.Some? && |bytes| > maxBytes.value { return TooLarge(|bytes|); }
    return Read(bytes);
  }

  function DataUriByteLength(uri: Text): Option<int> {
    var m := Parse(uri);
    if m.None? then None
    else if m.value.isBase64 then Some(Base64Length(m.value.payload))
    else Some(|PercentDecode(m.value.payload)|)
  }

  /**
   * The outcomes. A data URI marked base64 fails on a payload the decoder refuses, anything else
   * when it cannot be fetched; what is over the limit, and only that, is reported with its size;
   * and the limit changes nothing of what is read.
   */
  lemma OutcomesExactlyWhen(uri: Text, maxBytes: Option<int>, fetched: Option<seq<Byte>>, b: seq<Byte>)
    ensures var r := ReadUri(uri, maxBytes, fetched);
      && (r.BadBase64? <==> Parse(uri).Some? && Parse(uri).value.isBase64 && Atob(Parse(uri).value.payload).None?)
      && (r.Unreadable? <==> Parse(uri).None? && fetched.None?)
      && (ReadUri(uri, None, fetched) == Read(b) ==>
           r == if maxBytes.Some? && |b| > maxBytes.value then TooLarge(|b|) else Read(b))
    ensures ReadUri(uri, None, fetched) == Read(b) <==>
      || (Parse(uri).None? && fetched == Some(b))
      || (Parse(uri).Some? && Parse(uri).value.isBase64 && Atob(Parse(uri).value.payload) == Some(b))
      || (Parse(uri).Some? && !Parse(uri).value.isBase64 && PercentDecode(Parse(uri).value.payload) == b)
  {}

  /**
   * What the base64 decoder accepts: once white space is taken out, characters of the alphabet in
   * any number but one more than whole quartets, behind which one or two `=` may complete a quartet.
   */
  lemma AcceptsExactlyWhen(t: Text)
    ensures Atob(t).Some? <==> exists data: Text, pad: Text ::
      && WithoutSpace(t) == data + pad && AllSextets(data) && |data| % 4 != 1
      && (pad == [] || ((pad == [EQUALS] || pad == [EQUALS, EQUALS]) && |data + pad| % 4 == 0))
  {
    var clean := WithoutSpace(t);
    var n := |clean| - Padding(clean);
    assert clean == clean[..n] + clean[n..];
    LastTwo(clean, EQUALS);
    if data: Text, pad: Text :|
      clean == data + pad && AllSextets(data) && |data| % 4 != 1
      && (pad == [] || ((pad == [EQUALS] || pad == [EQUALS, EQUALS]) && |data + pad| % 4 == 0)) {
      AcceptsPadded(t, data, pad);
    }
  }

  lemma AcceptsPadded(t: Text, data: Text, pad: Text)
    requires WithoutSpace(t) == data + pad && AllSextets(data) && |data| % 4 != 1
    requires pad == [] || ((pad == [EQUALS] || pad == [EQUALS, EQUALS]) && |data + pad| % 4 == 0)
    ensures Atob(t).Some?
  {
    assert Completes(pad, data);
    PaddingOf(data, pad);
    assert (data + pad)[..|data|] == data;
  }

  /** A size is foretold for exactly the data URIs. */
  lemma SizeIsForDataUris(uri: Text)
    ensures DataUriByteLength(uri).Some? <==> Parse(uri).Some?
  {}

  /** A data URI is built from any bytes and any media type: it reads back as them, at the size foretold. */
  lemma DataUriRoundTrip(media: Text, b: seq<Byte>)
    requires COMMA !in media
    ensures var uri := DATA + (media + BASE64) + [COMMA] + Base64(b);
      ReadUri(uri, None, None) == Read(b) && DataUriByteLength(uri) == Some(|b|)
  {
    assert COMMA !in BASE64;
    ParseOf(media + BASE64, Base64(b));
    assert (media + BASE64)[|media|..] == BASE64;
    Base64RoundTrip(b);
    SizeIsExactWhen(Base64(b));
    Base64HasNoSpace(b);
  }

  lemma Base64HasNoSpace(b: seq<Byte>)
    ensures SpaceCount(Base64(b)) == 0
  {
    GroupsRoundTrip(b);
    PadsTheEnd(b);
    SextetsAreSpaceless(EncodeGroups(b, []));
    assert Spaceless(Base64(b));
    NothingToStrip(Base64(b));
  }

  /**
   * The check before the upload agrees with the read: a data URI the check lets through is never
   * too large when it is read, and outside base64 the size foretold is the size read.
   */
  lemma CheckAgreesWithRead(uri: Text, limit: int)
    requires Parse(uri).Some?
    ensures DataUriByteLength(uri).value <= limit ==> !ReadUri(uri, Some(limit), None).TooLarge?
    ensures !Parse(uri).value.isBase64 ==>
      (DataUriByteLength(uri).value <= limit <==> ReadUri(uri, Some(limit), None).Read?)
  {
    var m := Parse(uri).value;
    if m.isBase64 && Atob(m.payload).Some? { SizeIsExactWhen(m.payload); }
  }
}
