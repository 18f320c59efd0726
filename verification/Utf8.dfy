/** `Buffer.toString("utf8")`: RFC 3629 sequences, with U+FFFD for every maximal part of an ill-formed one. */
module Utf8 {

  type byte = x: int | 0 <= x < 0x100

  const REPLACEMENT: char := '\U{FFFD}'

  predicate Continuation(b: byte) {
    0x80 <= b <= 0xBF
  }

  /** The number of bytes the leading byte announces; 0 for a byte that starts no sequence. */
  function Announced(lead: byte): nat {
    if lead < 0x80 then 1
    else if 0xC2 <= lead <= 0xDF then 2
    else if 0xE0 <= lead <= 0xEF then 3
    else if 0xF0 <= lead <= 0xF4 then 4
    else 0
  }

  /** Rules out overlong forms, surrogates and values above U+10FFFF. */
  predicate SecondFits(lead: byte, second: byte) {
    && Continuation(second)
    && (lead == 0xE0 ==> second >= 0xA0)
    && (lead == 0xED ==> second <= 0x9F)
    && (lead == 0xF0 ==> second >= 0x90)
    && (lead == 0xF4 ==> second <= 0x8F)
  }

  /** How many bytes the decoder consumes for the next character. */
  function UnitSize(bytes: seq<byte>): (n: nat)
    requires bytes != []
    ensures 1 <= n <= |bytes|
    ensures forall i :: 1 <= i < n ==> Continuation(bytes[i])
  {
    var size := Announced(bytes[0]);
    if size < 2 || |bytes| < 2 || !SecondFits(bytes[0], bytes[1]) then 1
    else if size < 3 || |bytes| < 3 || !Continuation(bytes[2]) then 2
    else if size < 4 || |bytes| < 4 || !Continuation(bytes[3]) then 3
    else 4
  }

  function UnitChar(bytes: seq<byte>): char
    requires bytes != []
  {
    var n := UnitSize(bytes);
    var at := (i: int, marker: int) requires 0 <= i < |bytes| => (bytes[i] as int) - marker;
    if n != Announced(bytes[0]) then REPLACEMENT
    else if n == 1 then bytes[0] as char
    else if n == 2 then (at(0, 0xC0) * 0x40 + at(1, 0x80)) as char
    else if n == 3 then (at(0, 0xE0) * 0x1000 + at(1, 0x80) * 0x40 + at(2, 0x80)) as char
    else (at(0, 0xF0) * 0x40000 + at(1, 0x80) * 0x1000 + at(2, 0x80) * 0x40 + at(3, 0x80)) as char
  }

  function Decode(bytes: seq<byte>): string {
    if bytes == [] then "" else [UnitChar(bytes)] + Decode(bytes[UnitSize(bytes)..])
  }

  /** The decoder of the whole comes to rest at offset n: no character straddles it. */
  predicate Boundary(bytes: seq<byte>, n: nat)
    requires n <= |bytes|
  {
    n == 0 || (UnitSize(bytes) <= n && Boundary(bytes[UnitSize(bytes)..], n - UnitSize(bytes)))
  }

  lemma {:induction false} EndIsBoundary(bytes: seq<byte>)
    ensures Boundary(bytes, |bytes|)
  {
    if bytes != [] {
      EndIsBoundary(bytes[UnitSize(bytes)..]);
    }
  }

  lemma UnitOfPrefix(bytes: seq<byte>, n: nat)
    requires 0 < n <= |bytes|
    ensures UnitSize(bytes) <= n ==> UnitSize(bytes[..n]) == UnitSize(bytes) && UnitChar(bytes[..n]) == UnitChar(bytes)
    ensures UnitSize(bytes) > n ==> UnitSize(bytes[..n]) == n
  {
  }

  /** An offset inside a longer prefix is a boundary of the prefix exactly when it is one of the whole. */
  lemma {:induction false} BoundaryOfPrefix(bytes: seq<byte>, m: nat, n: nat)
    requires n < m <= |bytes|
    ensures Boundary(bytes[..m], n) <==> Boundary(bytes, n)
    decreases |bytes|
  {
    if n > 0 {
      UnitOfPrefix(bytes, m);
      var k := UnitSize(bytes);
      if k <= n {
        assert bytes[..m][k..] == bytes[k..][..m - k];
        BoundaryOfPrefix(bytes[k..], m - k, n - k);
      }
    }
  }

  lemma {:induction false} StrayContinuations(bytes: seq<byte>, m: nat)
    requires m <= |bytes|
    requires forall i :: 0 <= i < m ==> Continuation(bytes[i])
    ensures |Decode(bytes)| == m + |Decode(bytes[m..])|
    decreases m
  {
    if m > 0 {
      assert UnitSize(bytes) == 1;
      StrayContinuations(bytes[1..], m - 1);
      assert bytes[1..][m - 1..] == bytes[m..];
    }
  }

  /**
   Decoding two halves on their own is decoding the whole exactly when the cut is a boundary; every other cut yields
   strictly more characters, whatever the bytes are.
   */
  lemma {:induction false} CutDecode(bytes: seq<byte>, n: nat)
    requires n <= |bytes|
    ensures Boundary(bytes, n) ==> Decode(bytes[..n]) + Decode(bytes[n..]) == Decode(bytes)
    ensures !Boundary(bytes, n) ==> |Decode(bytes[..n])| + |Decode(bytes[n..])| > |Decode(bytes)|
    decreases |bytes|
  {
    if n == 0 {
      CutAtStart(bytes);
    } else if UnitSize(bytes) <= n {
      var k := UnitSize(bytes);
      CutDecode(bytes[k..], n - k);
      CutFurther(bytes, n);
    } else {
      StraddlingCut(bytes, n);
    }
  }

  lemma CutFurther(bytes: seq<byte>, n: nat)
    requires 0 < n <= |bytes| && UnitSize(bytes) <= n
    requires var rest, m := bytes[UnitSize(bytes)..], n - UnitSize(bytes);
      && (Boundary(rest, m) ==> Decode(rest[..m]) + Decode(rest[m..]) == Decode(rest))
      && (!Boundary(rest, m) ==> |Decode(rest[..m])| + |Decode(rest[m..])| > |Decode(rest)|)
    ensures Boundary(bytes, n) ==> Decode(bytes[..n]) + Decode(bytes[n..]) == Decode(bytes)
    ensures !Boundary(bytes, n) ==> |Decode(bytes[..n])| + |Decode(bytes[n..])| > |Decode(bytes)|
  {
    CutAfterUnit(bytes, n);
  }

  lemma CutAtStart(bytes: seq<byte>)
    ensures Boundary(bytes, 0) && Decode(bytes[..0]) + Decode(bytes[0..]) == Decode(bytes)
  {
    assert bytes[0..] == bytes && bytes[..0] == [];
  }

  lemma Regrouped(unit: string, left: string, right: string)
    ensures (unit + left) + right == unit + (left + right)
    ensures |(unit + left) + right| == |unit| + |left| + |right|
  {
  }

  lemma CutAfterUnit(bytes: seq<byte>, n: nat)
    requires 0 < n <= |bytes| && UnitSize(bytes) <= n
    ensures var rest := bytes[UnitSize(bytes)..]; var m := n - UnitSize(bytes);
      && Decode(bytes[..n]) + Decode(bytes[n..]) == [UnitChar(bytes)] + (Decode(rest[..m]) + Decode(rest[m..]))
      && Decode(bytes) == [UnitChar(bytes)] + Decode(rest)
      && |Decode(bytes[..n])| + |Decode(bytes[n..])| == 1 + |Decode(rest[..m])| + |Decode(rest[m..])|
  {
    var rest, m := bytes[UnitSize(bytes)..], n - UnitSize(bytes);
    DecodePrefix(bytes, n);
    assert bytes[n..] == rest[m..];
    Regrouped([UnitChar(bytes)], Decode(rest[..m]), Decode(rest[m..]));
  }

  lemma DecodePrefix(bytes: seq<byte>, n: nat)
    requires 0 < n <= |bytes| && UnitSize(bytes) <= n
    ensures Decode(bytes[..n]) == [UnitChar(bytes)] + Decode(bytes[UnitSize(bytes)..][..n - UnitSize(bytes)])
  {
    var k := UnitSize(bytes);
    UnitOfPrefix(bytes, n);
    assert bytes[..n][k..] == bytes[k..][..n - k];
  }

  lemma StraddlingCut(bytes: seq<byte>, n: nat)
    requires 0 < n < |bytes| && n < UnitSize(bytes)
    ensures |Decode(bytes[..n])| + |Decode(bytes[n..])| > |Decode(bytes)|
  {
    var k := UnitSize(bytes);
    UnitOfPrefix(bytes, n);
    assert bytes[..n][n..] == [];
    StrayContinuations(bytes[n..], k - n);
    assert bytes[n..][k - n..] == bytes[k..];
  }

  // ----- the encoder -----

  /** Section 3 of RFC 3629: the bytes of one character. */
  function EncodeChar(c: char): (bytes: seq<byte>)
    ensures 1 <= |bytes| <= 4
  {
    var code := c as int;
    var high := code / 0x40;
    var higher := high / 0x40;
    if code < 0x80 then [code]
    else if code < 0x800 then [0xC0 + high, 0x80 + code % 0x40]
    else if code < 0x10000 then [0xE0 + higher, 0x80 + high % 0x40, 0x80 + code % 0x40]
    else [0xF0 + higher / 0x40, 0x80 + higher % 0x40, 0x80 + high % 0x40, 0x80 + code % 0x40]
  }

  function Encode(text: string): seq<byte> {
    if text == "" then [] else EncodeChar(text[0]) + Encode(text[1..])
  }

  /** The first byte announces the length, and the others follow it as the decoder expects. */
  lemma EncodedShape(c: char)
    ensures var e := EncodeChar(c);
      && Announced(e[0]) == |e|
      && (|e| >= 2 ==> SecondFits(e[0], e[1]))
      && (forall i :: 1 <= i < |e| ==> Continuation(e[i]))
  {
  }

  /** The last six bits and the ones before them. */
  lemma LastBits(before: nat, last: nat)
    requires last < 0x40
    ensures (before * 0x40 + last) / 0x40 == before && (before * 0x40 + last) % 0x40 == last
  {
  }

  /** A byte without its mark. */
  function Without(b: byte, mark: int): int {
    b as int - mark
  }

  /** The number in the bytes of one character, without their marks. */
  function Bits(bytes: seq<byte>): int
    requires 1 <= |bytes| <= 4
  {
    if |bytes| == 1 then bytes[0]
    else if |bytes| == 2 then Without(bytes[0], 0xC0) * 0x40 + Without(bytes[1], 0x80)
    else if |bytes| == 3 then (Without(bytes[0], 0xE0) * 0x40 + Without(bytes[1], 0x80)) * 0x40 + Without(bytes[2], 0x80)
    else ((Without(bytes[0], 0xF0) * 0x40 + Without(bytes[1], 0x80)) * 0x40 + Without(bytes[2], 0x80)) * 0x40 + Without(bytes[3], 0x80)
  }

  lemma BitsOfEncoded(c: char)
    ensures Bits(EncodeChar(c)) == c as int
  {
  }

  lemma UnitBits(bytes: seq<byte>)
    requires bytes != [] && UnitSize(bytes) == Announced(bytes[0])
    ensures UnitChar(bytes) as int == Bits(bytes[..UnitSize(bytes)])
  {
  }

  lemma UnitOfShape(e: seq<byte>, bytes: seq<byte>)
    requires e != [] && e <= bytes && Announced(e[0]) == |e|
    requires (|e| >= 2 ==> SecondFits(e[0], e[1])) && forall i :: 1 <= i < |e| ==> Continuation(e[i])
    ensures UnitSize(bytes) == |e| && bytes[..|e|] == e
  {
    assert forall i :: 0 <= i < |e| ==> bytes[i] == e[i];
  }

  lemma UnitOfEncoded(c: char, bytes: seq<byte>)
    requires EncodeChar(c) <= bytes
    ensures UnitSize(bytes) == |EncodeChar(c)| && UnitChar(bytes) == c
  {
    EncodedShape(c);
    UnitOfShape(EncodeChar(c), bytes);
    BitsOfEncoded(c);
    UnitBits(bytes);
  }

  lemma EncodeThreeBits(bytes: seq<byte>, c: char)
    requires |bytes| == 3 && Announced(bytes[0]) == 3 && c as int == Bits(bytes)
    requires SecondFits(bytes[0], bytes[1]) && Continuation(bytes[1]) && Continuation(bytes[2])
    ensures EncodeChar(c) == bytes
  {
    LastBits(Without(bytes[0], 0xE0) * 0x40 + Without(bytes[1], 0x80), Without(bytes[2], 0x80));
    LastBits(Without(bytes[0], 0xE0), Without(bytes[1], 0x80));
  }

  lemma EncodeFourBits(bytes: seq<byte>, c: char)
    requires |bytes| == 4 && Announced(bytes[0]) == 4 && c as int == Bits(bytes)
    requires SecondFits(bytes[0], bytes[1]) && Continuation(bytes[1]) && Continuation(bytes[2]) && Continuation(bytes[3])
    ensures EncodeChar(c) == bytes
  {
    LastBits((Without(bytes[0], 0xF0) * 0x40 + Without(bytes[1], 0x80)) * 0x40 + Without(bytes[2], 0x80), Without(bytes[3], 0x80));
    LastBits(Without(bytes[0], 0xF0) * 0x40 + Without(bytes[1], 0x80), Without(bytes[2], 0x80));
    LastBits(Without(bytes[0], 0xF0), Without(bytes[1], 0x80));
  }

  lemma EncodeBits(bytes: seq<byte>, c: char)
    requires bytes != [] && Announced(bytes[0]) == |bytes| && c as int == Bits(bytes)
    requires (|bytes| >= 2 ==> SecondFits(bytes[0], bytes[1])) && forall i :: 1 <= i < |bytes| ==> Continuation(bytes[i])
    ensures EncodeChar(c) == bytes
  {
    if |bytes| == 2 {
      LastBits(Without(bytes[0], 0xC0), Without(bytes[1], 0x80));
    } else if |bytes| == 3 {
      EncodeThreeBits(bytes, c);
    } else if |bytes| == 4 {
      EncodeFourBits(bytes, c);
    }
  }

  lemma Regroup(a: seq<byte>, b: seq<byte>, c: seq<byte>)
    ensures a + b + c == a + (b + c)
  {
  }

  lemma FirstApart(text: string, rest: string)
    requires text != ""
    ensures [text[0]] + (text[1..] + rest) == text + rest
  {
  }

  lemma DecodeUnit(unit: seq<byte>, rest: seq<byte>, n: nat)
    requires unit != [] && UnitSize(unit + rest) == |unit| && n <= |rest|
    ensures Decode(unit + rest) == [UnitChar(unit + rest)] + Decode(rest)
    ensures Boundary(rest, n) ==> Boundary(unit + rest, |unit| + n)
  {
    assert (unit + rest)[|unit|..] == rest;
  }

  /** Whatever follows them, encoded characters are decoded as they were, and the decoder is at rest behind them. */
  lemma {:induction false} EncodedIsDecoded(text: string, rest: seq<byte>)
    ensures Decode(Encode(text) + rest) == text + Decode(rest)
    ensures Boundary(Encode(text) + rest, |Encode(text)|)
  {
    if text == "" {
      assert Encode(text) + rest == rest && "" + Decode(rest) == Decode(rest);
    } else {
      var unit, tail := EncodeChar(text[0]), Encode(text[1..]);
      EncodedIsDecoded(text[1..], rest);
      UnitOfEncoded(text[0], unit + (tail + rest));
      DecodeUnit(unit, tail + rest, |tail|);
      Regroup(unit, tail, rest);
      FirstApart(text, Decode(rest));
    }
  }

  lemma DecodeInvertsEncode(text: string)
    ensures Decode(Encode(text)) == text
  {
    EncodedIsDecoded(text, []);
    assert Encode(text) + [] == Encode(text) && text + "" == text;
  }

  // ----- ill-formed bytes -----

  /** The bytes are the beginning of some encoded character. */
  ghost predicate Begins(part: seq<byte>) {
    exists c: char :: part <= EncodeChar(c)
  }

  lemma TwoOfThreeBegin(lead: byte, second: byte)
    requires Announced(lead) == 3 && SecondFits(lead, second)
    ensures Begins([lead, second])
  {
    var c := Bits([lead, second, 0x80]) as char;
    EncodeBits([lead, second, 0x80], c);
    assert [lead, second] <= EncodeChar(c);
  }

  lemma SomeOfFourBegin(lead: byte, second: byte, third: byte)
    requires Announced(lead) == 4 && SecondFits(lead, second) && Continuation(third)
    ensures Begins([lead, second, third])
  {
    var c := Bits([lead, second, third, 0x80]) as char;
    EncodeBits([lead, second, third, 0x80], c);
    assert [lead, second, third] <= EncodeChar(c);
  }

  lemma ShorterBegins(part: seq<byte>, n: nat)
    requires Begins(part) && n <= |part|
    ensures Begins(part[..n])
  {
    var c: char :| part <= EncodeChar(c);
    assert part[..n] <= EncodeChar(c);
  }

  lemma CutUnitBegins(bytes: seq<byte>)
    requires bytes != [] && 1 < UnitSize(bytes) != Announced(bytes[0])
    ensures Begins(bytes[..UnitSize(bytes)])
  {
    var n := UnitSize(bytes);
    if Announced(bytes[0]) == 3 {
      TwoOfThreeBegin(bytes[0], bytes[1]);
      assert bytes[..n] == [bytes[0], bytes[1]];
    } else if n == 2 {
      SomeOfFourBegin(bytes[0], bytes[1], 0x80);
      ShorterBegins([bytes[0], bytes[1], 0x80], 2);
      assert bytes[..n] == [bytes[0], bytes[1], 0x80][..2];
    } else {
      SomeOfFourBegin(bytes[0], bytes[1], bytes[2]);
      assert bytes[..n] == [bytes[0], bytes[1], bytes[2]];
    }
  }

  lemma NothingLongerBegins(bytes: seq<byte>)
    requires bytes != [] && UnitSize(bytes) != Announced(bytes[0]) && UnitSize(bytes) < |bytes|
    ensures !Begins(bytes[..UnitSize(bytes) + 1])
  {
    var n := UnitSize(bytes);
    forall c: char
      ensures !(bytes[..n + 1] <= EncodeChar(c))
    {
      EncodedShape(c);
      if bytes[..n + 1] <= EncodeChar(c) {
        assert forall i :: 0 <= i <= n ==> bytes[..n + 1][i] == EncodeChar(c)[i] && bytes[..n + 1][i] == bytes[i];
        assert false;
      }
    }
  }

  lemma WholeUnit(bytes: seq<byte>)
    requires bytes != [] && UnitSize(bytes) == Announced(bytes[0])
    ensures EncodeChar(UnitChar(bytes)) == bytes[..UnitSize(bytes)]
  {
    UnitBits(bytes);
    EncodeBits(bytes[..UnitSize(bytes)], UnitChar(bytes));
  }

  /**
   The decoder takes the next character if the bytes begin with an encoded one. Otherwise it replaces the maximal subpart, the
   longest part that begins some character, or one byte if there is none.
   */
  lemma UnitIsMaximal(bytes: seq<byte>)
    requires bytes != []
    ensures (exists c: char :: EncodeChar(c) <= bytes) ==> EncodeChar(UnitChar(bytes)) == bytes[..UnitSize(bytes)]
    ensures !(exists c: char :: EncodeChar(c) <= bytes) ==>
      && UnitChar(bytes) == REPLACEMENT
      && (UnitSize(bytes) == 1 || Begins(bytes[..UnitSize(bytes)]))
      && (UnitSize(bytes) < |bytes| ==> !Begins(bytes[..UnitSize(bytes) + 1]))
  {
    if UnitSize(bytes) == Announced(bytes[0]) {
      WholeUnit(bytes);
      assert EncodeChar(UnitChar(bytes)) <= bytes;
    } else {
      forall c: char
        ensures !(EncodeChar(c) <= bytes)
      {
        if EncodeChar(c) <= bytes {
          UnitOfEncoded(c, bytes);
          EncodedShape(c);
          assert false;
        }
      }
      if UnitSize(bytes) > 1 {
        CutUnitBegins(bytes);
      }
      if UnitSize(bytes) < |bytes| {
        NothingLongerBegins(bytes);
      }
    }
  }
}
