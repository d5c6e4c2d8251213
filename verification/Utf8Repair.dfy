/**
 What the decoder makes of any bytes at all: one code point for each well-formed sequence, and one U+FFFD for each
 longest start of a sequence that is then broken off (the practice of section 3.9 of the Unicode Standard).
 */
module Utf8Repair {
  import opened Utf8

  /** The bytes start a well-formed sequence, or are one. */
  ghost predicate StartsScalar(p: seq<byte>) {
    exists c :: IsScalar(c) && p <= EncodeScalar(c)
  }

  ghost predicate HasScalar(b: seq<byte>) {
    exists c :: IsScalar(c) && EncodeScalar(c) <= b
  }

  predicate IsTail(x: byte) { 0x80 <= x as int <= 0xBF }

  /** The second byte may follow the first in a sequence of three or four. */
  predicate Follows(x: byte, y: byte) {
    && (if x == 0xE0 then 0xA0 else if x == 0xF0 then 0x90 else 0x80) <= y as int
    && y as int <= (if x == 0xED then 0x9F else if x == 0xF4 then 0x8F else 0xBF)
  }

  /** How many bytes a sequence with this first byte has; 0 if there is none. */
  function Length(x: byte): nat {
    var v := x as int;
    if v < 0x80 then 1
    else if 0xC2 <= v <= 0xDF then 2
    else if 0xE0 <= v <= 0xEF then 3
    else if 0xF0 <= v <= 0xF4 then 4
    else 0
  }

  predicate Shaped(e: seq<byte>) {
    && e != [] && |e| == Length(e[0])
    && (|e| > 1 ==> IsTail(e[1]) && Follows(e[0], e[1]))
    && (|e| > 2 ==> IsTail(e[2]))
    && (|e| > 3 ==> IsTail(e[3]))
  }

  lemma ShapeOfScalar(c: int)
    requires IsScalar(c)
    ensures Shaped(EncodeScalar(c))
  {
  }

  function PointOf(e: seq<byte>): int
    requires Shaped(e)
  {
    var x := e[0] as int;
    if |e| == 1 then x
    else if |e| == 2 then (x - 0xC0) * 64 + (e[1] as int - 0x80)
    else if |e| == 3 then ((x - 0xE0) * 64 + (e[1] as int - 0x80)) * 64 + (e[2] as int - 0x80)
    else (((x - 0xF0) * 64 + (e[1] as int - 0x80)) * 64 + (e[2] as int - 0x80)) * 64 + (e[3] as int - 0x80)
  }

  lemma LastDigit(a: nat, t: nat)
    requires t < 64
    ensures (a * 64 + t) / 64 == a && (a * 64 + t) % 64 == t
  {
  }

  lemma NestedQuotients(c: nat)
    ensures c / 4096 == c / 64 / 64 && c / 262144 == c / 64 / 64 / 64
  {
  }

  lemma ScalarOfTwo(x: byte, y: byte)
    requires Shaped([x, y])
    ensures IsScalar(PointOf([x, y])) && EncodeScalar(PointOf([x, y])) == [x, y]
  {
    LastDigit(x as int - 0xC0, y as int - 0x80);
  }

  lemma ScalarOfThree(x: byte, y: byte, z: byte)
    requires Shaped([x, y, z])
    ensures IsScalar(PointOf([x, y, z])) && EncodeScalar(PointOf([x, y, z])) == [x, y, z]
  {
    var high := (x as int - 0xE0) * 64 + (y as int - 0x80);
    LastDigit(x as int - 0xE0, y as int - 0x80);
    LastDigit(high, z as int - 0x80);
    NestedQuotients(PointOf([x, y, z]));
  }

  lemma ScalarOfFour(x: byte, y: byte, z: byte, w: byte)
    requires Shaped([x, y, z, w])
    ensures IsScalar(PointOf([x, y, z, w])) && EncodeScalar(PointOf([x, y, z, w])) == [x, y, z, w]
  {
    var high := (x as int - 0xF0) * 64 + (y as int - 0x80);
    var mid := high * 64 + (z as int - 0x80);
    LastDigit(x as int - 0xF0, y as int - 0x80);
    LastDigit(high, z as int - 0x80);
    LastDigit(mid, w as int - 0x80);
    NestedQuotients(PointOf([x, y, z, w]));
  }

  lemma ScalarOfShape(e: seq<byte>)
    requires Shaped(e)
    ensures IsScalar(PointOf(e)) && EncodeScalar(PointOf(e)) == e
  {
    if |e| == 2 {
      ScalarOfTwo(e[0], e[1]);
    } else if |e| == 3 {
      ScalarOfThree(e[0], e[1], e[2]);
    } else if |e| == 4 {
      ScalarOfFour(e[0], e[1], e[2], e[3]);
    }
  }

  /** The first bytes of something shaped. */
  predicate Begins(p: seq<byte>) {
    && p != [] && |p| <= Length(p[0])
    && (|p| > 1 ==> IsTail(p[1]) && Follows(p[0], p[1]))
    && (|p| > 2 ==> IsTail(p[2]))
    && (|p| > 3 ==> IsTail(p[3]))
  }

  /** A second byte that always may follow. */
  function AnySecond(x: byte): byte { if x == 0xE0 then 0xA0 else if x == 0xF0 then 0x90 else 0x80 }

  lemma {:induction false} Completion(p: seq<byte>) returns (e: seq<byte>)
    requires Begins(p)
    ensures p <= e && Shaped(e)
    decreases 4 - |p|
  {
    if |p| == Length(p[0]) {
      e := p;
    } else {
      e := Completion(p + [if |p| == 1 then AnySecond(p[0]) else 0x80]);
    }
  }

  lemma StartsIffBegins(p: seq<byte>)
    requires p != []
    ensures StartsScalar(p) <==> Begins(p)
  {
    if Begins(p) {
      var e := Completion(p);
      ScalarOfShape(e);
    }
    if StartsScalar(p) {
      var c :| IsScalar(c) && p <= EncodeScalar(c);
      ShapeOfScalar(c);
    }
  }

  lemma HasScalarIffShaped(b: seq<byte>)
    requires b != []
    ensures HasScalar(b) <==> 0 < Length(b[0]) <= |b| && Shaped(b[..Length(b[0])])
  {
    var n := Length(b[0]);
    if 0 < n <= |b| && Shaped(b[..n]) { ScalarOfShape(b[..n]); }
    if HasScalar(b) {
      var c :| IsScalar(c) && EncodeScalar(c) <= b;
      ShapeOfScalar(c);
      assert b[..n] == EncodeScalar(c);
    }
  }

  // ---- The decoder --------------------------------------------------------------------------------

  function After(x: byte): Decoder
    requires Length(x) >= 2
  {
    var v, n := x as int, Length(x);
    Decoder(n - 1, v - (if n == 2 then 0xC0 else if n == 3 then 0xE0 else 0xF0),
            if x == 0xE0 then 0xA0 else if x == 0xF0 then 0x90 else 0x80,
            if x == 0xED then 0x9F else if x == 0xF4 then 0x8F else 0xBF)
  }

  lemma TakeLead(x: byte, rest: seq<byte>)
    requires Length(x) >= 2
    ensures DecodeFrom(IDLE, [x] + rest) == DecodeFrom(After(x), rest)
  {
    assert ([x] + rest)[1..] == rest;
  }

  lemma BreakOff(d: Decoder, b: seq<byte>)
    requires d.needed > 0 && (b == [] || !(d.lower <= b[0] as int <= d.upper))
    ensures DecodeFrom(d, b) == [REPLACEMENT] + DecodeFrom(IDLE, b)
  {
  }

  /** From the first k bytes of a sequence on, the decoder waits for the others. */
  lemma {:induction false} TakeTails(b: seq<byte>, k: nat) returns (d: Decoder)
    requires 1 <= k <= |b| && Begins(b[..k]) && k < Length(b[0])
    ensures DecodeFrom(IDLE, b) == DecodeFrom(d, b[k..])
    ensures d.needed == Length(b[0]) - k
    ensures forall y: byte :: d.lower <= y as int <= d.upper <==> IsTail(y) && (k == 1 ==> Follows(b[0], y))
  {
    if k == 1 {
      d := After(b[0]);
      assert b == [b[0]] + b[1..];
      TakeLead(b[0], b[1..]);
    } else {
      assert b[..k][..k - 1] == b[..k - 1];
      var before := TakeTails(b, k - 1);
      assert b[k - 1..] == [b[k - 1]] + b[k..];
      assert b[..k][k - 1] == b[k - 1];
      TakeByte(before, b[k - 1], b[k..]);
      d := Decoder(before.needed - 1, before.point * 64 + (b[k - 1] as int - 0x80), 0x80, 0xBF);
    }
  }

  /** The longest start of a sequence at the head of b. */
  lemma {:induction false} LongestStart(b: seq<byte>, k: nat) returns (n: nat)
    requires 1 <= k <= |b| && Begins(b[..k])
    ensures k <= n <= |b| && Begins(b[..n]) && (n < |b| ==> !Begins(b[..n + 1]))
    decreases |b| - k
  {
    if k < |b| && Begins(b[..k + 1]) { n := LongestStart(b, k + 1); } else { n := k; }
  }

  lemma WellFormedHead(b: seq<byte>) returns (c: int)
    requires b != [] && 0 < Length(b[0]) <= |b| && Shaped(b[..Length(b[0])])
    ensures IsScalar(c) && EncodeScalar(c) == b[..Length(b[0])]
    ensures DecodeFrom(IDLE, b) == [c] + DecodeFrom(IDLE, b[Length(b[0])..])
  {
    var n := Length(b[0]);
    c := PointOf(b[..n]);
    ScalarOfShape(b[..n]);
    assert b == b[..n] + b[n..];
    DecodeScalar(c, b[n..]);
  }

  lemma BrokenHead(b: seq<byte>) returns (n: nat)
    requires b != [] && Length(b[0]) > 0 && !(Length(b[0]) <= |b| && Shaped(b[..Length(b[0])]))
    ensures 1 <= n <= |b| && Begins(b[..n]) && (n < |b| ==> !Begins(b[..n + 1]))
    ensures DecodeFrom(IDLE, b) == [REPLACEMENT] + DecodeFrom(IDLE, b[n..])
  {
    n := LongestStart(b, 1);
    assert n < Length(b[0]);
    var d := TakeTails(b, n);
    if n < |b| {
      assert b[..n + 1][..n] == b[..n] && b[..n + 1][n] == b[n];
      BrokenByte(b[..n], b[n]);
      assert b[..n] + [b[n]] == b[..n + 1];
    }
    BreakOff(d, b[n..]);
  }

  lemma BrokenByte(p: seq<byte>, y: byte)
    requires Begins(p) && |p| < Length(p[0]) && !Begins(p + [y])
    ensures !(IsTail(y) && (|p| == 1 ==> Follows(p[0], y)))
  {
  }

  /** What the decoder takes from the head of b. */
  ghost predicate HeadDecoded(b: seq<byte>, c: int, n: nat) {
    && 1 <= n <= |b| && DecodeFrom(IDLE, b) == [c] + DecodeFrom(IDLE, b[n..])
    && if HasScalar(b) then IsScalar(c) && EncodeScalar(c) == b[..n]
       else && c == 0xFFFD && (n == 1 || StartsScalar(b[..n]))
            && (n < |b| ==> !StartsScalar(b[..n + 1]))
  }

  /**
   Any bytes: a well-formed sequence at the head gives its code point; otherwise one U+FFFD stands for the longest
   start of a sequence that is there, or for a single byte that starts none.
   */
  lemma DecodesMaximalParts(b: seq<byte>) returns (c: int, n: nat)
    requires b != []
    ensures HeadDecoded(b, c, n)
  {
    HasScalarIffShaped(b);
    if Length(b[0]) == 0 {
      c, n := REPLACEMENT, 1;
      if |b| > 1 { StartsIffBegins(b[..2]); }
    } else if Length(b[0]) <= |b| && Shaped(b[..Length(b[0])]) {
      n := Length(b[0]);
      c := WellFormedHead(b);
    } else {
      c := REPLACEMENT;
      n := BrokenHead(b);
      StartsIffBegins(b[..n]);
      if n < |b| { StartsIffBegins(b[..n + 1]); }
    }
  }

  /** So every decoded text consists of code points that can be encoded. */
  lemma {:induction false} DecodedIsScalar(b: seq<byte>)
    ensures AllScalar(DecodeFrom(IDLE, b))
    decreases |b|
  {
    if b != [] {
      var c, n := DecodesMaximalParts(b);
      DecodedIsScalar(b[n..]);
    }
  }
}
