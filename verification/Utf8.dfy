/**
 Text on the wire. A JavaScript string is given by its code points, a lone surrogate standing for itself.
 `Encode` is TextEncoder; `DecodeText` is TextDecoder("utf-8"), the UTF-8 decoder of the WHATWG Encoding Standard,
 which drops one leading byte order mark and replaces what is malformed.
 */
module Utf8 {

  newtype byte = x: int | 0 <= x < 256

  type JsString = seq<int>

  const REPLACEMENT := 0xFFFD
  const BYTE_ORDER_MARK := 0xFEFF

  predicate IsScalar(c: int) { 0 <= c < 0xD800 || 0xE000 <= c < 0x11_0000 }

  /** The code point as it can be encoded: a lone surrogate becomes U+FFFD. */
  function Scrub(c: int): (r: int)
    ensures IsScalar(r) && (r == c <==> IsScalar(c))
    ensures r == 0 <==> c == 0
    ensures r == BYTE_ORDER_MARK <==> c == BYTE_ORDER_MARK
  {
    if IsScalar(c) then c else REPLACEMENT
  }

  function Scrubbed(s: JsString): (r: JsString)
    ensures |r| == |s| && forall i :: 0 <= i < |s| ==> r[i] == Scrub(s[i])
  {
    seq(|s|, i requires 0 <= i < |s| => Scrub(s[i]))
  }

  ghost predicate AllScalar(s: JsString) { forall i :: 0 <= i < |s| ==> IsScalar(s[i]) }

  // ---- TextEncoder ----------------------------------------------------------------------------------

  function Continuation(x: int): byte { (0x80 + x % 64) as byte }

  function EncodeScalar(c: int): (b: seq<byte>)
    requires IsScalar(c)
    ensures 1 <= |b| <= 4
  {
    if c < 0x80 then [c as byte]
    else if c < 0x800 then [(0xC0 + c / 64) as byte, Continuation(c)]
    else if c < 0x1_0000 then [(0xE0 + c / 4096) as byte, Continuation(c / 64), Continuation(c)]
    else [(0xF0 + c / 262144) as byte, Continuation(c / 4096), Continuation(c / 64), Continuation(c)]
  }

  function Encode(s: JsString): seq<byte> {
    if s == [] then [] else EncodeScalar(Scrub(s[0])) + Encode(s[1..])
  }

  // ---- TextDecoder ----------------------------------------------------------------------------------

  /** The bytes still needed, the code point so far, and the range of the next byte. */
  datatype Decoder = Decoder(needed: nat, point: int, lower: int, upper: int)

  const IDLE := Decoder(0, 0, 0x80, 0xBF)

  function DecodeFrom(d: Decoder, b: seq<byte>): JsString
    decreases |b|, d.needed
  {
    if b == [] then (if d.needed > 0 then [REPLACEMENT] else [])
    else
      var x := b[0] as int;
      if d.needed == 0 then
        if x < 0x80 then [x] + DecodeFrom(IDLE, b[1..])
        else if 0xC2 <= x <= 0xDF then DecodeFrom(Decoder(1, x - 0xC0, 0x80, 0xBF), b[1..])
        else if 0xE0 <= x <= 0xEF then
          DecodeFrom(Decoder(2, x - 0xE0, if x == 0xE0 then 0xA0 else 0x80, if x == 0xED then 0x9F else 0xBF), b[1..])
        else if 0xF0 <= x <= 0xF4 then
          DecodeFrom(Decoder(3, x - 0xF0, if x == 0xF0 then 0x90 else 0x80, if x == 0xF4 then 0x8F else 0xBF), b[1..])
        else [REPLACEMENT] + DecodeFrom(IDLE, b[1..])
      else if !(d.lower <= x <= d.upper) then [REPLACEMENT] + DecodeFrom(IDLE, b)
      else
        var point := d.point * 64 + (x - 0x80);
        if d.needed == 1 then [point] + DecodeFrom(IDLE, b[1..])
        else DecodeFrom(Decoder(d.needed - 1, point, 0x80, 0xBF), b[1..])
  }

  predicate StartsWithMark(b: seq<byte>) { |b| >= 3 && b[..3] == [0xEF, 0xBB, 0xBF] }

  function DecodeText(b: seq<byte>): JsString {
    DecodeFrom(IDLE, if StartsWithMark(b) then b[3..] else b)
  }

  // ---- Decoding what was encoded --------------------------------------------------------------------

  /** One continuation byte within its range. */
  lemma TakeByte(d: Decoder, x: byte, rest: seq<byte>)
    requires d.needed > 0 && d.lower <= x as int <= d.upper
    ensures var point := d.point * 64 + (x as int - 0x80);
            DecodeFrom(d, [x] + rest) ==
            if d.needed == 1 then [point] + DecodeFrom(IDLE, rest)
            else DecodeFrom(Decoder(d.needed - 1, point, 0x80, 0xBF), rest)
  {
    assert ([x] + rest)[1..] == rest;
  }

  lemma DecodeOne(c: int, rest: seq<byte>)
    requires 0 <= c < 0x80
    ensures DecodeFrom(IDLE, EncodeScalar(c) + rest) == [c] + DecodeFrom(IDLE, rest)
  {
    assert ([c as byte] + rest)[1..] == rest;
  }

  lemma DecodeTwo(c: int, rest: seq<byte>)
    requires 0x80 <= c < 0x800
    ensures DecodeFrom(IDLE, EncodeScalar(c) + rest) == [c] + DecodeFrom(IDLE, rest)
  {
    var lead, last := (0xC0 + c / 64) as byte, Continuation(c);
    assert EncodeScalar(c) + rest == [lead] + ([last] + rest);
    assert ([lead] + ([last] + rest))[1..] == [last] + rest;
    TakeByte(Decoder(1, c / 64, 0x80, 0xBF), last, rest);
  }

  lemma Digits64(x: int)
    requires x >= 0
    ensures x / 64 * 64 + x % 64 == x && 0 <= x % 64 < 64
  {
  }

  lemma DecodeThree(c: int, rest: seq<byte>)
    requires IsScalar(c) && 0x800 <= c < 0x1_0000
    ensures DecodeFrom(IDLE, EncodeScalar(c) + rest) == [c] + DecodeFrom(IDLE, rest)
  {
    var lead, mid, last := (0xE0 + c / 4096) as byte, Continuation(c / 64), Continuation(c);
    var tail := [mid] + ([last] + rest);
    assert EncodeScalar(c) + rest == [lead] + tail;
    assert ([lead] + tail)[1..] == tail;
    var x := lead as int;
    var d := Decoder(2, c / 4096, if x == 0xE0 then 0xA0 else 0x80, if x == 0xED then 0x9F else 0xBF);
    assert DecodeFrom(IDLE, [lead] + tail) == DecodeFrom(d, tail);
    Digits64(c / 64);
    Digits64(c);
    TakeByte(d, mid, [last] + rest);
    TakeByte(Decoder(1, c / 64, 0x80, 0xBF), last, rest);
  }

  /** The first byte of four, and the range it leaves to the second. */
  lemma LeadOfFour(c: int)
    requires 0x1_0000 <= c < 0x11_0000
    ensures 0 <= c / 262144 <= 4
    ensures c / 4096 / 64 == c / 262144
    ensures c / 262144 == 0 ==> c / 4096 % 64 >= 0x10
    ensures c / 262144 == 4 ==> c / 4096 % 64 <= 0x0F
  {
  }

  lemma TakeLeadOfFour(c: int, tail: seq<byte>) returns (d: Decoder)
    requires 0x1_0000 <= c < 0x11_0000
    ensures DecodeFrom(IDLE, [(0xF0 + c / 262144) as byte] + tail) == DecodeFrom(d, tail)
    ensures d.needed == 3 && d.point == c / 262144 && d.lower <= 0x80 + c / 4096 % 64 <= d.upper
  {
    LeadOfFour(c);
    var x := 0xF0 + c / 262144;
    assert ([x as byte] + tail)[1..] == tail;
    d := Decoder(3, c / 262144, if x == 0xF0 then 0x90 else 0x80, if x == 0xF4 then 0x8F else 0xBF);
  }

  lemma DecodeFour(c: int, rest: seq<byte>)
    requires 0x1_0000 <= c < 0x11_0000
    ensures DecodeFrom(IDLE, EncodeScalar(c) + rest) == [c] + DecodeFrom(IDLE, rest)
  {
    LeadOfFour(c);
    var lead, high, mid, last :=
      (0xF0 + c / 262144) as byte, Continuation(c / 4096), Continuation(c / 64), Continuation(c);
    var tail := [high] + ([mid] + ([last] + rest));
    assert EncodeScalar(c) + rest == [lead] + tail;
    var d := TakeLeadOfFour(c, tail);
    Digits64(c / 4096);
    Digits64(c / 64);
    Digits64(c);
    TakeByte(d, high, [mid] + ([last] + rest));
    TakeByte(Decoder(2, c / 4096, 0x80, 0xBF), mid, [last] + rest);
    TakeByte(Decoder(1, c / 64, 0x80, 0xBF), last, rest);
  }

  lemma DecodeScalar(c: int, rest: seq<byte>)
    requires IsScalar(c)
    ensures DecodeFrom(IDLE, EncodeScalar(c) + rest) == [c] + DecodeFrom(IDLE, rest)
  {
    if c < 0x80 {
      DecodeOne(c, rest);
    } else if c < 0x800 {
      DecodeTwo(c, rest);
    } else if c < 0x1_0000 {
      DecodeThree(c, rest);
    } else {
      DecodeFour(c, rest);
    }
  }

  lemma {:induction false} DecodeEncoded(s: JsString)
    ensures DecodeFrom(IDLE, Encode(s)) == Scrubbed(s)
  {
    if s == [] {
    } else {
      DecodeScalar(Scrub(s[0]), Encode(s[1..]));
      DecodeEncoded(s[1..]);
      assert Scrubbed(s) == [Scrub(s[0])] + Scrubbed(s[1..]);
    }
  }

  /** Strings are encoded alike exactly when they agree up to lone surrogates. */
  lemma EncodeInjective(s: JsString, t: JsString)
    ensures Encode(s) == Encode(t) <==> Scrubbed(s) == Scrubbed(t)
  {
    DecodeEncoded(s);
    DecodeEncoded(t);
    if Scrubbed(s) == Scrubbed(t) {
      EncodeScrubbed(s);
      EncodeScrubbed(t);
    }
  }

  lemma {:induction false} EncodeScrubbed(s: JsString)
    ensures Encode(Scrubbed(s)) == Encode(s)
  {
    if s == [] {
    } else {
      EncodeScrubbed(s[1..]);
      assert Scrubbed(s)[1..] == Scrubbed(s[1..]);
      assert Scrub(Scrub(s[0])) == Scrub(s[0]);
    }
  }

  // ---- The byte order mark ----------------------------------------------------------------------------

  lemma MarkDigits(c: int)
    requires IsScalar(c) && 0x800 <= c < 0x1_0000
    ensures EncodeScalar(c) == [0xEF, 0xBB, 0xBF] <==> c == BYTE_ORDER_MARK
  {
    Digits64(c);
    Digits64(c / 64);
    var b := EncodeScalar(c);
    assert b == [0xEF, 0xBB, 0xBF] <==> b[0] == 0xEF && b[1] == 0xBB && b[2] == 0xBF;
  }

  lemma MarkBytes(c: int, rest: seq<byte>)
    requires IsScalar(c)
    ensures StartsWithMark(EncodeScalar(c) + rest) <==> c == BYTE_ORDER_MARK
  {
    var b := EncodeScalar(c) + rest;
    assert b[0] == EncodeScalar(c)[0];
    assert StartsWithMark(b) ==> b[..3][0] == 0xEF;
    if 0x800 <= c < 0x1_0000 {
      MarkDigits(c);
      assert b[..3] == EncodeScalar(c);
    }
  }

  function WithoutMark(s: JsString): JsString {
    if s != [] && s[0] == BYTE_ORDER_MARK then s[1..] else s
  }

  /** What becomes of a string that is encoded and decoded. */
  lemma DecodeTextEncoded(s: JsString)
    ensures DecodeText(Encode(s)) == WithoutMark(Scrubbed(s))
  {
    DecodeEncoded(s);
    if s == [] {
    } else {
      MarkBytes(Scrub(s[0]), Encode(s[1..]));
      if s[0] == BYTE_ORDER_MARK {
        assert Encode(s)[3..] == Encode(s[1..]);
        DecodeEncoded(s[1..]);
        assert Scrubbed(s)[1..] == Scrubbed(s[1..]);
      }
    }
  }
}
