/** The hex and bytes32 codec. */
module Encoding {
  import opened Wrappers
  import opened Text
  import Utf8

  type byte = Utf8.byte
  type JsString = Utf8.JsString

  datatype HexError = OddLength | NonHex | TooLong

  predicate IsHexChar(c: char) { '0' <= c <= '9' || 'a' <= c <= 'f' || 'A' <= c <= 'F' }

  predicate IsHex(s: string) { forall i :: 0 <= i < |s| ==> IsHexChar(s[i]) }

  function HexValue(c: char): (v: int)
    requires IsHexChar(c)
    ensures 0 <= v < 16
  {
    if '0' <= c <= '9' then c as int - '0' as int
    else if 'a' <= c <= 'f' then c as int - 'a' as int + 10
    else c as int - 'A' as int + 10
  }

  function HexDigit(v: int): (c: char)
    requires 0 <= v < 16
    ensures IsHexChar(c) && HexValue(c) == v && LowerChar(c) == c
  {
    if v < 10 then ('0' as int + v) as char else ('a' as int + (v - 10)) as char
  }

  lemma HexDigitsInOrder(v: nat)
    requires v < 16
    ensures HexDigit(v) == "0123456789abcdef"[v]
  {
  }

  // ---- Specification ------------------------------------------------------------------------------

  function Digits(b: seq<byte>): (s: string)
    ensures |s| == 2 * |b|
  {
    if b == [] then [] else [HexDigit(b[0] as int / 16), HexDigit(b[0] as int % 16)] + Digits(b[1..])
  }

  function Values(s: string): (b: seq<byte>)
    requires |s| % 2 == 0 && IsHex(s)
    ensures 2 * |b| == |s|
  {
    if s == [] then [] else [(16 * HexValue(s[0]) + HexValue(s[1])) as byte] + Values(s[2..])
  }

  function Decode(h: string): Result<seq<byte>, HexError> {
    var s := WithoutHexPrefix(h);
    if |s| % 2 != 0 then Failure(OddLength)
    else if !IsHex(s) then Failure(NonHex)
    else Success(Values(s))
  }

  function Encode(b: seq<byte>): string { "0x" + Digits(b) }

  function Zeros(n: nat): (z: seq<byte>)
    ensures |z| == n && forall i :: 0 <= i < n ==> z[i] == 0
  {
    seq(n, _ => 0)
  }

  function Pad32(b: seq<byte>): seq<byte>
    requires |b| <= 32
  {
    b + Zeros(32 - |b|)
  }

  /** The bytes32 form of encoded text. */
  function Bytes32(encoded: seq<byte>): Result<string, HexError> {
    if |encoded| > 32 then Failure(TooLong) else Success(Encode(Pad32(encoded)))
  }

  function Trim(b: seq<byte>): seq<byte> {
    if b != [] && b[|b| - 1] == 0 then Trim(b[..|b| - 1]) else b
  }

  function TrimmedBytes32(h: string): seq<byte> {
    if Decode(h).Success? then Trim(Decode(h).value) else []
  }

  // ---- The source's own form ----------------------------------------------------------------------

  lemma {:induction false} ValuesAt(s: string, i: nat)
    requires |s| % 2 == 0 && IsHex(s) && 2 * i < |s|
    ensures Values(s)[i] as int == 16 * HexValue(s[2 * i]) + HexValue(s[2 * i + 1])
  {
    if i == 0 {
    } else {
      ValuesAt(s[2..], i - 1);
    }
  }

  method HexToBytes(h: Option<string>) returns (r: Result<seq<byte>, HexError>)
    ensures r == if h.None? then Success([]) else Decode(h.value)
  {
    if h.None? { return Success([]); }
    var s := h.value;
    if HasHexPrefix(s) { s := s[2..]; }
    if |s| == 0 { return Success([]); }
    if |s| % 2 != 0 { return Failure(OddLength); }
    if !IsHex(s) { return Failure(NonHex); }
    var out := new byte[|s| / 2](_ => 0);
    for i := 0 to out.Length
      invariant forall j :: 0 <= j < i ==> out[j] == Values(s)[j]
    {
      ValuesAt(s, i);
      out[i] := (16 * HexValue(s[i * 2]) + HexValue(s[i * 2 + 1])) as byte;
    }
    assert out[..] == Values(s);
    return Success(out[..]);
  }

  lemma {:induction false} DigitsSnoc(b: seq<byte>, x: byte)
    ensures Digits(b + [x]) == Digits(b) + [HexDigit(x as int / 16), HexDigit(x as int % 16)]
  {
    if b == [] {
      assert (b + [x])[1..] == [];
    } else {
      assert (b + [x])[1..] == b[1..] + [x];
      DigitsSnoc(b[1..], x);
    }
  }

  method BytesToHex(b: seq<byte>) returns (s: string)
    ensures s == Encode(b)
  {
    s := "0x";
    for i := 0 to |b|
      invariant s == Encode(b[..i])
    {
      DigitsSnoc(b[..i], b[i]);
      assert b[..i + 1] == b[..i] + [b[i]];
      s := s + [HexDigit(b[i] as int / 16), HexDigit(b[i] as int % 16)];
    }
    assert b[..|b|] == b;
  }

  method StringToBytes32Hex(s: JsString) returns (r: Result<string, HexError>)
    ensures r == Bytes32(Utf8.Encode(s))
  {
    var encoded := Utf8.Encode(s);
    if |encoded| > 32 { return Failure(TooLong); }
    var padded := new byte[32](_ => 0);
    forall i | 0 <= i < |encoded| { padded[i] := encoded[i]; }
    assert padded[..] == Pad32(encoded);
    var hex := BytesToHex(padded[..]);
    return Success(hex);
  }

  lemma {:induction false} TrimCut(b: seq<byte>, end: nat)
    requires end <= |b| && forall i :: end <= i < |b| ==> b[i] == 0
    requires end == 0 || b[end - 1] != 0
    ensures Trim(b) == b[..end]
  {
    if end == |b| {
      assert b[..end] == b;
    } else {
      TrimCut(b[..|b| - 1], end);
    }
  }

  method Bytes32HexToString(h: string) returns (text: JsString)
    ensures text == Utf8.DecodeText(TrimmedBytes32(h))
  {
    var r := HexToBytes(Some(h));
    if r.Failure? { return []; }
    var b := r.value;
    var end := |b|;
    while end > 0 && b[end - 1] == 0
      invariant 0 <= end <= |b|
      invariant forall i :: end <= i < |b| ==> b[i] == 0
    {
      end := end - 1;
    }
    TrimCut(b, end);
    return Utf8.DecodeText(b[..end]);
  }

  // ---- Round trips --------------------------------------------------------------------------------

  lemma {:induction false} DigitsAreHex(b: seq<byte>)
    ensures IsHex(Digits(b)) && Lower(Digits(b)) == Digits(b)
  {
    if b == [] {
    } else {
      DigitsAreHex(b[1..]);
      var s := Digits(b);
      assert forall i :: 2 <= i < |s| ==> s[i] == Digits(b[1..])[i - 2] && Lower(Digits(b[1..]))[i - 2] == s[i];
      assert forall i :: 0 <= i < |s| ==> Lower(s)[i] == s[i];
    }
  }

  lemma {:induction false} ValuesOfDigits(b: seq<byte>)
    ensures |Digits(b)| % 2 == 0 && IsHex(Digits(b)) && Values(Digits(b)) == b
  {
    DigitsAreHex(b);
    if b == [] {
    } else {
      ValuesOfDigits(b[1..]);
      assert Digits(b)[2..] == Digits(b[1..]);
    }
  }

  /** Bytes to hex and back is the identity. */
  lemma BytesRoundTrip(b: seq<byte>)
    ensures Decode(Encode(b)) == Success(b)
  {
    ValuesOfDigits(b);
    assert Encode(b)[2..] == Digits(b);
  }

  lemma DigitsOfPair(v: int, w: int)
    requires 0 <= v < 16 && 0 <= w < 16
    ensures (16 * v + w) / 16 == v && (16 * v + w) % 16 == w
  {
  }

  lemma PairOfDigits(c: char, d: char)
    requires IsHexChar(c) && IsHexChar(d)
    ensures var x := 16 * HexValue(c) + HexValue(d);
            0 <= x < 256 && [HexDigit(x / 16), HexDigit(x % 16)] == [LowerChar(c), LowerChar(d)]
  {
    DigitsOfPair(HexValue(c), HexValue(d));
    DigitOfValue(c);
    DigitOfValue(d);
  }

  lemma {:induction false} DigitsOfValues(s: string)
    requires |s| % 2 == 0 && IsHex(s)
    ensures Digits(Values(s)) == Lower(s)
  {
    if s == [] {
    } else {
      DigitsOfValues(s[2..]);
      LowerOfSlice(s, 2);
      PairOfDigits(s[0], s[1]);
      assert Values(s)[1..] == Values(s[2..]);
      var l := Lower(s);
      assert l == l[..2] + l[2..] && l[..2] == [LowerChar(s[0]), LowerChar(s[1])];
    }
  }

  lemma DigitOfValue(c: char)
    requires IsHexChar(c)
    ensures HexDigit(HexValue(c)) == LowerChar(c)
  {
  }

  /** Hex to bytes and back is the lower-case, prefixed form; malformed text is refused, and nothing else. */
  lemma HexRoundTrip(h: string)
    ensures Decode(h).Success? <==> |WithoutHexPrefix(h)| % 2 == 0 && IsHex(WithoutHexPrefix(h))
    ensures Decode(h).Success? ==> Encode(Decode(h).value) == "0x" + Lower(WithoutHexPrefix(h))
    ensures Decode(h) == Failure(OddLength) <==> |h| % 2 == 1
    ensures Decode(h) == Failure(NonHex) <==> |h| % 2 == 0 && !IsHex(WithoutHexPrefix(h))
  {
    if Decode(h).Success? { DigitsOfValues(WithoutHexPrefix(h)); }
  }

  /** The prefix may be written either way, or left out. */
  lemma PrefixIsOptional(s: string)
    ensures Decode("0x" + s) == Decode("0X" + s)
    ensures !("0x" <= s) && !("0X" <= s) ==> Decode(s) == Decode("0x" + s)
  {
    assert ("0x" + s)[2..] == s && ("0X" + s)[2..] == s;
    if HasHexPrefix(s) { assert s == s[..2] + s[2..] && (s[..2] == "0x" || s[..2] == "0X"); }
  }

  predicate NoTrailingZero(b: seq<byte>) { b == [] || b[|b| - 1] != 0 }

  lemma {:induction false} TrimOfPadded(b: seq<byte>, n: nat)
    ensures Trim(b + Zeros(n)) == Trim(b)
  {
    if n == 0 {
      assert b + Zeros(0) == b;
    } else {
      assert (b + Zeros(n))[..|b| + n - 1] == b + Zeros(n - 1);
      TrimOfPadded(b, n - 1);
    }
  }

  lemma {:induction false} TrimIsPrefix(b: seq<byte>)
    ensures Trim(b) <= b && NoTrailingZero(Trim(b))
    ensures Trim(b) == b <==> NoTrailingZero(b)
    ensures forall i :: |Trim(b)| <= i < |b| ==> b[i] == 0
  {
    if b != [] && b[|b| - 1] == 0 { TrimIsPrefix(b[..|b| - 1]); }
  }

  lemma TrimmedOfEncoded(b: seq<byte>)
    ensures TrimmedBytes32(Encode(b)) == Trim(b)
  {
    BytesRoundTrip(b);
  }

  lemma Bytes32Trims(encoded: seq<byte>)
    requires |encoded| <= 32
    ensures TrimmedBytes32(Encode(Pad32(encoded))) == Trim(encoded)
  {
    TrimmedOfEncoded(Pad32(encoded));
    TrimOfPadded(encoded, 32 - |encoded|);
  }

  /** Two encoded texts share a bytes32 form exactly when they differ only in trailing zero bytes. */
  lemma Bytes32Injective(a: seq<byte>, b: seq<byte>)
    requires |a| <= 32 && |b| <= 32
    ensures Bytes32(a) == Bytes32(b) <==> Trim(a) == Trim(b)
    ensures NoTrailingZero(a) && NoTrailingZero(b) && Bytes32(a) == Bytes32(b) ==> a == b
  {
    Bytes32Trims(a);
    Bytes32Trims(b);
    TrimIsPrefix(a);
    TrimIsPrefix(b);
    if Trim(a) == Trim(b) { assert Pad32(a) == Pad32(b); }
  }

  // ---- Strings through bytes32 ------------------------------------------------------------------------

  function WithoutNuls(s: JsString): JsString {
    if s != [] && s[|s| - 1] == 0 then WithoutNuls(s[..|s| - 1]) else s
  }

  lemma {:induction false} EncodeSnoc(s: JsString, c: int)
    ensures Utf8.Encode(s + [c]) == Utf8.Encode(s) + Utf8.EncodeScalar(Utf8.Scrub(c))
  {
    if s == [] {
      assert (s + [c])[1..] == [];
      assert Utf8.Encode([]) == [];
    } else {
      assert (s + [c])[1..] == s[1..] + [c];
      EncodeSnoc(s[1..], c);
    }
  }

  lemma LastByteZeroIffNul(c: int)
    requires Utf8.IsScalar(c)
    ensures var b := Utf8.EncodeScalar(c); b[|b| - 1] == 0 <==> c == 0
    ensures c == 0 ==> Utf8.EncodeScalar(c) == [0]
  {
  }

  lemma {:induction false} TrimOfText(s: JsString)
    ensures Trim(Utf8.Encode(s)) == Utf8.Encode(WithoutNuls(s))
  {
    if s == [] {
    } else {
      var init, c := s[..|s| - 1], s[|s| - 1];
      assert s == init + [c];
      EncodeSnoc(init, c);
      LastByteZeroIffNul(Utf8.Scrub(c));
      var last := Utf8.EncodeScalar(Utf8.Scrub(c));
      var b := Utf8.Encode(s);
      assert b[|b| - 1] == last[|last| - 1];
      if c == 0 {
        assert b[..|b| - 1] == Utf8.Encode(init);
        TrimOfText(init);
      }
    }
  }

  lemma {:induction false} WithoutNulsShortens(s: JsString)
    ensures WithoutNuls(s) <= s
    ensures WithoutNuls(s) == s <==> s == [] || s[|s| - 1] != 0
  {
    if s == [] {
    } else if s[|s| - 1] == 0 {
      WithoutNulsShortens(s[..|s| - 1]);
    }
  }

  /** No lone surrogate, no trailing U+0000, no leading byte order mark. */
  ghost predicate Survives(s: JsString) {
    Utf8.AllScalar(s) && (s == [] || (s[|s| - 1] != 0 && s[0] != Utf8.BYTE_ORDER_MARK))
  }

  /**
   A string of at most 32 bytes in UTF-8 comes back from bytes32 without its trailing U+0000s and without a leading
   byte order mark, lone surrogates replaced; so it comes back unchanged exactly when it has none of these.
   */
  lemma Bytes32RoundTrip(s: JsString)
    requires |Utf8.Encode(s)| <= 32
    ensures var back := Utf8.DecodeText(TrimmedBytes32(Bytes32(Utf8.Encode(s)).value));
            && back == Utf8.WithoutMark(Utf8.Scrubbed(WithoutNuls(s)))
            && (back == s <==> Survives(s))
  {
    Bytes32Trims(Utf8.Encode(s));
    TrimOfText(s);
    Utf8.DecodeTextEncoded(WithoutNuls(s));
    UnchangedIffSurvives(s);
  }

  lemma UnchangedIffSurvives(s: JsString)
    ensures Utf8.WithoutMark(Utf8.Scrubbed(WithoutNuls(s))) == s <==> Survives(s)
  {
    WithoutNulsShortens(s);
    var scrubbed := Utf8.Scrubbed(WithoutNuls(s));
    assert |scrubbed| == |WithoutNuls(s)|;
    if Survives(s) {
      assert scrubbed == s;
    } else if Utf8.WithoutMark(scrubbed) == s {
      assert |WithoutNuls(s)| == |s|;
      assert s == scrubbed;
      ScrubbedIsScalar(s);
    }
  }

  lemma ScrubbedIsScalar(s: JsString)
    requires Utf8.Scrubbed(s) == s
    ensures Utf8.AllScalar(s)
  {
    forall i | 0 <= i < |s| ensures Utf8.IsScalar(s[i]) { assert Utf8.Scrubbed(s)[i] == Utf8.Scrub(s[i]); }
  }

  /** What identifies a name on the wire. */
  function Canonical(s: JsString): JsString { Utf8.Scrubbed(WithoutNuls(s)) }

  /** Two strings share a bytes32 form exactly when they agree up to lone surrogates and trailing U+0000s. */
  lemma Bytes32OfStrings(s: JsString, t: JsString)
    requires |Utf8.Encode(s)| <= 32 && |Utf8.Encode(t)| <= 32
    ensures Bytes32(Utf8.Encode(s)) == Bytes32(Utf8.Encode(t)) <==> Canonical(s) == Canonical(t)
  {
    Bytes32Injective(Utf8.Encode(s), Utf8.Encode(t));
    TrimOfText(s);
    TrimOfText(t);
    Utf8.EncodeInjective(WithoutNuls(s), WithoutNuls(t));
  }
}
