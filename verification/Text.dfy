/** Letter case and prefix handling shared by the codec, the dispatch table, the monitor and the outcome log. */
module Text {

  function LowerChar(c: char): char {
    if 'A' <= c <= 'Z' then (c as int + 32) as char else c
  }

  /** Lower case on ASCII letters; every other character is kept. */
  function Lower(s: string): (r: string)
    ensures |r| == |s| && forall i :: 0 <= i < |s| ==> r[i] == LowerChar(s[i])
  {
    seq(|s|, i requires 0 <= i < |s| => LowerChar(s[i]))
  }

  /** Exactly the ASCII capitals change, each to its small letter. */
  lemma LowerFoldsCapitals(c: char, i: nat)
    requires i < 26
    ensures LowerChar("ABCDEFGHIJKLMNOPQRSTUVWXYZ"[i]) == "abcdefghijklmnopqrstuvwxyz"[i]
    ensures 'A' <= c <= 'Z' <==> LowerChar(c) != c
  {
  }

  predicate HasHexPrefix(s: string) { |s| >= 2 && s[0] == '0' && (s[1] == 'x' || s[1] == 'X') }

  function WithoutHexPrefix(s: string): string { if HasHexPrefix(s) then s[2..] else s }

  lemma LowerOfSlice(s: string, i: nat)
    requires i <= |s|
    ensures Lower(s[i..]) == Lower(s)[i..]
  {
    var tail, rest := Lower(s[i..]), Lower(s)[i..];
    assert |tail| == |rest|;
    forall j | 0 <= j < |tail| ensures tail[j] == rest[j] {
      assert s[i..][j] == s[i + j];
    }
  }
}
