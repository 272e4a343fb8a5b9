/** Two ways the Store caps a string without splitting a character: backing up to a
    rune start, and dropping bytes until what is left is valid UTF-8. */
module Utf8 {
  import opened Common

  type Text = seq<byte>

  predicate RuneStart(b: byte) {
    b < 0x80 || b >= 0xC0
  }

  predicate Tail(b: byte) {
    0x80 <= b < 0xC0
  }

  /** The length of the well-formed character `s` begins with, or 0: the byte
      sequences of section 4 of RFC 3629. */
  function RuneLen(s: Text): (n: nat)
    ensures n <= 4 && n <= |s|
    ensures n > 0 ==> RuneStart(s[0]) && forall i :: 1 <= i < n ==> !RuneStart(s[i])
  {
    if s == [] then 0
    else if s[0] < 0x80 then 1
    else if 0xC2 <= s[0] <= 0xDF then if |s| >= 2 && Tail(s[1]) then 2 else 0
    else if 0xE0 <= s[0] <= 0xEF then
      if |s| >= 3 && Tail(s[1]) && Tail(s[2]) &&
         (s[0] == 0xE0 ==> s[1] >= 0xA0) && (s[0] == 0xED ==> s[1] < 0xA0) then 3 else 0
    else if 0xF0 <= s[0] <= 0xF4 then
      if |s| >= 4 && Tail(s[1]) && Tail(s[2]) && Tail(s[3]) &&
         (s[0] == 0xF0 ==> s[1] >= 0x90) && (s[0] == 0xF4 ==> s[1] < 0x90) then 4 else 0
    else 0
  }

  /** Well-formed UTF-8. */
  predicate Valid(s: Text) {
    s == [] || (RuneLen(s) > 0 && Valid(s[RuneLen(s)..]))
  }

  /** Between two characters of `s`. */
  predicate Boundary(s: Text, k: nat)
    requires k <= |s|
  {
    k == |s| || RuneStart(s[k])
  }

  lemma RuneLenOfPrefix(s: Text, k: nat)
    requires RuneLen(s) > 0 && 0 < k <= |s|
    ensures RuneLen(s[..k]) == if k < RuneLen(s) then 0 else RuneLen(s)
  {
  }

  /** In a valid string, the valid prefixes are exactly those that end on a boundary. */
  lemma {:induction false} ValidPrefixes(s: Text, k: nat)
    requires Valid(s) && k <= |s|
    ensures Valid(s[..k]) <==> Boundary(s, k)
    decreases |s|
  {
    if 0 < k {
      var n := RuneLen(s);
      RuneLenOfPrefix(s, k);
      if n <= k {
        ValidPrefixes(s[n..], k - n);
        assert s[..k][n..] == s[n..][..k - n];
      }
    }
  }

  /** A boundary is never more than three bytes away. */
  lemma {:induction false} BoundaryNearby(s: Text, k: nat) returns (b: nat)
    requires Valid(s) && k <= |s|
    ensures b <= k <= b + 3 && Boundary(s, b)
    decreases |s|
  {
    if s == [] || k < RuneLen(s) {
      b := 0;
    } else {
      var n := RuneLen(s);
      b := BoundaryNearby(s[n..], k - n);
      b := b + n;
    }
  }

  /** `r` is `s` cut at the last rune start at or before the cap. */
  ghost predicate CutBack(s: Text, max: nat, r: Text) {
    && r <= s && |r| <= max && (|s| <= max ==> r == s)
    && (|s| > max ==> (r == [] || RuneStart(s[|r|])) && forall i :: |r| < i <= max ==> !RuneStart(s[i]))
  }

  /** `r` is `s` capped and then shortened until it is valid. */
  ghost predicate DroppedUntilValid(s: Text, max: nat, r: Text) {
    && r <= s && |r| <= max && (|s| <= max ==> r == s)
    && (|s| > max ==> Valid(r) && forall k :: |r| < k <= max ==> !Valid(s[..k]))
  }

  /** truncateUTF8, on any bytes. */
  method TruncateUtf8(s: Text, max: nat) returns (r: Text)
    ensures CutBack(s, max, r)
  {
    if |s| <= max { return s; }
    var cut := max;
    while cut > 0 && !RuneStart(s[cut])
      invariant 0 <= cut <= max
      invariant forall i :: cut < i <= max ==> !RuneStart(s[i])
    {
      cut := cut - 1;
    }
    return s[..cut];
  }

  /** cappedUsageString, on any bytes. */
  method CappedUsageString(s: Text, max: nat) returns (r: Text)
    ensures DroppedUntilValid(s, max, r)
  {
    if |s| <= max { return s; }
    r := s[..max];
    while |r| > 0 && !Valid(r)
      invariant r <= s && |r| <= max
      invariant forall k :: |r| < k <= max ==> !Valid(s[..k])
      decreases |r|
    {
      assert r == s[..|r|];
      r := r[..|r| - 1];
    }
  }

  /** The longest valid prefix of at most `max` bytes. */
  ghost predicate LongestValidPrefix(s: Text, max: nat, r: Text) {
    r <= s && |r| <= max && Valid(r) && forall k :: |r| < k <= |s| && k <= max ==> !Valid(s[..k])
  }

  lemma CutBackIsLongest(s: Text, max: nat, r: Text)
    requires Valid(s)
    ensures CutBack(s, max, r) <==> LongestValidPrefix(s, max, r)
    ensures CutBack(s, max, r) && |s| > max ==> |r| + 3 >= max
  {
    assert s[..|s|] == s;
    forall k | 0 <= k <= |s| ensures Valid(s[..k]) <==> Boundary(s, k) { ValidPrefixes(s, k); }
    if r <= s { assert s[..|r|] == r; }
    if |s| > max {
      var b := BoundaryNearby(s, max);
      assert forall k :: 0 <= k <= max ==> (RuneStart(s[k]) <==> Valid(s[..k]));
    }
  }

  /** On valid UTF-8 the two ways of capping give the same string at every cap: the
      longest valid prefix that fits, at most three bytes short of the cap. */
  lemma CapsAgree(s: Text, max: nat, a: Text, b: Text)
    requires Valid(s) && CutBack(s, max, a) && DroppedUntilValid(s, max, b)
    ensures a == b && LongestValidPrefix(s, max, a)
    ensures |s| > max ==> max - 3 <= |a|
  {
    CutBackIsLongest(s, max, a);
    assert LongestValidPrefix(s, max, b) by { assert |s| <= max ==> s[..|s|] == s; }
    assert a == s[..|a|] && b == s[..|b|];
  }

  // ------------------------------------------------- valid means encoded characters

  /** The Unicode scalar values: all code points but the surrogates. */
  predicate Scalar(cp: nat) {
    cp <= 0x10FFFF && !(0xD800 <= cp <= 0xDFFF)
  }

  /** The encoding table of section 3 of RFC 3629. */
  function Encode(cp: nat): (s: Text)
    requires Scalar(cp)
    ensures 1 <= |s| <= 4
  {
    if cp < 0x80 then [cp]
    else if cp < 0x800 then [0xC0 + cp / 64, 0x80 + cp % 64]
    else if cp < 0x10000 then [0xE0 + cp / 64 / 64, 0x80 + cp / 64 % 64, 0x80 + cp % 64]
    else [0xF0 + cp / 64 / 64 / 64, 0x80 + cp / 64 / 64 % 64, 0x80 + cp / 64 % 64, 0x80 + cp % 64]
  }

  function EncodeAll(cps: seq<nat>): Text
    requires forall i :: 0 <= i < |cps| ==> Scalar(cps[i])
  {
    if cps == [] then [] else Encode(cps[0]) + EncodeAll(cps[1..])
  }

  /** Every encoded character is one well-formed sequence ... */
  lemma EncodedIsOneRune(cp: nat, rest: Text)
    requires Scalar(cp)
    ensures RuneLen(Encode(cp) + rest) == |Encode(cp)|
  {
    var s := Encode(cp) + rest;
    assert forall i :: 0 <= i < |Encode(cp)| ==> s[i] == Encode(cp)[i];
  }

  /** One more six-bit digit. */
  function Shift(high: nat, tail: byte): (cp: nat)
    requires Tail(tail)
    ensures cp / 64 == high && cp % 64 == tail - 0x80
  {
    high * 64 + (tail - 0x80)
  }

  lemma EncodesTwo(lead: byte, a: byte) returns (cp: nat)
    requires 0xC2 <= lead <= 0xDF && Tail(a)
    ensures Scalar(cp) && Encode(cp) == [lead, a]
  {
    cp := Shift(lead - 0xC0, a);
  }

  lemma EncodesThree(lead: byte, a: byte, b: byte) returns (cp: nat)
    requires 0xE0 <= lead <= 0xEF && Tail(a) && Tail(b)
    requires (lead == 0xE0 ==> a >= 0xA0) && (lead == 0xED ==> a < 0xA0)
    ensures Scalar(cp) && Encode(cp) == [lead, a, b]
  {
    cp := Shift(Shift(lead - 0xE0, a), b);
  }

  lemma EncodesFour(lead: byte, a: byte, b: byte, c: byte) returns (cp: nat)
    requires 0xF0 <= lead <= 0xF4 && Tail(a) && Tail(b) && Tail(c)
    requires (lead == 0xF0 ==> a >= 0x90) && (lead == 0xF4 ==> a < 0x90)
    ensures Scalar(cp) && Encode(cp) == [lead, a, b, c]
  {
    cp := Shift(Shift(Shift(lead - 0xF0, a), b), c);
  }

  /** ... and every well-formed sequence encodes a character. */
  lemma RuneIsEncoded(s: Text) returns (cp: nat)
    requires RuneLen(s) > 0
    ensures Scalar(cp) && Encode(cp) == s[..RuneLen(s)]
  {
    if RuneLen(s) == 1 {
      cp := s[0];
    } else if RuneLen(s) == 2 {
      cp := EncodesTwo(s[0], s[1]);
    } else if RuneLen(s) == 3 {
      cp := EncodesThree(s[0], s[1], s[2]);
    } else {
      cp := EncodesFour(s[0], s[1], s[2], s[3]);
    }
  }

  lemma {:induction false} EncodedIsValid(cps: seq<nat>)
    requires forall i :: 0 <= i < |cps| ==> Scalar(cps[i])
    ensures Valid(EncodeAll(cps))
  {
    if cps != [] {
      var rest := EncodeAll(cps[1..]);
      EncodedIsValid(cps[1..]);
      EncodedIsOneRune(cps[0], rest);
      assert (Encode(cps[0]) + rest)[|Encode(cps[0])|..] == rest;
    }
  }

  lemma EncodeOneMore(cp: nat, cps: seq<nat>)
    requires Scalar(cp) && forall i :: 0 <= i < |cps| ==> Scalar(cps[i])
    ensures EncodeAll([cp] + cps) == Encode(cp) + EncodeAll(cps)
  {
    assert ([cp] + cps)[1..] == cps;
  }

  lemma ValidStep(s: Text, rest: seq<nat>) returns (cps: seq<nat>)
    requires RuneLen(s) > 0 && forall i :: 0 <= i < |rest| ==> Scalar(rest[i])
    requires EncodeAll(rest) == s[RuneLen(s)..]
    ensures (forall i :: 0 <= i < |cps| ==> Scalar(cps[i])) && EncodeAll(cps) == s
  {
    var cp := RuneIsEncoded(s);
    cps := [cp] + rest;
    EncodeOneMore(cp, rest);
    assert s == s[..RuneLen(s)] + s[RuneLen(s)..];
  }

  /** Valid text is the encoding of some characters, all of them. */
  lemma {:induction false} ValidIsEncoded(s: Text) returns (cps: seq<nat>)
    requires Valid(s)
    ensures (forall i :: 0 <= i < |cps| ==> Scalar(cps[i])) && EncodeAll(cps) == s
    decreases |s|
  {
    if s == [] {
      cps := [];
    } else {
      var rest := ValidIsEncoded(s[RuneLen(s)..]);
      cps := ValidStep(s, rest);
    }
  }
}
