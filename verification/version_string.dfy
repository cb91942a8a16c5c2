/**
 * var::VersionString: a version held as dotted decimal text
 * ("major.minor.patch"), converted to and from the packed form that keeps
 * one byte per component, and ordered component by component.
 */
module Version {
  import opened Decimal

  /**
   * The tokens of `s` separated by '.', empty tokens kept: "1..2" has three
   * tokens and "" has one.
   */
  function Split(s: string): (r: seq<string>)
    ensures |r| >= 1
    decreases |s|
  {
    if s == [] then [""]
    else
      var rest := Split(s[1..]);
      if s[0] == '.' then [""] + rest else [[s[0]] + rest[0]] + rest[1..]
  }

  predicate NoDot(s: string) { forall i :: 0 <= i < |s| ==> s[i] != '.' }

  lemma {:induction false} SplitNoDot(t: string)
    requires NoDot(t)
    ensures Split(t) == [t]
    decreases |t|
  {
    if t != [] {
      SplitNoDot(t[1..]);
      assert [t[0]] + t[1..] == t;
    }
  }

  /** Splitting "t.u" where t has no dot gives t followed by the tokens of u. */
  lemma {:induction false} SplitJoin(t: string, u: string)
    requires NoDot(t)
    ensures Split(t + "." + u) == [t] + Split(u)
    decreases |t|
  {
    if t == [] {
      assert t + "." + u == ['.'] + u;
      assert (t + "." + u)[1..] == u;
    } else {
      assert (t + "." + u)[1..] == t[1..] + "." + u;
      SplitJoin(t[1..], u);
      assert [t[0]] + t[1..] == t;
    }
  }

  lemma DigitsNoDot(s: string)
    requires AllDigits(s)
    ensures NoDot(s)
  {
  }

  /** "%d.%d.%d". */
  function Text3(a: nat, b: nat, c: nat): string
  {
    NatText(a) + "." + NatText(b) + "." + NatText(c)
  }

  /** "%d.%d". */
  function Text2(a: nat, b: nat): string
  {
    NatText(a) + "." + NatText(b)
  }

  lemma Text3Tokens(a: nat, b: nat, c: nat)
    ensures Split(Text3(a, b, c)) == [NatText(a), NatText(b), NatText(c)]
  {
    DigitsNoDot(NatText(a));
    DigitsNoDot(NatText(b));
    DigitsNoDot(NatText(c));
    SplitNoDot(NatText(c));
    SplitJoin(NatText(b), NatText(c));
    assert Text3(a, b, c) == NatText(a) + "." + (NatText(b) + "." + NatText(c));
    SplitJoin(NatText(a), NatText(b) + "." + NatText(c));
  }

  lemma Text2Tokens(a: nat, b: nat)
    ensures Split(Text2(a, b)) == [NatText(a), NatText(b)]
  {
    DigitsNoDot(NatText(a));
    DigitsNoDot(NatText(b));
    SplitNoDot(NatText(b));
    SplitJoin(NatText(a), NatText(b));
  }

  /** The byte that token k contributes to the packed form: its value masked to 8 bits, 0 when absent. */
  function TokenByte(tokens: seq<string>, k: nat): (b: nat)
    ensures b < 256
  {
    if k < |tokens| then Atoi(tokens[k]) % 256 else 0
  }

  /** The weight of byte k: token 0 at bit 16, token 1 at bit 8, token 2 at bit 0. */
  function Weight(k: nat): nat
    requires k < 3
  {
    if k == 0 then 0x1_0000 else if k == 1 then 0x100 else 1
  }

  /** The packed value of the first k tokens. */
  function Packed(tokens: seq<string>, k: nat): nat
    requires k <= 3
  {
    if k == 0 then 0 else Packed(tokens, k - 1) + TokenByte(tokens, k - 1) * Weight(k - 1)
  }

  /**
   * Pairs of token values in order, the first difference deciding: the
   * comparison of two token lists of equal length from position i on.
   */
  function CompareFrom(ta: seq<string>, tb: seq<string>, i: nat): int
    requires |ta| == |tb|
    decreases |ta| - i
  {
    if i >= |ta| then 0
    else if Atoi(ta[i]) > Atoi(tb[i]) then 1
    else if Atoi(ta[i]) < Atoi(tb[i]) then -1
    else CompareFrom(ta, tb, i + 1)
  }

  /** The ordering of versions: more tokens first, then token values in order. */
  function CompareTokens(ta: seq<string>, tb: seq<string>): int
  {
    if |ta| > |tb| then 1
    else if |ta| < |tb| then -1
    else CompareFrom(ta, tb, 0)
  }

  predicate SameValues(ta: seq<string>, tb: seq<string>)
  {
    |ta| == |tb| && forall i :: 0 <= i < |ta| ==> Atoi(ta[i]) == Atoi(tb[i])
  }

  lemma {:induction false} CompareFromFacts(ta: seq<string>, tb: seq<string>, i: nat)
    requires |ta| == |tb| && i <= |ta|
    ensures CompareFrom(ta, tb, i) in {-1, 0, 1}
    ensures CompareFrom(ta, tb, i) == -CompareFrom(tb, ta, i)
    ensures CompareFrom(ta, tb, i) == 0 <==> forall j :: i <= j < |ta| ==> Atoi(ta[j]) == Atoi(tb[j])
    ensures CompareFrom(ta, tb, i) != 0 ==>
              exists k :: i <= k < |ta| && Atoi(ta[k]) != Atoi(tb[k])
                          && (forall j :: i <= j < k ==> Atoi(ta[j]) == Atoi(tb[j]))
                          && (CompareFrom(ta, tb, i) == 1 <==> Atoi(ta[k]) > Atoi(tb[k]))
    decreases |ta| - i
  {
    if i < |ta| && Atoi(ta[i]) == Atoi(tb[i]) {
      CompareFromFacts(ta, tb, i + 1);
    }
  }

  /** The ordering is antisymmetric. */
  lemma CompareAntisymmetric(ta: seq<string>, tb: seq<string>)
    ensures CompareTokens(ta, tb) == -CompareTokens(tb, ta)
  {
    if |ta| == |tb| {
      CompareFromFacts(ta, tb, 0);
    }
  }

  /** Two versions compare equal exactly when they have the same token values. */
  lemma CompareZero(ta: seq<string>, tb: seq<string>)
    ensures CompareTokens(ta, tb) == 0 <==> SameValues(ta, tb)
  {
    if |ta| == |tb| {
      CompareFromFacts(ta, tb, 0);
    }
  }

  /**
   * With equal token counts, a non-zero result is the sign of the first
   * differing token value.
   */
  lemma CompareFirstDifference(ta: seq<string>, tb: seq<string>)
    requires |ta| == |tb| && CompareTokens(ta, tb) != 0
    ensures exists k :: 0 <= k < |ta| && Atoi(ta[k]) != Atoi(tb[k])
                        && (forall j :: 0 <= j < k ==> Atoi(ta[j]) == Atoi(tb[j]))
                        && (CompareTokens(ta, tb) == 1 <==> Atoi(ta[k]) > Atoi(tb[k]))
  {
    CompareFromFacts(ta, tb, 0);
  }

  lemma PackedThree(tokens: seq<string>)
    ensures Packed(tokens, 3)
            == TokenByte(tokens, 0) * 0x1_0000 + TokenByte(tokens, 1) * 0x100 + TokenByte(tokens, 2)
  {
    assert Packed(tokens, 1) == TokenByte(tokens, 0) * 0x1_0000;
    assert Packed(tokens, 2) == Packed(tokens, 1) + TokenByte(tokens, 1) * 0x100;
  }

  lemma PackBytes(a: nat, b: nat, c: nat)
    requires a < 256 && b < 256 && c < 256
    ensures (a * 0x1_0000 + b * 0x100 + c) / 0x1_0000 == a
    ensures (a * 0x1_0000 + b * 0x100 + c) / 0x100 % 0x100 == b
    ensures (a * 0x1_0000 + b * 0x100 + c) % 0x100 == c
  {
  }

  lemma UnpackBytes(v: nat)
    requires v < 0x100_0000
    ensures v / 0x1_0000 < 256
    ensures v == v / 0x1_0000 * 0x1_0000 + v / 0x100 % 0x100 * 0x100 + v % 0x100
  {
    var q := v / 0x100;
    assert v == q * 0x100 + v % 0x100;
    assert q == q / 0x100 * 0x100 + q % 0x100;
    assert q / 0x100 == v / 0x1_0000;
  }

  /**
   * The packed value holds the three token bytes at bits 16, 8 and 0, each
   * recoverable on its own.
   */
  lemma PackedLayout(tokens: seq<string>)
    ensures Packed(tokens, 3) < 0x100_0000
    ensures Packed(tokens, 3) / 0x1_0000 == TokenByte(tokens, 0)
    ensures Packed(tokens, 3) / 0x100 % 0x100 == TokenByte(tokens, 1)
    ensures Packed(tokens, 3) % 0x100 == TokenByte(tokens, 2)
  {
    PackedThree(tokens);
    PackBytes(TokenByte(tokens, 0), TokenByte(tokens, 1), TokenByte(tokens, 2));
  }

  /** Tokens past the end of the list add nothing. */
  lemma {:induction false} PackedMissingTokens(tokens: seq<string>, i: nat)
    requires i <= 3 && (i == 3 || |tokens| <= i)
    ensures Packed(tokens, 3) == Packed(tokens, i)
    decreases 3 - i
  {
    if i < 3 {
      PackedMissingTokens(tokens, i + 1);
    }
  }

  /** The text "a.b.c" of three byte values packs to a, b, c at bits 16, 8 and 0. */
  lemma {:induction false} PackedText3(a: nat, b: nat, c: nat)
    requires a < 256 && b < 256 && c < 256
    ensures Packed(Split(Text3(a, b, c)), 3) == a * 0x1_0000 + b * 0x100 + c
  {
    Text3Tokens(a, b, c);
    AtoiNatText(a);
    AtoiNatText(b);
    AtoiNatText(c);
    var t := Split(Text3(a, b, c));
    assert TokenByte(t, 0) == a && TokenByte(t, 1) == b && TokenByte(t, 2) == c;
    PackedThree(t);
  }

  /** The text written by `<< u32` for v < 2^24 packs back to v. */
  lemma {:induction false} PackedRoundTrip(v: nat)
    requires v < 0x100_0000
    ensures Packed(Split(Text3(v / 0x1_0000, v / 0x100 % 0x100, v % 0x100)), 3) == v
  {
    UnpackBytes(v);
    PackedText3(v / 0x1_0000, v / 0x100 % 0x100, v % 0x100);
  }

  class VersionString {
    var version: string

    /** VersionString(major, minor, patch): "major.minor.patch". */
    constructor (major: nat, minor: nat, patch: nat)
      requires major < 256 && minor < 256 && patch < 256
      ensures version == Text3(major, minor, patch)
      ensures Split(version) == [NatText(major), NatText(minor), NatText(patch)]
    {
      version := Text3(major, minor, patch);
      Text3Tokens(major, minor, patch);
    }

    /** operator<<(u16): "high.low", one token per byte. */
    method SetU16(value: nat)
      requires value < 0x1_0000
      modifies this
      ensures version == Text2(value / 0x100, value % 0x100)
      ensures Split(version) == [NatText(value / 0x100), NatText(value % 0x100)]
    {
      version := Text2(value / 0x100, value % 0x100);
      Text2Tokens(value / 0x100, value % 0x100);
    }

    /** operator<<(u32): "(v >> 16).((v >> 8) & 0xff).(v & 0xff)"; the first token is not masked. */
    method SetU32(value: nat)
      requires value < 0x1_0000_0000
      modifies this
      ensures version == Text3(value / 0x1_0000, value / 0x100 % 0x100, value % 0x100)
      ensures Split(version) == [NatText(value / 0x1_0000), NatText(value / 0x100 % 0x100), NatText(value % 0x100)]
    {
      version := Text3(value / 0x1_0000, value / 0x100 % 0x100, value % 0x100);
      Text3Tokens(value / 0x1_0000, value / 0x100 % 0x100, value % 0x100);
    }

    /**
     * to_bcd(): the first three tokens, each masked to a byte, at bits 16, 8
     * and 0; a missing token contributes 0. The bytes occupy disjoint bits,
     * so the source's `|=` is an addition here.
     */
    method ToBcd() returns (r: nat)
      ensures r < 0x100_0000
      ensures r / 0x1_0000 == TokenByte(Split(version), 0)
      ensures r / 0x100 % 0x100 == TokenByte(Split(version), 1)
      ensures r % 0x100 == TokenByte(Split(version), 2)
      ensures r == Packed(Split(version), 3)
    {
      var tokens := Split(version);
      r := 0;
      var tokenMax := if |tokens| < 3 then |tokens| else 3;
      var i := 0;
      while i < tokenMax
        invariant i <= tokenMax
        invariant r == Packed(tokens, i)
      {
        r := r + (Atoi(tokens[i]) % 256) * Weight(i);
        i := i + 1;
      }
      PackedMissingTokens(tokens, i);
      PackedLayout(tokens);
    }
  }

  /**
   * compare(a, b): 1 when a has more tokens, -1 when fewer, otherwise the
   * first differing token value decides, and 0 when all are equal.
   */
  method Compare(a: VersionString, b: VersionString) returns (r: int)
    ensures r == CompareTokens(Split(a.version), Split(b.version))
    ensures r in {-1, 0, 1}
    ensures r == 0 <==> SameValues(Split(a.version), Split(b.version))
  {
    var aTokens := Split(a.version);
    var bTokens := Split(b.version);
    CompareZero(aTokens, bTokens);
    if |aTokens| > |bTokens| {
      return 1;
    }
    if |aTokens| < |bTokens| {
      return -1;
    }
    CompareFromFacts(aTokens, bTokens, 0);
    var i := 0;
    while i < |aTokens|
      invariant i <= |aTokens|
      invariant CompareFrom(aTokens, bTokens, i) == CompareFrom(aTokens, bTokens, 0)
    {
      if Atoi(aTokens[i]) > Atoi(bTokens[i]) {
        return 1;
      }
      if Atoi(aTokens[i]) < Atoi(bTokens[i]) {
        return -1;
      }
      i := i + 1;
    }
    return 0;
  }

  /** Writing a value below 2^24 with `<< u32` and packing it again gives the value back. */
  method U32RoundTrip(v: nat) returns (r: nat)
    requires v < 0x100_0000
    ensures r == v
  {
    var version := new VersionString(0, 0, 0);
    version.SetU32(v);
    r := version.ToBcd();
    PackedRoundTrip(v);
  }
}
