/**
 * var::ConstString: a read-only view of a NUL-terminated C string, with
 * searching and comparing.
 *
 * A C string is modelled as the characters before its terminator, so it
 * never contains '\0'; reading one position past the end yields '\0'.
 * Lengths and positions are u32 values; the searches return NPOS
 * (u32 -1) when nothing is found.
 */
module ConstString {
  import opened Wrappers

  const NPOS: nat := 0xFFFF_FFFF

  /** The largest length for which the signed loop counter of rfind is exact. */
  const S32_MAX: nat := 0x7FFF_FFFF

  predicate IsCString(s: string)
  {
    forall i :: 0 <= i < |s| ==> s[i] != '\0'
  }

  /** The character at `k`, or the terminator at and beyond the end. */
  function CharAt(s: string, k: nat): char
  {
    if k < |s| then s[k] else '\0'
  }

  function Min(a: int, b: int): int { if a <= b then a else b }

  /** At most the first `n` characters of `s`. */
  function Prefix(s: string, n: nat): (p: string)
    ensures |p| == Min(n, |s|)
  {
    s[..Min(n, |s|)]
  }

  /** strnlen(s, n). */
  function Strnlen(s: string, n: nat): (r: nat)
    requires IsCString(s)
    ensures r == Min(n, |s|)
  {
    if n <= |s| then n else |s|
  }

  /**
   * strncmp(a + k, b + k, n - k): compares up to position n, stopping after
   * a common terminator, and returns the difference of the first differing
   * characters.
   */
  function StrncmpFrom(a: string, b: string, k: nat, n: nat): int
    decreases n - k
  {
    if k >= n then 0
    else if CharAt(a, k) != CharAt(b, k) then CharAt(a, k) as int - CharAt(b, k) as int
    else if CharAt(a, k) == '\0' then 0
    else StrncmpFrom(a, b, k + 1, n)
  }

  function Strncmp(a: string, b: string, n: nat): int
  {
    StrncmpFrom(a, b, 0, n)
  }

  /** strcmp(a, b): strncmp with no bound short of both terminators. */
  function Strcmp(a: string, b: string): int
  {
    Strncmp(a, b, |a| + |b| + 1)
  }

  lemma {:induction false} StrncmpFromZero(a: string, b: string, k: nat, n: nat)
    requires IsCString(a) && IsCString(b)
    requires k <= Min(n, |a|) && k <= Min(n, |b|) && a[..k] == b[..k]
    ensures StrncmpFrom(a, b, k, n) == 0 <==> Prefix(a, n) == Prefix(b, n)
    decreases n - k
  {
    if k >= n {
    } else if CharAt(a, k) != CharAt(b, k) {
      assert CharAt(a, k) as int - CharAt(b, k) as int != 0;
    } else if CharAt(a, k) == '\0' {
      assert k == |a| && k == |b|;
      assert Prefix(a, n) == a[..k] && Prefix(b, n) == b[..k];
    } else {
      assert a[..k + 1] == a[..k] + [a[k]] && b[..k + 1] == b[..k] + [b[k]];
      StrncmpFromZero(a, b, k + 1, n);
    }
  }

  /** strncmp on C strings is zero exactly when the first `n` characters agree. */
  lemma StrncmpZero(a: string, b: string, n: nat)
    requires IsCString(a) && IsCString(b)
    ensures Strncmp(a, b, n) == 0 <==> Prefix(a, n) == Prefix(b, n)
  {
    StrncmpFromZero(a, b, 0, n);
  }

  /** strcmp on C strings is zero exactly when the strings are equal. */
  lemma StrcmpZero(a: string, b: string)
    requires IsCString(a) && IsCString(b)
    ensures Strcmp(a, b) == 0 <==> a == b
  {
    StrncmpZero(a, b, |a| + |b| + 1);
    assert Prefix(a, |a| + |b| + 1) == a && Prefix(b, |a| + |b| + 1) == b;
  }

  /** The n characters of `t` at `i` equal the first n characters of `s`. */
  predicate MatchAt(t: string, s: string, i: nat, n: nat)
  {
    i + n <= |t| && n <= |s| && t[i..i + n] == s[..n]
  }

  /** strncmp(t + i, s, n) == 0 with the n characters of t available. */
  lemma StrncmpMatch(t: string, s: string, i: nat, n: nat)
    requires IsCString(t) && IsCString(s) && i + n <= |t|
    ensures Strncmp(t[i..], s, n) == 0 <==> MatchAt(t, s, i, n)
  {
    StrncmpZero(t[i..], s, n);
    assert Prefix(t[i..], n) == t[i..i + n];
  }

  class ConstString {
    var str: string

    ghost predicate Valid()
      reads this
    {
      IsCString(str) && |str| < NPOS
    }

    /** length(). */
    function Length(): nat
      reads this
    {
      |str|
    }

    /** ConstString(a): a null pointer gives the empty string. */
    constructor (a: Option<string>)
      requires a.Some? ==> IsCString(a.value) && |a.value| < NPOS
      ensures Valid()
      ensures str == if a.Some? then a.value else ""
    {
      str := if a.Some? then a.value else "";
    }

    /** set_string_pointer(s): a null pointer points the view at the empty string. */
    method SetStringPointer(s: Option<string>)
      requires s.Some? ==> IsCString(s.value) && |s.value| < NPOS
      modifies this
      ensures Valid()
      ensures str == if s.Some? then s.value else ""
    {
      if s.Some? {
        str := s.value;
      } else {
        str := "";
      }
    }

    /** at(pos): the character at pos, or 0 past the end. */
    function At(pos: nat): (c: char)
      reads this
      requires Valid()
      ensures pos < |str| ==> c == str[pos]
      ensures c == '\0' <==> pos >= |str|
    {
      if pos < |str| then str[pos] else '\0'
    }

    /**
     * find(s, pos, n): the first position at or after pos where the n
     * characters match the first n characters of s.
     */
    method FindN(s: string, pos: nat, n: nat) returns (r: nat)
      requires Valid() && IsCString(s) && pos <= NPOS && n <= NPOS
      ensures s == [] || n > |str| ==> r == NPOS
      ensures r != NPOS ==>
                pos <= r && MatchAt(str, s, r, n)
                && forall j :: pos <= j < r ==> !MatchAt(str, s, j, n)
      ensures r == NPOS && s != [] ==> forall j :: pos <= j ==> !MatchAt(str, s, j, n)
    {
      if s != [] {
        var len := |str|;
        if len < n {
          return NPOS;
        }
        var i := pos;
        while i < len - n + 1
          invariant pos <= i
          invariant forall j :: pos <= j < i ==> !MatchAt(str, s, j, n)
        {
          StrncmpMatch(str, s, i, n);
          if Strncmp(str[i..], s, n) == 0 {
            return i;
          }
          i := i + 1;
        }
      }
      return NPOS;
    }

    /** find(s, pos): the first occurrence of all of s at or after pos. */
    method Find(s: string, pos: nat) returns (r: nat)
      requires Valid() && IsCString(s) && |s| <= NPOS && pos <= NPOS
      ensures s == [] ==> r == NPOS
      ensures r != NPOS ==>
                pos <= r && r + |s| <= |str| && str[r..r + |s|] == s
                && forall j :: pos <= j < r ==> !MatchAt(str, s, j, |s|)
      ensures r == NPOS && s != [] ==> forall j :: pos <= j ==> !MatchAt(str, s, j, |s|)
    {
      r := FindN(s, pos, |s|);
      if r != NPOS {
        assert s[..|s|] == s;
      }
    }

    /** find(c, pos): c is searched as the C string "c", which is empty for c == 0. */
    method FindChar(c: char, pos: nat) returns (r: nat)
      requires Valid() && pos <= NPOS
      ensures c == '\0' ==> r == NPOS
      ensures r != NPOS ==>
                pos <= r < |str| && str[r] == c
                && forall j :: pos <= j < r ==> str[j] != c
      ensures r == NPOS ==> forall j :: pos <= j < |str| ==> str[j] != c
    {
      var s := if c == '\0' then "" else [c];
      r := Find(s, pos);
      if c != '\0' {
        forall j | pos <= j < |str| && (r == NPOS || j < r)
          ensures str[j] != c
        {
          assert !MatchAt(str, s, j, 1);
          assert str[j..j + 1] == [str[j]];
        }
        if r != NPOS {
          assert str[r..r + 1] == [str[r]];
        }
      }
    }

    /**
     * find_not(a, pos): despite its name, the first position at or after pos
     * holding `a`, or length() when there is none; pos itself when pos is
     * already past the end.
     */
    method FindNot(a: char, pos: nat) returns (r: nat)
      requires Valid()
      ensures r >= pos
      ensures pos >= |str| ==> r == pos
      ensures pos < |str| ==>
                r <= |str| && (r < |str| ==> str[r] == a)
                && forall j :: pos <= j < r ==> str[j] != a
    {
      var l := |str|;
      r := pos;
      while At(r) != a && r < l
        invariant pos <= r && (pos < l ==> r <= l) && (pos >= l ==> r == pos)
        invariant forall j :: pos <= j < r && j < l ==> str[j] != a
        decreases l - r
      {
        r := r + 1;
      }
    }

    /**
     * rfind(s, pos, n): with n clamped to the length of s, the last position
     * i with pos <= i <= length() - n whose n characters match the first n
     * characters of s.
     */
    method RfindN(s: string, pos: nat, n: nat) returns (r: nat)
      requires Valid() && IsCString(s) && |str| <= S32_MAX && pos <= S32_MAX
      ensures s == [] ==> r == NPOS
      ensures r != NPOS ==>
                pos <= r && MatchAt(str, s, r, Min(n, |s|))
                && forall j :: r < j ==> !MatchAt(str, s, j, Min(n, |s|))
      ensures r == NPOS && s != [] ==> forall j :: pos <= j ==> !MatchAt(str, s, j, Min(n, |s|))
    {
      if s != [] {
        var m := n;
        var len := |s|;
        if m > len {
          m := len;
        }
        var thisLen := |str|;
        var i: int := thisLen - m;
        while i >= pos
          invariant i <= thisLen - m
          invariant forall j :: i < j ==> !MatchAt(str, s, j, m)
        {
          StrncmpMatch(str, s, i, m);
          if Strncmp(str[i..], s, m) == 0 {
            return i;
          }
          i := i - 1;
        }
      }
      return NPOS;
    }

    /** rfind(s, pos): the last occurrence of all of s at or after pos. */
    method Rfind(s: string, pos: nat) returns (r: nat)
      requires Valid() && IsCString(s) && |str| <= S32_MAX && pos <= S32_MAX
      ensures s == [] ==> r == NPOS
      ensures r != NPOS ==>
                pos <= r && r + |s| <= |str| && str[r..r + |s|] == s
                && forall j :: r < j ==> !MatchAt(str, s, j, |s|)
      ensures r == NPOS && s != [] ==> forall j :: pos <= j ==> !MatchAt(str, s, j, |s|)
    {
      r := RfindN(s, pos, |s|);
      assert Min(|s|, |s|) == |s|;
      if r != NPOS {
        assert s[..|s|] == s;
      }
    }

    /** rfind(c, pos): the last position at or after pos holding c. */
    method RfindChar(c: char, pos: nat) returns (r: nat)
      requires Valid() && |str| <= S32_MAX && pos <= S32_MAX
      ensures c == '\0' ==> r == NPOS
      ensures r != NPOS ==>
                pos <= r < |str| && str[r] == c
                && forall j :: r < j < |str| ==> str[j] != c
      ensures r == NPOS ==> forall j :: pos <= j < |str| ==> str[j] != c
    {
      var s := if c == '\0' then "" else [c];
      r := Rfind(s, pos);
      if c != '\0' {
        forall j | 0 <= j < |str| && (if r == NPOS then pos <= j else r < j)
          ensures str[j] != c
        {
          assert !MatchAt(str, s, j, 1);
          assert str[j..j + 1] == [str[j]];
        }
        if r != NPOS {
          assert str[r..r + 1] == [str[r]];
        }
      }
    }

    /** compare(pos, len, s): strncmp of the text at pos against s, over len characters. */
    function CompareLen(pos: nat, len: nat, s: string): (r: int)
      reads this
      requires Valid() && IsCString(s) && pos <= |str|
      ensures r == 0 <==> Prefix(str[pos..], len) == Prefix(s, len)
    {
      StrncmpZero(str[pos..], s, len);
      Strncmp(str[pos..], s, len)
    }

    /**
     * compare(pos, len, s, subpos, sublen): the text of at most len characters
     * at pos against at most sublen characters of s at subpos. Different
     * lengths give `comparing - compared`, the length of the second minus the
     * length of the first.
     */
    function CompareSub(pos: nat, len: nat, s: string, subpos: nat, sublen: nat): (r: int)
      reads this
      requires Valid() && IsCString(s) && pos <= |str| && subpos <= |s|
      ensures Min(sublen, |s| - subpos) != Min(len, |str| - pos) ==>
                r == Min(sublen, |s| - subpos) - Min(len, |str| - pos)
      ensures r == 0 <==>
                str[pos..pos + Min(len, |str| - pos)] == s[subpos..subpos + Min(sublen, |s| - subpos)]
    {
      var compared := str[pos..];
      var comparing := s[subpos..];
      var lCompared := Strnlen(compared, len);
      var lComparing := Strnlen(comparing, sublen);
      if lCompared != lComparing then
        lComparing - lCompared
      else
        StrncmpZero(compared, comparing, lCompared);
        assert Prefix(compared, lCompared) == str[pos..pos + lCompared];
        assert Prefix(comparing, lCompared) == s[subpos..subpos + lComparing];
        Strncmp(compared, comparing, lCompared)
    }

    /** compare(s): strcmp of the whole text against s. */
    function Compare(s: string): (r: int)
      reads this
      requires Valid() && IsCString(s)
      ensures r == 0 <==> str == s
    {
      StrcmpZero(str, s);
      Strcmp(str, s)
    }

    /**
     * compare(pos, len, s, n): fewer than n characters left at pos give
     * `l - n` (negative); otherwise strncmp over n characters. The len
     * argument is not used by the source.
     */
    function CompareCount(pos: nat, len: nat, s: string, n: nat): (r: int)
      reads this
      requires Valid() && IsCString(s) && pos <= |str| && n <= S32_MAX
      ensures |str| - pos < n ==> r == (|str| - pos) - n && r < 0
      ensures r == 0 <==> MatchAt(str, s, pos, n)
    {
      var strAtPosition := str[pos..];
      var l := Strnlen(strAtPosition, n);
      if l != n then
        l - n
      else
        StrncmpMatch(str, s, pos, n);
        Strncmp(strAtPosition, s, n)
    }
  }
}
