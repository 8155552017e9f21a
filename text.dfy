/** The .NET string operations the coordinator relies on: nullable strings,
    `string.IsNullOrEmpty`, `string.IsNullOrWhiteSpace`, `ToUpperInvariant`,
    `Trim` and ordinal case-insensitive comparison. */
module Text {

  /** A C# `string` reference: either `null` or a sequence of characters. */
  datatype NStr = Null | Val(s: string)

  predicate IsNullOrEmpty(x: NStr) {
    x.Null? || x.s == ""
  }

  /** `char.IsWhiteSpace`: the Unicode separators (categories Zs, Zl, Zp)
      together with U+0009..U+000D and U+0085. */
  predicate IsWhiteSpace(c: char) {
    var n := c as int;
    (9 <= n <= 13) || n == 0x20 || n == 0x85 || n == 0xA0 || n == 0x1680
    || (0x2000 <= n <= 0x200A) || n == 0x2028 || n == 0x2029
    || n == 0x202F || n == 0x205F || n == 0x3000
  }

  predicate AllWhiteSpace(s: string) {
    forall i | 0 <= i < |s| :: IsWhiteSpace(s[i])
  }

  predicate IsNullOrWhiteSpace(x: NStr) {
    x.Null? || AllWhiteSpace(x.s)
  }

  /** Invariant upper-casing of one character (lower-case ASCII letters only). */
  function ToUpperChar(c: char): char {
    if 'a' <= c <= 'z' then (c as int - 32) as char else c
  }

  function ToLowerChar(c: char): char {
    if 'A' <= c <= 'Z' then (c as int + 32) as char else c
  }

  function ToUpperInvariant(s: string): (r: string)
    ensures |r| == |s|
  {
    seq(|s|, i requires 0 <= i < |s| => ToUpperChar(s[i]))
  }

  /** Used only to state that the dispatch ignores case. */
  function ToLowerInvariant(s: string): (r: string)
    ensures |r| == |s|
  {
    seq(|s|, i requires 0 <= i < |s| => ToLowerChar(s[i]))
  }

  /** Removes leading white space: the result is the suffix of `s` that starts
      at its first non-white-space character. */
  function TrimStart(s: string): (r: string)
    ensures |r| <= |s| && r == s[|s| - |r|..]
    ensures AllWhiteSpace(s[..|s| - |r|])
    ensures r == [] || !IsWhiteSpace(r[0])
  {
    if s != [] && IsWhiteSpace(s[0]) then
      var r := TrimStart(s[1..]);
      assert s[1..][..|s| - 1 - |r|] == s[1..|s| - |r|];
      r
    else
      s
  }

  /** Removes trailing white space: the result is the prefix of `s` that ends
      at its last non-white-space character. */
  function TrimEnd(s: string): (r: string)
    ensures |r| <= |s| && r == s[..|r|]
    ensures AllWhiteSpace(s[|r|..])
    ensures r == [] || !IsWhiteSpace(r[|r| - 1])
  {
    if s != [] && IsWhiteSpace(s[|s| - 1]) then
      var r := TrimEnd(s[..|s| - 1]);
      assert s[..|s| - 1][|r|..] == s[|r|..|s| - 1];
      r
    else
      s
  }

  /** `string.Trim`: removes white space at both ends. The result is the
      slice of `s` that remains once its leading and trailing white space is
      cut off, and everything between is kept. */
  function Trim(s: string): (r: string)
    ensures r == [] || (!IsWhiteSpace(r[0]) && !IsWhiteSpace(r[|r| - 1]))
    ensures var k := |s| - |TrimStart(s)|;
      && k + |r| <= |s|
      && r == s[k..k + |r|]
      && AllWhiteSpace(s[..k])
      && AllWhiteSpace(s[k + |r|..])
  {
    var t := TrimStart(s);
    var r := TrimEnd(t);
    PrefixOfSuffix(s, t, r);
    r
  }

  /** A prefix `r` of a suffix `t` of `s` is a slice of `s`, and what follows
      `r` in `t` is what follows that slice in `s`. */
  lemma PrefixOfSuffix(s: string, t: string, r: string)
    requires |t| <= |s| && t == s[|s| - |t|..]
    requires |r| <= |t| && r == t[..|r|]
    requires AllWhiteSpace(t[|r|..])
    ensures var k := |s| - |t|; k + |r| <= |s| && r == s[k..k + |r|] && AllWhiteSpace(s[k + |r|..])
  {
    assert t[|r|..] == s[|s| - |t| + |r|..];
  }

  /** Ordinal case-insensitive string equality. */
  predicate EqualsIgnoreCase(a: string, b: string) {
    ToUpperInvariant(a) == ToUpperInvariant(b)
  }

  // ---------------------------------------------------------------------
  // Properties

  lemma {:induction false} TrimStartOfWhiteSpace(s: string)
    requires AllWhiteSpace(s)
    ensures TrimStart(s) == []
  {
    if s != [] {
      assert AllWhiteSpace(s[1..]) by {
        forall i | 0 <= i < |s| - 1 ensures IsWhiteSpace(s[1..][i]) {
          assert s[1..][i] == s[i + 1];
        }
      }
      TrimStartOfWhiteSpace(s[1..]);
    }
  }

  lemma {:induction false} TrimStartKeepsNonWhiteSpace(s: string)
    requires !AllWhiteSpace(s)
    ensures !AllWhiteSpace(TrimStart(s))
  {
    if IsWhiteSpace(s[0]) {
      assert !AllWhiteSpace(s[1..]) by {
        var i :| 0 <= i < |s| && !IsWhiteSpace(s[i]);
        assert s[1..][i - 1] == s[i];
      }
      TrimStartKeepsNonWhiteSpace(s[1..]);
    }
  }

  lemma {:induction false} TrimEndKeepsNonWhiteSpace(s: string)
    requires !AllWhiteSpace(s)
    ensures TrimEnd(s) != []
  {
    if IsWhiteSpace(s[|s| - 1]) {
      assert !AllWhiteSpace(s[..|s| - 1]) by {
        var i :| 0 <= i < |s| && !IsWhiteSpace(s[i]);
        assert s[..|s| - 1][i] == s[i];
      }
      TrimEndKeepsNonWhiteSpace(s[..|s| - 1]);
    }
  }

  /** A string trims to nothing exactly when it is all white space, so
      `IsNullOrWhiteSpace` is the same test as "null, or empty once trimmed". */
  lemma TrimEmptyIffWhiteSpace(s: string)
    ensures Trim(s) == [] <==> AllWhiteSpace(s)
    ensures IsNullOrWhiteSpace(Val(s)) <==> Trim(s) == []
  {
    if AllWhiteSpace(s) {
      TrimStartOfWhiteSpace(s);
    } else {
      TrimStartKeepsNonWhiteSpace(s);
      TrimEndKeepsNonWhiteSpace(TrimStart(s));
    }
  }

  /** The same, for a nullable string. */
  lemma NullOrWhiteSpaceIffTrimmedEmpty(x: NStr)
    ensures IsNullOrWhiteSpace(x) <==> x.Null? || Trim(x.s) == []
  {
    if x.Val? {
      TrimEmptyIffWhiteSpace(x.s);
    }
  }

  lemma {:induction false} TrimStartWhiteSpacePrefix(w: string, s: string)
    requires AllWhiteSpace(w)
    ensures TrimStart(w + s) == TrimStart(s)
  {
    if w != [] {
      assert (w + s)[1..] == w[1..] + s;
      TrimStartWhiteSpacePrefix(w[1..], s);
    } else {
      assert w + s == s;
    }
  }

  lemma {:induction false} TrimEndWhiteSpaceSuffix(s: string, w: string)
    requires AllWhiteSpace(w)
    ensures TrimEnd(s + w) == TrimEnd(s)
  {
    if w != [] {
      assert (s + w)[..|s + w| - 1] == s + w[..|w| - 1];
      TrimEndWhiteSpaceSuffix(s, w[..|w| - 1]);
    } else {
      assert s + w == s;
    }
  }

  lemma {:induction false} TrimStartKeepsSuffix(s: string, w: string)
    requires !AllWhiteSpace(s)
    ensures TrimStart(s + w) == TrimStart(s) + w
  {
    if IsWhiteSpace(s[0]) {
      assert (s + w)[1..] == s[1..] + w;
      assert !AllWhiteSpace(s[1..]) by {
        var i :| 0 <= i < |s| && !IsWhiteSpace(s[i]);
        assert s[1..][i - 1] == s[i];
      }
      TrimStartKeepsSuffix(s[1..], w);
    }
  }

  /** White space around a string does not change what it trims to. */
  lemma TrimIgnoresSurroundingWhiteSpace(w1: string, s: string, w2: string)
    requires AllWhiteSpace(w1) && AllWhiteSpace(w2)
    ensures Trim(w1 + s + w2) == Trim(s)
  {
    assert w1 + s + w2 == w1 + (s + w2);
    TrimStartWhiteSpacePrefix(w1, s + w2);
    if AllWhiteSpace(s) {
      assert AllWhiteSpace(s + w2);
      TrimEmptyIffWhiteSpace(s + w2);
      TrimEmptyIffWhiteSpace(s);
    } else {
      TrimStartKeepsSuffix(s, w2);
      TrimEndWhiteSpaceSuffix(TrimStart(s), w2);
    }
  }

  /** Trimming twice is trimming once. */
  lemma TrimIdempotent(s: string)
    ensures Trim(Trim(s)) == Trim(s)
  {
    var r := Trim(s);
    assert TrimStart(r) == r;
    assert TrimEnd(r) == r;
  }

  /** Upper-casing keeps white space where it is. */
  lemma UpperKeepsWhiteSpace(s: string)
    ensures AllWhiteSpace(ToUpperInvariant(s)) <==> AllWhiteSpace(s)
    ensures forall i | 0 <= i < |s| :: IsWhiteSpace(ToUpperInvariant(s)[i]) == IsWhiteSpace(s[i])
  {
    forall i | 0 <= i < |s|
      ensures IsWhiteSpace(ToUpperInvariant(s)[i]) == IsWhiteSpace(s[i])
    {
      var c := s[i];
      assert ToUpperInvariant(s)[i] == ToUpperChar(c);
      if 'a' <= c <= 'z' {
        assert 65 <= ToUpperChar(c) as int <= 90;
      }
    }
  }

  lemma {:induction false} UpperCommutesWithTrimStart(s: string)
    ensures ToUpperInvariant(TrimStart(s)) == TrimStart(ToUpperInvariant(s))
  {
    UpperKeepsWhiteSpace(s);
    if s != [] && IsWhiteSpace(s[0]) {
      assert ToUpperInvariant(s)[1..] == ToUpperInvariant(s[1..]);
      UpperCommutesWithTrimStart(s[1..]);
    }
  }

  lemma {:induction false} UpperCommutesWithTrimEnd(s: string)
    ensures ToUpperInvariant(TrimEnd(s)) == TrimEnd(ToUpperInvariant(s))
  {
    UpperKeepsWhiteSpace(s);
    if s != [] && IsWhiteSpace(s[|s| - 1]) {
      assert ToUpperInvariant(s)[..|s| - 1] == ToUpperInvariant(s[..|s| - 1]);
      UpperCommutesWithTrimEnd(s[..|s| - 1]);
    }
  }

  /** Upper-casing is idempotent and forgets the case of its input. */
  lemma UpperIdempotentAndCaseBlind(s: string)
    ensures ToUpperInvariant(ToUpperInvariant(s)) == ToUpperInvariant(s)
    ensures ToUpperInvariant(ToLowerInvariant(s)) == ToUpperInvariant(s)
  {
  }
}
