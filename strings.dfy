/**
 * The string operations of JavaScript that the application's handlers rely on:
 * `includes` (substring search), `trim` and the `\D` regular-expression clean-up
 * of a phone number. Strings are sequences of Unicode characters; `length`, which
 * JavaScript counts in UTF-16 code units, is `Utf16Length`.
 */
module Strings {

  /** `t` is a prefix of `s`. */
  predicate IsPrefix(t: string, s: string)
  {
    |t| <= |s| && s[..|t|] == t
  }

  /** `s.includes(t)`: `t` occurs somewhere in `s` as a contiguous piece. */
  predicate Contains(s: string, t: string)
    ensures IsPrefix(t, s) ==> Contains(s, t)
    ensures Contains(s, t) ==> |t| <= |s|
    decreases |s|
  {
    IsPrefix(t, s) || (|s| > 0 && Contains(s[1..], t))
  }

  /** `t` occurs in `s` starting at index `i`. */
  ghost predicate OccursAt(s: string, t: string, i: int)
  {
    0 <= i && i + |t| <= |s| && s[i..i + |t|] == t
  }

  /** The recursive search agrees with the positional definition of an occurrence. */
  lemma {:induction false} ContainsIffOccurs(s: string, t: string)
    ensures Contains(s, t) <==> exists i :: OccursAt(s, t, i)
    decreases |s|
  {
    if IsPrefix(t, s) {
      assert OccursAt(s, t, 0);
    }
    if |s| > 0 {
      ContainsIffOccurs(s[1..], t);
      if Contains(s[1..], t) {
        var j :| OccursAt(s[1..], t, j);
        assert s[1..][j..j + |t|] == s[j + 1..j + 1 + |t|];
        assert OccursAt(s, t, j + 1);
      }
      if i :| OccursAt(s, t, i) {
        if i > 0 {
          assert s[1..][i - 1..i - 1 + |t|] == s[i..i + |t|];
          assert OccursAt(s[1..], t, i - 1);
        } else {
          assert IsPrefix(t, s);
        }
      }
    } else {
      if i :| OccursAt(s, t, i) {
        assert |t| == 0 && IsPrefix(t, s);
      }
    }
  }

  /** One occurrence is enough for `includes` to answer true. */
  lemma OccursAtContains(s: string, t: string, i: int)
    requires OccursAt(s, t, i)
    ensures Contains(s, t)
  {
    ContainsIffOccurs(s, t);
  }

  /**
   * Text around an occurrence never hides it: whatever is typed before or after
   * a piece that contains `t`, the whole still contains `t`.
   */
  lemma ContainsExtend(pre: string, s: string, post: string, t: string)
    requires Contains(s, t)
    ensures Contains(pre + s + post, t)
  {
    ContainsIffOccurs(s, t);
    var i :| OccursAt(s, t, i);
    var w := pre + s + post;
    assert w[|pre| + i..|pre| + i + |t|] == s[i..i + |t|];
    OccursAtContains(w, t, |pre| + i);
  }

  /** A string cannot contain a longer one. */
  lemma ContainsLonger(s: string, t: string)
    requires |s| < |t|
    ensures !Contains(s, t)
  {
    ContainsIffOccurs(s, t);
  }

  /**
   * The characters that `String.prototype.trim` removes: the white space and
   * line terminator characters of ECMAScript.
   */
  predicate IsSpace(c: char)
  {
    || c == '\t' || c == '\n' || c == '\U{B}' || c == '\U{C}' || c == '\r' || c == ' '
    || c == '\U{A0}' || c == '\U{1680}' || ('\U{2000}' <= c <= '\U{200A}')
    || c == '\U{2028}' || c == '\U{2029}' || c == '\U{202F}' || c == '\U{205F}'
    || c == '\U{3000}' || c == '\U{FEFF}'
  }

  /** All characters of `s` are white space. */
  predicate AllSpace(s: string)
  {
    forall i :: 0 <= i < |s| ==> IsSpace(s[i])
  }

  /** Drops the leading white space of `s`. */
  function TrimStart(s: string): (r: string)
    ensures |r| <= |s|
  {
    if |s| > 0 && IsSpace(s[0]) then TrimStart(s[1..]) else s
  }

  /** What `TrimStart` keeps is a suffix that does not start with white space; what it drops is white space. */
  lemma {:induction false} TrimStartSuffix(s: string)
    ensures var r := TrimStart(s);
            r == s[|s| - |r|..] && (r == [] || !IsSpace(r[0])) && AllSpace(s[..|s| - |r|])
    decreases |s|
  {
    if |s| > 0 && IsSpace(s[0]) {
      TrimStartSuffix(s[1..]);
      var r := TrimStart(s);
      forall k | 0 <= k < |s| - |r| ensures IsSpace(s[k]) {
        if k > 0 { assert s[k] == s[1..][..|s| - 1 - |r|][k - 1]; }
      }
    }
  }

  /** Drops the trailing white space of `s`. */
  function TrimEnd(s: string): (r: string)
    ensures |r| <= |s|
  {
    if |s| > 0 && IsSpace(s[|s| - 1]) then TrimEnd(s[..|s| - 1]) else s
  }

  /** What `TrimEnd` keeps is a prefix that does not end with white space; what it drops is white space. */
  lemma {:induction false} TrimEndPrefix(s: string)
    ensures var r := TrimEnd(s);
            r == s[..|r|] && (r == [] || !IsSpace(r[|r| - 1])) && AllSpace(s[|r|..])
    decreases |s|
  {
    if |s| > 0 && IsSpace(s[|s| - 1]) {
      var t := s[..|s| - 1];
      TrimEndPrefix(t);
      var r := TrimEnd(s);
      assert r == t[..|r|] && t[..|r|] == s[..|r|];
      forall k | |r| <= k < |s| ensures IsSpace(s[k]) {
        if k < |s| - 1 { assert s[k] == t[|r|..][k - |r|]; }
      }
    }
  }

  /** `s.trim()`: `s` without the white space at either end. */
  function Trim(s: string): (r: string)
    ensures |r| <= |s|
  {
    TrimEnd(TrimStart(s))
  }

  /**
   * The trimmed string is a piece of `s` that neither starts nor ends with white
   * space, and everything cut away on either side is white space.
   */
  lemma TrimIsSlice(s: string)
    ensures exists i :: 0 <= i <= |s| - |Trim(s)| && Trim(s) == s[i..i + |Trim(s)|]
              && AllSpace(s[..i]) && AllSpace(s[i + |Trim(s)|..])
    ensures Trim(s) == [] || (!IsSpace(Trim(s)[0]) && !IsSpace(Trim(s)[|Trim(s)| - 1]))
  {
    var a := TrimStart(s);
    var r := TrimEnd(a);
    TrimStartSuffix(s);
    TrimEndPrefix(a);
    var i := |s| - |a|;
    assert a == s[i..];
    assert r == a[..|r|];
    assert a[..|r|] == s[i..i + |r|];
    assert s[i + |r|..] == a[|r|..];
    assert AllSpace(s[..i]) && AllSpace(a[|r|..]);
    if r != [] {
      assert r[0] == a[0];
    }
  }

  /** `!s.trim()` holds exactly when `s` consists of white space only (or is empty). */
  lemma TrimEmptyIff(s: string)
    ensures Trim(s) == [] <==> AllSpace(s)
  {
    TrimIsSlice(s);
    var r := Trim(s);
    var i :| 0 <= i <= |s| - |r| && r == s[i..i + |r|] && AllSpace(s[..i]) && AllSpace(s[i + |r|..]);
    if r == [] {
      forall k | 0 <= k < |s| ensures IsSpace(s[k]) {
        if k < i { assert s[..i][k] == s[k]; } else { assert s[i..][k - i] == s[k]; }
      }
    } else {
      assert s[i] == r[0];
    }
  }

  /** Trimming twice is trimming once. */
  lemma TrimIdempotent(s: string)
    ensures Trim(Trim(s)) == Trim(s)
  {
    TrimIsSlice(s);
    var r := Trim(s);
    assert TrimStart(r) == r;
    assert TrimEnd(r) == r;
  }

  /** Whether a character lies outside the Basic Multilingual Plane, where UTF-16 needs a surrogate pair. */
  predicate IsAstral(c: char)
  {
    c >= '\U{10000}'
  }

  /**
   * A string's `length` in JavaScript: the number of UTF-16 code units, two for
   * each character outside the Basic Multilingual Plane and one for any other.
   */
  function Utf16Length(s: string): (n: nat)
    ensures |s| <= n <= 2 * |s|
    ensures (forall i :: 0 <= i < |s| ==> !IsAstral(s[i])) ==> n == |s|
  {
    if s == [] then 0
    else Utf16Length(s[..|s| - 1]) + (if IsAstral(s[|s| - 1]) then 2 else 1)
  }

  lemma {:induction false} Utf16LengthAppend(a: string, b: string)
    ensures Utf16Length(a + b) == Utf16Length(a) + Utf16Length(b)
    decreases |b|
  {
    if b == [] {
      assert a + b == a;
    } else {
      var ab := a + b;
      assert ab[..|ab| - 1] == a + b[..|b| - 1];
      assert ab[|ab| - 1] == b[|b| - 1];
      Utf16LengthAppend(a, b[..|b| - 1]);
    }
  }

  /** A code-unit count equal to the character count means no character needs a surrogate pair. */
  lemma {:induction false} Utf16LengthIsLengthOnlyIfNoAstral(s: string)
    requires Utf16Length(s) == |s|
    ensures forall i :: 0 <= i < |s| ==> !IsAstral(s[i])
    decreases |s|
  {
    if s != [] {
      var init := s[..|s| - 1];
      assert Utf16Length(init) >= |init|;
      Utf16LengthIsLengthOnlyIfNoAstral(init);
      forall i | 0 <= i < |s| ensures !IsAstral(s[i]) {
        if i < |init| {
          assert s[i] == init[i];
        }
      }
    }
  }

  /** The characters that the regular expression `\d` matches. */
  predicate IsDigit(c: char)
  {
    '0' <= c <= '9'
  }

  /** `s.replace(/\D/g, '')`: the digits of `s`, in order. */
  function DigitsOnly(s: string): (r: string)
    ensures |r| <= |s|
    ensures forall i :: 0 <= i < |r| ==> IsDigit(r[i])
  {
    if s == [] then []
    else (if IsDigit(s[0]) then [s[0]] else []) + DigitsOnly(s[1..])
  }

  /** A lone non-digit is removed. */
  lemma DigitsOnlyDropsNonDigit(c: char)
    requires !IsDigit(c)
    ensures DigitsOnly([c]) == []
  {
  }

  /** A character survives the clean-up exactly when it is a digit of `s`. */
  lemma {:induction false} DigitsOnlyMembers(s: string, c: char)
    ensures c in DigitsOnly(s) <==> c in s && IsDigit(c)
    decreases |s|
  {
    if s != [] {
      DigitsOnlyMembers(s[1..], c);
      assert s == [s[0]] + s[1..];
    }
  }

  /** Removing non-digits distributes over concatenation. */
  lemma {:induction false} DigitsOnlyConcat(a: string, b: string)
    ensures DigitsOnly(a + b) == DigitsOnly(a) + DigitsOnly(b)
    decreases |a|
  {
    if a == [] {
      assert a + b == b;
    } else {
      assert (a + b)[1..] == a[1..] + b;
      DigitsOnlyConcat(a[1..], b);
    }
  }

  /** A string of digits is left as it is. */
  lemma {:induction false} DigitsOnlyKeepsDigits(s: string)
    requires forall i :: 0 <= i < |s| ==> IsDigit(s[i])
    ensures DigitsOnly(s) == s
    decreases |s|
  {
    if s != [] {
      DigitsOnlyKeepsDigits(s[1..]);
    }
  }

  /** Cleaning a phone number twice is cleaning it once. */
  lemma DigitsOnlyIdempotent(s: string)
    ensures DigitsOnly(DigitsOnly(s)) == DigitsOnly(s)
  {
    DigitsOnlyKeepsDigits(DigitsOnly(s));
  }
}
