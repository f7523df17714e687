/**
 * The handful of Python `str` operations the normaliser relies on:
 * `lower`, `strip`, `title`, `in` (substring test) and `replace(c, "")`.
 * Case mapping is restricted to ASCII letters; `strip` removes exactly the
 * characters for which Python's `str.isspace` holds.
 */
module Text {

  predicate IsUpper(c: char) { 'A' <= c <= 'Z' }

  predicate IsLower(c: char) { 'a' <= c <= 'z' }

  /** A cased character in the sense of `str.title` (ASCII letters only). */
  predicate IsLetter(c: char) { IsUpper(c) || IsLower(c) }

  function LowerChar(c: char): char {
    if IsUpper(c) then (c as int + 32) as char else c
  }

  function UpperChar(c: char): char {
    if IsLower(c) then (c as int - 32) as char else c
  }

  /** `s.lower()`. */
  function Lower(s: string): (r: string)
    ensures |r| == |s|
    ensures forall i :: 0 <= i < |s| ==> r[i] == LowerChar(s[i])
  {
    seq(|s|, i requires 0 <= i < |s| => LowerChar(s[i]))
  }

  /** The characters Python's `str.isspace` accepts, which `str.strip()` removes. */
  predicate IsSpace(c: char) {
    c == ' ' || ('\U{9}' <= c <= '\U{D}') || ('\U{1C}' <= c <= '\U{1F}')
    || c == '\U{85}' || c == '\U{A0}' || c == '\U{1680}'
    || ('\U{2000}' <= c <= '\U{200A}') || c == '\U{2028}' || c == '\U{2029}'
    || c == '\U{202F}' || c == '\U{205F}' || c == '\U{3000}'
  }

  function TrimStart(s: string): (r: string)
    ensures |r| <= |s| && r == s[|s| - |r|..]
    ensures forall i :: 0 <= i < |s| - |r| ==> IsSpace(s[i])
    ensures |r| > 0 ==> !IsSpace(r[0])
  {
    if |s| > 0 && IsSpace(s[0]) then TrimStart(s[1..]) else s
  }

  function TrimEnd(s: string): (r: string)
    ensures |r| <= |s| && r == s[..|r|]
    ensures forall i :: |r| <= i < |s| ==> IsSpace(s[i])
    ensures |r| > 0 ==> !IsSpace(r[|r| - 1])
  {
    if |s| > 0 && IsSpace(s[|s| - 1]) then TrimEnd(s[..|s| - 1]) else s
  }

  /**
   * `s.strip()`: the infix of `s` left when all white space is cut from both ends;
   * everything cut is white space and what is left neither starts nor ends with it.
   */
  function Strip(s: string): (r: string)
    ensures exists i: nat ::
              && OccursAt(s, r, i)
              && (forall j :: 0 <= j < i ==> IsSpace(s[j]))
              && (forall j :: i + |r| <= j < |s| ==> IsSpace(s[j]))
    ensures |r| > 0 ==> !IsSpace(r[0]) && !IsSpace(r[|r| - 1])
  {
    var t := TrimStart(s);
    var r := TrimEnd(t);
    StripParts(s, t, r);
    r
  }

  /** A white-space prefix cut from `s` leaves `t`, a white-space suffix cut from `t` leaves `r`: `r` sits between the two cuts. */
  lemma StripParts(s: string, t: string, r: string)
    requires |t| <= |s| && t == s[|s| - |t|..] && forall i :: 0 <= i < |s| - |t| ==> IsSpace(s[i])
    requires |r| <= |t| && r == t[..|r|] && forall i :: |r| <= i < |t| ==> IsSpace(t[i])
    ensures OccursAt(s, r, |s| - |t|)
    ensures forall j :: 0 <= j < |s| - |t| ==> IsSpace(s[j])
    ensures forall j :: |s| - |t| + |r| <= j < |s| ==> IsSpace(s[j])
  {
    var i := |s| - |t|;
    assert t == s[i..] && r == t[..|r|];
    forall k | 0 <= k < |r|
      ensures s[i..i + |r|][k] == r[k]
    {
      assert r[k] == t[k] == s[i + k];
    }
    assert s[i..i + |r|] == r;
    forall j | i + |r| <= j < |s|
      ensures IsSpace(s[j])
    {
      assert s[j] == t[j - i];
    }
  }

  /** `key` occurs in `text` starting at position `i`. */
  predicate OccursAt(text: string, key: string, i: nat) {
    i + |key| <= |text| && text[i..i + |key|] == key
  }

  /** Python's `key in text` on strings. */
  function Contains(text: string, key: string): bool
    decreases |text|
  {
    key <= text || (|text| > 0 && Contains(text[1..], key))
  }

  /** `Contains` is exactly the existence of an occurrence. */
  lemma {:induction false} ContainsIff(text: string, key: string)
    ensures Contains(text, key) <==> exists i: nat :: OccursAt(text, key, i)
    decreases |text|
  {
    if key <= text {
      assert OccursAt(text, key, 0);
    } else if |text| > 0 {
      ContainsIff(text[1..], key);
      if Contains(text[1..], key) {
        var i: nat :| OccursAt(text[1..], key, i);
        TailSlice(text, i, |key|);
        assert OccursAt(text, key, i + 1);
      }
      if exists i: nat :: OccursAt(text, key, i) {
        var i: nat :| OccursAt(text, key, i);
        if i > 0 {
          TailSlice(text, i - 1, |key|);
          assert OccursAt(text[1..], key, i - 1);
        }
      }
    }
  }

  lemma TailSlice(text: string, i: nat, n: nat)
    requires 0 < |text| && i + n <= |text| - 1
    ensures text[1..][i..i + n] == text[i + 1..i + 1 + n]
  {
  }

  /** An occurrence of `key` at position `i` makes `Contains` true. */
  lemma ContainsWitness(text: string, key: string, i: nat)
    requires OccursAt(text, key, i)
    ensures Contains(text, key)
  {
    ContainsIff(text, key);
  }

  /** `str.title()`: a letter is upper-cased when the previous character is not a letter, lower-cased otherwise. */
  function TitleCase(s: string): (r: string)
    ensures |r| == |s|
  {
    TitleFrom(s, false)
  }

  function TitleFrom(s: string, afterLetter: bool): (r: string)
    ensures |r| == |s|
  {
    if s == [] then []
    else [if afterLetter then LowerChar(s[0]) else UpperChar(s[0])] + TitleFrom(s[1..], IsLetter(s[0]))
  }

  /** Lower-casing forgets what title-casing did. */
  lemma {:induction false} LowerTitleFrom(s: string, afterLetter: bool)
    ensures Lower(TitleFrom(s, afterLetter)) == Lower(s)
  {
    if s != [] {
      LowerTitleFrom(s[1..], IsLetter(s[0]));
      assert Lower(TitleFrom(s, afterLetter)) == [LowerChar(s[0])] + Lower(TitleFrom(s[1..], IsLetter(s[0])));
      assert Lower(s) == [LowerChar(s[0])] + Lower(s[1..]);
    }
  }

  lemma LowerTitle(s: string)
    ensures Lower(TitleCase(s)) == Lower(s)
  {
    LowerTitleFrom(s, false);
  }

  lemma LowerIdempotent(s: string)
    ensures Lower(Lower(s)) == Lower(s)
  {
  }

  /** `s.replace(c, "")` for a one-character pattern: every `c` dropped, the rest kept in order. */
  function Remove(s: string, c: char): (r: string)
    ensures c !in r && |r| <= |s|
  {
    if s == [] then [] else (if s[0] == c then [] else [s[0]]) + Remove(s[1..], c)
  }

  /** A text without `c` is unchanged. */
  lemma {:induction false} RemoveAbsent(s: string, c: char)
    requires c !in s
    ensures Remove(s, c) == s
  {
    if s != [] {
      RemoveAbsent(s[1..], c);
    }
  }

  /** Removal works piece by piece. */
  lemma {:induction false} RemoveConcat(a: string, b: string, c: char)
    ensures Remove(a + b, c) == Remove(a, c) + Remove(b, c)
  {
    if a == [] {
      assert a + b == b;
    } else {
      assert (a + b)[0] == a[0] && (a + b)[1..] == a[1..] + b;
      RemoveConcat(a[1..], b, c);
    }
  }

  /** Removing `c` from `c` followed by a text without `c` leaves that text. */
  lemma RemoveLeading(c: char, s: string)
    requires c !in s
    ensures Remove([c] + s, c) == s
  {
    RemoveConcat([c], s, c);
    RemoveAbsent(s, c);
  }

  /** A text with no white space at either end strips to itself. */
  lemma StripPlain(s: string)
    requires |s| > 0 && !IsSpace(s[0]) && !IsSpace(s[|s| - 1])
    ensures Strip(s) == s
  {
  }

  predicate IsDigit(c: char) { '0' <= c <= '9' }

  function DigitValue(c: char): nat
    requires IsDigit(c)
  {
    c as int - '0' as int
  }

  function DigitChar(d: nat): (c: char)
    requires d < 10
    ensures IsDigit(c) && DigitValue(c) == d
  {
    ('0' as int + d) as char
  }

  /** `str(n)` for a natural number: its decimal digits, without leading zeros. */
  function NatText(n: nat): (r: string)
    ensures |r| >= 1 && (forall i :: 0 <= i < |r| ==> IsDigit(r[i]))
    ensures n > 0 ==> r[0] != '0'
  {
    if n < 10 then [DigitChar(n)] else NatText(n / 10) + [DigitChar(n % 10)]
  }

  /** `str(n)` for a Python `int`: its decimal digits, after a `-` when it is negative. */
  function IntText(n: int): (r: string)
    ensures |r| > 0 && (r[0] == '-' <==> n < 0)
    ensures n < 0 ==> r[1..] == NatText(-n)
    ensures n >= 0 ==> r == NatText(n)
    ensures forall i :: 0 <= i < |r| ==> IsDigit(r[i]) || (i == 0 && r[i] == '-')
  {
    if n < 0 then "-" + NatText(-n) else NatText(n)
  }

  /** `k` copies of the digit zero. */
  function Zeros(k: nat): (r: string)
    ensures |r| == k && forall i :: 0 <= i < k ==> r[i] == '0'
  {
    seq(k, _ => '0')
  }

  /** `n` written with at least `width` digits, padded with leading zeros (`f"{n:0{width}d}"`). */
  function Padded(n: nat, width: nat): (r: string)
    ensures forall i :: 0 <= i < |r| ==> IsDigit(r[i])
  {
    var t := NatText(n);
    if |t| < width then Zeros(width - |t|) + t else t
  }
}
