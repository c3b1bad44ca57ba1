/** The few Python `str` operations the request handler relies on: `lower`,
    `strip`, the `in` substring test and `str(int)`, over strings as
    sequences of Unicode scalar values. */
module Text {

  import opened Options

  // ---------------------------------------------------------------------
  // Whitespace and `str.strip()`
  // ---------------------------------------------------------------------

  /** The characters for which Python's `str.isspace()` holds, which are the
      ones `str.strip()` with no argument removes. */
  predicate IsSpace(c: char) {
    || '\U{9}' <= c <= '\U{D}'
    || '\U{1C}' <= c <= '\U{20}'
    || c == '\U{85}'
    || c == '\U{A0}'
    || c == '\U{1680}'
    || '\U{2000}' <= c <= '\U{200A}'
    || c == '\U{2028}'
    || c == '\U{2029}'
    || c == '\U{202F}'
    || c == '\U{205F}'
    || c == '\U{3000}'
  }

  /** `s.lstrip()`: drops the longest all-whitespace prefix. */
  function TrimStart(s: string): (r: string)
    ensures |r| <= |s| && r == s[|s| - |r|..]
    ensures forall j :: 0 <= j < |s| - |r| ==> IsSpace(s[j])
    ensures r != [] ==> !IsSpace(r[0])
    decreases |s|
  {
    if |s| > 0 && IsSpace(s[0]) then TrimStart(s[1..]) else s
  }

  /** `s.rstrip()`: drops the longest all-whitespace suffix. */
  function TrimEnd(s: string): (r: string)
    ensures |r| <= |s| && r == s[..|r|]
    ensures forall j :: |r| <= j < |s| ==> IsSpace(s[j])
    ensures r != [] ==> !IsSpace(r[|r| - 1])
    decreases |s|
  {
    if |s| > 0 && IsSpace(s[|s| - 1]) then TrimEnd(s[..|s| - 1]) else s
  }

  /** `s.strip()`. */
  function Strip(s: string): (r: string) {
    TrimEnd(TrimStart(s))
  }

  /** Stripping removes whitespace only: two non-whitespace characters of `s`
      survive together with everything between them. */
  lemma StripKeepsSpan(s: string, a: int, b: int)
    requires 0 <= a <= b < |s|
    requires !IsSpace(s[a]) && !IsSpace(s[b])
    ensures |Strip(s)| >= b - a + 1
  {
    var t := TrimStart(s);
    var d := |s| - |t|;
    assert d <= a;
    assert t[b - d] == s[b];
    var u := TrimEnd(t);
    assert |u| > b - d;
  }

  // ---------------------------------------------------------------------
  // ASCII lower-casing and `word in text`
  // ---------------------------------------------------------------------

  /** Lower-cases one character; only the ASCII letters A-Z change. */
  function LowerChar(c: char): (r: char) {
    if 'A' <= c <= 'Z' then (c as int - 'A' as int + 'a' as int) as char else c
  }

  /** `s.lower()`, restricted to ASCII case mapping. */
  function Lower(s: string): (r: string) {
    seq(|s|, i requires 0 <= i < |s| => LowerChar(s[i]))
  }

  /** Lower-casing leaves whitespace alone, so a character that lower-cases
      to something other than whitespace was not whitespace. */
  lemma LowerCharKeepsSpace(c: char)
    ensures IsSpace(c) ==> LowerChar(c) == c
    ensures IsSpace(LowerChar(c)) <==> IsSpace(c)
  {
  }

  /** Lower-casing twice is lower-casing once. */
  lemma LowerIdempotent(s: string)
    ensures Lower(Lower(s)) == Lower(s)
  {
    assert forall i :: 0 <= i < |s| ==> Lower(Lower(s))[i] == Lower(s)[i];
  }

  /** `word` occurs as a contiguous block of `text` starting at index `i`. */
  predicate OccursAt(word: string, text: string, i: int) {
    0 <= i && i + |word| <= |text| && text[i..i + |word|] == word
  }

  /** A block of `t` stays in place when `t` is extended on the right. */
  lemma OccursInExtended(w: string, t: string, y: string, i: int)
    requires OccursAt(w, t, i)
    ensures OccursAt(w, t + y, i)
  {
    assert (t + y)[i..i + |w|] == t[i..i + |w|];
  }

  /** A block of `t` moves right by `|x|` when `x` is put in front of `t`. */
  lemma OccursInPrefixed(w: string, x: string, t: string, i: int)
    requires OccursAt(w, t, i)
    ensures OccursAt(w, x + t, |x| + i)
  {
    assert (x + t)[|x| + i..|x| + i + |w|] == t[i..i + |w|];
  }

  /** Both halves of a concatenation occur where they were put. */
  lemma OccursInPair(x: string, y: string)
    ensures OccursAt(x, x + y, 0)
    ensures OccursAt(y, x + y, |x|)
  {
    assert (x + y)[..|x|] == x;
    assert (x + y)[|x|..] == y;
  }

  /** Where each part of `a + (b + (c + d + e))` sits, with `d` split in
      two; `q`, `r` and `s` name the nested tails. */
  lemma NestedLayout(a: string, b: string, c: string, d1: string, d2: string, e: string,
                     q: string, r: string, s: string)
    requires q == c + (d1 + d2) && r == q + e && s == b + r
    ensures OccursAt(a, a + s, 0)
    ensures OccursAt(b, a + s, |a|)
    ensures OccursAt(c, a + s, |a| + |b|)
    ensures OccursAt(d1, a + s, |a| + |b| + |c|)
    ensures OccursAt(d2, a + s, |a| + |b| + |c| + |d1|)
    ensures OccursAt(e, a + s, |a + s| - |e|)
  {
    OccursInPair(a, s);
    OccursInPair(b, r);
    OccursInPrefixed(b, a, s, 0);
    OccursInPair(q, e);
    OccursInPrefixed(e, b, r, |q|);
    OccursInPrefixed(e, a, s, |b| + |q|);
    PartsOfTail(c, d1, d2, e, q, r);
    OccursInPrefixed(c, b, r, 0);
    OccursInPrefixed(c, a, s, |b|);
    OccursInPrefixed(d1, b, r, |c|);
    OccursInPrefixed(d1, a, s, |b| + |c|);
    OccursInPrefixed(d2, b, r, |c| + |d1|);
    OccursInPrefixed(d2, a, s, |b| + |c| + |d1|);
  }

  /** Where `c`, `d1` and `d2` sit in `(c + (d1 + d2)) + e`. */
  lemma PartsOfTail(c: string, d1: string, d2: string, e: string, q: string, r: string)
    requires q == c + (d1 + d2) && r == q + e
    ensures OccursAt(c, r, 0)
    ensures OccursAt(d1, r, |c|)
    ensures OccursAt(d2, r, |c| + |d1|)
  {
    OccursInPair(c, d1 + d2);
    OccursInExtended(c, q, e, 0);
    OccursInPair(d1, d2);
    OccursInPrefixed(d1, c, d1 + d2, 0);
    OccursInExtended(d1, q, e, |c|);
    OccursInPrefixed(d2, c, d1 + d2, |d1|);
    OccursInExtended(d2, q, e, |c| + |d1|);
  }

  /** Python's `word in text`, as a left-to-right scan of start positions. */
  function Contains(text: string, word: string): (r: bool)
    decreases |text|
  {
    if |word| <= |text| && text[..|word|] == word then true
    else if |text| == 0 then false
    else Contains(text[1..], word)
  }

  /** The scan finds `word` exactly when `word` occurs somewhere in `text`. */
  lemma {:induction false} ContainsIff(text: string, word: string)
    ensures Contains(text, word) <==> exists i :: OccursAt(word, text, i)
    decreases |text|
  {
    if |word| <= |text| && text[..|word|] == word {
      assert OccursAt(word, text, 0);
    } else if |text| == 0 {
      assert forall i :: !OccursAt(word, text, i);
    } else {
      ContainsIff(text[1..], word);
      if Contains(text[1..], word) {
        var i :| OccursAt(word, text[1..], i);
        assert text[1..][i..i + |word|] == text[i + 1..i + 1 + |word|];
        assert OccursAt(word, text, i + 1);
      } else {
        forall i | OccursAt(word, text, i) && i > 0 ensures OccursAt(word, text[1..], i - 1) {
          assert text[1..][i - 1..i - 1 + |word|] == text[i..i + |word|];
        }
      }
    }
  }

  /** A word with a character the text lacks does not occur in it. */
  lemma MissingCharNotContained(text: string, word: string, m: int)
    requires 0 <= m < |word| && word[m] !in text
    ensures !Contains(text, word)
  {
    ContainsIff(text, word);
  }

  // ---------------------------------------------------------------------
  // `str(n)` for integers, and its inverse
  // ---------------------------------------------------------------------

  predicate IsDigit(c: char) {
    '0' as int <= c as int <= '9' as int
  }

  function DigitChar(d: int): (c: char)
    requires 0 <= d < 10
    ensures IsDigit(c) && c as int - '0' as int == d
  {
    ('0' as int + d) as char
  }

  /** The decimal digits of `n`, most significant first, without leading
      zeros. */
  function NatToDecimal(n: nat): (r: string)
    ensures |r| > 0 && forall i :: 0 <= i < |r| ==> IsDigit(r[i])
    ensures |r| > 1 ==> r[0] != '0'
    decreases n
  {
    if n < 10 then [DigitChar(n)] else NatToDecimal(n / 10) + [DigitChar(n % 10)]
  }

  /** Python's `str(n)` for an `int`: a minus sign for negatives, then the
      digits. */
  function IntToDecimal(n: int): (r: string) {
    if n < 0 then "-" + NatToDecimal(-n) else NatToDecimal(n)
  }

  /** The number a string of decimal digits denotes. */
  function DigitsValue(s: string): (r: nat)
    requires forall i :: 0 <= i < |s| ==> IsDigit(s[i])
    decreases |s|
  {
    if s == [] then 0
    else
      var last := s[|s| - 1];
      assert IsDigit(last);
      DigitsValue(s[..|s| - 1]) * 10 + (last as int - '0' as int)
  }

  /** Reads back an optionally signed decimal integer, or fails. */
  function ParseInt(s: string): (r: Option<int>) {
    if |s| > 0 && s[0] == '-' then
      if |s| > 1 && forall i :: 1 <= i < |s| ==> IsDigit(s[i]) then Some(0 - DigitsValue(s[1..])) else None
    else if |s| > 0 && forall i :: 0 <= i < |s| ==> IsDigit(s[i]) then Some(DigitsValue(s))
    else None
  }

  lemma {:induction false} NatToDecimalValue(n: nat)
    ensures DigitsValue(NatToDecimal(n)) == n
    decreases n
  {
    if n >= 10 {
      NatToDecimalValue(n / 10);
      var r := NatToDecimal(n);
      assert r[..|r| - 1] == NatToDecimal(n / 10);
    }
  }

  /** Printing an integer and reading it back gives the integer. */
  lemma IntToDecimalRoundTrip(n: int)
    ensures ParseInt(IntToDecimal(n)) == Some(n)
  {
    if n < 0 {
      NatToDecimalValue(-n);
      assert IntToDecimal(n)[1..] == NatToDecimal(-n);
    } else {
      NatToDecimalValue(n);
    }
  }

  /** A printed integer is a sign and digits, so it is never a word. */
  lemma IntToDecimalShape(n: int)
    ensures |IntToDecimal(n)| > 0
    ensures IntToDecimal(n)[0] == '-' || IsDigit(IntToDecimal(n)[0])
  {
  }
}
