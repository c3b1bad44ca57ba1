/** Locating the JSON text in the model's reply: app/main.py searches the raw
    reply with the pattern `(\{.*\})` under `re.S`, so `.` also matches line
    breaks and the greedy `.*` runs to the last closing brace. */
module Extraction {

  import opened Options

  /** The index of the first occurrence of `c` in `s`, if any. */
  function FirstIndexOf(s: string, c: char): (r: Option<nat>)
    ensures r.Some? ==> r.value < |s| && s[r.value] == c
    ensures r.Some? ==> forall j :: 0 <= j < r.value ==> s[j] != c
    ensures r.None? ==> forall j :: 0 <= j < |s| ==> s[j] != c
    decreases |s|
  {
    if s == [] then None
    else if s[0] == c then Some(0)
    else match FirstIndexOf(s[1..], c)
      case None => None
      case Some(k) => Some(k + 1)
  }

  /** The index of the last occurrence of `c` in `s`, if any. */
  function LastIndexOf(s: string, c: char): (r: Option<nat>)
    ensures r.Some? ==> r.value < |s| && s[r.value] == c
    ensures r.Some? ==> forall j :: r.value < j < |s| ==> s[j] != c
    ensures r.None? ==> forall j :: 0 <= j < |s| ==> s[j] != c
    decreases |s|
  {
    if s == [] then None
    else if s[|s| - 1] == c then Some(|s| - 1)
    else LastIndexOf(s[..|s| - 1], c)
  }

  /** `re.search(r"(\{.*\})", raw, re.S).group(1)`, or `None` when the
      search finds nothing: the text from the first `{` through the last
      `}`, provided the first `{` comes before the last `}`. */
  function ExtractSpan(raw: string): (r: Option<string>) {
    match (FirstIndexOf(raw, '{'), LastIndexOf(raw, '}'))
    case (Some(i), Some(j)) => if i < j then Some(raw[i..j + 1]) else None
    case _ => None
  }

  // ---------------------------------------------------------------------
  // What the regular-expression search means, stated independently
  // ---------------------------------------------------------------------

  /** `raw[i..j]` is matched by `\{.*\}` when `.` matches every character. */
  ghost predicate IsMatch(raw: string, i: int, j: int) {
    0 <= i && i + 2 <= j <= |raw| && raw[i] == '{' && raw[j - 1] == '}'
  }

  /** The match `re.search` reports: among all matches the leftmost start,
      and at that start the longest one (the `.*` is greedy). */
  ghost predicate IsSearchResult(raw: string, i: int, j: int) {
    && IsMatch(raw, i, j)
    && forall i', j' :: IsMatch(raw, i', j') ==> i <= i' && (i' == i ==> j' <= j)
  }

  /** ExtractSpan computes exactly the regular-expression search: it fails
      only when no `{` precedes a `}`, and otherwise returns the leftmost,
      longest match. */
  lemma ExtractSpanIsSearch(raw: string)
    ensures ExtractSpan(raw).None? <==> forall i, j :: !IsMatch(raw, i, j)
    ensures ExtractSpan(raw).Some? ==>
      exists i, j :: IsSearchResult(raw, i, j) && ExtractSpan(raw).value == raw[i..j]
  {
    var first, last := FirstIndexOf(raw, '{'), LastIndexOf(raw, '}');
    if first.Some? && last.Some? && first.value < last.value {
      var i, j := first.value, last.value + 1;
      assert IsMatch(raw, i, j);
      forall i', j' | IsMatch(raw, i', j') ensures i <= i' && j' <= j {
        assert raw[i'] == '{' && raw[j' - 1] == '}';
      }
      assert IsSearchResult(raw, i, j);
    }
  }

  /** A reply made of prose without `{`, then one brace-delimited object,
      then prose without `}`, yields exactly that object, whatever braces
      the object itself contains. */
  lemma ExtractSurroundedObject(prefix: string, obj: string, suffix: string)
    requires |obj| >= 2 && obj[0] == '{' && obj[|obj| - 1] == '}'
    requires '{' !in prefix && '}' !in suffix
    ensures ExtractSpan(prefix + obj + suffix) == Some(obj)
  {
    var raw := prefix + obj + suffix;
    var i, j := |prefix|, |prefix| + |obj| - 1;
    assert raw[i] == '{' && raw[j] == '}';
    assert FirstIndexOf(raw, '{') == Some(i);
    assert LastIndexOf(raw, '}') == Some(j);
    assert raw[i..j + 1] == obj;
  }

  /** With no `{` before a `}` there is nothing to extract. */
  lemma NoBracePairNoSpan(raw: string)
    requires forall i, j :: 0 <= i < j < |raw| ==> !(raw[i] == '{' && raw[j] == '}')
    ensures ExtractSpan(raw) == None
  {
    ExtractSpanIsSearch(raw);
  }
}
