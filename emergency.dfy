/** The emergency pre-filter of app/main.py: a fixed list of high-risk
    phrases, searched for as plain substrings of the lower-cased input. */
module Emergency {

  import opened Text

  /** `EMERGENCY_KEYWORDS`, in the source's order. */
  const Keywords: seq<string> := [
    "chest pain", "severe shortness of breath", "fainting",
    "unconscious", "severe bleeding", "stroke", "heart attack"
  ]

  /** `any(word in text for word in words)`, left to right. */
  function AnyIn(text: string, words: seq<string>): (r: bool)
    decreases |words|
  {
    if words == [] then false
    else Contains(text, words[0]) || AnyIn(text, words[1..])
  }

  /** `check_emergency(symptoms)`. */
  function CheckEmergency(symptoms: string): (r: bool) {
    AnyIn(Lower(symptoms), Keywords)
  }

  /** The keyword `Keywords[k]` occurs at index `i` of the lower-cased text. */
  predicate KeywordAt(text: string, k: int, i: int) {
    0 <= k < |Keywords| && OccursAt(Keywords[k], Lower(text), i)
  }

  lemma {:induction false} AnyInIff(text: string, words: seq<string>)
    ensures AnyIn(text, words) <==> exists k :: 0 <= k < |words| && Contains(text, words[k])
    decreases |words|
  {
    if words != [] {
      AnyInIff(text, words[1..]);
      if AnyIn(text, words[1..]) {
        var k :| 0 <= k < |words[1..]| && Contains(text, words[1..][k]);
        assert Contains(text, words[k + 1]);
      }
    }
  }

  /** The filter fires exactly when some keyword occurs, as a contiguous
      block, somewhere in the lower-cased text. */
  lemma CheckEmergencyIff(symptoms: string)
    ensures CheckEmergency(symptoms) <==> exists k, i :: KeywordAt(symptoms, k, i)
  {
    AnyInIff(Lower(symptoms), Keywords);
    if CheckEmergency(symptoms) {
      var k :| 0 <= k < |Keywords| && Contains(Lower(symptoms), Keywords[k]);
      ContainsIff(Lower(symptoms), Keywords[k]);
      var i :| OccursAt(Keywords[k], Lower(symptoms), i);
      assert KeywordAt(symptoms, k, i);
    }
    if exists k, i :: KeywordAt(symptoms, k, i) {
      var k, i :| KeywordAt(symptoms, k, i);
      ContainsIff(Lower(symptoms), Keywords[k]);
    }
  }

  /** The filter is case-insensitive: it gives the same answer on a text and
      on its lower-cased form. */
  lemma CheckEmergencyCaseInsensitive(symptoms: string)
    ensures CheckEmergency(Lower(symptoms)) == CheckEmergency(symptoms)
  {
    LowerIdempotent(symptoms);
  }

  /** An upper-case phrase is caught: "CHEST PAIN" matches "chest pain". */
  lemma ShoutedChestPainMatches()
    ensures CheckEmergency("CHEST PAIN")
  {
    assert Lower("CHEST PAIN") == "chest pain";
  }

  /** A text that lacks the letters s, f, u and t contains no keyword: each
      keyword has one of them. */
  lemma NoKeywordWithout(text: string)
    requires 's' !in text && 'f' !in text && 'u' !in text && 't' !in text
    ensures !AnyIn(text, Keywords)
  {
    MissingCharNotContained(text, Keywords[0], 3);
    MissingCharNotContained(text, Keywords[1], 0);
    MissingCharNotContained(text, Keywords[2], 0);
    MissingCharNotContained(text, Keywords[3], 0);
    MissingCharNotContained(text, Keywords[4], 0);
    MissingCharNotContained(text, Keywords[5], 0);
    MissingCharNotContained(text, Keywords[6], 4);
    assert Keywords[1..][1..][1..][1..][1..][1..][1..] == [];
  }

  /** Every keyword is at least six characters long and begins and ends with
      a character that is not whitespace. */
  lemma KeywordsAreTrimmed(k: int)
    requires 0 <= k < |Keywords|
    ensures |Keywords[k]| >= 6
    ensures !IsSpace(Keywords[k][0]) && !IsSpace(Keywords[k][|Keywords[k]| - 1])
  {
  }

  /** A text the filter fires on has at least six non-blank characters
      between its first and last non-whitespace ones. */
  lemma EmergencyTextIsLong(symptoms: string)
    requires CheckEmergency(symptoms)
    ensures |Strip(symptoms)| >= 6
  {
    CheckEmergencyIff(symptoms);
    var k, i :| KeywordAt(symptoms, k, i);
    var w := Keywords[k];
    KeywordsAreTrimmed(k);
    var j := i + |w| - 1;
    assert Lower(symptoms)[i] == w[0] && Lower(symptoms)[j] == w[|w| - 1];
    LowerCharKeepsSpace(symptoms[i]);
    LowerCharKeepsSpace(symptoms[j]);
    StripKeepsSpan(symptoms, i, j);
  }
}
