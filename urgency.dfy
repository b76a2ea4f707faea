/**
 * The urgency classifier of the relay manager (`detectUrgency`): a message is
 * urgent when its lower-cased text contains one of the urgent keywords, when
 * it has three or more exclamation marks, or when more than half of its
 * (more than ten) ASCII letters are capitals.
 */
module Urgency {
  import opened Text
  import opened RelayTypes

  /** `keywords.some(k => lower.includes(k))`. */
  function HasKeyword(lower: string, keywords: seq<string>): (b: bool)
    ensures b <==> exists k :: 0 <= k < |keywords| && Contains(lower, keywords[k])
  {
    if keywords == [] then false
    else if Contains(lower, keywords[0]) then true
    else
      var b := HasKeyword(lower, keywords[1..]);
      assert forall k :: 1 <= k < |keywords| ==> keywords[k] == keywords[1..][k - 1];
      b
  }

  predicate IsBang(c: char) { c == '!' }

  /** `(text.match(/!/g) || []).length`. */
  function BangCount(text: string): nat { CountIf(text, IsBang) }

  /** `(text.match(/[A-Z]/g) || []).length`. */
  function CapsCount(text: string): nat { CountIf(text, IsAsciiUpper) }

  /** `(text.match(/[A-Za-z]/g) || []).length`. */
  function LetterCount(text: string): nat { CountIf(text, IsAsciiLetter) }

  /** `letterCount > 10 && capsCount > letterCount * 0.5`, in integers. */
  predicate CapsRule(text: string) {
    LetterCount(text) > 10 && 2 * CapsCount(text) > LetterCount(text)
  }

  /** `detectUrgency`: the three rules, tried in order, after the empty text. */
  function DetectUrgency(text: string): (urgent: bool)
    ensures text == [] ==> !urgent
  {
    if text == [] then false
    else if HasKeyword(ToLower(text), UrgentKeywords) then true
    else if BangCount(text) >= 3 then true
    else CapsRule(text)
  }

  /** The number of exclamation marks is the multiplicity of `!`. */
  lemma {:induction false} BangCountIsMultiplicity(text: string)
    ensures BangCount(text) == multiset(text)['!']
  {
    if text != [] {
      BangCountIsMultiplicity(text[1..]);
      assert text == [text[0]] + text[1..];
      assert multiset(text) == multiset([text[0]]) + multiset(text[1..]);
    }
  }

  lemma CapsAtMostLetters(text: string)
    ensures CapsCount(text) <= LetterCount(text)
  {
    CountIfMono(text, IsAsciiUpper, IsAsciiLetter);
  }

  /** The classifier against an independent statement of the three rules:
      a keyword occurs somewhere in the lower-cased text (as a substring, not
      a whole word), the text holds three `!`, or the caps rule holds. */
  lemma DetectUrgencyIff(text: string)
    ensures DetectUrgency(text) <==>
      || (exists k, i :: 0 <= k < |UrgentKeywords| && OccursAt(ToLower(text), UrgentKeywords[k], i))
      || multiset(text)['!'] >= 3
      || (LetterCount(text) > 10 && 2 * CapsCount(text) > LetterCount(text))
  {
    BangCountIsMultiplicity(text);
    var lower := ToLower(text);
    if text == [] {
      assert multiset(text)['!'] == 0;
      forall k, i | 0 <= k < |UrgentKeywords| ensures !OccursAt(lower, UrgentKeywords[k], i) {
        UrgentKeywordsShape();
      }
    }
    if HasKeyword(lower, UrgentKeywords) {
      var k :| 0 <= k < |UrgentKeywords| && Contains(lower, UrgentKeywords[k]);
      var i := ContainsImpliesOccurs(lower, UrgentKeywords[k]);
    } else {
      forall k, i | 0 <= k < |UrgentKeywords| ensures !OccursAt(lower, UrgentKeywords[k], i) {
        if OccursAt(lower, UrgentKeywords[k], i) {
          OccursImpliesContains(lower, UrgentKeywords[k], i);
        }
      }
    }
  }

  /** A keyword anywhere in the text, in any ASCII case, makes it urgent. */
  lemma KeywordMakesUrgent(text: string, k: nat, i: int)
    requires k < |UrgentKeywords| && OccursAt(ToLower(text), UrgentKeywords[k], i)
    ensures DetectUrgency(text)
  {
    DetectUrgencyIff(text);
  }

  /** Three exclamation marks make any text urgent, whatever else it holds. */
  lemma BangsMakeUrgent(text: string)
    requires multiset(text)['!'] >= 3
    ensures DetectUrgency(text)
  {
    DetectUrgencyIff(text);
  }

  /** The caps rule needs at least six capitals, so a text with at most five
      capitals (or at most ten letters) is never urgent by it. */
  lemma CapsRuleNeedsSixCapitals(text: string)
    requires CapsRule(text)
    ensures CapsCount(text) >= 6 && LetterCount(text) >= 11
  {
  }

  /** A text of at most two characters holds no keyword, at most two `!` and
      at most two letters, so it is never urgent. */
  lemma ShortTextNotUrgent(text: string)
    requires |text| <= 2
    ensures !DetectUrgency(text)
  {
    DetectUrgencyIff(text);
    BangCountIsMultiplicity(text);
    assert BangCount(text) <= |text|;
    assert LetterCount(text) <= |text|;
    UrgentKeywordsShape();
    forall k, i | 0 <= k < |UrgentKeywords| ensures !OccursAt(ToLower(text), UrgentKeywords[k], i) {
      assert |UrgentKeywords[k]| >= 3;
    }
  }

  /** `know` contains `now`: the keyword rule matches substrings. */
  lemma ExampleKnowIsUrgent()
    ensures DetectUrgency("I know")
  {
    var lower := ToLower("I know");
    assert lower[3..6] == "now";
    assert UrgentKeywords[3] == "now";
    KeywordMakesUrgent("I know", 3, 3);
  }
}
