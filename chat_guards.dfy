/** The chatbot's medical-question guard (src/utils/chatGuards.js): a
    question is refused when its lower-cased text contains any of thirteen
    health keywords. */
module ChatGuards {
  import opened Common

  /** FORBIDDEN_PATTERNS. */
  const ForbiddenPatterns: seq<string> := [
    "cure", "treat", "medicine", "medication", "asthma", "disease", "doctor",
    "prescription", "therapy", "diagnosis", "health", "symptoms", "illness"
  ]

  /** toLowerCase on one character; only ASCII letters are folded. */
  function LowerChar(c: char): (d: char)
    ensures !('A' <= d <= 'Z')
  {
    if 'A' <= c <= 'Z' then (c as int + 32) as char else c
  }

  function UpperChar(c: char): char {
    if 'a' <= c <= 'z' then (c as int - 32) as char else c
  }

  function ToLower(s: string): (r: string)
    ensures |r| == |s| && forall i :: 0 <= i < |s| ==> r[i] == LowerChar(s[i])
  {
    seq(|s|, i requires 0 <= i < |s| => LowerChar(s[i]))
  }

  function ToUpper(s: string): (r: string)
    ensures |r| == |s| && forall i :: 0 <= i < |s| ==> r[i] == UpperChar(s[i])
  {
    seq(|s|, i requires 0 <= i < |s| => UpperChar(s[i]))
  }

  /** `patterns.some(keyword => q.includes(keyword))`. */
  function SomeIncluded(q: string, patterns: seq<string>): (b: bool)
    ensures b <==> exists k :: 0 <= k < |patterns| && Contains(q, patterns[k])
  {
    if patterns == [] then false
    else Contains(q, patterns[0]) || SomeIncluded(q, patterns[1..])
  }

  /** isForbiddenHealthQuery. An absent question (null or undefined) and the
      empty string are falsy and allowed; otherwise the question is refused
      exactly when its lower-cased text contains a keyword. */
  function IsForbiddenHealthQuery(question: Option<string>): (forbidden: bool)
    ensures question.None? || question.value == [] ==> !forbidden
    ensures question.Some? && question.value != [] ==>
      (forbidden <==> exists k :: 0 <= k < |ForbiddenPatterns| &&
                                   Contains(ToLower(question.value), ForbiddenPatterns[k]))
  {
    if question.None? || question.value == [] then false
    else SomeIncluded(ToLower(question.value), ForbiddenPatterns)
  }

  /** On the modelled alphabet the guard ignores case: a question and its
      upper-cased form get the same answer. */
  lemma CaseInsensitive(q: string)
    ensures IsForbiddenHealthQuery(Some(ToUpper(q))) == IsForbiddenHealthQuery(Some(q))
  {
    assert ToLower(ToUpper(q)) == ToLower(q);
  }

  lemma LowerDistributes(p: string, q: string, t: string)
    ensures ToLower(p + q + t) == ToLower(p) + ToLower(q) + ToLower(t)
  {
  }

  /** Wrapping a refused question in more text keeps it refused. */
  lemma ExtensionKeepsForbidden(p: string, q: string, t: string)
    requires IsForbiddenHealthQuery(Some(q))
    ensures IsForbiddenHealthQuery(Some(p + q + t))
  {
    var k :| 0 <= k < |ForbiddenPatterns| && Contains(ToLower(q), ForbiddenPatterns[k]);
    ContainsExtended(ToLower(p), ToLower(q), ToLower(t), ForbiddenPatterns[k]);
    LowerDistributes(p, q, t);
  }

  /** The match is on substrings, not words: "Is my login secure?" is
      refused because "secure" contains "cure". */
  lemma SubstringNotWord()
    ensures IsForbiddenHealthQuery(Some("Is my login secure?"))
  {
    var q := ToLower("Is my login secure?");
    assert q[14..18] == "cure";
    assert MatchAt(q, ForbiddenPatterns[0], 14);
  }

  /** A question sharing no letter with the first letters of the keywords
      passes. */
  lemma QuietQuestionAllowed()
    ensures !IsForbiddenHealthQuery(Some("Wow, 400!"))
  {
    var q := ToLower("Wow, 400!");
    forall k | 0 <= k < |ForbiddenPatterns|
      ensures !Contains(q, ForbiddenPatterns[k])
    {
      NotContainsByFirstChar(q, ForbiddenPatterns[k]);
    }
  }
}
