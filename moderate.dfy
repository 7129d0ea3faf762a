/** The moderation route (src/app/api/ai/moderate/route.ts): without a language-model key a mock
    verdict is computed from word lists and the content's length; with one, the model's reply is
    served, a safe default replacing a reply that does not parse. The mock's random scores are
    parameters, each a draw of `Math.random()`. */
module Moderate {
  import opened Common

  /** `\w`: ASCII letters, digits and the underscore. */
  predicate IsWordChar(c: char)
  {
    IsLowerAlpha(c) || IsUpperAlpha(c) || IsDigit(c) || c == '_'
  }

  /** The lower-case phrase w matches s at position i under `/\b(?:w)\b/i`: the characters agree up
      to ASCII case, and no word character touches the match on either side. The phrases used all
      begin and end with a letter, so that is what `\b` demands there. */
  predicate WordAt(s: string, w: string, i: int)
  {
    0 <= i && i + |w| <= |s| && Lower(s[i..i + |w|]) == w
    && (i == 0 || !IsWordChar(s[i - 1]))
    && (i + |w| == |s| || !IsWordChar(s[i + |w|]))
  }

  predicate HasWord(s: string, w: string)
  {
    exists i :: 0 <= i <= |s| - |w| && WordAt(s, w, i)
  }

  /** The alternation: some phrase of the list matches somewhere. */
  predicate HasAnyWord(s: string, words: seq<string>)
  {
    exists k :: 0 <= k < |words| && HasWord(s, words[k])
  }

  const SPAM_WORDS: seq<string> := ["viagra", "casino", "lottery", "winner", "free money"]
  const HATE_WORDS: seq<string> := ["hate", "stupid", "idiot", "dumb"]

  predicate HasSpamWords(content: string) { HasAnyWord(content, SPAM_WORDS) }
  predicate HasHateWords(content: string) { HasAnyWord(content, HATE_WORDS) }

  /** A phrase written in any case and set off from its neighbours by non-word characters (or the
      ends of the text) is found, whatever surrounds it; a spam or hate phrase so written flags the
      text. */
  lemma MatchedInAnyCase(before: string, x: string, after: string, w: string)
    requires Lower(x) == w
    requires before == [] || !IsWordChar(before[|before| - 1])
    requires after == [] || !IsWordChar(after[0])
    ensures HasWord(before + x + after, w)
    ensures w in SPAM_WORDS ==> HasSpamWords(before + x + after)
    ensures w in HATE_WORDS ==> HasHateWords(before + x + after)
  {
    var s, i := before + x + after, |before|;
    assert s[i..i + |w|] == x;
    assert i > 0 ==> s[i - 1] == before[|before| - 1];
    assert i + |w| < |s| ==> s[i + |w|] == after[0];
    assert WordAt(s, w, i);
    if w in SPAM_WORDS {
      var k :| 0 <= k < |SPAM_WORDS| && SPAM_WORDS[k] == w;
      assert HasWord(s, SPAM_WORDS[k]);
    }
    if w in HATE_WORDS {
      var k :| 0 <= k < |HATE_WORDS| && HATE_WORDS[k] == w;
      assert HasWord(s, HATE_WORDS[k]);
    }
  }

  /** For example: "CASINO" between spaces is found, and "casino" inside "casinos" is not. */
  lemma WholeWordsOnly()
    ensures HasWord("Win at the CASINO!", "casino")
    ensures !HasWord("casinos", "casino")
    ensures HasSpamWords("Win at the CASINO!")
  {
    var s := "Win at the CASINO!";
    assert WordAt(s, "casino", 11) by {
      CasinoAt();
      LowerCasino();
    }
    forall i | 0 <= i <= 1
      ensures !WordAt("casinos", "casino", i)
    {
      if i == 1 {
        assert Lower("casinos"[1..7])[0] == 'a';
      }
    }
    assert HasWord("Win at the CASINO!", SPAM_WORDS[1]);
  }

  lemma CasinoAt()
    ensures "Win at the CASINO!"[11..17] == "CASINO"
  {
    var u := "Win at the CASINO!"[11..17];
    assert u[0] == 'C' && u[1] == 'A' && u[2] == 'S';
    assert u[3] == 'I' && u[4] == 'N' && u[5] == 'O';
  }

  lemma LowerCasino()
    ensures Lower("CASINO") == "casino"
  {
    var l := Lower("CASINO");
    assert l[0] == 'c' && l[1] == 'a' && l[2] == 's';
    assert l[3] == 'i' && l[4] == 'n' && l[5] == 'o';
  }

  lemma LowerUpperChar(c: char)
    ensures LowerChar(UpperChar(c)) == LowerChar(c)
    ensures IsWordChar(UpperChar(c)) == IsWordChar(c)
  {
  }

  /** Upper-casing the content changes no match: the test is case-insensitive. */
  lemma WordAtIgnoresCase(s: string, w: string, i: int)
    ensures WordAt(Upper(s), w, i) <==> WordAt(s, w, i)
  {
    var u := Upper(s);
    if 0 <= i && i + |w| <= |s| {
      var a, b := Lower(u[i..i + |w|]), Lower(s[i..i + |w|]);
      forall k | 0 <= k < |w|
        ensures a[k] == b[k]
      {
        LowerUpperChar(s[i + k]);
      }
      assert a == b;
      if i > 0 {
        LowerUpperChar(s[i - 1]);
      }
      if i + |w| < |s| {
        LowerUpperChar(s[i + |w|]);
      }
    }
  }

  /** The scores of the mock verdict. */
  datatype Categories = Categories(spam: real, hate: real, inappropriate: real, quality: real)

  datatype Moderation = Moderation(isApproved: bool, confidence: real, flags: seq<string>,
                                   categories: Categories, suggestions: seq<string>, action: string)

  /** The values `Math.random()` returns for the mock's scores; `hate` is drawn only when a hate
      word appears. */
  datatype Draws = Draws(confidence: real, spam: real, hate: real, inappropriate: real, quality: real)

  predicate InUnit(x: real) { 0.0 <= x < 1.0 }

  predicate DrawsInRange(d: Draws)
  {
    InUnit(d.confidence) && InUnit(d.spam) && InUnit(d.hate) && InUnit(d.inappropriate) && InUnit(d.quality)
  }

  const FLAG_ORDER: seq<string> := ["potential_spam", "hate_speech", "too_short"]
  const MORE_DETAIL := "Consider adding more detail"
  const REMOVE_PROMOTION := "Remove promotional content"
  const QUALITY_GOOD := "Content quality is good"
  const NO_ISSUES := "No major issues detected"

  /** The position of a flag in the order the mock lists flags. */
  function FlagRank(f: string): int
  {
    if f == FLAG_ORDER[0] then 0 else if f == FLAG_ORDER[1] then 1 else if f == FLAG_ORDER[2] then 2 else 3
  }

  /** The flag list: one flag per test that fires, in the fixed order. */
  function Flags(spam: bool, hate: bool, short: bool): (flags: seq<string>)
    ensures "potential_spam" in flags <==> spam
    ensures "hate_speech" in flags <==> hate
    ensures "too_short" in flags <==> short
    ensures forall i :: 0 <= i < |flags| ==> flags[i] in FLAG_ORDER
    ensures forall i, j :: 0 <= i < j < |flags| ==> FlagRank(flags[i]) < FlagRank(flags[j])
  {
    var f0: seq<string> := if spam then [FLAG_ORDER[0]] else [];
    var f1: seq<string> := if hate then [FLAG_ORDER[1]] else [];
    var f2: seq<string> := if short then [FLAG_ORDER[2]] else [];
    assert FlagRank(FLAG_ORDER[0]) == 0 && FlagRank(FLAG_ORDER[1]) == 1 && FlagRank(FLAG_ORDER[2]) == 2;
    f0 + f1 + f2
  }

  /** The suggestion list: the detail hint for short content, the promotion hint on spam, then the
      two fixed messages. */
  function Suggestions(short: bool, spam: bool): (s: seq<string>)
    ensures MORE_DETAIL in s <==> short
    ensures REMOVE_PROMOTION in s <==> spam
    ensures |s| >= 2 && s[|s| - 2..] == [QUALITY_GOOD, NO_ISSUES]
  {
    var s0: seq<string> := if short then [MORE_DETAIL] else [];
    var s1: seq<string> := if spam then [REMOVE_PROMOTION] else [];
    s0 + s1 + [QUALITY_GOOD, NO_ISSUES]
  }

  /** The category scores, from which tests fired and the draws. */
  function Scores(spam: bool, hate: bool, highQuality: bool, d: Draws): Categories
  {
    Categories(if spam then d.spam * 0.5 + 0.5 else d.spam * 0.2,
               if hate then d.hate * 0.3 + 0.2 else 0.0,
               d.inappropriate * 0.1,
               if highQuality then d.quality * 0.3 + 0.7 else d.quality * 0.5 + 0.3)
  }

  /** With draws in [0, 1) each score lies in [0, 1), and the spam, hate and quality scores each
      tell whether their test fired. */
  lemma ScoresInRange(spam: bool, hate: bool, highQuality: bool, d: Draws)
    requires DrawsInRange(d)
    ensures var c := Scores(spam, hate, highQuality, d);
            InUnit(c.spam) && InUnit(c.hate) && InUnit(c.inappropriate) && InUnit(c.quality)
            && (c.spam >= 0.5 <==> spam) && (c.hate > 0.0 <==> hate)
            && (highQuality ==> c.quality >= 0.7)
  {
  }

  /** `generateMockModeration(content)`: approved, with action "approve", exactly when neither a
      spam nor a hate phrase appears, else "flag"; one flag per test that fires, in the fixed
      order; the detail suggestion exactly below 20 characters, the promotion one exactly on spam,
      and the two fixed messages last. */
  function MockModeration(content: string, d: Draws): (m: Moderation)
    ensures m.isApproved <==> !HasSpamWords(content) && !HasHateWords(content)
    ensures m.action == if m.isApproved then "approve" else "flag"
    ensures m.flags == Flags(HasSpamWords(content), HasHateWords(content), |content| < 10)
    ensures m.suggestions == Suggestions(|content| < 20, HasSpamWords(content))
  {
    var spam, hate := HasSpamWords(content), HasHateWords(content);
    var highQuality := |content| > 50 && !spam;
    Moderation(!spam && !hate, d.confidence * 0.3 + 0.7, Flags(spam, hate, |content| < 10),
               Scores(spam, hate, highQuality, d), Suggestions(|content| < 20, spam),
               if !spam && !hate then "approve" else "flag")
  }

  /** With draws in [0, 1) every score lies in [0, 1); the spam score reaches 0.5 exactly on spam,
      the hate score is non-zero exactly on a hate word, and long spam-free content scores at least
      0.7 for quality. */
  lemma MockScores(content: string, d: Draws)
    requires DrawsInRange(d)
    ensures var m := MockModeration(content, d);
            0.7 <= m.confidence < 1.0
            && InUnit(m.categories.spam) && InUnit(m.categories.hate)
            && InUnit(m.categories.inappropriate) && InUnit(m.categories.quality)
            && (m.categories.spam >= 0.5 <==> HasSpamWords(content))
            && (m.categories.hate > 0.0 <==> HasHateWords(content))
            && (|content| > 50 && !HasSpamWords(content) ==> m.categories.quality >= 0.7)
  {
    var spam, hate := HasSpamWords(content), HasHateWords(content);
    ScoresInRange(spam, hate, |content| > 50 && !spam, d);
  }

  /** `moderateContent`'s default for a reply that is not JSON. */
  const SAFE_DEFAULT := Moderation(true, 0.8, [], Categories(0.1, 0.0, 0.0, 0.8),
                                   ["Content appears appropriate"], "approve")

  /** What the language-model call comes to: no text, a failed call, text that is not JSON, or a
      parsed verdict. */
  datatype ModelReply = NoText | CallFailed | Unparseable | Parsed(verdict: Moderation)

  /** `moderateContent`: the parsed verdict, the safe default for unparseable text, and an error
      (None) when there is no text or the call fails. */
  function ModerateContent(reply: ModelReply): (r: Option<Moderation>)
    ensures reply == Unparseable ==> r == Some(SAFE_DEFAULT) && r.value.isApproved && r.value.flags == []
    ensures reply.Parsed? ==> r == Some(reply.verdict)
    ensures r.None? <==> reply == NoText || reply == CallFailed
  {
    match reply
    case Parsed(v) => Some(v)
    case Unparseable => Some(SAFE_DEFAULT)
    case _ => None
  }

  datatype ModerationReply = ModerationReply(result: Moderation, mock: bool)

  /** POST: 401 without a session, 400 without content; the mock verdict with `mock: true` when
      no key is configured; otherwise the model's verdict, and a model failure is a 500. */
  function ModeratePost(session: Option<Session>, content: Option<string>, hasModelKey: bool,
                        draws: Draws, reply: ModelReply): (r: Reply<ModerationReply>)
    ensures SessionUser(session).None? ==> r == Fail(401, "Unauthorized")
    ensures SessionUser(session).Some? && !Given(content) ==> r == Fail(400, "Content is required")
    ensures SessionUser(session).Some? && Given(content) ==>
              if !hasModelKey then r == Ok(ModerationReply(MockModeration(content.value, draws), true))
              else if reply == NoText || reply == CallFailed then r == Fail(500, "Internal server error")
              else r.Ok? && !r.body.mock && Some(r.body.result) == ModerateContent(reply)
  {
    if SessionUser(session).None? then Fail(401, "Unauthorized")
    else if !Given(content) then Fail(400, "Content is required")
    else if !hasModelKey then Ok(ModerationReply(MockModeration(content.value, draws), true))
    else
      var verdict := ModerateContent(reply);
      if verdict.None? then Fail(500, "Internal server error") else Ok(ModerationReply(verdict.value, false))
  }
}
