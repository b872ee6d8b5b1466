// The automated risk score a member gets before being offered a challenge.

module Risk {
  import opened Common

  const HOUR_MS := 3600000

  /** What the scorer reads from a member's user account. */
  datatype Applicant = Applicant(bot: bool, createdTimestamp: int, avatar: Option<string>, username: string)

  datatype Assessment = Assessment(score: int, manualRequired: bool, reasons: seq<string>)

  const BOT_REASON := "Discord marks this account as a bot user."
  const NO_AVATAR_REASON := "Account has no avatar."
  const DIGITS_REASON := "Username contains a long numeric sequence."
  const KEYWORD_REASON := "Username contains suspicious keyword patterns."
  const MANUAL_THRESHOLD := 3

  function AgeReason(ageHours: int, minHours: int): string
  {
    "Account is only " + IntToString(ageHours) + "h old (minimum " + IntToString(minHours) + "h)."
  }

  /** getAccountAgeHours: whole hours since creation, rounded down (negative for a future timestamp). */
  function AccountAgeHours(now: int, createdTimestamp: int): (h: int)
    ensures h * HOUR_MS <= now - createdTimestamp < (h + 1) * HOUR_MS
  {
    (now - createdTimestamp) / HOUR_MS
  }

  /** Five ASCII digits in a row start at position i. */
  predicate DigitRunAt(s: string, i: int)
  {
    0 <= i && i + 5 <= |s| && AllDigits(s[i..i + 5])
  }

  /** `/\d{5,}/` */
  predicate HasLongDigitRun(s: string)
  {
    exists i | 0 <= i < |s| :: DigitRunAt(s, i)
  }

  const KEYWORDS: seq<string> := ["free", "nitro", "airdrop", "crypto", "support", "admin", "mod"]

  predicate OccursAt(s: string, k: string, i: int)
  {
    0 <= i && i + |k| <= |s| && s[i..i + |k|] == k
  }

  /** `/(free|nitro|airdrop|crypto|support|admin|mod)/i`, with ASCII case folding. */
  predicate HasKeyword(s: string)
  {
    var t := ToLower(s);
    exists k, i | k in KEYWORDS && 0 <= i <= |t| :: OccursAt(t, k, i)
  }

  function Flag(b: bool): int
  {
    if b then 1 else 0
  }

  /** The score the four rules add up to for a human account. */
  function RuleScore(a: Applicant, now: int, minHours: int): int
  {
    2 * Flag(AccountAgeHours(now, a.createdTimestamp) < minHours)
    + Flag(!Truthy(a.avatar)) + Flag(HasLongDigitRun(a.username)) + Flag(HasKeyword(a.username))
  }

  /** The reasons of the rules that fire, in rule order. */
  function RuleReasons(a: Applicant, now: int, minHours: int): seq<string>
  {
    var age := AccountAgeHours(now, a.createdTimestamp);
    (if age < minHours then [AgeReason(age, minHours)] else [])
    + (if !Truthy(a.avatar) then [NO_AVATAR_REASON] else [])
    + (if HasLongDigitRun(a.username) then [DIGITS_REASON] else [])
    + (if HasKeyword(a.username) then [KEYWORD_REASON] else [])
  }

  /** The assessment evaluateRisk arrives at. */
  function Assess(a: Applicant, now: int, minHours: int): Assessment
  {
    if a.bot then Assessment(100, true, [BOT_REASON])
    else
      var score := RuleScore(a, now, minHours);
      Assessment(score, score >= MANUAL_THRESHOLD, RuleReasons(a, now, minHours))
  }

  /**
   * evaluateRisk. A bot account short-circuits with score 100; otherwise each
   * rule that fires adds its weight and its reason.
   */
  method EvaluateRisk(a: Applicant, now: int, minHours: int) returns (r: Assessment)
    ensures a.bot ==> r == Assessment(100, true, [BOT_REASON])
    ensures !a.bot ==> r.score == RuleScore(a, now, minHours) && r.reasons == RuleReasons(a, now, minHours)
    ensures r.manualRequired <==> r.score >= MANUAL_THRESHOLD
    ensures r == Assess(a, now, minHours)
  {
    if a.bot {
      return Assessment(100, true, [BOT_REASON]);
    }
    var age := AccountAgeHours(now, a.createdTimestamp);
    var tooYoung, noAvatar := age < minHours, !Truthy(a.avatar);
    var digits, keyword := HasLongDigitRun(a.username), HasKeyword(a.username);
    var reasons: seq<string> := [];
    var score := 0;
    if tooYoung {
      score := score + 2;
      reasons := reasons + [AgeReason(age, minHours)];
    }
    if noAvatar {
      score := score + 1;
      reasons := reasons + [NO_AVATAR_REASON];
    }
    assert reasons == (if tooYoung then [AgeReason(age, minHours)] else []) + (if noAvatar then [NO_AVATAR_REASON] else []);
    if digits {
      score := score + 1;
      reasons := reasons + [DIGITS_REASON];
    }
    assert reasons == (if tooYoung then [AgeReason(age, minHours)] else []) + (if noAvatar then [NO_AVATAR_REASON] else [])
      + (if digits then [DIGITS_REASON] else []);
    if keyword {
      score := score + 1;
      reasons := reasons + [KEYWORD_REASON];
    }
    r := Assessment(score, score >= MANUAL_THRESHOLD, reasons);
  }

  /** A human account scores between 0 and 5, with one reason per point source. */
  lemma RuleScoreBounds(a: Applicant, now: int, minHours: int)
    ensures 0 <= RuleScore(a, now, minHours) <= 5
    ensures |RuleReasons(a, now, minHours)| <= 4
    ensures RuleScore(a, now, minHours) == 0 <==> RuleReasons(a, now, minHours) == []
  {
  }

  /** The age rule alone is not enough for manual review, and neither are the three one-point rules without it. */
  lemma ManualReviewNeedsTwoSources(a: Applicant, now: int, minHours: int)
    ensures RuleScore(a, now, minHours) >= MANUAL_THRESHOLD ==> |RuleReasons(a, now, minHours)| >= 2
    ensures AccountAgeHours(now, a.createdTimestamp) >= minHours ==>
      (RuleScore(a, now, minHours) >= MANUAL_THRESHOLD <==> |RuleReasons(a, now, minHours)| == 3)
  {
  }

  /** Examples of the two username patterns. */
  lemma PatternExamples()
    ensures HasLongDigitRun("user12345")
    ensures !HasLongDigitRun("a1234b")
    ensures HasKeyword("FreeNitro")
  {
    assert DigitRunAt("user12345", 4);
    assert OccursAt(ToLower("FreeNitro"), "free", 0);
    var s := "a1234b";
    forall i | 0 <= i < |s| ensures !DigitRunAt(s, i) {
      if 0 <= i && i + 5 <= |s| {
        assert !IsDigit(s[i..i + 5][if i == 0 then 0 else 4]);
      }
    }
  }
}
