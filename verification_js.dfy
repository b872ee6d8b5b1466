// The older JavaScript snapshot of the verification engine: a four-button
// quiz instead of the captcha, buttons only, no cooldown and no solve-time
// check. The config check, risk score, failed attempts, review queue, role
// guards and reviewer decisions are the same as the current snapshot's and
// are taken from the Verification module.

module VerificationJs {
  import opened Common
  import opened Store
  import Risk
  import Challenge
  import opened Sessions
  import opened Verification

  // -------------------------------------------------------------- routing

  /** The button dispatch on the split custom id. */
  function ButtonRouteJs(parts: seq<string>): Route
    requires |parts| >= 1
  {
    var action := Part(parts, 1);
    if parts[0] != "verify" then Unhandled
    else if action == Some("start") then StartRoute
    else if action == Some("ans") then QuizAnswerRoute(Part(parts, 2), Part(parts, 3))
    else if action == Some("review") then ReviewRoute(Part(parts, 2), Part(parts, 3))
    else Unhandled
  }

  /** handleVerificationInteraction of the older snapshot: only buttons, and every button prunes first. */
  function RouteOfJs(k: InteractionKind): (r: Routing)
    ensures r.prunes <==> k.ButtonPress?
    ensures !k.ButtonPress? ==> r.route == Unhandled
    ensures r.route == Unhandled || r.route == StartRoute || r.route.QuizAnswerRoute? || r.route.ReviewRoute?
  {
    match k
    case ButtonPress(id) => Routing(ButtonRouteJs(Split(id, ':')), true)
    case _ => Routing(Unhandled, false)
  }

  method HandleInteractionJs(store: SessionStore, k: InteractionKind, now: int) returns (r: Route)
    modifies store
    ensures r == RouteOfJs(k).route
    ensures store.sessions == if k.ButtonPress? then Unexpired(old(store.sessions), now) else old(store.sessions)
  {
    var routing := RouteOfJs(k);
    if routing.prunes {
      store.Prune(now);
    }
    r := routing.route;
  }

  // ------------------------------------------------------------- parseInt

  /** The longest prefix of decimal digits. */
  function DigitPrefix(s: string): (d: string)
    ensures |d| <= |s| && d == s[..|d|] && AllDigits(d)
    ensures |d| == |s| || !IsDigit(s[|d|])
  {
    if s != [] && IsDigit(s[0]) then [s[0]] + DigitPrefix(s[1..]) else []
  }

  /** The digits after an optional sign, negated for '-'; no digits is NaN (None). */
  function ParseSigned(t: string): Option<int>
  {
    var signed := t != [] && (t[0] == '-' || t[0] == '+');
    var d := DigitPrefix(if signed then t[1..] else t);
    if d == [] then None
    else
      var v: int := DigitsValue(d);
      Some(if signed && t[0] == '-' then -v else v)
  }

  /**
   * Number.parseInt(s, 10): leading whitespace skipped, an optional sign, then
   * the longest run of digits.
   */
  function ParseInt(s: string): Option<int>
  {
    ParseSigned(TrimStart(s))
  }

  lemma {:induction false} DigitPrefixOfDigits(s: string)
    requires AllDigits(s)
    ensures DigitPrefix(s) == s
    decreases |s|
  {
    if s != [] {
      DigitPrefixOfDigits(s[1..]);
    }
  }

  lemma TrimStartNonSpace(s: string)
    requires s != [] && !IsJsSpace(s[0])
    ensures TrimStart(s) == s
  {
  }

  /** A string of digits parses to its value. */
  lemma ParseSignedOfDigits(s: string)
    requires s != [] && AllDigits(s)
    ensures ParseSigned(s) == Some(DigitsValue(s))
  {
    assert IsDigit(s[0]);
    DigitPrefixOfDigits(s);
  }

  lemma ParseIntOfDigits(s: string)
    requires s != [] && AllDigits(s)
    ensures ParseInt(s) == Some(DigitsValue(s))
  {
    assert IsDigit(s[0]);
    DigitNotSpace(s[0]);
    TrimStartNonSpace(s);
    ParseSignedOfDigits(s);
  }

  /** A printed button index parses back to the same index. */
  lemma ParseIntOfIndex(i: nat)
    ensures ParseInt(NatToString(i)) == Some(i)
  {
    ParseIntOfDigits(NatToString(i));
    DigitsValueOfNatToString(i);
  }

  /** parseInt reads a leading number and ignores what follows it, and reads nothing from a word. */
  lemma ParseIntLenient()
    ensures ParseInt("2x") == Some(2)
    ensures ParseInt("x2") == None
  {
    assert "2x"[0] == '2' && "2x"[1..] == "x";
    TrimStartNonSpace("2x");
    TrimStartNonSpace("x2");
    assert DigitPrefix("2x") == "2";
    assert DigitsValue("2") == 2;
  }

  // ----------------------------------------------------------------- quiz

  /** What createChallenge returns and shows: the question, one button per shuffled option, and the answer position. */
  datatype Quiz = Quiz(question: string, captions: seq<string>, buttonIds: seq<string>, answerIndex: int)

  function QuizButtonId(sid: string, i: nat): string
  {
    "verify:ans:" + sid + ":" + NatToString(i)
  }

  /** The session a quiz stores: the answer position, no creation time, five minutes to live. */
  function QuizSession(g: GuildId, u: UserId, answerIndex: int, now: int): (s: Session)
    ensures s.expiresAt == now + CHALLENGE_TTL_MS && s.createdAt.None?
  {
    Session(g, u, Index(answerIndex), NoPhase, None, now + CHALLENGE_TTL_MS)
  }

  lemma TemplatesWellFormed(k: nat)
    requires k < |Challenge.TEMPLATES|
    ensures |Challenge.TEMPLATES[k].options| == 4 && Challenge.TEMPLATES[k].answer == 0
  {
  }

  /**
   * createChallenge: pick a template, shuffle its labelled options, find where
   * the correct one landed, and store a session under the drawn id.
   */
  method CreateQuiz(store: SessionStore, g: GuildId, u: UserId, now: int, sid: string,
                    templateDraw: nat, shuffleDraws: seq<nat>)
    returns (quiz: Quiz)
    requires templateDraw < |Challenge.TEMPLATES|
    requires |shuffleDraws| == 4 && forall i :: 0 < i < 4 ==> shuffleDraws[i] <= i
    modifies store
    ensures quiz.question == Challenge.TEMPLATES[templateDraw].question
    ensures |quiz.captions| == 4 && |quiz.buttonIds| == 4
    ensures 0 <= quiz.answerIndex < 4
    ensures quiz.captions[quiz.answerIndex] == Challenge.TEMPLATES[templateDraw].options[0]
    ensures forall i :: 0 <= i < 4 ==> quiz.captions[i] in Challenge.TEMPLATES[templateDraw].options
    ensures multiset(quiz.captions) == multiset(Challenge.TEMPLATES[templateDraw].options)
    ensures forall i :: 0 <= i < 4 ==> quiz.buttonIds[i] == QuizButtonId(sid, i)
    ensures store.sessions == old(store.sessions)[sid := QuizSession(g, u, quiz.answerIndex, now)]
  {
    var t := Challenge.TEMPLATES[templateDraw];
    TemplatesWellFormed(templateDraw);
    var labelled := Challenge.Label(t.options);
    var options := Challenge.Shuffle(labelled, shuffleDraws);
    var answerIndex := Challenge.FindIndex(options, t.answer);
    Challenge.AnswerIndexFindsCorrectLabel(t, options);
    store.Put(sid, QuizSession(g, u, answerIndex, now));
    var captions := Challenge.Captions(options);
    Challenge.PermutedCaptions(options, labelled);
    assert Challenge.Captions(labelled) == t.options;
    forall i | 0 <= i < 4 ensures captions[i] in t.options {
      assert captions[i] in multiset(captions);
    }
    var ids := seq(4, i requires 0 <= i < 4 => QuizButtonId(sid, i));
    quiz := Quiz(t.question, captions, ids, answerIndex);
  }

  /**
   * handleVerificationStart of the older snapshot: the same guard chain
   * without the cooldown, and a quiz instead of a captcha.
   */
  method StartJs(db: Database, store: SessionStore, inGuild: bool, g: GuildId, u: UserId, channelId: string,
                 member: Option<MemberView>, now: int, env: QueueEnv, botId: UserId,
                 sid: string, templateDraw: nat, shuffleDraws: seq<nat>)
    returns (d: StartDecision, q: Option<QueueResult>, quiz: Option<Quiz>)
    requires db.Valid()
    requires templateDraw < |Challenge.TEMPLATES|
    requires |shuffleDraws| == 4 && forall i :: 0 < i < 4 ==> shuffleDraws[i] <= i
    modifies db`states, db`actions, store
    ensures db.Valid()
    ensures d == StartDecisionOf(inGuild, old(db.GetGuildConfig(g)), channelId, member,
                                 old(db.GetVerificationState(g, u)), now, false)
    ensures !d.CoolingDown?
    ensures d == AlreadyVerified ==>
      db.states == old(db.states)[Key(g, u) := Merge(old(db.GetVerificationState(g, u)), ALREADY_VERIFIED_PATCH)]
      && db.actions == old(db.actions) && store.sessions == old(store.sessions)
    ensures d.IssueChallenge? ==>
      db.states == old(db.states)[Key(g, u) := Merge(old(db.GetVerificationState(g, u)), ChallengePatch(d.risk, now))]
      && db.actions == old(db.actions)
      && quiz.Some? && |quiz.value.captions| == 4 && 0 <= quiz.value.answerIndex < 4
      && quiz.value.captions[quiz.value.answerIndex] == Challenge.TEMPLATES[templateDraw].options[0]
      && store.sessions == old(store.sessions)[sid := QuizSession(g, u, quiz.value.answerIndex, now)]
    ensures (d.QueueForRisk? || d.QueueAtLimit?) ==>
      q.Some? && q.value == QueueDecision(old(db.GetGuildConfig(g)), old(db.GetVerificationState(g, u)), env)
      && store.sessions == old(store.sessions)
      && var e := QueueEffect(old(db.GetVerificationState(g, u)), q.value, u, botId, QueueReasons(d), d.risk.score);
         db.states == Written(old(db.states), Key(g, u), e.write) && db.actions == Logged(old(db.actions), g, e.log)
    ensures !(d == AlreadyVerified || d.IssueChallenge? || d.QueueForRisk? || d.QueueAtLimit?) ==>
      db.states == old(db.states) && db.actions == old(db.actions) && store.sessions == old(store.sessions)
  {
    var c := db.GetGuildConfig(g);
    var s := db.GetVerificationState(g, u);
    d := StartDecisionOf(inGuild, c, channelId, member, s, now, false);
    q, quiz := None, None;
    match d {
      case AlreadyVerified =>
        db.UpsertVerificationState(g, u, ALREADY_VERIFIED_PATCH);
      case QueueForRisk(risk) =>
        var r := QueueManualReview(db, c, g, u, botId, risk.reasons, risk.score, env);
        q := Some(r);
      case QueueAtLimit(risk) =>
        var r := QueueManualReview(db, c, g, u, botId, [MAX_ATTEMPTS_QUEUE_REASON], risk.score, env);
        q := Some(r);
      case IssueChallenge(risk) =>
        var qz := CreateQuiz(store, g, u, now, sid, templateDraw, shuffleDraws);
        db.UpsertVerificationState(g, u, ChallengePatch(risk, now));
        quiz := Some(qz);
      case _ =>
    }
  }

  // --------------------------------------------------------------- answer

  /** The quiz checks: past the expiry, then the parsed button index against the stored one. */
  function JudgeQuiz(s: Session, now: int, value: Option<string>): Verdict
  {
    var n := if value.Some? then ParseInt(value.value) else None;
    if TimedOut(s, now) then Expired
    else if !(n.Some? && s.expected.Index? && n.value == s.expected.answerIndex) then Wrong
    else Passed
  }

  /** A quiz button routes to the quiz judge with its session id and its printed position. */
  lemma QuizButtonRoutes(sid: string, i: nat)
    requires ':' !in sid
    ensures RouteOfJs(ButtonPress(QuizButtonId(sid, i))).route == QuizAnswerRoute(Some(sid), Some(NatToString(i)))
  {
    var num := NatToString(i);
    assert ':' !in num by {
      assert AllDigits(num);
    }
    assert QuizButtonId(sid, i) == "verify" + [':'] + ("ans" + [':'] + (sid + [':'] + num));
    FourPartSplit("verify", "ans", sid, num);
  }

  /** In time, the button of the stored position passes and the button of any other position fails. */
  lemma QuizButtonJudged(s: Session, now: int, i: nat, j: nat)
    requires s.expected == Index(i) && now <= s.expiresAt
    ensures JudgeQuiz(s, now, Some(NatToString(i))) == Passed
    ensures j != i ==> JudgeQuiz(s, now, Some(NatToString(j))) == Wrong
  {
    ParseIntOfIndex(i);
    ParseIntOfIndex(j);
  }

  /** handleChallengeAnswer of the older snapshot. */
  method AnswerJs(db: Database, store: SessionStore, sid: Option<string>, guildId: Option<string>, u: UserId,
                  value: Option<string>, now: int, member: Option<MemberView>, gv: GuildView,
                  roleCallsSucceed: bool, env: QueueEnv, botId: UserId)
    returns (o: AnswerOutcome)
    requires db.Valid()
    modifies db`states, db`actions, store
    ensures db.Valid()
    ensures var claim := ClaimOf(old(store.sessions), sid, guildId, u);
      !claim.Claimed? ==> o == Unclaimed(claim) && store.sessions == old(store.sessions)
                          && db.states == old(db.states) && db.actions == old(db.actions)
    ensures var claim := ClaimOf(old(store.sessions), sid, guildId, u);
      claim.Claimed? ==>
        var g := claim.session.guildId;
        var v := JudgeQuiz(claim.session, now, value);
        store.sessions == old(store.sessions) - {sid.value}
        && (v != Passed ==>
          var st := FailedAttemptStep(old(db.GetGuildConfig(g)), old(db.GetVerificationState(g, u)), u, botId,
                                      FailureDetail(v, false), member.Some?, env);
          o == AttemptFailed(v, st.0)
          && db.states == Written(old(db.states), Key(g, u), st.1.write) && db.actions == Logged(old(db.actions), g, st.1.log))
        && (v == Passed && member.None? ==>
          o == MemberUnavailable && db.states == old(db.states) && db.actions == old(db.actions))
        && (v == Passed && member.Some? ==>
          var c := old(db.GetGuildConfig(g));
          var st := AutoVerifyStep(c, old(db.GetVerificationState(g, u)), u, botId,
                                   ApplyRoles(c, member.value.highest, gv, roleCallsSucceed), env);
          o == st.0 && db.states == Written(old(db.states), Key(g, u), st.1.write)
          && db.actions == Logged(old(db.actions), g, st.1.log))
  {
    var claim := store.Take(sid, guildId, u);
    if !claim.Claimed? {
      return Unclaimed(claim);
    }
    var g := claim.session.guildId;
    var v := JudgeQuiz(claim.session, now, value);
    if v != Passed {
      var f := RegisterFailedAttempt(db, g, u, botId, FailureDetail(v, false), member.Some?, env);
      return AttemptFailed(v, f);
    }
    var c := db.GetGuildConfig(g);
    if member.None? {
      return MemberUnavailable;
    }
    o := AutoVerify(db, c, g, u, botId, ApplyRoles(c, member.value.highest, gv, roleCallsSucceed), env);
  }
}
