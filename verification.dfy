// The verification engine: the start guard chain, answer judging, failed
// attempts, the manual-review queue, reviewer decisions and custom-id routing.
// Every Discord call is an input (what a fetch returned, whether a call
// succeeded); the store and the session map are the state that changes.

module Verification {
  import opened Common
  import opened Store
  import Risk
  import Challenge
  import opened Sessions

  const VERIFY_QUEUE := "VERIFY_QUEUE"
  const VERIFY_APPROVE := "VERIFY_APPROVE"
  const VERIFY_REJECT := "VERIFY_REJECT"
  const VERIFY_RECHECK := "VERIFY_RECHECK"

  // ------------------------------------------------------- config check

  const DISABLED_ERROR := "Verification is currently disabled by admins."
  const NO_VERIFY_CHANNEL_ERROR := "Verify channel is not configured."
  const NO_REVIEW_CHANNEL_ERROR := "Review channel is not configured."
  const NO_ROLES_ERROR := "Verified and unverified roles are not configured."

  /** validateVerificationConfig: the first missing piece, in a fixed order, or nothing. */
  function ValidateConfig(c: GuildConfig): (err: Option<string>)
    ensures err.None? <==> c.verificationEnabled != 0 && Truthy(c.verifyChannelId) && Truthy(c.reviewChannelId)
                           && Truthy(c.verifiedRoleId) && Truthy(c.unverifiedRoleId)
    ensures c.verificationEnabled == 0 ==> err == Some(DISABLED_ERROR)
  {
    if c.verificationEnabled == 0 then Some(DISABLED_ERROR)
    else if !Truthy(c.verifyChannelId) then Some(NO_VERIFY_CHANNEL_ERROR)
    else if !Truthy(c.reviewChannelId) then Some(NO_REVIEW_CHANNEL_ERROR)
    else if !Truthy(c.verifiedRoleId) || !Truthy(c.unverifiedRoleId) then Some(NO_ROLES_ERROR)
    else None
  }

  /** A guild that never configured anything cannot start verification. */
  lemma DefaultConfigRefused(g: GuildId)
    ensures ValidateConfig(DefaultConfig(g)) == Some(DISABLED_ERROR)
  {
  }

  // --------------------------------------------------------- role guards

  /** What a fetch of a guild member yields. */
  datatype MemberView = MemberView(id: UserId, roles: set<string>, highest: int, joinedAt: Option<int>,
                                   account: Risk.Applicant)

  /** The bot's own member in the guild: Manage Roles permission and highest role position. */
  datatype BotMember = BotMember(manageRoles: bool, highest: int)

  /** The bot's member (if resolvable) and the positions of the roles that can be fetched. */
  datatype GuildView = GuildView(bot: Option<BotMember>, rolePositions: map<string, int>)

  const ROLES_NOT_CONFIGURED := "Verification roles are not fully configured."
  const BOT_NO_MANAGE_ROLES := "Bot is missing Manage Roles permission."
  const BOT_BELOW_MEMBER := "Bot role is not high enough to manage this member."
  const ROLES_NOT_FOUND := "Configured verification roles were not found."
  const ROLES_ABOVE_BOT := "Bot role must be higher than verified and unverified roles."

  /** The refusal applyVerifiedRoles and applyUnverifiedRoles share, checked in this order. */
  function RoleGuard(c: GuildConfig, memberHighest: int, gv: GuildView): Option<string>
  {
    if !Truthy(c.verifiedRoleId) || !Truthy(c.unverifiedRoleId) then Some(ROLES_NOT_CONFIGURED)
    else if gv.bot.None? || !gv.bot.value.manageRoles then Some(BOT_NO_MANAGE_ROLES)
    else if memberHighest >= gv.bot.value.highest then Some(BOT_BELOW_MEMBER)
    else if c.verifiedRoleId.value !in gv.rolePositions || c.unverifiedRoleId.value !in gv.rolePositions then Some(ROLES_NOT_FOUND)
    else if gv.rolePositions[c.verifiedRoleId.value] >= gv.bot.value.highest
         || gv.rolePositions[c.unverifiedRoleId.value] >= gv.bot.value.highest then Some(ROLES_ABOVE_BOT)
    else None
  }

  /** The guard passes exactly when both roles are configured and found, and the bot outranks them and the member. */
  lemma RoleGuardPasses(c: GuildConfig, memberHighest: int, gv: GuildView)
    ensures RoleGuard(c, memberHighest, gv).None? <==>
      Truthy(c.verifiedRoleId) && Truthy(c.unverifiedRoleId)
      && gv.bot.Some? && gv.bot.value.manageRoles
      && memberHighest < gv.bot.value.highest
      && c.verifiedRoleId.value in gv.rolePositions && c.unverifiedRoleId.value in gv.rolePositions
      && gv.rolePositions[c.verifiedRoleId.value] < gv.bot.value.highest
      && gv.rolePositions[c.unverifiedRoleId.value] < gv.bot.value.highest
  {
  }

  /** The result of applyVerifiedRoles / applyUnverifiedRoles; a failing role add or remove throws. */
  datatype RoleOutcome = RoleApplied | RoleRefused(error: string) | RoleThrew

  function ApplyRoles(c: GuildConfig, memberHighest: int, gv: GuildView, roleCallsSucceed: bool): (r: RoleOutcome)
    ensures r.RoleRefused? <==> RoleGuard(c, memberHighest, gv).Some?
    ensures r == RoleApplied <==> RoleGuard(c, memberHighest, gv).None? && roleCallsSucceed
  {
    var guard := RoleGuard(c, memberHighest, gv);
    if guard.Some? then RoleRefused(guard.value)
    else if !roleCallsSucceed then RoleThrew
    else RoleApplied
  }

  // ------------------------------------------------ effects on the store

  /** One action-log row a handler writes (the duration column is always null here). */
  datatype LogEntry = LogEntry(actionType: string, user: UserId, moderator: UserId, reason: string, meta: Meta)

  /** A handler's writes for the acting member's key: the record left behind (if any) and the log row (if any). */
  datatype Effect = Effect(write: Option<Record>, log: Option<LogEntry>)

  const NO_EFFECT := Effect(None, None)

  function Written(states: map<Key, Record>, k: Key, w: Option<Record>): map<Key, Record>
  {
    if w.Some? then states[k := w.value] else states
  }

  function Logged(actions: seq<ModAction>, g: GuildId, e: Option<LogEntry>): seq<ModAction>
  {
    if e.None? then actions
    else actions + [ActionRow(|actions| + 1, g, e.value.actionType, e.value.user, e.value.moderator,
                              Some(e.value.reason), None, Some(e.value.meta))]
  }

  /** `reasons.join(' | ') || null` */
  function JoinedOrNull(reasons: seq<string>): Option<string>
  {
    var joined := Join(reasons, " | ");
    if joined == "" then None else Some(joined)
  }

  function StoredAttempts(s: Option<Record>): int
  {
    if s.Some? then s.value.attempts else 0
  }

  function StoredRisk(s: Option<Record>): int
  {
    if s.Some? then s.value.riskScore else 0
  }

  // ------------------------------------------------------- review queue

  /**
   * What queueManualReview finds: whether the review channel resolved to a
   * text channel, whether the stored review message still exists, and the id
   * of the posted message (none when posting throws).
   */
  datatype QueueEnv = QueueEnv(channelOk: bool, existingFound: bool, posted: Option<string>)

  datatype QueueResult = QueueFailed(error: string) | AlreadyQueued | Queued(messageId: string) | QueueThrew

  const NO_REVIEW_CHANNEL_QUEUE := "Review channel is not configured by admins."
  const REVIEW_CHANNEL_MISSING := "Review channel is missing or inaccessible."
  const QUEUE_LOG_REASON := "Moved to manual verification queue"
  const DEFAULT_MANUAL_REASON := "Manual review required"

  function QueueDecision(c: GuildConfig, s: Option<Record>, env: QueueEnv): QueueResult
  {
    if !Truthy(c.reviewChannelId) then QueueFailed(NO_REVIEW_CHANNEL_QUEUE)
    else if !env.channelOk then QueueFailed(REVIEW_CHANNEL_MISSING)
    else if s.Some? && Truthy(s.value.reviewMessageId) && env.existingFound then AlreadyQueued
    else if env.posted.None? then QueueThrew
    else Queued(env.posted.value)
  }

  /** The row written once the review message is posted. */
  function ReviewPatch(reasons: seq<string>, riskScore: int, messageId: string): StatePatch
  {
    NO_STATE_CHANGE.(
      status := Set(MANUAL_REVIEW),
      riskScore := Set(riskScore),
      riskReasons := Set(JoinedOrNull(reasons)),
      manualRequired := Set(1),
      reviewMessageId := Set(Some(messageId)),
      manualReason := Set(Some(Coalesce(JoinedOrNull(reasons), DEFAULT_MANUAL_REASON))),
      lastChallengeAt := Set(None))
  }

  function QueueEffect(s: Option<Record>, q: QueueResult, u: UserId, botId: UserId,
                       reasons: seq<string>, riskScore: int): Effect
  {
    if q.Queued? then
      Effect(Some(Merge(s, ReviewPatch(reasons, riskScore, q.messageId))),
             Some(LogEntry(VERIFY_QUEUE, u, botId, QUEUE_LOG_REASON, ReasonsMeta(reasons))))
    else NO_EFFECT
  }

  /**
   * Only a posted review message changes the store: the record moves to
   * MANUAL_REVIEW with manual_required 1, the new message id and the challenge
   * time cleared, keeping the attempt count; every other outcome writes nothing.
   */
  lemma QueueWrites(c: GuildConfig, s: Option<Record>, env: QueueEnv, u: UserId, botId: UserId,
                    reasons: seq<string>, riskScore: int)
    ensures var q := QueueDecision(c, s, env);
      var e := QueueEffect(s, q, u, botId, reasons, riskScore);
      (e.write.Some? <==> q.Queued?)
      && (q.Queued? ==> e.write.value.status == MANUAL_REVIEW && e.write.value.manualRequired == 1
                        && e.write.value.reviewMessageId == env.posted && e.write.value.lastChallengeAt == None
                        && e.write.value.attempts == StoredAttempts(s) && e.write.value.riskScore == riskScore
                        && e.log.Some?)
      && (q == AlreadyQueued ==> s.Some? && Truthy(s.value.reviewMessageId))
      && (!Truthy(c.reviewChannelId) ==> e == NO_EFFECT)
  {
  }

  /** queueManualReview */
  method QueueManualReview(db: Database, c: GuildConfig, g: GuildId, u: UserId, botId: UserId,
                           reasons: seq<string>, riskScore: int, env: QueueEnv)
    returns (q: QueueResult)
    requires db.Valid()
    modifies db`states, db`actions
    ensures db.Valid()
    ensures q == QueueDecision(c, old(db.GetVerificationState(g, u)), env)
    ensures var e := QueueEffect(old(db.GetVerificationState(g, u)), q, u, botId, reasons, riskScore);
      db.states == Written(old(db.states), Key(g, u), e.write) && db.actions == Logged(old(db.actions), g, e.log)
  {
    var s := db.GetVerificationState(g, u);
    q := QueueDecision(c, s, env);
    if q.Queued? {
      db.UpsertVerificationState(g, u, ReviewPatch(reasons, riskScore, q.messageId));
      var _ := db.LogAction(g, VERIFY_QUEUE, u, botId, Some(QUEUE_LOG_REASON), None, Some(ReasonsMeta(reasons)));
    }
  }

  // ----------------------------------------------------- failed attempts

  /** queueError is `queued.error || null`; a thrown post propagates. */
  datatype FailureOutcome = Failure(manualReview: bool, queueError: Option<string>) | FailureThrew

  const NO_MEMBER_FOR_REVIEW := "Unable to resolve member for manual review."

  function MaxAttemptsReason(max: int): string
  {
    "Reached max attempts (" + IntToString(max) + ")."
  }

  function FailedPatch(attempts: int): StatePatch
  {
    NO_STATE_CHANGE.(status := Set(PENDING), attempts := Set(attempts), manualRequired := Set(0),
                     reviewMessageId := Set(None), manualReason := Set(None))
  }

  function AttemptsPatch(attempts: int): StatePatch
  {
    NO_STATE_CHANGE.(attempts := Set(attempts))
  }

  function FailureOf(q: QueueResult): FailureOutcome
  {
    match q
    case QueueFailed(e) => Failure(true, Some(e))
    case AlreadyQueued => Failure(true, None)
    case Queued(_) => Failure(true, None)
    case QueueThrew => FailureThrew
  }

  /** registerFailedAttempt, as a function of the stored row and what the platform returns. */
  function FailedAttemptStep(c: GuildConfig, s: Option<Record>, u: UserId, botId: UserId, detail: string,
                             memberFound: bool, env: QueueEnv): (FailureOutcome, Effect)
  {
    var attempts := StoredAttempts(s) + 1;
    if attempts >= c.maxAttempts then
      if memberFound then
        var s1 := Merge(s, AttemptsPatch(attempts));
        var q := QueueDecision(c, Some(s1), env);
        var e := QueueEffect(Some(s1), q, u, botId, [detail, MaxAttemptsReason(c.maxAttempts)], StoredRisk(s));
        (FailureOf(q), Effect(Some(if e.write.Some? then e.write.value else s1), e.log))
      else (Failure(true, Some(NO_MEMBER_FOR_REVIEW)), NO_EFFECT)
    else (Failure(false, None), Effect(Some(Merge(s, FailedPatch(attempts))), None))
  }

  /**
   * Below the limit the row returns to PENDING with one more attempt and the
   * review fields cleared; at the limit the new count is written and a review
   * queued, unless the member cannot be resolved, in which case nothing is
   * written at all.
   */
  lemma FailedAttemptCases(c: GuildConfig, s: Option<Record>, u: UserId, botId: UserId, detail: string,
                           memberFound: bool, env: QueueEnv)
    ensures var (f, e) := FailedAttemptStep(c, s, u, botId, detail, memberFound, env);
      (StoredAttempts(s) + 1 < c.maxAttempts ==>
         f == Failure(false, None) && e.log.None? && e.write.Some?
         && e.write.value.status == PENDING && e.write.value.attempts == StoredAttempts(s) + 1
         && e.write.value.manualRequired == 0 && e.write.value.reviewMessageId.None? && e.write.value.manualReason.None?)
      && (StoredAttempts(s) + 1 >= c.maxAttempts && !memberFound ==>
         f == Failure(true, Some(NO_MEMBER_FOR_REVIEW)) && e == NO_EFFECT)
      && (StoredAttempts(s) + 1 >= c.maxAttempts && memberFound ==>
         f != Failure(false, None) && e.write.Some? && e.write.value.attempts == StoredAttempts(s) + 1)
  {
  }

  /** registerFailedAttempt */
  method RegisterFailedAttempt(db: Database, g: GuildId, u: UserId, botId: UserId, detail: string,
                               memberFound: bool, env: QueueEnv)
    returns (f: FailureOutcome)
    requires db.Valid()
    modifies db`states, db`actions
    ensures db.Valid()
    ensures var st := FailedAttemptStep(old(db.GetGuildConfig(g)), old(db.GetVerificationState(g, u)), u, botId,
                                        detail, memberFound, env);
      f == st.0 && db.states == Written(old(db.states), Key(g, u), st.1.write)
      && db.actions == Logged(old(db.actions), g, st.1.log)
  {
    var c := db.GetGuildConfig(g);
    var s := db.GetVerificationState(g, u);
    var attempts := StoredAttempts(s) + 1;
    if attempts >= c.maxAttempts {
      if memberFound {
        db.UpsertVerificationState(g, u, AttemptsPatch(attempts));
        var q := QueueManualReview(db, c, g, u, botId, [detail, MaxAttemptsReason(c.maxAttempts)], StoredRisk(s), env);
        f := FailureOf(q);
      } else {
        f := Failure(true, Some(NO_MEMBER_FOR_REVIEW));
      }
    } else {
      db.UpsertVerificationState(g, u, FailedPatch(attempts));
      f := Failure(false, None);
    }
  }

  // ---------------------------------------------------------------- start

  const COOLDOWN_MS := 30000
  const MAX_ATTEMPTS_QUEUE_REASON := "Maximum automated verification attempts reached."

  /** `Math.ceil((30000 - elapsed) / 1000)` for a positive numerator. */
  function CooldownRemaining(elapsed: int): (r: int)
    requires elapsed < COOLDOWN_MS
    ensures (r - 1) * 1000 < COOLDOWN_MS - elapsed <= r * 1000
    ensures 0 <= elapsed ==> 1 <= r <= 30
  {
    (COOLDOWN_MS - elapsed + 999) / 1000
  }

  datatype StartDecision =
    | NotInGuild
    | ConfigInvalid(error: string)
    | WrongChannel
    | NoMember
    | AlreadyVerified
    | InReview
    | CoolingDown(remaining: int)
    | QueueForRisk(risk: Risk.Assessment)
    | QueueAtLimit(risk: Risk.Assessment)
    | IssueChallenge(risk: Risk.Assessment)

  /**
   * The guard chain of handleVerificationStart. `withCooldown` is true for the
   * current snapshot; the older one has no cooldown step.
   */
  function StartDecisionOf(inGuild: bool, c: GuildConfig, channelId: string, member: Option<MemberView>,
                           s: Option<Record>, now: int, withCooldown: bool): StartDecision
  {
    if !inGuild then NotInGuild
    else if ValidateConfig(c).Some? then ConfigInvalid(ValidateConfig(c).value)
    else if channelId != c.verifyChannelId.value then WrongChannel
    else if member.None? then NoMember
    else if c.verifiedRoleId.value in member.value.roles then AlreadyVerified
    else if s.Some? && s.value.status == MANUAL_REVIEW then InReview
    else if withCooldown && s.Some? && s.value.lastChallengeAt.Some?
            && now - s.value.lastChallengeAt.value < COOLDOWN_MS then
      CoolingDown(CooldownRemaining(now - s.value.lastChallengeAt.value))
    else
      var risk := Risk.Assess(member.value.account, now, c.minAccountAgeHours);
      if risk.manualRequired then QueueForRisk(risk)
      else if StoredAttempts(s) >= c.maxAttempts then QueueAtLimit(risk)
      else IssueChallenge(risk)
  }

  /**
   * A challenge is issued only when every earlier guard passed: a valid config,
   * the verify channel, a resolvable member without the verified role, no
   * pending review, no cooldown (current snapshot), a low risk score and
   * attempts left.
   */
  lemma IssueChallengeOnlyWhenClear(inGuild: bool, c: GuildConfig, channelId: string, member: Option<MemberView>,
                                    s: Option<Record>, now: int, withCooldown: bool)
    requires StartDecisionOf(inGuild, c, channelId, member, s, now, withCooldown).IssueChallenge?
    ensures inGuild && ValidateConfig(c).None? && Some(channelId) == c.verifyChannelId && member.Some?
    ensures c.verifiedRoleId.value !in member.value.roles
    ensures s.Some? ==> s.value.status != MANUAL_REVIEW
    ensures withCooldown && s.Some? && s.value.lastChallengeAt.Some? ==> now - s.value.lastChallengeAt.value >= COOLDOWN_MS
    ensures var risk := Risk.Assess(member.value.account, now, c.minAccountAgeHours);
      !risk.manualRequired && risk.score < Risk.MANUAL_THRESHOLD && StoredAttempts(s) < c.maxAttempts
  {
  }

  /** A member with a pending review is never queued twice or challenged by starting again. */
  lemma InReviewRefusedUnlessVerified(inGuild: bool, c: GuildConfig, channelId: string, m: MemberView,
                                      s: Record, now: int, withCooldown: bool)
    requires inGuild && ValidateConfig(c).None?
    requires Some(channelId) == c.verifyChannelId
    requires s.status == MANUAL_REVIEW
    ensures var d := StartDecisionOf(inGuild, c, channelId, Some(m), Some(s), now, withCooldown);
      d == (if c.verifiedRoleId.value in m.roles then AlreadyVerified else InReview)
  {
  }

  /** "Already verified": back to VERIFIED with no attempts, review fields cleared, challenge time kept. */
  const ALREADY_VERIFIED_PATCH := NO_STATE_CHANGE.(
    status := Set(VERIFIED), attempts := Set(0), manualRequired := Set(0),
    reviewMessageId := Set(None), manualReason := Set(None))

  /** A new challenge: status CHALLENGE, risk recorded, challenge time stamped, attempts untouched. */
  function ChallengePatch(risk: Risk.Assessment, now: int): StatePatch
  {
    NO_STATE_CHANGE.(status := Set(CHALLENGE), manualRequired := Set(0), riskScore := Set(risk.score),
                     riskReasons := Set(JoinedOrNull(risk.reasons)), lastChallengeAt := Set(Some(now)))
  }

  /** The reasons and score a queueing start decision passes to queueManualReview. */
  function QueueReasons(d: StartDecision): seq<string>
    requires d.QueueForRisk? || d.QueueAtLimit?
  {
    if d.QueueForRisk? then d.risk.reasons else [MAX_ATTEMPTS_QUEUE_REASON]
  }

  /** The session createChallenge stores: captcha phase, created now, five minutes to live. */
  function CaptchaSession(g: GuildId, u: UserId, answer: string, now: int): (s: Session)
    ensures s.expiresAt == now + CHALLENGE_TTL_MS && s.createdAt == Some(now)
  {
    Session(g, u, Text(answer), NoPhase, Some(now), now + CHALLENGE_TTL_MS)
  }

  /**
   * handleVerificationStart of the current snapshot. The captcha draws and the
   * session id are the random values createChallenge would draw.
   */
  method Start(db: Database, store: SessionStore, inGuild: bool, g: GuildId, u: UserId, channelId: string,
               member: Option<MemberView>, now: int, env: QueueEnv, botId: UserId,
               sid: string, lengthDraw: int, charDraws: seq<int>)
    returns (d: StartDecision, q: Option<QueueResult>, captcha: Option<Challenge.Captcha>)
    requires db.Valid()
    requires Challenge.CAPTCHA_LENGTH_MIN <= lengthDraw < Challenge.CAPTCHA_LENGTH_MAX && |charDraws| == lengthDraw
    requires forall i :: 0 <= i < |charDraws| ==> 0 <= charDraws[i] < |Challenge.CAPTCHA_CHARS|
    modifies db`states, db`actions, store
    ensures db.Valid()
    ensures d == StartDecisionOf(inGuild, old(db.GetGuildConfig(g)), channelId, member,
                                 old(db.GetVerificationState(g, u)), now, true)
    ensures d == AlreadyVerified ==>
      db.states == old(db.states)[Key(g, u) := Merge(old(db.GetVerificationState(g, u)), ALREADY_VERIFIED_PATCH)]
      && db.actions == old(db.actions) && store.sessions == old(store.sessions)
    ensures d.IssueChallenge? ==>
      db.states == old(db.states)[Key(g, u) := Merge(old(db.GetVerificationState(g, u)), ChallengePatch(d.risk, now))]
      && db.actions == old(db.actions)
      && captcha.Some? && (|captcha.value.text| == 5 || |captcha.value.text| == 6)
      && captcha.value.answer == captcha.value.text
      && store.sessions == old(store.sessions)[sid := CaptchaSession(g, u, captcha.value.answer, now)]
    ensures (d.QueueForRisk? || d.QueueAtLimit?) ==>
      q.Some? && q.value == QueueDecision(old(db.GetGuildConfig(g)), old(db.GetVerificationState(g, u)), env)
      && store.sessions == old(store.sessions)
      && var e := QueueEffect(old(db.GetVerificationState(g, u)), q.value, u, botId, QueueReasons(d), d.risk.score);
         db.states == Written(old(db.states), Key(g, u), e.write) && db.actions == Logged(old(db.actions), g, e.log)
    ensures !(d == AlreadyVerified || d.IssueChallenge? || d.QueueForRisk? || d.QueueAtLimit?) ==>
      db.states == old(db.states) && db.actions == old(db.actions) && store.sessions == old(store.sessions)
  {
    var c := db.GetGuildConfig(g);
    var s := db.GetVerificationState(g, u);
    d := StartDecisionOf(inGuild, c, channelId, member, s, now, true);
    q, captcha := None, None;
    match d {
      case AlreadyVerified =>
        db.UpsertVerificationState(g, u, ALREADY_VERIFIED_PATCH);
      case QueueForRisk(risk) =>
        var r := QueueManualReview(db, c, g, u, botId, risk.reasons, risk.score, env);
        q := Some(r);
      case QueueAtLimit(risk) =>
        var r := QueueManualReview(db, c, g, u, botId, [MAX_ATTEMPTS_QUEUE_REASON], risk.score, env);
        q := Some(r);
      case IssueChallenge(risk) =>
        var cap := Challenge.GenerateCaptcha(lengthDraw, charDraws);
        store.Put(sid, CaptchaSession(g, u, cap.answer, now));
        db.UpsertVerificationState(g, u, ChallengePatch(risk, now));
        captcha := Some(cap);
      case _ =>
    }
  }

  // ------------------------------------------------------ answer judging

  datatype Verdict = Expired | TooFast | Wrong | Passed

  /**
   * The captcha checks, in order: past the expiry, solved in under three
   * seconds, then the trimmed, upper-cased answer against the stored text.
   * A session without a creation time (or without a text answer) is never
   * too fast (NaN compares false) and never matches.
   */
  function JudgeCaptcha(s: Session, now: int, input: string): Verdict
  {
    if TimedOut(s, now) then Expired
    else if s.createdAt.Some? && now - s.createdAt.value < MIN_SOLVE_TIME_MS then TooFast
    else if !(s.expected.Text? && ToUpper(Trim(input)) == s.expected.answer) then Wrong
    else Passed
  }

  /** The identity answer: past the expiry, then the trimmed answer compared exactly (case-sensitive). */
  function JudgeContext(s: Session, now: int, input: string): Verdict
  {
    if TimedOut(s, now) then Expired
    else if !(s.expected.Text? && Trim(input) == s.expected.answer) then Wrong
    else Passed
  }

  /** A captcha passes exactly when in time, not too fast, and matching after trim and upper-casing. */
  lemma CaptchaPassesExactly(s: Session, now: int, input: string)
    ensures JudgeCaptcha(s, now, input) == Passed <==>
      now <= s.expiresAt
      && (s.createdAt.None? || now - s.createdAt.value >= 3000)
      && s.expected.Text? && ToUpper(Trim(input)) == s.expected.answer
    ensures JudgeContext(s, now, input) == Passed <==>
      now <= s.expiresAt && s.expected.Text? && Trim(input) == s.expected.answer
  {
  }

  /** The characters of the captcha alphabet: upper-case ASCII letters and digits. */
  predicate UpperAlnum(c: char)
  {
    'A' <= c <= 'Z' || '0' <= c <= '9'
  }

  /** Every generated captcha text is made of upper-case letters and digits. */
  lemma GeneratedCaptchaUpperAlnum(text: string)
    requires forall ch :: ch in text ==> ch in Challenge.CAPTCHA_CHARS
    ensures forall i :: 0 <= i < |text| ==> UpperAlnum(text[i])
  {
    forall i | 0 <= i < |text| ensures UpperAlnum(text[i]) {
      assert text[i] in text;
    }
  }

  lemma LowerThenUpper(t: string)
    requires forall i :: 0 <= i < |t| ==> UpperAlnum(t[i])
    ensures ToUpper(ToLower(t)) == t
  {
  }

  /** Typing the captcha in lower case with surrounding spaces is still accepted, when in time. */
  lemma CaptchaAcceptsLowerCasePadded(s: Session, now: int, t: string)
    requires s.expected == Text(t) && t != [] && forall i :: 0 <= i < |t| ==> UpperAlnum(t[i])
    requires now <= s.expiresAt && (s.createdAt.None? || now - s.createdAt.value >= MIN_SOLVE_TIME_MS)
    ensures JudgeCaptcha(s, now, " " + ToLower(t) + "  ") == Passed
  {
    var low := ToLower(t);
    assert UpperAlnum(t[0]) && UpperAlnum(t[|t| - 1]);
    assert !IsJsSpace(low[0]) && !IsJsSpace(low[|low| - 1]);
    TrimPadded(" ", low, "  ");
    LowerThenUpper(t);
  }

  /**
   * The identity answer is case-sensitive: an expected answer with a
   * lower-case letter is refused when typed in upper case.
   */
  lemma ContextAnswerCaseSensitive(s: Session, now: int, t: string)
    requires s.expected == Text(t) && now <= s.expiresAt
    requires t != [] && !IsJsSpace(t[0]) && !IsJsSpace(t[|t| - 1]) && ToUpper(t) != t
    ensures JudgeContext(s, now, ToUpper(t)) == Wrong
  {
    var up := ToUpper(t);
    assert !IsJsSpace(up[0]) && !IsJsSpace(up[|up| - 1]);
    TrimUnpadded(up);
  }

  function FailureDetail(v: Verdict, identity: bool): string
  {
    match v
    case Expired => "Challenge timed out."
    case TooFast => "Suspicious solve speed detected."
    case _ => if identity then "Incorrect identity check answer." else "Incorrect challenge answer."
  }

  datatype AnswerOutcome =
    | SessionMissing
    | SessionOfOther
    | AttemptFailed(verdict: Verdict, failure: FailureOutcome)
    | MemberUnavailable
    | GuildUnavailable
    | ContextIssued(question: Challenge.ContextChallenge)
    | RolesQueued(queue: QueueResult)
    | RolesThrew
    | Verified

  function Unclaimed(c: Claim): AnswerOutcome
  {
    if c == NoSession then SessionMissing else SessionOfOther
  }

  /** The session of the identity question: phase 'context', created now, five minutes to live. */
  function ContextSession(g: GuildId, u: UserId, answer: string, now: int): (s: Session)
    ensures s.expiresAt == now + CHALLENGE_TTL_MS && s.phase == ContextPhase
  {
    Session(g, u, Text(answer), ContextPhase, Some(now), now + CHALLENGE_TTL_MS)
  }

  /** A random draw `pick(n)` is randomInt(n): below n. */
  ghost predicate ValidPick(pick: nat -> nat)
  {
    forall n: nat :: 0 < n ==> pick(n) < n
  }

  /**
   * handleChallengeAnswer of the current snapshot: the captcha form. On a pass
   * the identity question is created for the stored invite code.
   */
  method AnswerCaptcha(db: Database, store: SessionStore, sid: Option<string>, guildId: Option<string>, u: UserId,
                       input: string, now: int, member: Option<MemberView>, env: QueueEnv, botId: UserId,
                       newSid: string, pick: nat -> nat, format: int -> string,
                       offsets: seq<Challenge.OffsetDraw>, answerPos: nat)
    returns (o: AnswerOutcome)
    requires db.Valid()
    requires ValidPick(pick) && answerPos < 4
    requires |offsets| >= 30 && forall k :: 0 <= k < |offsets| ==> Challenge.ValidOffsetDraw(offsets[k])
    modifies db`states, db`actions, store
    ensures db.Valid()
    ensures var claim := ClaimOf(old(store.sessions), sid, guildId, u);
      !claim.Claimed? ==> o == Unclaimed(claim) && store.sessions == old(store.sessions)
                          && db.states == old(db.states) && db.actions == old(db.actions)
    ensures var claim := ClaimOf(old(store.sessions), sid, guildId, u);
      claim.Claimed? ==>
        var g := claim.session.guildId;
        var v := JudgeCaptcha(claim.session, now, input);
        (v != Passed ==>
          var st := FailedAttemptStep(old(db.GetGuildConfig(g)), old(db.GetVerificationState(g, u)), u, botId,
                                      FailureDetail(v, false), member.Some?, env);
          o == AttemptFailed(v, st.0) && store.sessions == old(store.sessions) - {sid.value}
          && db.states == Written(old(db.states), Key(g, u), st.1.write) && db.actions == Logged(old(db.actions), g, st.1.log))
        && (v == Passed && member.None? ==>
          o == MemberUnavailable && store.sessions == old(store.sessions) - {sid.value}
          && db.states == old(db.states) && db.actions == old(db.actions))
        && (v == Passed && member.Some? ==>
          o.ContextIssued? && db.states == old(db.states) && db.actions == old(db.actions)
          && store.sessions == (old(store.sessions) - {sid.value})[newSid := ContextSession(g, u, o.question.answer, now)])
  {
    var claim := store.Take(sid, guildId, u);
    if !claim.Claimed? {
      return Unclaimed(claim);
    }
    var g := claim.session.guildId;
    var v := JudgeCaptcha(claim.session, now, input);
    if v != Passed {
      var f := RegisterFailedAttempt(db, g, u, botId, FailureDetail(v, false), member.Some?, env);
      return AttemptFailed(v, f);
    }
    if member.None? {
      return MemberUnavailable;
    }
    var s := db.GetVerificationState(g, u);
    var invite := if s.Some? then s.value.inviteCode else None;
    var m := member.value;
    var question := Challenge.BuildContextChallenge(pick(|Challenge.QuestionTypes(invite)|), m.joinedAt,
                                                    m.account.createdTimestamp, now, invite, format, offsets, answerPos);
    store.Put(newSid, ContextSession(g, u, question.answer, now));
    o := ContextIssued(question);
  }

  /** The constant approval write: VERIFIED, no attempts, every review field and the challenge time cleared. */
  const VERIFIED_PATCH := NO_STATE_CHANGE.(
    status := Set(VERIFIED), attempts := Set(0), manualRequired := Set(0),
    reviewMessageId := Set(None), manualReason := Set(None), lastChallengeAt := Set(None))

  const AUTO_APPROVE_REASON := "Automated verification approved"

  /**
   * After a passed automated challenge: the role change either succeeds and
   * the member is VERIFIED (with a log row), or is refused and queued for
   * review with risk score 0, or throws.
   */
  function AutoVerifyStep(c: GuildConfig, s: Option<Record>, u: UserId, botId: UserId, ro: RoleOutcome,
                          env: QueueEnv): (AnswerOutcome, Effect)
  {
    match ro
    case RoleThrew => (RolesThrew, NO_EFFECT)
    case RoleRefused(err) =>
      var q := QueueDecision(c, s, env);
      (RolesQueued(q), QueueEffect(s, q, u, botId, [err], 0))
    case RoleApplied =>
      (Verified, Effect(Some(Merge(s, VERIFIED_PATCH)),
                        Some(LogEntry(VERIFY_APPROVE, u, botId, AUTO_APPROVE_REASON, ModeMeta("automatic")))))
  }

  /** A member becomes VERIFIED only through a successful role change. */
  lemma AutoVerifyNeedsRoles(c: GuildConfig, s: Option<Record>, u: UserId, botId: UserId, ro: RoleOutcome, env: QueueEnv)
    ensures var (o, e) := AutoVerifyStep(c, s, u, botId, ro, env);
      (o == Verified <==> ro == RoleApplied)
      && (e.write.Some? && e.write.value.status == VERIFIED ==> ro == RoleApplied && e.write.value.attempts == 0)
      && (ro.RoleRefused? ==> e.write.None? || e.write.value.status == MANUAL_REVIEW)
  {
  }

  /** The automated approval of both snapshots, once the answer has been accepted. */
  method AutoVerify(db: Database, c: GuildConfig, g: GuildId, u: UserId, botId: UserId, ro: RoleOutcome, env: QueueEnv)
    returns (o: AnswerOutcome)
    requires db.Valid()
    modifies db`states, db`actions
    ensures db.Valid()
    ensures var st := AutoVerifyStep(c, old(db.GetVerificationState(g, u)), u, botId, ro, env);
      o == st.0 && db.states == Written(old(db.states), Key(g, u), st.1.write)
      && db.actions == Logged(old(db.actions), g, st.1.log)
  {
    match ro {
      case RoleThrew =>
        o := RolesThrew;
      case RoleRefused(err) =>
        var q := QueueManualReview(db, c, g, u, botId, [err], 0, env);
        o := RolesQueued(q);
      case RoleApplied =>
        db.UpsertVerificationState(g, u, VERIFIED_PATCH);
        var _ := db.LogAction(g, VERIFY_APPROVE, u, botId, Some(AUTO_APPROVE_REASON), None, Some(ModeMeta("automatic")));
        o := Verified;
    }
  }

  /**
   * handleContextAnswer: the identity form. `guildFound` is whether the guild
   * resolves; `member` is the fetch of the answering member.
   */
  method AnswerContext(db: Database, store: SessionStore, sid: Option<string>, guildId: Option<string>, u: UserId,
                       input: string, now: int, guildFound: bool, member: Option<MemberView>, gv: GuildView,
                       roleCallsSucceed: bool, env: QueueEnv, botId: UserId)
    returns (o: AnswerOutcome)
    requires db.Valid()
    modifies db`states, db`actions, store
    ensures db.Valid()
    ensures var claim := ClaimOf(old(store.sessions), sid, guildId, u);
      !claim.Claimed? ==> o == Unclaimed(claim) && store.sessions == old(store.sessions)
                          && db.states == old(db.states) && db.actions == old(db.actions)
    ensures var claim := ClaimOf(old(store.sessions), sid, guildId, u);
      claim.Claimed? ==>
        var g := claim.session.guildId;
        var v := JudgeContext(claim.session, now, input);
        store.sessions == old(store.sessions) - {sid.value}
        && (v != Passed ==>
          var st := FailedAttemptStep(old(db.GetGuildConfig(g)), old(db.GetVerificationState(g, u)), u, botId,
                                      FailureDetail(v, true), member.Some?, env);
          o == AttemptFailed(v, st.0)
          && db.states == Written(old(db.states), Key(g, u), st.1.write) && db.actions == Logged(old(db.actions), g, st.1.log))
        && (v == Passed && (!guildFound || member.None?) ==>
          o == (if !guildFound then GuildUnavailable else MemberUnavailable)
          && db.states == old(db.states) && db.actions == old(db.actions))
        && (v == Passed && guildFound && member.Some? ==>
          var c := old(db.GetGuildConfig(g));
          var st := AutoVerifyStep(c, old(db.GetVerificationState(g, u)), u, botId,
                                   ApplyRoles(c, member.value.highest, gv, roleCallsSucceed), env);
          o == st.0 && db.states == Written(old(db.states), Key(g, u), st.1.write)
          && db.actions == Logged(old(db.actions), g, st.1.log))
  {
    var claim := store.Take(sid, guildId, u);
    if !claim.Claimed? {
      return Unclaimed(claim);
    }
    var g := claim.session.guildId;
    var v := JudgeContext(claim.session, now, input);
    if v != Passed {
      var f := RegisterFailedAttempt(db, g, u, botId, FailureDetail(v, true), member.Some?, env);
      return AttemptFailed(v, f);
    }
    var c := db.GetGuildConfig(g);
    if !guildFound {
      return GuildUnavailable;
    }
    if member.None? {
      return MemberUnavailable;
    }
    o := AutoVerify(db, c, g, u, botId, ApplyRoles(c, member.value.highest, gv, roleCallsSucceed), env);
  }

  // --------------------------------------------------- reviewer decisions

  datatype ReviewOutcome =
    | ReviewOutsideGuild
    | ReviewForbidden
    | TargetGone
    | ApprovalRefused(error: string)
    | RejectionRefused(error: string)
    | ReviewThrew
    | Resolved(actionType: string)

  function RejectPatch(reviewerTag: string): StatePatch
  {
    NO_STATE_CHANGE.(status := Set(REJECTED), manualRequired := Set(1), reviewMessageId := Set(None),
                     manualReason := Set(Some("Rejected by " + reviewerTag)), lastChallengeAt := Set(None))
  }

  const RECHECK_PATCH := VERIFIED_PATCH.(status := Set(PENDING))

  /** The refusal that stops a review decision before anything is written, if any. */
  function ReviewGate(decision: Option<string>, c: GuildConfig, target: Option<MemberView>, gv: GuildView,
                      roleCallsSucceed: bool): Option<ReviewOutcome>
  {
    if decision == Some("approve") then
      if target.None? then Some(TargetGone)
      else
        match ApplyRoles(c, target.value.highest, gv, roleCallsSucceed)
        case RoleThrew => Some(ReviewThrew)
        case RoleRefused(err) => Some(ApprovalRefused(err))
        case RoleApplied => None
    else if decision == Some("reject") && target.Some? then
      match ApplyRoles(c, target.value.highest, gv, roleCallsSucceed)
      case RoleThrew => Some(ReviewThrew)
      case RoleRefused(err) => Some(RejectionRefused(err))
      case RoleApplied => None
    else None
  }

  /** The write, action type and log reason of an accepted decision. */
  function ResolutionPatch(decision: Option<string>, reviewerTag: string): StatePatch
  {
    if decision == Some("approve") then VERIFIED_PATCH
    else if decision == Some("reject") then RejectPatch(reviewerTag)
    else RECHECK_PATCH
  }

  function ResolutionLog(decision: Option<string>, userId: UserId, reviewerId: UserId): LogEntry
  {
    if decision == Some("approve") then LogEntry(VERIFY_APPROVE, userId, reviewerId, "Manual verification approved", ModeMeta("manual"))
    else if decision == Some("reject") then LogEntry(VERIFY_REJECT, userId, reviewerId, "Manual verification rejected", ModeMeta("manual"))
    else LogEntry(VERIFY_RECHECK, userId, reviewerId, "Manual verification reset for recheck", ModeMeta("manual"))
  }

  /**
   * handleManualReviewAction once the reviewer holds Moderate Members:
   * 'approve' needs the member and a successful role change; 'reject' needs a
   * successful role change only when the member is still present; any other
   * decision resets the record for a recheck.
   */
  function ReviewStep(decision: Option<string>, c: GuildConfig, s: Option<Record>, userId: UserId,
                      reviewerId: UserId, reviewerTag: string, target: Option<MemberView>, gv: GuildView,
                      roleCallsSucceed: bool): (ReviewOutcome, Effect)
  {
    var gate := ReviewGate(decision, c, target, gv, roleCallsSucceed);
    if gate.Some? then (gate.value, NO_EFFECT)
    else
      var log := ResolutionLog(decision, userId, reviewerId);
      (Resolved(log.actionType), Effect(Some(Merge(s, ResolutionPatch(decision, reviewerTag))), Some(log)))
  }

  /**
   * Approval writes VERIFIED with no attempts; rejection writes REJECTED with
   * manual_required 1 (so manual_required does not mean "in review"); a
   * recheck always succeeds and writes PENDING with no attempts.
   */
  lemma ReviewWrites(decision: Option<string>, c: GuildConfig, s: Option<Record>, userId: UserId,
                     reviewerId: UserId, reviewerTag: string, target: Option<MemberView>, gv: GuildView,
                     roleCallsSucceed: bool)
    ensures var (o, e) := ReviewStep(decision, c, s, userId, reviewerId, reviewerTag, target, gv, roleCallsSucceed);
      (e.write.Some? <==> o.Resolved?)
      && (o.Resolved? ==> e.log.Some? && e.log.value.actionType == o.actionType && e.log.value.moderator == reviewerId)
      && (decision == Some("approve") ==>
           (o.Resolved? <==> target.Some? && ApplyRoles(c, target.value.highest, gv, roleCallsSucceed) == RoleApplied))
      && (decision == Some("approve") && o.Resolved? ==>
           e.write.value.status == VERIFIED && e.write.value.attempts == 0 && e.write.value.manualRequired == 0)
      && (decision == Some("reject") && o.Resolved? ==>
           o.actionType == VERIFY_REJECT && e.write.value.status == REJECTED && e.write.value.manualRequired == 1
           && e.write.value.attempts == StoredAttempts(s))
      && (decision == Some("reject") && target.None? ==> o == Resolved(VERIFY_REJECT))
      && (decision != Some("approve") && decision != Some("reject") ==>
           o == Resolved(VERIFY_RECHECK) && e.write.value.status == PENDING && e.write.value.attempts == 0)
  {
  }

  /** handleManualReviewAction; `canModerate` is the reviewer's Moderate Members permission. */
  method ManualReviewAction(db: Database, inGuild: bool, g: GuildId, canModerate: bool, decision: Option<string>,
                            userId: UserId, reviewerId: UserId, reviewerTag: string, target: Option<MemberView>,
                            gv: GuildView, roleCallsSucceed: bool)
    returns (o: ReviewOutcome)
    requires db.Valid()
    modifies db`states, db`actions
    ensures db.Valid()
    ensures !inGuild || !canModerate ==>
      o == (if !inGuild then ReviewOutsideGuild else ReviewForbidden)
      && db.states == old(db.states) && db.actions == old(db.actions)
    ensures inGuild && canModerate ==>
      var st := ReviewStep(decision, old(db.GetGuildConfig(g)), old(db.GetVerificationState(g, userId)), userId,
                           reviewerId, reviewerTag, target, gv, roleCallsSucceed);
      o == st.0 && db.states == Written(old(db.states), Key(g, userId), st.1.write)
      && db.actions == Logged(old(db.actions), g, st.1.log)
  {
    if !inGuild {
      return ReviewOutsideGuild;
    }
    if !canModerate {
      return ReviewForbidden;
    }
    var c := db.GetGuildConfig(g);
    var gate := ReviewGate(decision, c, target, gv, roleCallsSucceed);
    if gate.Some? {
      return gate.value;
    }
    db.UpsertVerificationState(g, userId, ResolutionPatch(decision, reviewerTag));
    var e := ResolutionLog(decision, userId, reviewerId);
    var _ := db.LogAction(g, e.actionType, e.user, e.moderator, Some(e.reason), None, Some(e.meta));
    o := Resolved(e.actionType);
  }

  /** A button on the review message. */
  datatype Button = Button(customId: string, caption: string, style: int, disabled: bool)

  /** disableButtonRows: the same rows and buttons, each disabled. */
  function DisableButtonRows(rows: seq<seq<Button>>): (r: seq<seq<Button>>)
    ensures |r| == |rows|
    ensures forall i :: 0 <= i < |rows| ==> |r[i]| == |rows[i]|
    ensures forall i, j :: 0 <= i < |rows| && 0 <= j < |rows[i]| ==>
      r[i][j].disabled && r[i][j].(disabled := rows[i][j].disabled) == rows[i][j]
  {
    seq(|rows|, i requires 0 <= i < |rows| =>
      seq(|rows[i]|, j requires 0 <= j < |rows[i]| => rows[i][j].(disabled := true)))
  }

  /** Disabling twice is the same as disabling once. */
  lemma DisableIdempotent(rows: seq<seq<Button>>)
    ensures DisableButtonRows(DisableButtonRows(rows)) == DisableButtonRows(rows)
  {
    var once := DisableButtonRows(rows);
    var twice := DisableButtonRows(once);
    forall i | 0 <= i < |rows| ensures twice[i] == once[i] {
      assert |twice[i]| == |once[i]|;
    }
  }

  // -------------------------------------------------------------- routing

  datatype InteractionKind = ModalSubmit(customId: string) | ButtonPress(customId: string) | OtherInteraction

  datatype Route =
    | Unhandled
    | StartRoute
    | ShowAnswerRoute(sid: Option<string>)
    | ShowContextRoute(sid: Option<string>)
    | ReviewRoute(decision: Option<string>, user: Option<string>)
    | CaptchaModalRoute(sid: Option<string>)
    | ContextModalRoute(sid: Option<string>)
    | QuizAnswerRoute(sid: Option<string>, value: Option<string>)

  /** `parts[i]`, undefined past the end. */
  function Part(parts: seq<string>, i: nat): Option<string>
  {
    if i < |parts| then Some(parts[i]) else None
  }

  /** Where an interaction goes and whether the sessions are pruned first. */
  datatype Routing = Routing(route: Route, prunes: bool)

  /** The button dispatch on the split custom id. */
  function ButtonRoute(parts: seq<string>): Route
    requires |parts| >= 1
  {
    var action := Part(parts, 1);
    if parts[0] != "verify" then Unhandled
    else if action == Some("start") then StartRoute
    else if action == Some("answer") then ShowAnswerRoute(Part(parts, 2))
    else if action == Some("ctxanswer") then ShowContextRoute(Part(parts, 2))
    else if action == Some("review") then ReviewRoute(Part(parts, 2), Part(parts, 3))
    else Unhandled
  }

  /** The form dispatch on the split custom id. */
  function ModalRoute(parts: seq<string>): Route
    requires |parts| >= 1
  {
    if parts[0] == "verify" && Part(parts, 1) == Some("modal") then CaptchaModalRoute(Part(parts, 2))
    else if parts[0] == "verify" && Part(parts, 1) == Some("ctxmodal") then ContextModalRoute(Part(parts, 2))
    else Unhandled
  }

  /**
   * handleVerificationInteraction of the current snapshot: a form is routed
   * (and the sessions pruned) only for the two answer forms; every button
   * prunes first and then dispatches; anything else is ignored.
   */
  function RouteOf(k: InteractionKind): (r: Routing)
    ensures r.route != Unhandled ==> r.prunes
    ensures k.OtherInteraction? ==> r == Routing(Unhandled, false)
    ensures k.ButtonPress? ==> r.prunes
    ensures k.ModalSubmit? ==> (r.prunes <==> r.route.CaptchaModalRoute? || r.route.ContextModalRoute?)
  {
    match k
    case OtherInteraction => Routing(Unhandled, false)
    case ModalSubmit(id) =>
      var route := ModalRoute(Split(id, ':'));
      Routing(route, route != Unhandled)
    case ButtonPress(id) => Routing(ButtonRoute(Split(id, ':')), true)
  }

  /** A custom id "verify:<action>:<rest>" splits into its three parts. */
  lemma VerifyIdSplit(action: string, rest: string)
    requires ':' !in action && ':' !in rest
    ensures Split("verify:" + action + ":" + rest, ':') == ["verify", action, rest]
  {
    assert "verify:" + action + ":" + rest == "verify" + [':'] + (action + [':'] + rest);
    SplitNoSep(rest, ':');
    SplitAtSep(action, ':', rest);
    SplitAtSep("verify", ':', action + [':'] + rest);
  }

  lemma StartButtonRoutes()
    ensures RouteOf(ButtonPress("verify:start")) == Routing(StartRoute, true)
  {
    SplitNoSep("start", ':');
    SplitAtSep("verify", ':', "start");
    assert "verify:start" == "verify" + [':'] + "start";
  }

  lemma AnswerButtonRoutes(sid: string)
    requires ':' !in sid
    ensures RouteOf(ButtonPress("verify:answer:" + sid)) == Routing(ShowAnswerRoute(Some(sid)), true)
  {
    VerifyIdSplit("answer", sid);
    assert "verify:answer:" + sid == "verify:" + "answer" + ":" + sid;
  }

  lemma ContextButtonRoutes(sid: string)
    requires ':' !in sid
    ensures RouteOf(ButtonPress("verify:ctxanswer:" + sid)) == Routing(ShowContextRoute(Some(sid)), true)
  {
    VerifyIdSplit("ctxanswer", sid);
    assert "verify:ctxanswer:" + sid == "verify:" + "ctxanswer" + ":" + sid;
  }

  /** An id of four separator-free parts splits back into them. */
  lemma FourPartSplit(a: string, b: string, c: string, d: string)
    requires ':' !in a && ':' !in b && ':' !in c && ':' !in d
    ensures Split(a + [':'] + (b + [':'] + (c + [':'] + d)), ':') == [a, b, c, d]
  {
    SplitNoSep(d, ':');
    SplitAtSep(c, ':', d);
    SplitAtSep(b, ':', c + [':'] + d);
    SplitAtSep(a, ':', b + [':'] + (c + [':'] + d));
  }

  lemma ReviewButtonRoutes(decision: string, userId: string)
    requires ':' !in decision && ':' !in userId
    ensures RouteOf(ButtonPress("verify:review:" + decision + ":" + userId))
         == Routing(ReviewRoute(Some(decision), Some(userId)), true)
  {
    assert "verify:review:" + decision + ":" + userId
        == "verify" + [':'] + ("review" + [':'] + (decision + [':'] + userId));
    FourPartSplit("verify", "review", decision, userId);
  }

  lemma CaptchaModalRoutes(sid: string)
    requires ':' !in sid
    ensures RouteOf(ModalSubmit("verify:modal:" + sid)) == Routing(CaptchaModalRoute(Some(sid)), true)
  {
    VerifyIdSplit("modal", sid);
    assert "verify:modal:" + sid == "verify:" + "modal" + ":" + sid;
  }

  lemma ContextModalRoutes(sid: string)
    requires ':' !in sid
    ensures RouteOf(ModalSubmit("verify:ctxmodal:" + sid)) == Routing(ContextModalRoute(Some(sid)), true)
  {
    VerifyIdSplit("ctxmodal", sid);
    assert "verify:ctxmodal:" + sid == "verify:" + "ctxmodal" + ":" + sid;
  }

  /**
   * The custom ids the handlers emit route back to the handler they name,
   * with their session or member id.
   */
  lemma EmittedIdsRoute(sid: string, decision: string, userId: string)
    requires ':' !in sid && ':' !in decision && ':' !in userId
    ensures RouteOf(ButtonPress("verify:start")) == Routing(StartRoute, true)
    ensures RouteOf(ButtonPress("verify:answer:" + sid)) == Routing(ShowAnswerRoute(Some(sid)), true)
    ensures RouteOf(ButtonPress("verify:ctxanswer:" + sid)) == Routing(ShowContextRoute(Some(sid)), true)
    ensures RouteOf(ButtonPress("verify:review:" + decision + ":" + userId))
         == Routing(ReviewRoute(Some(decision), Some(userId)), true)
    ensures RouteOf(ModalSubmit("verify:modal:" + sid)) == Routing(CaptchaModalRoute(Some(sid)), true)
    ensures RouteOf(ModalSubmit("verify:ctxmodal:" + sid)) == Routing(ContextModalRoute(Some(sid)), true)
  {
    StartButtonRoutes();
    AnswerButtonRoutes(sid);
    ContextButtonRoutes(sid);
    ReviewButtonRoutes(decision, userId);
    CaptchaModalRoutes(sid);
    ContextModalRoutes(sid);
  }

  /** Prune (when the route says so), then hand over to the routed handler. */
  method HandleInteraction(store: SessionStore, k: InteractionKind, now: int) returns (r: Route)
    modifies store
    ensures r == RouteOf(k).route
    ensures store.sessions == if RouteOf(k).prunes then Unexpired(old(store.sessions), now) else old(store.sessions)
  {
    var routing := RouteOf(k);
    if routing.prunes {
      store.Prune(now);
    }
    r := routing.route;
  }
}
