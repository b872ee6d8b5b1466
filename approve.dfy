// The /approve command: a moderator verifies a member by hand.

module Approve {
  import opened Common
  import opened Store
  import opened Verification

  const MAX_REASON := 1000
  const OUTSIDE_GUILD := "This command can only be used in a server."
  const MEMBER_NOT_FOUND := "Member not found in this server."
  const MANUAL_MODE := "manual"

  datatype ApproveOutcome =
    | OutsideGuild
    | MemberMissing
    | ApprovalFailed(error: string)
    | RoleChangeThrew
    | Approved(reason: string)

  /** `(reason || 'No reason provided').slice(0, 1000)` */
  function ApprovalReason(given: Option<string>): (r: string)
    ensures |r| <= MAX_REASON
    ensures var full := if Truthy(given) then given.value else NO_REASON;
      |r| <= |full| && r == full[..|r|] && (|full| <= MAX_REASON ==> r == full) && (|full| > MAX_REASON ==> |r| == MAX_REASON)
  {
    var full := if Truthy(given) then given.value else NO_REASON;
    if |full| <= MAX_REASON then full else full[..MAX_REASON]
  }

  /** The approval write: VERIFIED, no attempts, review fields and challenge time cleared. */
  function ApprovalEffect(s: Option<Record>, target: UserId, moderator: UserId, reason: string): Effect
  {
    Effect(Some(Merge(s, VERIFIED_PATCH)), Some(LogEntry(VERIFY_APPROVE, target, moderator, reason, ModeMeta(MANUAL_MODE))))
  }

  /**
   * approve's decision once in a guild: the member must be fetched and the
   * verified roles applied; only then is the record written and the action
   * logged.
   */
  function ApproveStep(c: GuildConfig, s: Option<Record>, target: UserId, member: Option<MemberView>,
                       moderator: UserId, given: Option<string>, gv: GuildView, roleCallsSucceed: bool)
    : (ApproveOutcome, Effect)
  {
    if member.None? then (MemberMissing, NO_EFFECT)
    else
      match ApplyRoles(c, member.value.highest, gv, roleCallsSucceed)
      case RoleThrew => (RoleChangeThrew, NO_EFFECT)
      case RoleRefused(err) => (ApprovalFailed("Approval failed: " + err), NO_EFFECT)
      case RoleApplied =>
        var reason := ApprovalReason(given);
        (Approved(reason), ApprovalEffect(s, target, moderator, reason))
  }

  /**
   * Something is written exactly when the member is found and the role change
   * goes through; the record is then VERIFIED with attempts, manual flag,
   * review message, manual reason and challenge time cleared, and the risk
   * data and invite code of the stored record kept.
   */
  lemma ApproveWritesOnlyAfterRoles(c: GuildConfig, s: Option<Record>, target: UserId, member: Option<MemberView>,
                                    moderator: UserId, given: Option<string>, gv: GuildView, roleCallsSucceed: bool)
    ensures var (o, e) := ApproveStep(c, s, target, member, moderator, given, gv, roleCallsSucceed);
      (e.write.Some? <==> o.Approved?)
      && (e.log.Some? <==> o.Approved?)
      && (o.Approved? <==> member.Some? && ApplyRoles(c, member.value.highest, gv, roleCallsSucceed) == RoleApplied)
      && (member.None? ==> o == MemberMissing)
      && (o.Approved? ==>
            var r := e.write.value;
            r.status == VERIFIED && r.attempts == 0 && r.manualRequired == 0 && r.reviewMessageId == None
            && r.manualReason == None && r.lastChallengeAt == None
            && r.riskScore == Coalesce(s, DEFAULT_RECORD).riskScore
            && r.riskReasons == Coalesce(s, DEFAULT_RECORD).riskReasons
            && r.inviteCode == Coalesce(s, DEFAULT_RECORD).inviteCode
            && e.log.value == LogEntry(VERIFY_APPROVE, target, moderator, o.reason, ModeMeta(MANUAL_MODE))
            && |o.reason| <= MAX_REASON)
  {
    MergeLayers(s, VERIFIED_PATCH);
  }

  /** The approve command; `member` is the fetch of the target in the guild. */
  method Run(db: Database, inGuild: bool, g: GuildId, target: UserId, member: Option<MemberView>,
             moderator: UserId, given: Option<string>, gv: GuildView, roleCallsSucceed: bool)
    returns (o: ApproveOutcome)
    requires db.Valid()
    modifies db`states, db`actions
    ensures db.Valid()
    ensures !inGuild ==> o == OutsideGuild && db.states == old(db.states) && db.actions == old(db.actions)
    ensures inGuild ==>
      var st := ApproveStep(old(db.GetGuildConfig(g)), old(db.GetVerificationState(g, target)), target, member,
                            moderator, given, gv, roleCallsSucceed);
      o == st.0 && db.states == Written(old(db.states), Key(g, target), st.1.write)
      && db.actions == Logged(old(db.actions), g, st.1.log)
  {
    if !inGuild {
      return OutsideGuild;
    }
    var reason := ApprovalReason(given);
    if member.None? {
      return MemberMissing;
    }
    var c := db.GetGuildConfig(g);
    var roles := ApplyRoles(c, member.value.highest, gv, roleCallsSucceed);
    if roles.RoleThrew? {
      return RoleChangeThrew;
    }
    if roles.RoleRefused? {
      return ApprovalFailed("Approval failed: " + roles.error);
    }
    db.UpsertVerificationState(g, target, VERIFIED_PATCH);
    var _ := db.LogAction(g, VERIFY_APPROVE, target, moderator, Some(reason), None, Some(ModeMeta(MANUAL_MODE)));
    o := Approved(reason);
  }
}
