// Automatic escalation after a warning: the one tier a warning count
// reaches, the platform action taken for it and the action-log row written.

module Moderation {
  import opened Common
  import opened Store

  const BAN := "BAN"
  const KICK := "KICK"
  const MUTE := "MUTE"

  /** The tier a warning count reaches: the ban threshold is tested first, then kick, then mute. */
  function Tier(c: GuildConfig, count: int): Option<string>
  {
    if count >= c.warnThresholdBan then Some(BAN)
    else if count >= c.warnThresholdKick then Some(KICK)
    else if count >= c.warnThresholdMute then Some(MUTE)
    else None
  }

  /** Exactly one tier is chosen, the most severe whose threshold the count reaches. */
  lemma TierExactlyOne(c: GuildConfig, count: int)
    ensures Tier(c, count) == Some(BAN) <==> count >= c.warnThresholdBan
    ensures Tier(c, count) == Some(KICK) <==> c.warnThresholdKick <= count < c.warnThresholdBan
    ensures Tier(c, count) == Some(MUTE) <==>
      count < c.warnThresholdBan && count < c.warnThresholdKick && count >= c.warnThresholdMute
    ensures Tier(c, count) == None <==>
      count < c.warnThresholdBan && count < c.warnThresholdKick && count < c.warnThresholdMute
  {
  }

  function Severity(t: Option<string>): nat
  {
    if t == Some(BAN) then 3 else if t == Some(KICK) then 2 else if t == Some(MUTE) then 1 else 0
  }

  /** More warnings never choose a milder tier, whatever the thresholds. */
  lemma TierMonotone(c: GuildConfig, a: int, b: int)
    requires a <= b
    ensures Severity(Tier(c, a)) <= Severity(Tier(c, b))
  {
  }

  /** The `{ escalated, action, error }` object checkEscalation returns. */
  datatype Escalation = Escalation(escalated: bool, action: Option<string>, error: Option<string>)

  const NOT_ESCALATED := Escalation(false, None, None)

  /**
   * What the platform does: whether the target is a member of the guild, and
   * the message of the error the ban, kick or timeout call throws, if it
   * throws. The warning DM is not an input: its failure is swallowed.
   */
  datatype Platform = Platform(memberFound: bool, actionError: Option<string>)

  function AutoReason(count: int): string
  {
    "Automatic: " + IntToString(count) + " warnings reached"
  }

  /** The logged duration: the configured default for a mute, null for a ban or kick. */
  function LoggedDuration(c: GuildConfig, tier: string): Option<int>
  {
    if tier == MUTE then Some(c.muteDurationDefault) else None
  }

  /** checkEscalation's result: a failed action reports its tier and error message. */
  function EscalationOf(inGuild: bool, c: GuildConfig, count: int, p: Platform): Escalation
  {
    if !inGuild || !p.memberFound then NOT_ESCALATED
    else
      var tier := Tier(c, count);
      if tier.None? then NOT_ESCALATED
      else if p.actionError.Some? then Escalation(false, tier, p.actionError)
      else Escalation(true, tier, None)
  }

  /** The row logAction appends when the action went through; nothing otherwise. */
  function EscalationRows(actions: seq<ModAction>, g: GuildId, target: UserId, botId: UserId, c: GuildConfig,
                          count: int, e: Escalation): seq<ModAction>
  {
    if !e.escalated || e.action.None? then []
    else [ActionRow(|actions| + 1, g, e.action.value, target, botId, Some(AutoReason(count)),
                    LoggedDuration(c, e.action.value), None)]
  }

  /**
   * Escalation happens exactly when the command runs in a guild, the target
   * is a member, a tier is reached and its action does not throw; a thrown
   * action reports that tier with the error; the action field is otherwise
   * the reached tier or null.
   */
  lemma EscalationOutcomes(inGuild: bool, c: GuildConfig, count: int, p: Platform)
    ensures var e := EscalationOf(inGuild, c, count, p);
      (e.escalated <==> inGuild && p.memberFound && Tier(c, count).Some? && p.actionError.None?)
      && (e.action == if inGuild && p.memberFound then Tier(c, count) else None)
      && (e.error.Some? <==> e.action.Some? && !e.escalated)
      && (e.error.Some? ==> e.error == p.actionError)
  {
  }

  method CheckEscalation(db: Database, inGuild: bool, g: GuildId, target: UserId, botId: UserId, count: int,
                         p: Platform)
    returns (e: Escalation)
    requires db.Valid()
    modifies db`actions
    ensures db.Valid()
    ensures e == EscalationOf(inGuild, old(db.GetGuildConfig(g)), count, p)
    ensures db.actions == old(db.actions)
      + EscalationRows(old(db.actions), g, target, botId, old(db.GetGuildConfig(g)), count, e)
  {
    if !inGuild {
      return NOT_ESCALATED;
    }
    var c := db.GetGuildConfig(g);
    if !p.memberFound {
      return NOT_ESCALATED;
    }
    var tier := Tier(c, count);
    if tier.None? {
      return NOT_ESCALATED;
    }
    if p.actionError.Some? {
      return Escalation(false, tier, p.actionError);
    }
    var _ := db.LogAction(g, tier.value, target, botId, Some(AutoReason(count)), LoggedDuration(c, tier.value), None);
    e := Escalation(true, tier, None);
  }

  /** The older snapshot: a thrown action falls through to the not-escalated result, with no action or error. */
  function EscalationOfJs(c: GuildConfig, count: int, p: Platform): Escalation
  {
    if !p.memberFound then NOT_ESCALATED
    else
      var tier := Tier(c, count);
      if tier.None? || p.actionError.Some? then NOT_ESCALATED
      else Escalation(true, tier, None)
  }

  function EscalationRowsJs(actions: seq<ModAction>, g: GuildId, target: UserId, botId: UserId, c: GuildConfig,
                            count: int, e: Escalation): seq<ModAction>
  {
    if !e.escalated || e.action.None? then []
    else [ActionRowJs(|actions| + 1, g, e.action.value, target, botId, Some(AutoReason(count)),
                      LoggedDuration(c, e.action.value), None)]
  }

  /**
   * The snapshots escalate in the same cases with the same tier; they differ
   * only on a thrown action (the older one reports no action and no error)
   * and in logging a zero mute duration as null.
   */
  lemma EscalationSnapshotsAgree(c: GuildConfig, count: int, p: Platform, actions: seq<ModAction>, g: GuildId,
                                 target: UserId, botId: UserId)
    ensures var ts := EscalationOf(true, c, count, p);
      var js := EscalationOfJs(c, count, p);
      (ts.escalated ==> js == ts)
      && (!ts.escalated ==> js == NOT_ESCALATED)
      && (EscalationRowsJs(actions, g, target, botId, c, count, js)
            == EscalationRows(actions, g, target, botId, c, count, ts)
          <==> !(ts.escalated && ts.action == Some(MUTE) && c.muteDurationDefault == 0))
  {
    var ts := EscalationOf(true, c, count, p);
    if ts.escalated {
      ActionRowsAgree(|actions| + 1, g, ts.action.value, target, botId, Some(AutoReason(count)),
                      LoggedDuration(c, ts.action.value), None);
    }
  }

  method CheckEscalationJs(db: Database, g: GuildId, target: UserId, botId: UserId, count: int, p: Platform)
    returns (e: Escalation)
    requires db.Valid()
    modifies db`actions
    ensures db.Valid()
    ensures e == EscalationOfJs(old(db.GetGuildConfig(g)), count, p)
    ensures db.actions == old(db.actions)
      + EscalationRowsJs(old(db.actions), g, target, botId, old(db.GetGuildConfig(g)), count, e)
  {
    var c := db.GetGuildConfig(g);
    if !p.memberFound {
      return NOT_ESCALATED;
    }
    var tier := Tier(c, count);
    if tier.None? || p.actionError.Some? {
      return NOT_ESCALATED;
    }
    var _ := db.LogActionJs(g, tier.value, target, botId, Some(AutoReason(count)), LoggedDuration(c, tier.value), None);
    e := Escalation(true, tier, None);
  }
}
