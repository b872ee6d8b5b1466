// The member-join handler: the on-join role, the unverified role and the
// PENDING verification record a new member starts with.

module MemberAdd {
  import opened Common
  import opened Store
  import InviteTracker

  /** The joining member: the roles already held and the position of the highest. */
  datatype Joiner = Joiner(id: UserId, roles: set<string>, highest: int)

  /** The bot's own member in the guild. */
  datatype BotMember = BotMember(manageRoles: bool, highest: int)

  /**
   * What the guild answers: the bot's member (none when not cached), the
   * positions of the roles a fetch finds, whether each role add succeeds, and
   * the invite listing the resolver fetches.
   */
  datatype JoinEnv = JoinEnv(bot: Option<BotMember>, rolePositions: map<string, int>,
                             onJoinAddOk: bool, unverifiedAddOk: bool, invites: InviteTracker.Fetch)

  predicate CanManageRoles(env: JoinEnv)
  {
    env.bot.Some? && env.bot.value.manageRoles
  }

  /** The role is found and sits below the bot's highest role. */
  predicate Assignable(env: JoinEnv, role: string)
    requires env.bot.Some?
  {
    role in env.rolePositions && env.rolePositions[role] < env.bot.value.highest
  }

  /** The on-join role ends up held because the handler added it. */
  predicate OnJoinAdded(c: GuildConfig, m: Joiner, env: JoinEnv)
  {
    CanManageRoles(env) && Truthy(c.onJoinRoleId) && Assignable(env, c.onJoinRoleId.value)
    && c.onJoinRoleId.value !in m.roles && env.onJoinAddOk
  }

  /** Every check before the unverified role add passes: verification on, the role configured, found and below the bot, the member below the bot. */
  predicate VerificationGuards(c: GuildConfig, m: Joiner, env: JoinEnv)
  {
    CanManageRoles(env) && c.verificationEnabled != 0 && Truthy(c.unverifiedRoleId)
    && Assignable(env, c.unverifiedRoleId.value) && m.highest < env.bot.value.highest
  }

  /** The unverified role is held afterwards: already held, or the add succeeded. */
  predicate UnverifiedHeld(c: GuildConfig, m: Joiner, env: JoinEnv)
    requires Truthy(c.unverifiedRoleId)
  {
    c.unverifiedRoleId.value in m.roles || env.unverifiedAddOk
  }

  /** The handler writes the verification record exactly in this case. */
  predicate WritesRecord(c: GuildConfig, m: Joiner, env: JoinEnv)
  {
    VerificationGuards(c, m, env) && UnverifiedHeld(c, m, env)
  }

  /** The roles the member holds when the handler ends. */
  function RolesAfter(c: GuildConfig, m: Joiner, env: JoinEnv): set<string>
  {
    m.roles
    + (if OnJoinAdded(c, m, env) then {c.onJoinRoleId.value} else {})
    + (if VerificationGuards(c, m, env) && env.unverifiedAddOk then {c.unverifiedRoleId.value} else {})
  }

  /** The fields the join writes: PENDING with no attempts or review, and the resolved invite code. */
  function JoinPatch(inviteCode: Option<string>): StatePatch
  {
    NO_STATE_CHANGE.(status := Set(PENDING), attempts := Set(0), manualRequired := Set(0),
                     reviewMessageId := Set(None), manualReason := Set(None), inviteCode := Set(inviteCode))
  }

  /** The older snapshot's write: the same, without the invite code. */
  const JOIN_PATCH_JS := NO_STATE_CHANGE.(status := Set(PENDING), attempts := Set(0), manualRequired := Set(0),
                                          reviewMessageId := Set(None), manualReason := Set(None))

  /**
   * A join record is PENDING with no attempts and no review in progress;
   * the risk score, risk reasons and last challenge time of an earlier
   * record survive a rejoin.
   */
  lemma JoinRecordPending(current: Option<Record>, code: Option<string>)
    ensures var r := Merge(current, JoinPatch(code));
      r.status == PENDING && r.attempts == 0 && r.manualRequired == 0
      && r.reviewMessageId == None && r.manualReason == None && r.inviteCode == code
      && (current.Some? ==> r.riskScore == current.value.riskScore && r.riskReasons == current.value.riskReasons
                            && r.lastChallengeAt == current.value.lastChallengeAt)
      && (current.None? ==> r == DEFAULT_RECORD.(inviteCode := code))
  {
    MergeLayers(current, JoinPatch(code));
  }

  /** The on-join step, which runs whether or not verification is on. */
  method AddOnJoinRole(c: GuildConfig, m: Joiner, env: JoinEnv) returns (roles: set<string>)
    requires CanManageRoles(env)
    ensures roles == m.roles + (if OnJoinAdded(c, m, env) then {c.onJoinRoleId.value} else {})
  {
    roles := m.roles;
    if Truthy(c.onJoinRoleId) {
      var role := c.onJoinRoleId.value;
      if role in env.rolePositions && env.rolePositions[role] < env.bot.value.highest && role !in m.roles
         && env.onJoinAddOk {
        roles := roles + {role};
      }
    }
  }

  /**
   * guildMemberAdd: without Manage Roles nothing happens; the on-join role is
   * added when configured, found, below the bot and not yet held; then, only
   * with verification on and an assignable unverified role, the member gets
   * that role and, unless its add fails, a PENDING record with the invite
   * code the tracker resolves.
   */
  method Join(db: Database, tracker: InviteTracker.Tracker, g: GuildId, m: Joiner, env: JoinEnv)
    returns (roles: set<string>, wrote: bool)
    requires db.Valid()
    modifies db`states, tracker
    ensures var c := old(db.GetGuildConfig(g));
      roles == RolesAfter(c, m, env) && (wrote <==> WritesRecord(c, m, env))
    ensures !wrote ==> db.states == old(db.states) && tracker.cache == old(tracker.cache)
    ensures wrote ==>
      var counts := if g in old(tracker.cache) then old(tracker.cache)[g] else map[];
      var code := if env.invites.Fetched? then InviteTracker.FirstUsed(env.invites.invites, counts) else None;
      db.states == old(db.states)[Key(g, m.id) := Merge(old(db.GetVerificationState(g, m.id)), JoinPatch(code))]
    ensures wrote ==>
      tracker.cache == if env.invites.Fetched? then old(tracker.cache)[g := InviteTracker.Snapshot(env.invites.invites)]
                       else old(tracker.cache)
  {
    var c := db.GetGuildConfig(g);
    roles := m.roles;
    wrote := false;
    if env.bot.None? || !env.bot.value.manageRoles {
      return;
    }
    var bot := env.bot.value;
    roles := AddOnJoinRole(c, m, env);
    if c.verificationEnabled == 0 || !Truthy(c.unverifiedRoleId) {
      return;
    }
    var unverified := c.unverifiedRoleId.value;
    if unverified !in env.rolePositions || env.rolePositions[unverified] >= bot.highest {
      return;
    }
    if m.highest >= bot.highest {
      return;
    }
    if unverified !in m.roles {
      if !env.unverifiedAddOk {
        return;
      }
      roles := roles + {unverified};
    }
    var code := tracker.ResolveUsedInvite(g, env.invites);
    db.UpsertVerificationState(g, m.id, JoinPatch(code));
    wrote := true;
  }

  /**
   * A record is only written for a member who holds the unverified role
   * afterwards, with verification on and the role and member below the bot;
   * the on-join role never depends on the verification settings.
   */
  lemma JoinWritesOnlyWhenGated(c: GuildConfig, m: Joiner, env: JoinEnv, enabled: int, unverified: Option<string>)
    ensures WritesRecord(c, m, env) ==>
      CanManageRoles(env) && c.verificationEnabled != 0 && Truthy(c.unverifiedRoleId)
      && c.unverifiedRoleId.value in RolesAfter(c, m, env)
      && c.unverifiedRoleId.value in env.rolePositions
      && env.rolePositions[c.unverifiedRoleId.value] < env.bot.value.highest
      && m.highest < env.bot.value.highest
    ensures !CanManageRoles(env) ==> RolesAfter(c, m, env) == m.roles && !WritesRecord(c, m, env)
    ensures OnJoinAdded(c.(verificationEnabled := enabled, unverifiedRoleId := unverified), m, env)
        == OnJoinAdded(c, m, env)
  {
  }

  /** The older snapshot's checks: verification first, with no on-join role. */
  predicate VerificationGuardsJs(c: GuildConfig, m: Joiner, env: JoinEnv)
  {
    c.verificationEnabled != 0 && Truthy(c.unverifiedRoleId) && CanManageRoles(env)
    && Assignable(env, c.unverifiedRoleId.value) && m.highest < env.bot.value.highest
  }

  /** guildMemberAdd in the older snapshot: a failed role add is logged and the record is still written. */
  method JoinJs(db: Database, g: GuildId, m: Joiner, env: JoinEnv) returns (roles: set<string>, wrote: bool)
    requires db.Valid()
    modifies db`states
    ensures var c := old(db.GetGuildConfig(g));
      wrote == VerificationGuardsJs(c, m, env)
      && roles == m.roles + (if wrote && env.unverifiedAddOk then {c.unverifiedRoleId.value} else {})
    ensures db.states == if wrote then old(db.states)[Key(g, m.id) := Merge(old(db.GetVerificationState(g, m.id)), JOIN_PATCH_JS)]
                         else old(db.states)
  {
    var c := db.GetGuildConfig(g);
    roles := m.roles;
    wrote := false;
    if c.verificationEnabled == 0 || !Truthy(c.unverifiedRoleId) {
      return;
    }
    if env.bot.None? || !env.bot.value.manageRoles {
      return;
    }
    var bot := env.bot.value;
    var unverified := c.unverifiedRoleId.value;
    if unverified !in env.rolePositions || env.rolePositions[unverified] >= bot.highest {
      return;
    }
    if m.highest >= bot.highest {
      return;
    }
    if unverified !in m.roles && env.unverifiedAddOk {
      roles := roles + {unverified};
    }
    db.UpsertVerificationState(g, m.id, JOIN_PATCH_JS);
    wrote := true;
  }

  /**
   * The snapshots pass the same checks; the older one writes even when the
   * role add fails, so it writes whenever the newer one does, and both
   * write the same status and counters, the older one keeping the stored
   * invite code.
   */
  lemma JoinSnapshotsAgree(c: GuildConfig, m: Joiner, env: JoinEnv, current: Option<Record>, code: Option<string>)
    ensures VerificationGuardsJs(c, m, env) == VerificationGuards(c, m, env)
    ensures WritesRecord(c, m, env) ==> VerificationGuardsJs(c, m, env)
    ensures VerificationGuardsJs(c, m, env) && env.unverifiedAddOk ==> WritesRecord(c, m, env)
    ensures Merge(current, JOIN_PATCH_JS) == Merge(current, JoinPatch(code)).(inviteCode := Coalesce(current, DEFAULT_RECORD).inviteCode)
  {
  }
}
