// The bot's durable store: guild configuration, one verification record per
// (guild, user), the warnings table and the moderation-action log.

module Store {
  import opened Common

  type GuildId = string
  type UserId = string

  /** The primary key of a verification record. */
  datatype Key = Key(guild: GuildId, user: UserId)

  // ----------------------------------------------------------- statuses

  const PENDING := "PENDING"
  const CHALLENGE := "CHALLENGE"
  const MANUAL_REVIEW := "MANUAL_REVIEW"
  const VERIFIED := "VERIFIED"
  const REJECTED := "REJECTED"
  const REVIEW_EXPIRED := "REVIEW_EXPIRED"
  const KICKED := "KICKED"

  // -------------------------------------------------------- guild config

  datatype GuildConfig = GuildConfig(
    guildId: GuildId,
    logChannelId: Option<string>,
    muteRoleId: Option<string>,
    verifyChannelId: Option<string>,
    reviewChannelId: Option<string>,
    verifiedRoleId: Option<string>,
    unverifiedRoleId: Option<string>,
    onJoinRoleId: Option<string>,
    verificationEnabled: int,
    minAccountAgeHours: int,
    maxAttempts: int,
    warnThresholdMute: int,
    warnThresholdKick: int,
    warnThresholdBan: int,
    muteDurationDefault: int,
    dmDisabled: int,
    invitesDisabled: int)

  const DEFAULT_VERIFICATION_ENABLED := 0
  const DEFAULT_MIN_ACCOUNT_AGE_HOURS := 24
  const DEFAULT_MAX_ATTEMPTS := 3
  const DEFAULT_WARN_THRESHOLD_MUTE := 3
  const DEFAULT_WARN_THRESHOLD_KICK := 5
  const DEFAULT_WARN_THRESHOLD_BAN := 7
  const DEFAULT_MUTE_DURATION_MS := 600000

  /** The configuration a guild without a stored row reads as. */
  function DefaultConfig(g: GuildId): GuildConfig
  {
    GuildConfig(g, None, None, None, None, None, None, None,
      DEFAULT_VERIFICATION_ENABLED, DEFAULT_MIN_ACCOUNT_AGE_HOURS, DEFAULT_MAX_ATTEMPTS,
      DEFAULT_WARN_THRESHOLD_MUTE, DEFAULT_WARN_THRESHOLD_KICK, DEFAULT_WARN_THRESHOLD_BAN,
      DEFAULT_MUTE_DURATION_MS, 0, 0)
  }

  /** The fields a caller supplies to upsertGuildConfig; the rest are kept. */
  datatype ConfigPatch = ConfigPatch(
    logChannelId: Patch<Option<string>>,
    muteRoleId: Patch<Option<string>>,
    verifyChannelId: Patch<Option<string>>,
    reviewChannelId: Patch<Option<string>>,
    verifiedRoleId: Patch<Option<string>>,
    unverifiedRoleId: Patch<Option<string>>,
    onJoinRoleId: Patch<Option<string>>,
    verificationEnabled: Patch<int>,
    minAccountAgeHours: Patch<int>,
    maxAttempts: Patch<int>,
    warnThresholdMute: Patch<int>,
    warnThresholdKick: Patch<int>,
    warnThresholdBan: Patch<int>,
    muteDurationDefault: Patch<int>,
    dmDisabled: Patch<int>,
    invitesDisabled: Patch<int>)

  const NO_CONFIG_CHANGE := ConfigPatch(Keep, Keep, Keep, Keep, Keep, Keep, Keep, Keep,
                                        Keep, Keep, Keep, Keep, Keep, Keep, Keep, Keep)

  /** `{ ...current, ...config }` restricted to the columns the upsert writes. */
  function MergeConfig(current: GuildConfig, p: ConfigPatch): GuildConfig
  {
    GuildConfig(current.guildId,
      Apply(p.logChannelId, current.logChannelId),
      Apply(p.muteRoleId, current.muteRoleId),
      Apply(p.verifyChannelId, current.verifyChannelId),
      Apply(p.reviewChannelId, current.reviewChannelId),
      Apply(p.verifiedRoleId, current.verifiedRoleId),
      Apply(p.unverifiedRoleId, current.unverifiedRoleId),
      Apply(p.onJoinRoleId, current.onJoinRoleId),
      Apply(p.verificationEnabled, current.verificationEnabled),
      Apply(p.minAccountAgeHours, current.minAccountAgeHours),
      Apply(p.maxAttempts, current.maxAttempts),
      Apply(p.warnThresholdMute, current.warnThresholdMute),
      Apply(p.warnThresholdKick, current.warnThresholdKick),
      Apply(p.warnThresholdBan, current.warnThresholdBan),
      Apply(p.muteDurationDefault, current.muteDurationDefault),
      Apply(p.dmDisabled, current.dmDisabled),
      Apply(p.invitesDisabled, current.invitesDisabled))
  }

  /**
   * The older snapshot's upsert writes thirteen columns: on_join_role_id,
   * dm_disabled and invites_disabled are never written, so a new row gets
   * the column defaults and an existing row keeps its values.
   */
  function JsPatch(p: ConfigPatch): (q: ConfigPatch)
    ensures q.onJoinRoleId == Keep && q.dmDisabled == Keep && q.invitesDisabled == Keep
  {
    p.(onJoinRoleId := Keep, dmDisabled := Keep, invitesDisabled := Keep)
  }

  /** Supplied fields win; every field not supplied keeps its current value. */
  lemma MergeConfigSuppliedWins(current: GuildConfig, p: ConfigPatch)
    ensures var m := MergeConfig(current, p);
      m.guildId == current.guildId
      && (p.logChannelId.Set? ==> m.logChannelId == p.logChannelId.value)
      && (p.logChannelId.Keep? ==> m.logChannelId == current.logChannelId)
      && (p.muteRoleId.Set? ==> m.muteRoleId == p.muteRoleId.value)
      && (p.muteRoleId.Keep? ==> m.muteRoleId == current.muteRoleId)
      && (p.verifyChannelId.Set? ==> m.verifyChannelId == p.verifyChannelId.value)
      && (p.verifyChannelId.Keep? ==> m.verifyChannelId == current.verifyChannelId)
      && (p.reviewChannelId.Set? ==> m.reviewChannelId == p.reviewChannelId.value)
      && (p.reviewChannelId.Keep? ==> m.reviewChannelId == current.reviewChannelId)
      && (p.verifiedRoleId.Set? ==> m.verifiedRoleId == p.verifiedRoleId.value)
      && (p.verifiedRoleId.Keep? ==> m.verifiedRoleId == current.verifiedRoleId)
      && (p.unverifiedRoleId.Set? ==> m.unverifiedRoleId == p.unverifiedRoleId.value)
      && (p.unverifiedRoleId.Keep? ==> m.unverifiedRoleId == current.unverifiedRoleId)
      && (p.onJoinRoleId.Set? ==> m.onJoinRoleId == p.onJoinRoleId.value)
      && (p.onJoinRoleId.Keep? ==> m.onJoinRoleId == current.onJoinRoleId)
      && (p.verificationEnabled.Set? ==> m.verificationEnabled == p.verificationEnabled.value)
      && (p.verificationEnabled.Keep? ==> m.verificationEnabled == current.verificationEnabled)
      && (p.minAccountAgeHours.Set? ==> m.minAccountAgeHours == p.minAccountAgeHours.value)
      && (p.minAccountAgeHours.Keep? ==> m.minAccountAgeHours == current.minAccountAgeHours)
      && (p.maxAttempts.Set? ==> m.maxAttempts == p.maxAttempts.value)
      && (p.maxAttempts.Keep? ==> m.maxAttempts == current.maxAttempts)
      && (p.warnThresholdMute.Set? ==> m.warnThresholdMute == p.warnThresholdMute.value)
      && (p.warnThresholdMute.Keep? ==> m.warnThresholdMute == current.warnThresholdMute)
      && (p.warnThresholdKick.Set? ==> m.warnThresholdKick == p.warnThresholdKick.value)
      && (p.warnThresholdKick.Keep? ==> m.warnThresholdKick == current.warnThresholdKick)
      && (p.warnThresholdBan.Set? ==> m.warnThresholdBan == p.warnThresholdBan.value)
      && (p.warnThresholdBan.Keep? ==> m.warnThresholdBan == current.warnThresholdBan)
      && (p.muteDurationDefault.Set? ==> m.muteDurationDefault == p.muteDurationDefault.value)
      && (p.muteDurationDefault.Keep? ==> m.muteDurationDefault == current.muteDurationDefault)
      && (p.dmDisabled.Set? ==> m.dmDisabled == p.dmDisabled.value)
      && (p.dmDisabled.Keep? ==> m.dmDisabled == current.dmDisabled)
      && (p.invitesDisabled.Set? ==> m.invitesDisabled == p.invitesDisabled.value)
      && (p.invitesDisabled.Keep? ==> m.invitesDisabled == current.invitesDisabled)
    ensures MergeConfig(current, NO_CONFIG_CHANGE) == current
  {
  }

  // ------------------------------------------------- verification records

  /** A stored verification_state row (without its key and timestamps). */
  datatype Record = Record(
    status: string,
    attempts: int,
    riskScore: int,
    riskReasons: Option<string>,
    manualRequired: int,
    reviewMessageId: Option<string>,
    manualReason: Option<string>,
    lastChallengeAt: Option<int>,   // milliseconds since the epoch
    inviteCode: Option<string>,
    reviewReminded: int)

  const DEFAULT_RECORD := Record(PENDING, 0, 0, None, 0, None, None, None, None, 0)

  /** The fields a caller supplies to upsertVerificationState. */
  datatype StatePatch = StatePatch(
    status: Patch<string>,
    attempts: Patch<int>,
    riskScore: Patch<int>,
    riskReasons: Patch<Option<string>>,
    manualRequired: Patch<int>,
    reviewMessageId: Patch<Option<string>>,
    manualReason: Patch<Option<string>>,
    lastChallengeAt: Patch<Option<int>>,
    inviteCode: Patch<Option<string>>,
    reviewReminded: Patch<int>)

  const NO_STATE_CHANGE := StatePatch(Keep, Keep, Keep, Keep, Keep, Keep, Keep, Keep, Keep, Keep)

  /**
   * The row upsertVerificationState leaves behind: defaults, overridden by
   * the stored row, overridden by the supplied fields, for the nine columns
   * the statement writes. review_reminded is not among them: an existing row
   * keeps its value and a new row gets the column default 0.
   */
  function Merge(current: Option<Record>, p: StatePatch): Record
  {
    var base := Coalesce(current, DEFAULT_RECORD);
    Record(
      Apply(p.status, base.status),
      Apply(p.attempts, base.attempts),
      Apply(p.riskScore, base.riskScore),
      Apply(p.riskReasons, base.riskReasons),
      Apply(p.manualRequired, base.manualRequired),
      Apply(p.reviewMessageId, base.reviewMessageId),
      Apply(p.manualReason, base.manualReason),
      Apply(p.lastChallengeAt, base.lastChallengeAt),
      Apply(p.inviteCode, base.inviteCode),
      if current.Some? then current.value.reviewReminded else 0)
  }

  /** Two patches applied in turn: the later one wins field by field. */
  function Then(p: StatePatch, q: StatePatch): StatePatch
  {
    StatePatch(
      if q.status.Set? then q.status else p.status,
      if q.attempts.Set? then q.attempts else p.attempts,
      if q.riskScore.Set? then q.riskScore else p.riskScore,
      if q.riskReasons.Set? then q.riskReasons else p.riskReasons,
      if q.manualRequired.Set? then q.manualRequired else p.manualRequired,
      if q.reviewMessageId.Set? then q.reviewMessageId else p.reviewMessageId,
      if q.manualReason.Set? then q.manualReason else p.manualReason,
      if q.lastChallengeAt.Set? then q.lastChallengeAt else p.lastChallengeAt,
      if q.inviteCode.Set? then q.inviteCode else p.inviteCode,
      if q.reviewReminded.Set? then q.reviewReminded else p.reviewReminded)
  }

  /** Supplying a field sets it; leaving it out keeps the stored value, or the default for a new row. */
  lemma MergeLayers(current: Option<Record>, p: StatePatch)
    ensures var m := Merge(current, p);
      (p.status.Set? ==> m.status == p.status.value)
      && (p.status.Keep? && current.Some? ==> m.status == current.value.status)
      && (p.status.Keep? && current.None? ==> m.status == DEFAULT_RECORD.status)
      && (p.attempts.Set? ==> m.attempts == p.attempts.value)
      && (p.attempts.Keep? && current.Some? ==> m.attempts == current.value.attempts)
      && (p.attempts.Keep? && current.None? ==> m.attempts == DEFAULT_RECORD.attempts)
      && (p.riskScore.Set? ==> m.riskScore == p.riskScore.value)
      && (p.riskScore.Keep? && current.Some? ==> m.riskScore == current.value.riskScore)
      && (p.riskScore.Keep? && current.None? ==> m.riskScore == DEFAULT_RECORD.riskScore)
      && (p.riskReasons.Set? ==> m.riskReasons == p.riskReasons.value)
      && (p.riskReasons.Keep? && current.Some? ==> m.riskReasons == current.value.riskReasons)
      && (p.riskReasons.Keep? && current.None? ==> m.riskReasons == DEFAULT_RECORD.riskReasons)
      && (p.manualRequired.Set? ==> m.manualRequired == p.manualRequired.value)
      && (p.manualRequired.Keep? && current.Some? ==> m.manualRequired == current.value.manualRequired)
      && (p.manualRequired.Keep? && current.None? ==> m.manualRequired == DEFAULT_RECORD.manualRequired)
      && (p.reviewMessageId.Set? ==> m.reviewMessageId == p.reviewMessageId.value)
      && (p.reviewMessageId.Keep? && current.Some? ==> m.reviewMessageId == current.value.reviewMessageId)
      && (p.reviewMessageId.Keep? && current.None? ==> m.reviewMessageId == DEFAULT_RECORD.reviewMessageId)
      && (p.manualReason.Set? ==> m.manualReason == p.manualReason.value)
      && (p.manualReason.Keep? && current.Some? ==> m.manualReason == current.value.manualReason)
      && (p.manualReason.Keep? && current.None? ==> m.manualReason == DEFAULT_RECORD.manualReason)
      && (p.lastChallengeAt.Set? ==> m.lastChallengeAt == p.lastChallengeAt.value)
      && (p.lastChallengeAt.Keep? && current.Some? ==> m.lastChallengeAt == current.value.lastChallengeAt)
      && (p.lastChallengeAt.Keep? && current.None? ==> m.lastChallengeAt == DEFAULT_RECORD.lastChallengeAt)
      && (p.inviteCode.Set? ==> m.inviteCode == p.inviteCode.value)
      && (p.inviteCode.Keep? && current.Some? ==> m.inviteCode == current.value.inviteCode)
      && (p.inviteCode.Keep? && current.None? ==> m.inviteCode == DEFAULT_RECORD.inviteCode)
    ensures current.Some? ==> Merge(current, NO_STATE_CHANGE) == current.value
  {
  }

  /** A supplied review_reminded is dropped: the upsert never changes that column. */
  lemma MergeNeverWritesReminded(current: Option<Record>, p: StatePatch)
    ensures Merge(current, p).reviewReminded == if current.Some? then current.value.reviewReminded else 0
    ensures Merge(current, p) == Merge(current, p.(reviewReminded := Keep))
  {
  }

  /** Two upserts in a row leave what one upsert of the combined fields leaves. */
  lemma MergeThen(current: Option<Record>, p: StatePatch, q: StatePatch)
    ensures Merge(Some(Merge(current, p)), q) == Merge(current, Then(p, q))
  {
  }

  // --------------------------------------------------------- warnings

  datatype Warning = Warning(id: nat, guild: GuildId, user: UserId, moderator: UserId,
                             reason: string, active: bool)

  const NO_REASON := "No reason provided"

  predicate ActiveFor(w: Warning, g: GuildId, u: UserId)
  {
    w.guild == g && w.user == u && w.active
  }

  /** COUNT(*) of active warnings for (guild, user). */
  function CountActive(ws: seq<Warning>, g: GuildId, u: UserId): nat
  {
    if ws == [] then 0
    else CountActive(ws[..|ws| - 1], g, u) + (if ActiveFor(ws[|ws| - 1], g, u) then 1 else 0)
  }

  /** The user's warnings, newest insertion first. */
  function SelectWarnings(ws: seq<Warning>, g: GuildId, u: UserId, activeOnly: bool): seq<Warning>
  {
    if ws == [] then []
    else
      var w := ws[|ws| - 1];
      (if w.guild == g && w.user == u && (!activeOnly || w.active) then [w] else [])
      + SelectWarnings(ws[..|ws| - 1], g, u, activeOnly)
  }

  /** The active count agrees with the length of the active-only warning list. */
  lemma {:induction false} CountMatchesList(ws: seq<Warning>, g: GuildId, u: UserId)
    ensures |SelectWarnings(ws, g, u, true)| == CountActive(ws, g, u)
  {
    if ws != [] {
      CountMatchesList(ws[..|ws| - 1], g, u);
    }
  }

  /** Every listed warning belongs to that guild and user, and is active when asked for. */
  lemma {:induction false} SelectWarningsSound(ws: seq<Warning>, g: GuildId, u: UserId, activeOnly: bool)
    ensures forall w :: w in SelectWarnings(ws, g, u, activeOnly) ==>
      w in ws && w.guild == g && w.user == u && (activeOnly ==> w.active)
  {
    if ws != [] {
      SelectWarningsSound(ws[..|ws| - 1], g, u, activeOnly);
    }
  }

  /** UPDATE warnings SET active = 0 WHERE guild_id = g AND user_id = u */
  function ClearedFor(ws: seq<Warning>, g: GuildId, u: UserId): (r: seq<Warning>)
    ensures |r| == |ws|
  {
    seq(|ws|, i requires 0 <= i < |ws| =>
      if ws[i].guild == g && ws[i].user == u then ws[i].(active := false) else ws[i])
  }

  /** UPDATE warnings SET active = 0 WHERE id = id AND guild_id = g */
  function DeactivatedById(ws: seq<Warning>, g: GuildId, id: nat): (r: seq<Warning>)
    ensures |r| == |ws|
  {
    seq(|ws|, i requires 0 <= i < |ws| =>
      if ws[i].id == id && ws[i].guild == g then ws[i].(active := false) else ws[i])
  }

  /** Clearing a user's warnings brings that user's count to zero and leaves every other pair's count alone. */
  lemma {:induction false} ClearedCounts(ws: seq<Warning>, g: GuildId, u: UserId, g2: GuildId, u2: UserId)
    ensures CountActive(ClearedFor(ws, g, u), g, u) == 0
    ensures (g2, u2) != (g, u) ==> CountActive(ClearedFor(ws, g, u), g2, u2) == CountActive(ws, g2, u2)
  {
    if ws != [] {
      var init := ws[..|ws| - 1];
      assert ClearedFor(ws, g, u)[..|ws| - 1] == ClearedFor(init, g, u);
      ClearedCounts(init, g, u, g2, u2);
    }
  }

  /** Deactivating by id never raises a count and never touches another guild's counts. */
  lemma {:induction false} DeactivatedCounts(ws: seq<Warning>, g: GuildId, id: nat, g2: GuildId, u2: UserId)
    ensures CountActive(DeactivatedById(ws, g, id), g2, u2) <= CountActive(ws, g2, u2)
    ensures g2 != g ==> CountActive(DeactivatedById(ws, g, id), g2, u2) == CountActive(ws, g2, u2)
  {
    if ws != [] {
      var init := ws[..|ws| - 1];
      assert DeactivatedById(ws, g, id)[..|ws| - 1] == DeactivatedById(init, g, id);
      DeactivatedCounts(init, g, id, g2, u2);
    }
  }

  /**
   * Deactivating one active warning of a user, whose id no other row has,
   * drops that user's count by exactly one, wherever the row sits in the table.
   */
  lemma {:induction false} DeactivateOne(ws: seq<Warning>, g: GuildId, u: UserId, k: nat)
    requires k < |ws| && ActiveFor(ws[k], g, u)
    requires forall i :: 0 <= i < |ws| && i != k ==> ws[i].id != ws[k].id
    ensures CountActive(DeactivatedById(ws, g, ws[k].id), g, u) == CountActive(ws, g, u) - 1
  {
    var n := |ws| - 1;
    var init := ws[..n];
    var id := ws[k].id;
    assert DeactivatedById(ws, g, id)[..n] == DeactivatedById(init, g, id);
    if k == n {
      assert DeactivatedById(init, g, id) == init;
    } else {
      assert init[k] == ws[k];
      DeactivateOne(init, g, u, k);
    }
  }

  // -------------------------------------------------------- action log

  /** The metadata objects the verification engine attaches to a logged action. */
  datatype Meta = ModeMeta(mode: string) | ReasonsMeta(reasons: seq<string>)

  datatype ModAction = ModAction(id: nat, guild: GuildId, actionType: string, user: UserId,
                                 moderator: UserId, reason: Option<string>, duration: Option<int>,
                                 metadata: Option<Meta>)

  /** The row logAction inserts: `reason ?? null`, `duration ?? null`. */
  function ActionRow(id: nat, g: GuildId, actionType: string, user: UserId, moderator: UserId,
                     reason: Option<string>, duration: Option<int>, metadata: Option<Meta>): (a: ModAction)
    ensures a.reason == reason && a.duration == duration && a.id == id
  {
    ModAction(id, g, actionType, user, moderator, reason, duration, metadata)
  }

  /** The older snapshot stores `reason || null` and `duration || null`: "" and 0 become null. */
  function ActionRowJs(id: nat, g: GuildId, actionType: string, user: UserId, moderator: UserId,
                       reason: Option<string>, duration: Option<int>, metadata: Option<Meta>): (a: ModAction)
    ensures a.reason.Some? <==> Truthy(reason)
    ensures a.duration.Some? <==> duration.Some? && duration.value != 0
    ensures a.reason.Some? ==> a.reason == reason
    ensures a.duration.Some? ==> a.duration == duration
  {
    ModAction(id, g, actionType, user, moderator,
      if Truthy(reason) then reason else None,
      if duration.Some? && duration.value != 0 then duration else None,
      metadata)
  }

  /** The two snapshots log the same row unless the reason is "" or the duration is 0. */
  lemma ActionRowsAgree(id: nat, g: GuildId, t: string, user: UserId, m: UserId,
                        reason: Option<string>, duration: Option<int>, meta: Option<Meta>)
    ensures ActionRowJs(id, g, t, user, m, reason, duration, meta) == ActionRow(id, g, t, user, m, reason, duration, meta)
        <==> reason != Some("") && duration != Some(0)
  {
  }

  // ---------------------------------------------------------- the store

  class Database {
    var configs: map<GuildId, GuildConfig>
    var states: map<Key, Record>
    var warnings: seq<Warning>
    var actions: seq<ModAction>

    /** Row ids are handed out by AUTOINCREMENT: the i-th row has id i + 1. */
    ghost predicate Valid()
      reads this
    {
      (forall i :: 0 <= i < |warnings| ==> warnings[i].id == i + 1)
      && (forall i :: 0 <= i < |actions| ==> actions[i].id == i + 1)
      && (forall g :: g in configs ==> configs[g].guildId == g)
    }

    constructor ()
      ensures Valid()
      ensures configs == map[] && states == map[] && warnings == [] && actions == []
    {
      configs := map[];
      states := map[];
      warnings := [];
      actions := [];
    }

    /** getGuildConfig: the stored row, or the defaults tagged with the guild id. */
    function GetGuildConfig(g: GuildId): (c: GuildConfig)
      reads this
      requires Valid()
      ensures c.guildId == g
      ensures g !in configs ==> c == DefaultConfig(g)
    {
      if g in configs then configs[g] else DefaultConfig(g)
    }

    method UpsertGuildConfig(g: GuildId, p: ConfigPatch)
      requires Valid()
      modifies this`configs
      ensures Valid()
      ensures configs == old(configs)[g := MergeConfig(old(GetGuildConfig(g)), p)]
    {
      configs := configs[g := MergeConfig(GetGuildConfig(g), p)];
    }

    /** The older snapshot's upsertGuildConfig. */
    method UpsertGuildConfigJs(g: GuildId, p: ConfigPatch)
      requires Valid()
      modifies this`configs
      ensures Valid()
      ensures configs == old(configs)[g := MergeConfig(old(GetGuildConfig(g)), JsPatch(p))]
    {
      UpsertGuildConfig(g, JsPatch(p));
    }

    method DeleteGuildConfig(g: GuildId)
      requires Valid()
      modifies this`configs
      ensures Valid()
      ensures configs == old(configs) - {g}
      ensures GetGuildConfig(g) == DefaultConfig(g)
    {
      configs := configs - {g};
    }

    /** getVerificationState: null when there is no row for the key. */
    function GetVerificationState(g: GuildId, u: UserId): (r: Option<Record>)
      reads this
      ensures r.Some? <==> Key(g, u) in states
      ensures r.Some? ==> r.value == states[Key(g, u)]
    {
      if Key(g, u) in states then Some(states[Key(g, u)]) else None
    }

    /** INSERT ... ON CONFLICT(guild_id, user_id) DO UPDATE: one row per key, others untouched. */
    method UpsertVerificationState(g: GuildId, u: UserId, p: StatePatch)
      modifies this`states
      ensures states == old(states)[Key(g, u) := Merge(old(GetVerificationState(g, u)), p)]
      ensures forall k :: k in old(states) && k != Key(g, u) ==> k in states && states[k] == old(states)[k]
    {
      states := states[Key(g, u) := Merge(GetVerificationState(g, u), p)];
    }

    method DeleteVerificationState(g: GuildId, u: UserId)
      modifies this`states
      ensures states == old(states) - {Key(g, u)}
      ensures GetVerificationState(g, u) == None
    {
      states := states - {Key(g, u)};
    }

    /** addWarning: one new active row; an empty or missing reason becomes the default text. */
    method AddWarning(g: GuildId, u: UserId, moderator: UserId, reason: Option<string>) returns (id: nat)
      requires Valid()
      modifies this`warnings
      ensures Valid()
      ensures id == |old(warnings)| + 1
      ensures warnings == old(warnings)
        + [Warning(id, g, u, moderator, if Truthy(reason) then reason.value else NO_REASON, true)]
      ensures ActiveWarningCount(g, u) == old(ActiveWarningCount(g, u)) + 1
    {
      id := |warnings| + 1;
      var w := Warning(id, g, u, moderator, if Truthy(reason) then reason.value else NO_REASON, true);
      warnings := warnings + [w];
      assert warnings[..|warnings| - 1] == old(warnings);
    }

    function GetWarnings(g: GuildId, u: UserId, activeOnly: bool): seq<Warning>
      reads this
    {
      SelectWarnings(warnings, g, u, activeOnly)
    }

    function ActiveWarningCount(g: GuildId, u: UserId): nat
      reads this
    {
      CountActive(warnings, g, u)
    }

    method DeactivateWarning(g: GuildId, id: nat)
      requires Valid()
      modifies this`warnings
      ensures Valid()
      ensures warnings == DeactivatedById(old(warnings), g, id)
    {
      warnings := DeactivatedById(warnings, g, id);
    }

    method ClearWarnings(g: GuildId, u: UserId)
      requires Valid()
      modifies this`warnings
      ensures Valid()
      ensures warnings == ClearedFor(old(warnings), g, u)
      ensures ActiveWarningCount(g, u) == 0
    {
      warnings := ClearedFor(warnings, g, u);
      ClearedCounts(old(warnings), g, u, g, u);
    }

    method LogAction(g: GuildId, actionType: string, user: UserId, moderator: UserId,
                     reason: Option<string>, duration: Option<int>, metadata: Option<Meta>)
      returns (id: nat)
      requires Valid()
      modifies this`actions
      ensures Valid()
      ensures id == |old(actions)| + 1
      ensures actions == old(actions) + [ActionRow(id, g, actionType, user, moderator, reason, duration, metadata)]
    {
      id := |actions| + 1;
      actions := actions + [ActionRow(id, g, actionType, user, moderator, reason, duration, metadata)];
    }

    /** The older snapshot's logAction. */
    method LogActionJs(g: GuildId, actionType: string, user: UserId, moderator: UserId,
                       reason: Option<string>, duration: Option<int>, metadata: Option<Meta>)
      returns (id: nat)
      requires Valid()
      modifies this`actions
      ensures Valid()
      ensures id == |old(actions)| + 1
      ensures actions == old(actions) + [ActionRowJs(id, g, actionType, user, moderator, reason, duration, metadata)]
    {
      id := |actions| + 1;
      actions := actions + [ActionRowJs(id, g, actionType, user, moderator, reason, duration, metadata)];
    }
  }
}
