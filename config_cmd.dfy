// The /config sub-commands that validate their options before writing the
// guild configuration: thresholds, muteduration, verificationroles,
// verificationrules and reset, plus the single-unit duration text of the
// configuration view.

module ConfigCommand {
  import opened Common
  import opened Store
  import Time

  /** What a validation step decides: the fields to write, or the error shown instead. */
  datatype Decision = Write(patch: ConfigPatch) | Refuse(error: string)

  /** The handler's end: no guild on the interaction, an error reply, or a config write. */
  datatype Outcome = NoGuild | Rejected(error: string) | Saved

  /** Writes the decided fields, or nothing when the decision is a refusal. */
  method Commit(db: Database, g: GuildId, d: Decision) returns (o: Outcome)
    requires db.Valid()
    modifies db`configs
    ensures db.Valid()
    ensures d.Refuse? ==> o == Rejected(d.error) && db.configs == old(db.configs)
    ensures d.Write? ==> o == Saved && db.configs == old(db.configs)[g := MergeConfig(old(db.GetGuildConfig(g)), d.patch)]
  {
    if d.Refuse? {
      return Rejected(d.error);
    }
    db.UpsertGuildConfig(g, d.patch);
    o := Saved;
  }

  // --------------------------------------------------------- thresholds

  const NO_THRESHOLD := "Provide at least one threshold to update."
  const THRESHOLDS_UNORDERED := "Thresholds must be in ascending order: mute < kick < ban."

  /** `!mute` is false: the integer option is present and not 0. */
  predicate Given(o: Option<int>)
  {
    o.Some? && o.value != 0
  }

  predicate Ascending(c: GuildConfig)
  {
    c.warnThresholdMute < c.warnThresholdKick < c.warnThresholdBan
  }

  /**
   * handleThresholds: refuse when no option is given, otherwise fill the
   * absent ones (`??`) from the stored config and write all three only if
   * they ascend strictly.
   */
  function ThresholdsDecision(c: GuildConfig, mute: Option<int>, kick: Option<int>, ban: Option<int>): Decision
  {
    if !Given(mute) && !Given(kick) && !Given(ban) then Refuse(NO_THRESHOLD)
    else
      var m := Coalesce(mute, c.warnThresholdMute);
      var k := Coalesce(kick, c.warnThresholdKick);
      var b := Coalesce(ban, c.warnThresholdBan);
      if m >= k || k >= b then Refuse(THRESHOLDS_UNORDERED)
      else Write(NO_CONFIG_CHANGE.(warnThresholdMute := Set(m), warnThresholdKick := Set(k), warnThresholdBan := Set(b)))
  }

  /**
   * A write happens exactly when some option is given and the merged values
   * ascend; it sets the three thresholds to the merged values and nothing else.
   */
  lemma ThresholdsWriteOnlyAscending(c: GuildConfig, mute: Option<int>, kick: Option<int>, ban: Option<int>)
    ensures var d := ThresholdsDecision(c, mute, kick, ban);
      var m := Coalesce(mute, c.warnThresholdMute);
      var k := Coalesce(kick, c.warnThresholdKick);
      var b := Coalesce(ban, c.warnThresholdBan);
      (!Given(mute) && !Given(kick) && !Given(ban) ==> d == Refuse(NO_THRESHOLD))
      && (d.Write? <==> (Given(mute) || Given(kick) || Given(ban)) && m < k < b)
      && (d.Write? ==> MergeConfig(c, d.patch) == c.(warnThresholdMute := m, warnThresholdKick := k, warnThresholdBan := b))
  {
  }

  /** Ascending thresholds stay ascending whatever the options are. */
  lemma ThresholdsKeepAscending(c: GuildConfig, mute: Option<int>, kick: Option<int>, ban: Option<int>)
    requires Ascending(c)
    ensures var d := ThresholdsDecision(c, mute, kick, ban);
      Ascending(if d.Write? then MergeConfig(c, d.patch) else c)
  {
    ThresholdsWriteOnlyAscending(c, mute, kick, ban);
  }

  method Thresholds(db: Database, g: Option<GuildId>, mute: Option<int>, kick: Option<int>, ban: Option<int>)
    returns (o: Outcome)
    requires db.Valid()
    modifies db`configs
    ensures db.Valid()
    ensures g.None? ==> o == NoGuild && db.configs == old(db.configs)
    ensures g.Some? ==>
      var d := ThresholdsDecision(old(db.GetGuildConfig(g.value)), mute, kick, ban);
      (d.Refuse? ==> o == Rejected(d.error) && db.configs == old(db.configs))
      && (d.Write? ==> o == Saved && db.configs == old(db.configs)[g.value := MergeConfig(old(db.GetGuildConfig(g.value)), d.patch)])
  {
    if g.None? {
      return NoGuild;
    }
    if !Given(mute) && !Given(kick) && !Given(ban) {
      return Rejected(NO_THRESHOLD);
    }
    var c := db.GetGuildConfig(g.value);
    o := Commit(db, g.value, ThresholdsDecision(c, mute, kick, ban));
  }

  // ------------------------------------------------------- muteduration

  const BAD_DURATION := "Invalid duration format. Use: 10s, 5m, 1h, 2d"
  const DURATION_OUT_OF_RANGE := "Duration must be between 1 second and 28 days."
  const MIN_TIMEOUT_MS := 1000
  const MAX_TIMEOUT_MS := 28 * 24 * 60 * 60 * 1000

  /** handleMuteDuration: a parse that is null or 0 is refused, then the range [1 s, 28 d] is checked. */
  function MuteDurationDecision(input: Option<string>): Decision
  {
    var ms := Time.ParseDuration(input);
    if ms.None? || ms.value == 0 then Refuse(BAD_DURATION)
    else if ms.value < MIN_TIMEOUT_MS || ms.value > MAX_TIMEOUT_MS then Refuse(DURATION_OUT_OF_RANGE)
    else Write(NO_CONFIG_CHANGE.(muteDurationDefault := Set(ms.value)))
  }

  /** The default mute duration is written only with a nonzero parse inside [1 s, 28 d], and only that field. */
  lemma MuteDurationWritesInRange(input: Option<string>)
    ensures var d := MuteDurationDecision(input);
      (d.Write? <==> exists ms :: Time.ParseDuration(input) == Some(ms) && MIN_TIMEOUT_MS <= ms <= MAX_TIMEOUT_MS)
      && (d.Write? ==> d.patch == NO_CONFIG_CHANGE.(muteDurationDefault := Set(Time.ParseDuration(input).value)))
  {
    var ms := Time.ParseDuration(input);
    if ms.Some? && MIN_TIMEOUT_MS <= ms.value <= MAX_TIMEOUT_MS {
      assert Time.ParseDuration(input) == Some(ms.value);
    }
  }

  /** Every nonzero parse is a whole number of seconds, so the one-second lower bound never refuses. */
  lemma {:induction false} ParsedDurationAtLeastOneSecond(input: Option<string>)
    requires Time.ParseDuration(input).Some? && Time.ParseDuration(input).value != 0
    ensures Time.ParseDuration(input).value >= MIN_TIMEOUT_MS
  {
    var t := Trim(input.value);
    assert Time.DurationShape(t);
    var n := DigitsValue(t[..|t| - 1]);
    var u := Time.UnitMs(t[|t| - 1]);
    assert Time.ParseDuration(input).value == n * u;
    assert n != 0;
    MulAtLeast(u, n);
  }

  method MuteDuration(db: Database, g: Option<GuildId>, input: Option<string>) returns (o: Outcome)
    requires db.Valid()
    modifies db`configs
    ensures db.Valid()
    ensures g.None? ==> o == NoGuild && db.configs == old(db.configs)
    ensures g.Some? ==>
      var d := MuteDurationDecision(input);
      (d.Refuse? ==> o == Rejected(d.error) && db.configs == old(db.configs))
      && (d.Write? ==> o == Saved && db.configs == old(db.configs)[g.value := MergeConfig(old(db.GetGuildConfig(g.value)), d.patch)])
  {
    if g.None? {
      return NoGuild;
    }
    o := Commit(db, g.value, MuteDurationDecision(input));
  }

  // -------------------------------------------------- verificationroles

  const SAME_ROLES := "Verified and unverified roles must be different roles."
  const NO_MANAGE_ROLES := "I need the **Manage Roles** permission to manage verification roles."
  const ROLES_TOO_HIGH := "My highest role must be above both verified and unverified roles."

  /** A role option as the interaction resolves it. */
  datatype RoleOption = RoleOption(id: string, position: int)

  /** The bot's own member: Manage Roles permission and the position of its highest role. */
  datatype BotView = BotView(manageRoles: bool, highest: int)

  /** handleVerificationRoles: distinct roles, Manage Roles, and both roles below the bot, in this order. */
  function RolesDecision(verified: RoleOption, unverified: RoleOption, bot: BotView): Decision
  {
    if verified.id == unverified.id then Refuse(SAME_ROLES)
    else if !bot.manageRoles then Refuse(NO_MANAGE_ROLES)
    else if verified.position >= bot.highest || unverified.position >= bot.highest then Refuse(ROLES_TOO_HIGH)
    else Write(NO_CONFIG_CHANGE.(verifiedRoleId := Set(Some(verified.id)), unverifiedRoleId := Set(Some(unverified.id))))
  }

  /** The two roles are stored exactly when they differ, the bot can manage roles and outranks both. */
  lemma RolesStoredOnlyWhenManageable(c: GuildConfig, verified: RoleOption, unverified: RoleOption, bot: BotView)
    ensures var d := RolesDecision(verified, unverified, bot);
      (d.Write? <==> verified.id != unverified.id && bot.manageRoles
                     && verified.position < bot.highest && unverified.position < bot.highest)
      && (d.Write? ==> MergeConfig(c, d.patch) == c.(verifiedRoleId := Some(verified.id), unverifiedRoleId := Some(unverified.id)))
      && (verified.id == unverified.id ==> d == Refuse(SAME_ROLES))
  {
  }

  method VerificationRoles(db: Database, g: Option<GuildId>, verified: RoleOption, unverified: RoleOption, bot: BotView)
    returns (o: Outcome)
    requires db.Valid()
    modifies db`configs
    ensures db.Valid()
    ensures g.None? ==> o == NoGuild && db.configs == old(db.configs)
    ensures g.Some? ==>
      var d := RolesDecision(verified, unverified, bot);
      (d.Refuse? ==> o == Rejected(d.error) && db.configs == old(db.configs))
      && (d.Write? ==> o == Saved && db.configs == old(db.configs)[g.value := MergeConfig(old(db.GetGuildConfig(g.value)), d.patch)])
  {
    if g.None? {
      return NoGuild;
    }
    o := Commit(db, g.value, RolesDecision(verified, unverified, bot));
  }

  // -------------------------------------------------- verificationrules

  const NO_RULE := "Provide at least one verification rule to update."
  const BAD_MIN_AGE := "Invalid duration. Minimum is 1 hour. Use a format like `1h`, `24h`, or `2d`."
  const MIN_AGE_TOO_LARGE := "Minimum account age cannot exceed 365 days."
  const MAX_MIN_AGE_HOURS := 8760

  /** `Math.round(ms / 3600000)` for a non-negative ms: halves round up. */
  function RoundHours(ms: nat): nat
  {
    (ms + Time.HOUR_MS / 2) / Time.HOUR_MS
  }

  /**
   * handleVerificationRules: at least one option; a given minimum age must
   * parse to at least one hour and round to at most 8760 hours; an omitted
   * rule is rewritten with its stored value.
   */
  function RulesDecision(c: GuildConfig, minAge: Option<string>, maxAttempts: Option<int>): Decision
  {
    if minAge.None? && maxAttempts.None? then Refuse(NO_RULE)
    else if minAge.Some? then
      var ms := Time.ParseDuration(minAge);
      if ms.None? || ms.value < Time.HOUR_MS then Refuse(BAD_MIN_AGE)
      else if RoundHours(ms.value) > MAX_MIN_AGE_HOURS then Refuse(MIN_AGE_TOO_LARGE)
      else Write(NO_CONFIG_CHANGE.(minAccountAgeHours := Set(RoundHours(ms.value)),
                                  maxAttempts := Set(Coalesce(maxAttempts, c.maxAttempts))))
    else Write(NO_CONFIG_CHANGE.(minAccountAgeHours := Set(c.minAccountAgeHours), maxAttempts := Set(maxAttempts.value)))
  }

  /** The rounded hour count is the nearest whole hour: within half an hour of ms. */
  lemma RoundHoursNearest(ms: nat)
    ensures RoundHours(ms) * Time.HOUR_MS <= ms + Time.HOUR_MS / 2 < (RoundHours(ms) + 1) * Time.HOUR_MS
    ensures ms >= Time.HOUR_MS ==> RoundHours(ms) >= 1
  {
  }

  /**
   * Both rules absent is refused; a written minimum age lies in [1, 8760]
   * hours and is the nearest hour to the parsed duration; an omitted rule
   * keeps its stored value and no other field changes.
   */
  lemma RulesWriteBounded(c: GuildConfig, minAge: Option<string>, maxAttempts: Option<int>)
    ensures var d := RulesDecision(c, minAge, maxAttempts);
      (minAge.None? && maxAttempts.None? ==> d == Refuse(NO_RULE))
      && (minAge.None? && maxAttempts.Some? ==>
            d.Write? && MergeConfig(c, d.patch) == c.(maxAttempts := maxAttempts.value))
      && (minAge.Some? ==>
            (d.Write? <==> exists ms :: Time.ParseDuration(minAge) == Some(ms) && ms >= Time.HOUR_MS
                                         && RoundHours(ms) <= MAX_MIN_AGE_HOURS))
      && (minAge.Some? && d.Write? ==>
            var ms := Time.ParseDuration(minAge).value;
            var n := MergeConfig(c, d.patch);
            n == c.(minAccountAgeHours := RoundHours(ms), maxAttempts := Coalesce(maxAttempts, c.maxAttempts))
            && 1 <= n.minAccountAgeHours <= MAX_MIN_AGE_HOURS
            && n.minAccountAgeHours * Time.HOUR_MS <= ms + Time.HOUR_MS / 2)
  {
    var ms := Time.ParseDuration(minAge);
    if minAge.Some? && ms.Some? {
      RoundHoursNearest(ms.value);
      if ms.value >= Time.HOUR_MS && RoundHours(ms.value) <= MAX_MIN_AGE_HOURS {
        assert Time.ParseDuration(minAge) == Some(ms.value);
      }
    }
  }

  method VerificationRules(db: Database, g: Option<GuildId>, minAge: Option<string>, maxAttempts: Option<int>)
    returns (o: Outcome)
    requires db.Valid()
    modifies db`configs
    ensures db.Valid()
    ensures g.None? ==> o == NoGuild && db.configs == old(db.configs)
    ensures g.Some? ==>
      var d := RulesDecision(old(db.GetGuildConfig(g.value)), minAge, maxAttempts);
      (d.Refuse? ==> o == Rejected(d.error) && db.configs == old(db.configs))
      && (d.Write? ==> o == Saved && db.configs == old(db.configs)[g.value := MergeConfig(old(db.GetGuildConfig(g.value)), d.patch)])
  {
    if g.None? {
      return NoGuild;
    }
    var c := db.GetGuildConfig(g.value);
    o := Commit(db, g.value, RulesDecision(c, minAge, maxAttempts));
  }

  // -------------------------------------------------------------- reset

  /** handleReset: delete the row, then upsert nothing, which stores the defaults. */
  method Reset(db: Database, g: GuildId)
    requires db.Valid()
    modifies db`configs
    ensures db.Valid()
    ensures db.configs == old(db.configs)[g := DefaultConfig(g)]
  {
    db.DeleteGuildConfig(g);
    db.UpsertGuildConfig(g, NO_CONFIG_CHANGE);
  }

  /** The older snapshot's reset, through its thirteen-column upsert: the same defaults. */
  method ResetJs(db: Database, g: GuildId)
    requires db.Valid()
    modifies db`configs
    ensures db.Valid()
    ensures db.configs == old(db.configs)[g := DefaultConfig(g)]
  {
    db.DeleteGuildConfig(g);
    db.UpsertGuildConfigJs(g, NO_CONFIG_CHANGE);
  }

  /**
   * The older snapshot's handlers decide exactly as these do; their
   * thirteen-column upsert writes the same fields, because none of the
   * patches above touches the three columns it leaves out.
   */
  lemma JsHandlersWriteSame(c: GuildConfig, mute: Option<int>, kick: Option<int>, ban: Option<int>, input: Option<string>)
    ensures var d := ThresholdsDecision(c, mute, kick, ban); d.Write? ==> JsPatch(d.patch) == d.patch
    ensures var d := MuteDurationDecision(input); d.Write? ==> JsPatch(d.patch) == d.patch
    ensures JsPatch(NO_CONFIG_CHANGE) == NO_CONFIG_CHANGE
  {
  }

  // ------------------------------------------------------------ formatMs

  /** The unit formatMs picks: the largest whose count would still be at least 1. */
  function MsUnit(ms: int): (u: char)
    ensures Time.IsUnit(u)
  {
    if ms < Time.MINUTE_MS then 's'
    else if ms < Time.HOUR_MS then 'm'
    else if ms < Time.DAY_MS then 'h'
    else 'd'
  }

  /** formatMs: floor to seconds, then to minutes, hours and days while each count reaches its next threshold. */
  function FormatMs(ms: int): string
  {
    var seconds := ms / 1000;
    if seconds < 60 then IntToString(seconds) + "s"
    else
      var minutes := seconds / 60;
      if minutes < 60 then IntToString(minutes) + "m"
      else
        var hours := minutes / 60;
        if hours < 24 then IntToString(hours) + "h"
        else IntToString(hours / 24) + "d"
  }

  /** A product of a positive number and a count of at least one is at least that number. */
  lemma {:induction false} MulAtLeast(d: int, k: int)
    requires d > 0 && k >= 1
    ensures d * k >= d
    decreases k
  {
    if k > 1 {
      MulAtLeast(d, k - 1);
      assert d * k == d * (k - 1) + d;
    }
  }

  /** Euclidean division has one quotient: any split a == d * q + r with 0 <= r < d is the one `/` gives. */
  lemma {:induction false} DivUnique(a: int, d: int, q: int, r: int)
    requires d > 0 && a == d * q + r && 0 <= r < d
    ensures a / d == q
  {
    var q0 := a / d;
    var r0 := a % d;
    assert a == d * q0 + r0 && 0 <= r0 < d;
    if q > q0 {
      assert d * (q - q0) == d * q - d * q0;
      MulAtLeast(d, q - q0);
    } else if q < q0 {
      assert d * (q0 - q) == d * q0 - d * q;
      MulAtLeast(d, q0 - q);
    }
  }

  /** b * r2 stays a whole b below b * c when r2 < c. */
  lemma {:induction false} ScaledBelow(b: int, c: int, r2: int)
    requires b > 0 && 0 <= r2 < c
    ensures 0 <= b * r2 <= b * c - b
  {
    if r2 > 0 {
      MulAtLeast(b, r2);
    }
    if r2 < c - 1 {
      MulAtLeast(b, c - 1 - r2);
      assert b * (c - 1 - r2) == b * c - b - b * r2;
    } else {
      assert b * c - b == b * (c - 1);
    }
  }

  lemma {:induction false} Regroup(b: int, c: int, q2: int, r2: int)
    ensures b * (c * q2 + r2) == (b * c) * q2 + b * r2
  {
  }

  lemma {:induction false} FloorOfFloor(a: int, b: int, c: int)
    requires b > 0 && c > 0
    ensures (a / b) / c == a / (b * c)
  {
    var q := a / b;
    var r := a % b;
    var q2 := q / c;
    var r2 := q % c;
    Regroup(b, c, q2, r2);
    ScaledBelow(b, c, r2);
    MulAtLeast(b, c);
    DivUnique(a, b * c, q2, b * r2 + r);
  }

  /**
   * formatMs prints one unit only: the count is ms floor-divided by the
   * picked unit, and the unit is seconds below a minute, minutes below an
   * hour, hours below a day and days otherwise.
   */
  lemma {:induction false} FormatMsSingleUnit(ms: int)
    ensures FormatMs(ms) == IntToString(ms / Time.UnitMs(MsUnit(ms))) + [MsUnit(ms)]
  {
    var s := ms / 1000;
    FloorOfFloor(ms, 1000, 60);
    FloorOfFloor(ms, 60000, 60);
    FloorOfFloor(ms, 3600000, 24);
    var m := s / 60;
    var h := m / 60;
    assert s < 60 <==> ms < Time.MINUTE_MS;
    if s >= 60 {
      assert m < 60 <==> ms < Time.HOUR_MS;
      if m >= 60 {
        assert h < 24 <==> ms < Time.DAY_MS;
      }
    }
  }

  /**
   * Reading back what formatMs prints gives the duration rounded down to its
   * unit: the text is always a valid duration for the parser.
   */
  lemma FormatMsParsesBack(ms: nat)
    ensures Time.ParseDuration(Some(FormatMs(ms))) == Some(ms - ms % Time.UnitMs(MsUnit(ms)))
  {
    var u := MsUnit(ms);
    var unit := Time.UnitMs(u);
    var n: nat := ms / unit;
    FormatMsSingleUnit(ms);
    assert FormatMs(ms) == NatToString(n) + [u];
    Time.ParseDurationUnpadded(n, u);
    DivTimesDivisor(ms, unit);
  }

  lemma DivTimesDivisor(a: int, d: int)
    requires d > 0
    ensures (a / d) * d == a - a % d
  {
  }
}
