// The message cards the bot replies with: success and error cards, the
// moderation-action card and the warning list.

module Embeds {
  import opened Common

  /** One name/value line of a card. */
  datatype Field = Field(name: string, value: string, inline: bool)

  /** A card as the builder leaves it; the timestamp (the clock) is not modelled. */
  datatype Embed = Embed(color: int, title: string, description: Option<string>, fields: seq<Field>, footer: string)

  const WARN_COLOR := 0xffa500
  const INFO_COLOR := 0x2ecc71
  const ERROR_COLOR := 0xe74c3c

  /** The colour table, keyed by action type. */
  const COLORS: map<string, int> := map[
    "WARN" := 0xffa500, "MUTE" := 0x3498db, "KICK" := 0xe67e22, "BAN" := 0xe74c3c, "PURGE" := 0x9b59b6,
    "VERIFY_QUEUE" := 0xffa500, "VERIFY_APPROVE" := 0x2ecc71, "VERIFY_REJECT" := 0xe74c3c,
    "VERIFY_RECHECK" := 0x3498db, "INFO" := INFO_COLOR, "ERROR" := ERROR_COLOR]

  const NO_REASON := "No reason provided"
  const MAX_WARNING_FIELDS := 25

  /** The footer text; the version is read from the package manifest at start-up. */
  function Footer(version: string): string
  {
    "Zentrynel v" + version + " — Built by Waren Gonzaga (WG Tech Labs)"
  }

  /** How a user renders inside a template string: a mention. */
  function Mention(userId: string): string
  {
    "<@" + userId + ">"
  }

  function SuccessEmbed(version: string, title: string, description: string): (e: Embed)
    ensures e.color == INFO_COLOR && e.title == title && e.description == Some(description) && e.fields == []
  {
    Embed(INFO_COLOR, title, Some(description), [], Footer(version))
  }

  function ErrorEmbed(version: string, description: string): (e: Embed)
    ensures e.color == ERROR_COLOR && e.title == "Error" && e.description == Some(description) && e.fields == []
  {
    Embed(ERROR_COLOR, "Error", Some(description), [], Footer(version))
  }

  /** `Colors[actionType] ?? Colors.INFO` */
  function ActionColor(actionType: string): (color: int)
    ensures actionType !in COLORS ==> color == INFO_COLOR
    ensures actionType in COLORS ==> color == COLORS[actionType]
  {
    if actionType in COLORS then COLORS[actionType] else INFO_COLOR
  }

  /** The older snapshot's `Colors[actionType] || Colors.INFO`. */
  function ActionColorJs(actionType: string): int
  {
    if actionType in COLORS && COLORS[actionType] != 0 then COLORS[actionType] else INFO_COLOR
  }

  /** No colour in the table is 0, so `??` and `||` pick the same colour for every action type. */
  lemma ActionColorsAgree(actionType: string)
    ensures ActionColorJs(actionType) == ActionColor(actionType)
  {
    if actionType in COLORS {
      assert COLORS[actionType] in COLORS.Values;
      assert forall v :: v in COLORS.Values ==> v != 0;
    }
  }

  function Names(fields: seq<Field>): (names: seq<string>)
  {
    seq(|fields|, i requires 0 <= i < |fields| => fields[i].name)
  }

  /**
   * modActionEmbed: User, Moderator and Reason always, in that order, with
   * the default reason for a missing or empty one; then Duration when the
   * duration is non-empty, then Details when the extra text is non-empty.
   */
  method ModActionEmbed(version: string, actionType: string, targetId: string, moderatorId: string,
                        reason: Option<string>, duration: Option<string>, extra: Option<string>)
    returns (e: Embed)
    ensures e.color == ActionColor(actionType) && e.title == actionType && e.description == None
    ensures Names(e.fields) == ["User", "Moderator", "Reason"]
      + (if Truthy(duration) then ["Duration"] else []) + (if Truthy(extra) then ["Details"] else [])
    ensures e.fields[0].value == Mention(targetId) + " (" + targetId + ")"
    ensures e.fields[1].value == Mention(moderatorId) + " (" + moderatorId + ")"
    ensures e.fields[2].value == if Truthy(reason) then reason.value else NO_REASON
    ensures Truthy(duration) ==> e.fields[3].value == duration.value
    ensures Truthy(extra) ==> e.fields[|e.fields| - 1].value == extra.value
  {
    var fields := [
      Field("User", Mention(targetId) + " (" + targetId + ")", true),
      Field("Moderator", Mention(moderatorId) + " (" + moderatorId + ")", true),
      Field("Reason", if Truthy(reason) then reason.value else NO_REASON, false)];
    if Truthy(duration) {
      fields := fields + [Field("Duration", duration.value, true)];
    }
    if Truthy(extra) {
      fields := fields + [Field("Details", extra.value, true)];
    }
    e := Embed(ActionColor(actionType), actionType, None, fields, Footer(version));
  }

  /** The user a warning list is about: either name may be missing. */
  datatype WarnTarget = WarnTarget(tag: Option<string>, username: Option<string>)

  /** One warning row as the warnings query returns it. */
  datatype WarnRow = WarnRow(id: int, createdAt: string, reason: string, moderatorId: string)

  /** `targetUser.tag ?? targetUser.username`; a missing value prints as "undefined". */
  function TargetName(t: WarnTarget): string
  {
    if t.tag.Some? then t.tag.value else if t.username.Some? then t.username.value else "undefined"
  }

  /** The older snapshot's `targetUser.tag || targetUser.username`. */
  function TargetNameJs(t: WarnTarget): string
  {
    if Truthy(t.tag) then t.tag.value else if t.username.Some? then t.username.value else "undefined"
  }

  /** The snapshots title the list alike unless the tag is the empty string. */
  lemma TargetNamesAgree(t: WarnTarget)
    ensures TargetNameJs(t) == TargetName(t) <==> t.tag != Some("") || t.username == Some("")
  {
  }

  function WarnField(w: WarnRow): Field
  {
    Field("#" + IntToString(w.id) + " — " + w.createdAt,
          "**Reason:** " + w.reason + "\n**By:** " + Mention(w.moderatorId), false)
  }

  function TotalLine(n: nat): string
  {
    "Total active warnings: **" + NatToString(n) + "**"
  }

  /**
   * warningListEmbed: one field per warning for the first 25 only, in order,
   * while the description counts every warning.
   */
  method WarningListEmbed(version: string, target: WarnTarget, warnings: seq<WarnRow>) returns (e: Embed)
    ensures e.color == WARN_COLOR && e.title == "Warnings for " + TargetName(target)
    ensures e.description == Some(TotalLine(|warnings|))
    ensures |e.fields| == Min(|warnings|, MAX_WARNING_FIELDS)
    ensures forall i :: 0 <= i < |e.fields| ==> e.fields[i] == WarnField(warnings[i])
  {
    var shown := warnings[..Min(|warnings|, MAX_WARNING_FIELDS)];
    var fields: seq<Field> := [];
    var i := 0;
    while i < |shown|
      invariant 0 <= i <= |shown|
      invariant |fields| == i
      invariant forall j :: 0 <= j < i ==> fields[j] == WarnField(shown[j])
    {
      fields := fields + [WarnField(shown[i])];
      i := i + 1;
    }
    e := Embed(WARN_COLOR, "Warnings for " + TargetName(target), Some(TotalLine(|warnings|)), fields, Footer(version));
  }

  function Min(a: int, b: int): int
  {
    if a < b then a else b
  }
}
