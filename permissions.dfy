// The hierarchy check a moderator's command runs before acting on a member.

module Permissions {
  import opened Common

  /** A guild member as the check sees it: id and the position of its highest role. */
  datatype Member = Member(id: string, highest: int)

  /** Who is asking, inside which guild. */
  datatype Context = Context(
    clientUserId: string,       // the bot's own user id
    invokerId: string,
    ownerId: Option<string>,    // absent when the guild is not resolvable
    bot: Option<Member>,        // the bot's own guild member, if resolvable
    invokerHighest: int)

  datatype ModerateResult = ModerateResult(allowed: bool, reason: Option<string>)

  const SELF_BOT := "I cannot moderate myself."
  const SELF_INVOKER := "You cannot moderate yourself."
  const OWNER := "Cannot moderate the server owner."
  const NO_BOT_MEMBER := "Unable to resolve my own member."
  const BOT_TOO_LOW := "My role is not high enough to moderate this user."
  const INVOKER_TOO_LOW := "Your role is not high enough to moderate this user."

  /**
   * Every refusal that applies to this target, in the order the checks are
   * listed; the check reports the first one.
   */
  function Refusals(ctx: Context, target: Member): seq<string>
  {
    (if target.id == ctx.clientUserId then [SELF_BOT] else [])
    + (if target.id == ctx.invokerId then [SELF_INVOKER] else [])
    + (if ctx.ownerId == Some(target.id) then [OWNER] else [])
    + (if ctx.bot.None? then [NO_BOT_MEMBER] else [])
    + (if ctx.bot.Some? && target.highest >= ctx.bot.value.highest then [BOT_TOO_LOW] else [])
    + (if target.highest >= ctx.invokerHighest then [INVOKER_TOO_LOW] else [])
  }

  /** canModerate, the version that guards against an unresolvable bot member. */
  function CanModerate(ctx: Context, target: Member): (r: ModerateResult)
    ensures r.allowed <==> r.reason.None?
    ensures r.allowed <==>
      target.id != ctx.clientUserId && target.id != ctx.invokerId && ctx.ownerId != Some(target.id)
      && ctx.bot.Some? && target.highest < ctx.bot.value.highest && target.highest < ctx.invokerHighest
    ensures target.id == ctx.clientUserId ==> r.reason == Some(SELF_BOT)
  {
    if target.id == ctx.clientUserId then ModerateResult(false, Some(SELF_BOT))
    else if target.id == ctx.invokerId then ModerateResult(false, Some(SELF_INVOKER))
    else if ctx.ownerId == Some(target.id) then ModerateResult(false, Some(OWNER))
    else if ctx.bot.None? then ModerateResult(false, Some(NO_BOT_MEMBER))
    else if target.highest >= ctx.bot.value.highest then ModerateResult(false, Some(BOT_TOO_LOW))
    else if target.highest >= ctx.invokerHighest then ModerateResult(false, Some(INVOKER_TOO_LOW))
    else ModerateResult(true, None)
  }

  /** The reported reason is the first applicable refusal, and there is none exactly when allowed. */
  lemma CanModerateReportsFirstRefusal(ctx: Context, target: Member)
    ensures var rs := Refusals(ctx, target);
      CanModerate(ctx, target).reason == if rs == [] then None else Some(rs[0])
  {
  }

  /**
   * canModerate in the older snapshot: no guard for the bot member, so the
   * bot's highest position is always given; otherwise the same order.
   */
  function CanModerateJs(clientUserId: string, invokerId: string, ownerId: string,
                         botHighest: int, invokerHighest: int, target: Member): (r: ModerateResult)
    ensures r.allowed <==> r.reason.None?
    ensures r.allowed <==>
      target.id != clientUserId && target.id != invokerId && target.id != ownerId
      && target.highest < botHighest && target.highest < invokerHighest
  {
    if target.id == clientUserId then ModerateResult(false, Some(SELF_BOT))
    else if target.id == invokerId then ModerateResult(false, Some(SELF_INVOKER))
    else if target.id == ownerId then ModerateResult(false, Some(OWNER))
    else if target.highest >= botHighest then ModerateResult(false, Some(BOT_TOO_LOW))
    else if target.highest >= invokerHighest then ModerateResult(false, Some(INVOKER_TOO_LOW))
    else ModerateResult(true, None)
  }

  /** Whenever the bot member and the guild resolve, the two snapshots give the same answer. */
  lemma CanModerateSnapshotsAgree(ctx: Context, ownerId: string, botMember: Member, target: Member)
    requires ctx.bot == Some(botMember) && ctx.ownerId == Some(ownerId)
    ensures CanModerate(ctx, target)
         == CanModerateJs(ctx.clientUserId, ctx.invokerId, ownerId, botMember.highest, ctx.invokerHighest, target)
  {
  }
}
