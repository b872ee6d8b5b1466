# Zentrynel member verification, modelled in Dafny

Zentrynel is a Discord moderation bot. This project models its member-verification engine and the small utilities around it:

- how a member arrives;
- the risk score;
- the captcha and identity challenges;
- the challenge sessions;
- the verification record store;
- reviewer decisions;
- the periodic sweep that reminds, expires and kicks;
- the invite diff that attributes a join;
- the command-side validators: `/config`, `/approve`, `canModerate` and warning escalation.

Every platform call is an input to the model: a fetch result, or whether a call succeeded or threw. The clock, random draws and the bot's version string are parameters too.

One module per source area:

| module | file | models |
|---|---|---|
| `Common` | common.dfy | JavaScript string helpers the code relies on (`trim`, ASCII case mapping, `split`, `join`, decimal text) |
| `Store` | store.dfy | `src/db/sqlite.ts` / `sqlite.js`: class `Database` with the config map, one verification record per (guild, user), warnings and the action log; merge-upserts |
| `Schema` | schema.dfy | `src/db/schema.ts`: adding missing columns and the schema-version bump |
| `Time` | time.dfy | `src/utils/time.ts` / `time.js`: `parseDuration` and `formatDuration` |
| `Risk` | risk.dfy | `evaluateRisk` and `getAccountAgeHours` |
| `Challenge` | challenge.dfy | captcha text, fake dates and the identity question, and the older snapshot's quiz with its Fisher–Yates shuffle |
| `Sessions` | sessions.dfy | the in-memory challenge-session map (class `SessionStore`): create, prune, claim |
| `Verification` | verification.dfy | `src/services/verification.ts`: config check, role guards, failed attempts, review queue, start guard chain, answer judging, reviewer decisions, button disabling, custom-id routing |
| `VerificationJs` | verification_js.dfy | the older `verification.js`: button-only routing, quiz start and answer, `Number.parseInt` on the button index |
| `InviteTracker` | invites.dfy | `inviteTracker.ts` / `.js`: class `Tracker` over the per-guild invite-count cache |
| `MemberAdd` | member_add.dfy | `guildMemberAdd.ts` / `.js` |
| `Approve` | approve.dfy | the `/approve` command |
| `Sweep` | sweep.dfy | `verificationSweep.ts`: remind, expire and kick phases, grouping and caps, class `SweepLoop` with the timers and the re-entrancy flag |
| `ConfigCommand` | config_cmd.dfy | the validating `/config` sub-commands and `formatMs`, both snapshots |
| `Permissions` | permissions.dfy | `canModerate`, both snapshots |
| `Moderation` | moderation.dfy | `checkEscalation`, both snapshots |
| `Embeds` | embeds.dfy | success, error, moderation-action and warning-list cards, both snapshots |

Where the JavaScript snapshot of a file behaves exactly like the TypeScript one, the same members model both. This covers:

- `evaluateRisk`, `registerFailedAttempt`, `queueManualReview`, the role guards and the reviewer decision in `verification.js`;
- the store operations in `sqlite.js`, except `logAction` and the config upsert;
- `inviteTracker.js` and `time.js`.

The rows below cite the TypeScript lines for these. Where the snapshots differ, a separate `...Js` member models the older code. A lemma then states how the two snapshots relate.

Behaviour of the code worth knowing:

- The captcha has 5 or 6 characters: the upper bound of `randomInt` is exclusive (src/services/verification.ts:60).
- `manual_required` is also 1 on rejected records: a rejection writes REJECTED with `manual_required` 1.
- `review_reminded` is never set: the verification upsert does not write that column. The sweep therefore cannot make a reminder happen only once; `Sweep.MarkRemindedKeepsRows` states this.
- A review is written as MANUAL_REVIEW only after its post succeeds. A failed post writes nothing.
- The invite resolver only compares use counts against the cached ones. An invite missing from the new listing, such as a used-up single-use invite, resolves to nothing, and two joins in one guild are not serialised.
- A session whose guild or user does not match is kept.
- Every VERIFIED write resets `attempts` to 0: `/approve`, a reviewer's approval and the start handler's already-verified path.
- `invite_code` is rewritten on every join, and the older snapshot never writes it.

## Model

| member | source | states |
|---|---|---|
| Risk.AccountAgeHours | src/services/verification.ts:1353-1355 | the age is the whole number of hours since creation, rounded down: h hours never exceed the elapsed time and h + 1 hours do |
| Risk.EvaluateRisk | src/services/verification.ts:1047-1088 | a bot scores 100 with manual review and the single bot reason; a human scores 2 for an account younger than the minimum plus 1 each for no avatar, a five-digit run and a suspicious keyword, one reason per fired rule in rule order; manual review exactly when the score is at least 3 |
| Risk.RuleScoreBounds | src/services/verification.ts:1063-1087 | a human's score lies between 0 and 5, there are at most four reasons, and the score is 0 exactly when no reason is given |
| Risk.ManualReviewNeedsTwoSources | src/services/verification.ts:1063-1087 | reaching the manual-review threshold takes at least two fired rules; an account old enough needs all three one-point rules |
| Risk.PatternExamples | src/services/verification.ts:1073-1081 | the digit-run rule fires on five digits in a row and not on four, and the keyword rule ignores case |
| Challenge.GenerateCaptcha | src/services/verification.ts:59-66 | the text has 5 or 6 characters (the upper length bound is exclusive), each drawn from the 24-character alphabet, and the answer is the text itself |
| Challenge.GenerateFakeDates | src/services/verification.ts:571-585 | at most count × 10 draws; the fakes are exactly the renderings of the consumed draws that differ from the real date, each kept the first time it appears and in that order, so pairwise distinct; at most count of them, and fewer only when every draw was used |
| Challenge.FirstSeenCovers | src/services/verification.ts:571-585 | every consumed draw renders either the real date or one of the kept fakes |
| Challenge.Splice | src/services/verification.ts:610 | inserting one option grows the list by one and puts it at the position, or at the end when the position is past it; the other options keep their order around it |
| Challenge.AskDateWithThreeFakes | src/services/verification.ts:607-611 | with three fakes the correct date is the option at answerPos, no other option equals it, and the expected reply is answerPos + 1 |
| Challenge.AskDateShortListDisagrees | src/services/verification.ts:607-611 | with fewer than three fakes the expected reply can name an option that does not show the correct date |
| Challenge.QuestionTypes | src/services/verification.ts:593-596 | the join-date and creation-date questions are always possible; the invite-code question only when the stored record has a non-empty invite code |
| Challenge.BuildContextChallenge | src/services/verification.ts:587-634 | the drawn question type is asked; an invite question expects the stored code; a date question numbers at most four options, expects answerPos + 1 and, with four options, shows the correct date there and nowhere else |
| Challenge.Label | src/services/verification.js:452-457 | every option is tagged with its original position |
| Challenge.Shuffle | src/services/verification.js:481-490 | the swap loop returns a permutation of its input, which it does not modify |
| Challenge.PermutedCaptions | src/services/verification.js:452-472 | reordering the labelled options reorders their captions: the same captions, each as often |
| Challenge.FindIndex | src/services/verification.js:458 | the first position whose original index is the target, or -1 exactly when there is none |
| Challenge.AnswerIndexFindsCorrectLabel | src/services/verification.js:450-458 | after any permutation the answer index is a valid position that shows the template's correct label |
| Sessions.UnexpiredExactly | src/services/verification.ts:1381-1388 | a pruned map keeps exactly the sessions whose expiry is after now, each unchanged |
| Sessions.PruneAndTimeoutBoundary | src/services/verification.ts:474 | no session that survives a prune is judged timed out at the same instant; a session expiring exactly now is pruned though it would not be judged timed out |
| Sessions.FreshSessionLifetime | src/services/verification.ts:1026-1045 | a session created at t with the 300000 ms lifetime survives a prune at now exactly while now < t + 300000 |
| Sessions.ClaimOf | src/services/verification.ts:450-472 | an answer claims a session exactly when the id is present and the session's guild and user are the answering member's; a missing id finds nothing, a foreign session is refused |
| Sessions.SessionStore.Prune | src/services/verification.ts:1381-1388 | the loop deletes exactly the sessions whose expiry is at or before now |
| Sessions.SessionStore.Put | src/services/verification.ts:1033-1039 | a new session is stored under its id, overwriting a colliding one, and nothing else changes |
| Sessions.SessionStore.Peek | src/services/verification.ts:415-431 | the lookup before opening the answer form judges ownership like an answer and deletes nothing |
| Sessions.SessionStore.Take | src/services/verification.ts:450-472 | an owned session is deleted before anything else is judged; a missing or foreign one leaves the map unchanged |
| Sessions.ClaimedOnce | src/services/verification.ts:472 | after a claim the same id finds nothing for anyone, so a session is judged at most once |
| Sessions.SessionStore.constructor | src/services/verification.ts:42 | the session map starts empty |
| Verification.ValidateConfig | src/services/verification.ts:1343-1351 | the config passes exactly when verification is enabled and the verify channel, review channel and both roles are set; a disabled guild gets the disabled error first |
| Verification.DefaultConfigRefused | src/services/verification.ts:1343-1344 | a guild with the default config cannot start verification: it is reported as disabled |
| Verification.RoleGuardPasses | src/services/verification.ts:1228-1267 | the role guard passes exactly when both roles are configured and found, the bot has Manage Roles and outranks the member and both roles |
| Verification.ApplyRoles | src/services/verification.ts:1228-1283 | a refusal comes exactly from a failed guard; the roles are applied exactly when the guard passes and the role calls succeed |
| Verification.QueueWrites | src/services/verification.ts:1136-1218 | only a posted review message writes: MANUAL_REVIEW, manual_required 1, the new message id, the challenge time cleared, the attempt count kept, plus one log row; a missing channel, an unreachable one or a live existing review message writes nothing |
| Verification.QueueManualReview | src/services/verification.ts:1126-1226 | the result is the queue decision for the stored record, and the store changes by exactly the write and log row that decision calls for |
| Verification.FailedAttemptCases | src/services/verification.ts:1090-1124 | below the limit the record returns to PENDING with one more attempt and the review fields cleared; at the limit with no resolvable member nothing is written; at the limit with the member the new count is written and a review queued |
| Verification.RegisterFailedAttempt | src/services/verification.ts:1090-1124 | the outcome and the store change are exactly those of the failed-attempt step on the stored config and record |
| Verification.CooldownRemaining | src/services/verification.ts:330-334 | the seconds left are the ceiling of the remaining cooldown, between 1 and 30 |
| Verification.IssueChallengeOnlyWhenClear | src/services/verification.ts:272-381 | a challenge is issued only when every earlier guard passed: guild, valid config, verify channel, resolvable member without the verified role, no pending review, no cooldown, low risk and attempts left |
| Verification.InReviewRefusedUnlessVerified | src/services/verification.ts:305-327 | a member whose record is in MANUAL_REVIEW is refused a new start unless they already hold the verified role |
| Verification.CaptchaSession | src/services/verification.ts:1033-1039 | the stored captcha session expires five minutes after its creation time |
| Verification.Start | src/services/verification.ts:272-413 | the decision follows the guard chain; already verified writes VERIFIED with no attempts; a challenge writes CHALLENGE with the time stamped and stores a 5- or 6-character captcha session; the queue paths write what the queue decides; every other path writes nothing |
| Verification.CaptchaPassesExactly | src/services/verification.ts:474-516 | a captcha passes exactly when not past the expiry, not solved in under 3000 ms, and the trimmed upper-cased answer equals the text; an identity answer passes exactly when in time and its trimmed text equals the answer |
| Verification.GeneratedCaptchaUpperAlnum | src/services/verification.ts:55 | every captcha character is an upper-case letter or digit |
| Verification.CaptchaAcceptsLowerCasePadded | src/services/verification.ts:504-505 | a captcha typed in lower case with surrounding spaces is accepted when in time |
| Verification.ContextAnswerCaseSensitive | src/services/verification.ts:773-774 | the identity answer is compared case-sensitively: an answer with a lower-case letter typed in upper case is refused |
| Verification.ContextSession | src/services/verification.ts:634-641 | the identity-question session has phase 'context' and a five-minute lifetime |
| Verification.AnswerCaptcha | src/services/verification.ts:450-566 | a missing or foreign session changes nothing; an owned one is deleted first; a failed check registers a failed attempt; a pass with the member issues the identity question under a new session and writes nothing to the store |
| Verification.AutoVerifyNeedsRoles | src/services/verification.ts:811-861 | a member becomes VERIFIED (with no attempts) exactly through a successful role change; a refused change can only queue a review |
| Verification.AutoVerify | src/services/verification.ts:811-861 | the outcome and store change are those of the automated approval step for the role outcome |
| Verification.AnswerContext | src/services/verification.ts:735-862 | the session is claimed and deleted first; a wrong or late answer registers a failed attempt; a pass with guild and member runs the automated approval; otherwise nothing is written |
| Verification.ReviewWrites | src/services/verification.ts:889-1015 | approve writes VERIFIED with no attempts only when the member is present and the roles apply; reject writes REJECTED with manual_required 1 and goes through when the member is gone; any other decision writes PENDING with no attempts; every write has its log row |
| Verification.ManualReviewAction | src/services/verification.ts:863-1024 | outside a guild or without Moderate Members nothing is written; otherwise the outcome and the store change are those of the review step |
| Verification.DisableButtonRows | src/services/verification.ts:1373-1379 | the same rows and buttons, each disabled and otherwise unchanged |
| Verification.DisableIdempotent | src/services/verification.ts:1373-1379 | disabling the rows twice gives the same rows as disabling them once |
| Verification.RouteOf | src/services/verification.ts:226-270 | non-buttons other than the two answer forms are ignored without pruning; every button and both routed forms prune first |
| Verification.VerifyIdSplit | src/services/verification.ts:228 | an id "verify:action:rest" splits on ':' into its three parts |
| Verification.StartButtonRoutes | src/services/verification.ts:402 | the start button routes to the start handler |
| Verification.AnswerButtonRoutes | src/services/verification.ts:398 | the answer button routes to the answer form with its session id |
| Verification.ContextButtonRoutes | src/services/verification.ts:552 | the identity button routes to the identity form with its session id |
| Verification.ReviewButtonRoutes | src/services/verification.ts:1182-1193 | a review button routes to the review handler with its decision and member id |
| Verification.CaptchaModalRoutes | src/services/verification.ts:435 | the captcha form routes to the captcha answer handler with its session id |
| Verification.ContextModalRoutes | src/services/verification.ts:720 | the identity form routes to the identity answer handler with its session id |
| Verification.EmittedIdsRoute | src/services/verification.ts:226-270 | every custom id the handlers emit routes back to the handler it names |
| Verification.HandleInteraction | src/services/verification.ts:226-270 | the routed handler is the one the custom id names; the sessions are pruned exactly when the route says so |
| VerificationJs.RouteOfJs | src/services/verification.js:41-65 | only buttons are handled, each after a prune; the routes are start, quiz answer and review, everything else is ignored |
| VerificationJs.HandleInteractionJs | src/services/verification.js:41-65 | the routed handler is the one the id names, and the sessions are pruned exactly for a button |
| VerificationJs.DigitPrefix | src/services/verification.js:211 | the longest run of leading digits, which parseInt reads |
| VerificationJs.ParseIntOfIndex | src/services/verification.js:211 | a printed button index parses back to the same index |
| VerificationJs.ParseIntLenient | src/services/verification.js:211-212 | parseInt reads a leading number and ignores what follows, and gives NaN for a word |
| VerificationJs.QuizSession | src/services/verification.js:461-466 | a quiz session stores the answer position with no creation time and a five-minute lifetime |
| VerificationJs.TemplatesWellFormed | src/services/verification.js:18-39 | every template has four options and its answer is the first |
| VerificationJs.CreateQuiz | src/services/verification.js:450-479 | the shown captions are the template's options in shuffled order, each exactly as often as in the template, the answer index points at the correct caption, the button ids are "verify:ans:sid:i" in order, and the session is stored under the drawn id |
| VerificationJs.StartJs | src/services/verification.js:67-174 | the guard chain of the current snapshot without the cooldown: already verified, review refused, risk, attempt limit, then a quiz with CHALLENGE written |
| VerificationJs.QuizButtonRoutes | src/services/verification.js:54-57 | a quiz button routes to the quiz judge with its session id and printed position |
| VerificationJs.QuizButtonJudged | src/services/verification.js:211-212 | in time, the button at the stored position passes and any other fails |
| VerificationJs.AnswerJs | src/services/verification.js:176-289 | the session is claimed and deleted first; a late answer, a non-numeric or wrong index registers a failed attempt; a correct one with the member runs the automated approval, queueing a review with score 0 when the roles are refused |
| Store.MergeConfigSuppliedWins | src/db/sqlite.ts:70-154 | after a config upsert every supplied field holds the supplied value and every other field its current value; an empty upsert changes nothing |
| Store.JsPatch | src/db/sqlite.js:53-125 | the older config upsert never writes the on-join role, DM and invite flags |
| Store.MergeLayers | src/db/sqlite.ts:193-256 | an upserted record holds each supplied field, and for every other field the stored value, or the default for a new row; an empty upsert of a stored row changes nothing |
| Store.MergeNeverWritesReminded | src/db/sqlite.ts:202-255 | review_reminded is not among the written columns: it keeps its stored value (0 for a new row) whatever is supplied |
| Store.MergeThen | src/db/sqlite.ts:193-256 | two upserts in a row leave what one upsert of the combined fields leaves, the later winning field by field |
| Store.CountMatchesList | src/db/sqlite.ts:281-305 | the active-warning count equals the length of the active-only warning list |
| Store.SelectWarningsSound | src/db/sqlite.ts:281-296 | every listed warning belongs to that guild and user, and is active when only active ones are asked for |
| Store.ClearedFor | src/db/sqlite.ts:313-317 | clearing keeps every warning row and its order |
| Store.DeactivatedById | src/db/sqlite.ts:307-311 | deactivating by id keeps every warning row and its order |
| Store.ClearedCounts | src/db/sqlite.ts:313-317 | clearing brings that user's active count in that guild to 0 and leaves every other pair's count unchanged |
| Store.DeactivatedCounts | src/db/sqlite.ts:307-311 | deactivating never raises a count and never changes another guild's counts |
| Store.DeactivateOne | src/db/sqlite.ts:307-311 | deactivating any active warning of a user, whose id no other row has, lowers that user's count by exactly one |
| Store.ActionRow | src/db/sqlite.ts:321-344 | the logged row keeps the reason and duration as given (`??` keeps "" and 0) and carries its row id |
| Store.ActionRowJs | src/db/sqlite.js:265-280 | the older log row stores a reason exactly when it is non-empty and a duration exactly when it is non-zero |
| Store.ActionRowsAgree | src/db/sqlite.js:273-274 | the two snapshots log the same row exactly unless the reason is "" or the duration is 0 |
| Store.Database.constructor | src/db/sqlite.ts:18-33 | a new store is empty and valid |
| Store.Database.GetGuildConfig | src/db/sqlite.ts:63-68 | the stored config, or the defaults tagged with the guild id when there is no row |
| Store.Database.UpsertGuildConfig | src/db/sqlite.ts:70-154 | the guild's config becomes the merge of its current config with the supplied fields; other guilds are untouched |
| Store.Database.UpsertGuildConfigJs | src/db/sqlite.js:53-125 | the same merge without the three columns the older upsert does not write |
| Store.Database.DeleteGuildConfig | src/db/sqlite.ts:156-158 | only that guild's row is removed, so it reads as the defaults again |
| Store.Database.GetVerificationState | src/db/sqlite.ts:185-191 | null exactly when there is no row for the key, the stored row otherwise |
| Store.Database.UpsertVerificationState | src/db/sqlite.ts:193-256 | the key's record becomes the merge of the stored record (or defaults) with the supplied fields; every other key is unchanged |
| Store.Database.DeleteVerificationState | src/db/sqlite.ts:258-262 | only that key is removed, and it then reads as null |
| Store.Database.AddWarning | src/db/sqlite.ts:266-279 | one active warning is appended with the next id and the default reason for a missing or empty one; that user's active count rises by one |
| Store.Database.DeactivateWarning | src/db/sqlite.ts:307-311 | only the warning with that id in that guild becomes inactive |
| Store.Database.ClearWarnings | src/db/sqlite.ts:313-317 | that user's warnings in that guild become inactive, so their active count is 0 |
| Store.Database.LogAction | src/db/sqlite.ts:321-344 | one row is appended with the next id, and nothing else changes |
| Store.Database.LogActionJs | src/db/sqlite.js:265-280 | one row is appended with the older snapshot's `||` coalescing |
| Schema.FirstWord | src/db/schema.ts:27 | the column name is a prefix of the definition and contains no space |
| Schema.FirstWordPrefix | src/db/schema.ts:27 | the first piece of a split on ' ' is a prefix of the text |
| Schema.MissingCovers | src/db/schema.ts:26-30 | every definition with a non-empty first word names a column that is present or about to be added |
| Schema.NothingMissing | src/db/schema.ts:28 | a table that already has every required column gets nothing added |
| Schema.EnsureColumnsIdempotent | src/db/schema.ts:23-30 | a second call after the additions adds nothing |
| Schema.Latest | src/db/schema.ts:149-151 | the newest recorded version is one of the versions and at least every other |
| Schema.SchemaDb.EnsureColumnsExist | src/db/schema.ts:18-31 | only that table changes; the missing columns are appended in order, and afterwards every required column name is present |
| Schema.SchemaDb.BumpVersion | src/db/schema.ts:149-156 | CURRENT_VERSION (6) is recorded when there is no version row or the newest is older, so afterwards the newest is at least 6; otherwise nothing changes |
| InviteTracker.Snapshot | src/services/inviteTracker.ts:10-13 | the fresh map holds exactly the listed codes |
| InviteTracker.SnapshotHoldsUses | src/services/inviteTracker.ts:10-13 | with distinct codes each code maps to its own use count (a missing count as 0) |
| InviteTracker.FirstUsed | src/services/inviteTracker.ts:26-32 | null exactly when no listed invite's uses exceed its cached count (uncached as 0); otherwise a listed code, the first in listing order whose count rose |
| InviteTracker.SecondResolveFindsNothing | src/services/inviteTracker.ts:26-39 | resolving against the snapshot of the same listing finds nothing, so a second resolve with no new use returns null |
| InviteTracker.Tracker.constructor | src/services/inviteTracker.ts:5 | the cache starts empty |
| InviteTracker.Tracker.BuildSnapshot | src/services/inviteTracker.js:34-37 | the loop builds exactly the snapshot map |
| InviteTracker.Tracker.CacheGuildInvites | src/services/inviteTracker.ts:7-18 | a listing replaces that guild's counts with the snapshot; a failed listing leaves the cache unchanged |
| InviteTracker.Tracker.ResolveUsedInvite | src/services/inviteTracker.ts:20-46 | a failed listing returns null with the cache unchanged; otherwise the first code whose count rose against the old counts is returned and the guild's counts become the snapshot, other guilds untouched |
| InviteTracker.Tracker.ClearGuildCache | src/services/inviteTracker.ts:48-50 | only that guild's entry is removed |
| Permissions.CanModerate | src/utils/permissions.ts:8-37 | allowed with a null reason exactly when the target is not the bot, the invoker or the owner, the bot member resolves and the target ranks below both the bot and the invoker; targeting the bot is refused first |
| Permissions.CanModerateReportsFirstRefusal | src/utils/permissions.ts:12-34 | the reported reason is the first applicable refusal in check order, and there is none exactly when allowed |
| Permissions.CanModerateJs | src/utils/permissions.js:1-24 | the older check: allowed exactly when the target is not the bot, the invoker or the owner and ranks below the bot and the invoker |
| Permissions.CanModerateSnapshotsAgree | src/utils/permissions.js:14-17 | whenever the bot member and the guild resolve, both snapshots give the same answer |
| Time.ParseTrimmed | src/utils/time.ts:11-17 | a trimmed text yields a value exactly when it is one or more digits followed by one of s, m, h, d in either case |
| Time.ParseDuration | src/utils/time.ts:8-18 | null for a missing or empty input; otherwise a value exactly when the whitespace-trimmed text has the digits-then-unit shape |
| Time.ParseDurationAccepts | tests/utils/time.test.ts:19-45 | any whitespace padding around any digit string and unit letter parses to the number times that unit's milliseconds |
| Time.ParseDurationNeedsTrailingUnit | tests/utils/time.test.ts:11-17 | text whose trimmed form ends in a digit never parses |
| Time.ParseDurationUnpadded | src/utils/time.ts:11-17 | the unpadded text of n and a unit letter parses to n times the unit's milliseconds |
| Time.BreakdownExact | src/utils/time.ts:24-27 | the hours, minutes and seconds are below 24, 60 and 60, and the four components add back up to the duration less its sub-second part |
| Time.FormatDuration | src/utils/time.ts:21 | a missing or non-positive duration renders as "0 seconds" |
| Time.FormatDurationEmptyIffSubSecond | src/utils/time.ts:20-35 | a positive duration renders as the empty string exactly when it is under one second |
| Time.BreakdownOfOneUnit | src/utils/time.ts:24-27 | n of one unit that does not spill into the next unit breaks down to n in that unit's component and zero elsewhere |
| Time.OneUnitPositive | src/utils/time.ts:17 | a positive count of any unit is a positive duration |
| Time.FormatOneUnit | tests/utils/time.test.ts:57-75 | n of one unit renders as "n unit", with an "s" exactly when n is not 1 |
| Time.FormatParseRoundTrip | tests/utils/time.test.ts:88-93 | formatting the parse of "<n><unit>" gives "n unit(s)" for every unit and every n that fits the unit |
| ConfigCommand.Commit | src/commands/config.ts:295-299 | a refusal replies with its error and leaves every config untouched; a write merges the decided fields into the guild's stored config |
| ConfigCommand.ThresholdsWriteOnlyAscending | src/commands/config.ts:276-299 | no option given is refused; a write happens exactly when some option is given and the merged mute, kick and ban values ascend strictly, and it changes the three thresholds and nothing else |
| ConfigCommand.ThresholdsKeepAscending | src/commands/config.ts:288-299 | a config whose thresholds ascend still has ascending thresholds after the command, whatever the options |
| ConfigCommand.Thresholds | src/commands/config.ts:269-309 | no guild does nothing; otherwise the reply and the new config table are those of the thresholds decision on the stored config |
| ConfigCommand.MuteDurationWritesInRange | src/commands/config.ts:317-334 | the default mute duration is written exactly when the parse is present and within 1 second to 28 days, and only that field is set, to the parsed value |
| ConfigCommand.ParsedDurationAtLeastOneSecond | src/commands/config.ts:319-327 | every nonzero parse is at least 1000 ms, so the lower range check never fires after the null-or-zero check |
| ConfigCommand.MuteDuration | src/commands/config.ts:311-339 | no guild does nothing; otherwise the reply and the new config table follow the mute-duration decision |
| ConfigCommand.RolesStoredOnlyWhenManageable | src/commands/config.ts:409-437 | the verified and unverified roles are stored exactly when they differ, the bot has Manage Roles and its highest role is above both; equal roles are refused first |
| ConfigCommand.VerificationRoles | src/commands/config.ts:403-447 | no guild does nothing; otherwise the reply and the new config table follow the roles decision |
| ConfigCommand.RoundHoursNearest | src/commands/config.ts:475 | the rounded hour count is the nearest whole hour, halves rounding up, and at least 1 for at least one hour |
| ConfigCommand.RulesWriteBounded | src/commands/config.ts:455-489 | both rules absent is refused; a given minimum age is written exactly when it parses to at least one hour and rounds to at most 8760 hours, then lies in [1, 8760]; an omitted rule keeps its stored value and nothing else changes |
| ConfigCommand.VerificationRules | src/commands/config.ts:449-500 | no guild does nothing; otherwise the reply and the new config table follow the rules decision on the stored config |
| ConfigCommand.Reset | src/commands/config.ts:570-579 | the guild's config becomes the default config and every other guild's is unchanged |
| ConfigCommand.ResetJs | src/commands/config.js:209-216 | the older reset, through its narrower upsert, also leaves exactly the default config |
| ConfigCommand.JsHandlersWriteSame | src/commands/config.js:141-207 | the older thresholds and mute-duration handlers write exactly the fields the newer ones write |
| ConfigCommand.MsUnit | src/commands/config.ts:581-589 | the unit picked is always one the duration parser accepts |
| ConfigCommand.FormatMsSingleUnit | src/commands/config.ts:581-589 | the text is one count and one unit: seconds below a minute, minutes below an hour, hours below a day, days otherwise, the count being the duration floor-divided by that unit |
| ConfigCommand.FormatMsParsesBack | src/commands/config.ts:581-589 | the printed text parses back to the duration rounded down to its unit |
| Moderation.TierExactlyOne | src/services/moderation.ts:28-124 | the ban tier is chosen exactly when the count reaches the ban threshold, kick exactly when it reaches kick but not ban, mute exactly when it reaches mute but neither of the others, and no tier otherwise |
| Moderation.TierMonotone | src/services/moderation.ts:28-90 | a larger warning count never chooses a milder tier, whatever the thresholds |
| Moderation.EscalationOutcomes | src/services/moderation.ts:19-126 | escalated exactly when in a guild, the target is a member, a tier is reached and its action does not throw; a thrown action reports that tier and the error; outside a guild or without the member the action is null |
| Moderation.CheckEscalation | src/services/moderation.ts:14-127 | the result is the escalation decision on the stored config, and exactly one action row (the tier, the bot as moderator, the automatic reason, the default duration for a mute) is appended when it escalated, none otherwise |
| Moderation.EscalationSnapshotsAgree | src/services/moderation.js:7-110 | the older snapshot escalates in the same cases with the same tier, reports a thrown action as not escalated with no action, and logs the same row except a zero mute duration, which it logs as null |
| Moderation.CheckEscalationJs | src/services/moderation.js:7-110 | the older escalation's result and appended row follow its decision on the stored config |
| Embeds.SuccessEmbed | src/utils/embeds.ts:7-14 | the success card has the success colour, the given title and description and no fields |
| Embeds.ErrorEmbed | src/utils/embeds.ts:16-23 | the error card has the error colour, the title "Error", the given description and no fields |
| Embeds.ActionColor | src/utils/embeds.ts:42 | an action type in the colour table gets its colour; any other gets the info colour |
| Embeds.ActionColorsAgree | src/utils/embeds.js:25 | the older snapshot's `||` fallback picks the same colour for every action type, since no colour is 0 |
| Embeds.ModActionEmbed | src/utils/embeds.ts:34-64 | the card is titled with the action type in its colour, with User, Moderator and Reason fields in that order, the default reason for a missing or empty one, then Duration and Details only when those are non-empty |
| Embeds.TargetNamesAgree | src/utils/embeds.js:52 | the older `||` and the newer `??` title a warning list the same exactly unless the tag is the empty string and the username is not |
| Embeds.WarningListEmbed | src/utils/embeds.ts:78-94 | the list shows one field per warning for the first 25 warnings, in order, while the description counts every warning |
| MemberAdd.JoinRecordPending | src/events/guildMemberAdd.ts:99-106 | the join record is PENDING with no attempts, no manual flag, no review message or reason and the resolved invite code; a rejoin keeps the stored risk score, risk reasons and last challenge time, a first join starts from the defaults |
| MemberAdd.AddOnJoinRole | src/events/guildMemberAdd.ts:24-51 | the on-join role is added exactly when configured, found, below the bot's highest role, not yet held and the add succeeds; no other role changes |
| MemberAdd.Join | src/events/guildMemberAdd.ts:10-107 | the roles held afterwards and whether a record is written follow the join checks; nothing is written and the invite cache is untouched unless they pass; a write stores the PENDING record with the invite code the tracker resolves against its cached counts, and replaces the guild's cached counts with the fresh listing, or keeps the cache when the listing fails |
| MemberAdd.JoinWritesOnlyWhenGated | src/events/guildMemberAdd.ts:13-90 | a record is written only with Manage Roles, verification on, the unverified role held afterwards and both it and the member below the bot; without Manage Roles nothing changes; the on-join role never depends on the verification settings |
| MemberAdd.JoinJs | src/events/guildMemberAdd.js:8-62 | the older handler writes exactly when its checks pass, even when the role add fails, and the role is added only when the add succeeds |
| MemberAdd.JoinSnapshotsAgree | src/events/guildMemberAdd.js:10-61 | both snapshots run the same checks; the older one writes whenever the newer one does, and also after a failed add; both write the same status and counters, the older one keeping the stored invite code |
| Approve.ApprovalReason | src/commands/approve.ts:30 | the reason is the given text, or the default when missing or empty, cut to its first 1000 characters |
| Approve.ApproveWritesOnlyAfterRoles | src/commands/approve.ts:32-74 | a record is written and an action logged exactly when the member is found and the verified roles apply; the record is then VERIFIED with attempts, manual flag, review message, manual reason and challenge time cleared and the risk data and invite code kept |
| Approve.Run | src/commands/approve.ts:20-91 | outside a guild nothing changes; otherwise the reply, the verification table and the action log follow the approval decision on the stored config and record |
| Sweep.Capped | src/services/verificationSweep.ts:155 | the capped list is a prefix of the rows of at most the cap's length, and the whole list when it fits |
| Sweep.ReminderOf | src/services/verificationSweep.ts:157-192 | a reminder is posted exactly when the guild is cached, the review channel and message ids are set, the channel is a text channel, the message is found and the reply succeeds; it shows the expiry in whole seconds, rounded down |
| Sweep.Reminders | src/services/verificationSweep.ts:157-202 | at most one reminder per row |
| Sweep.MarkRemindedKeepsRows | src/services/verificationSweep.ts:162-199 | marking rows reminded never changes a stored record, because the upsert does not write the reminded flag; it only creates a default record for a key that has disappeared |
| Sweep.PhaseRemind | src/services/verificationSweep.ts:151-203 | only the first 50 rows are handled; each of them is marked reminded on every path, and the reminders posted are those the rows' lookups allow, in order |
| Sweep.ReviewEditAttempts | src/services/verificationSweep.ts:233-267 | at most one review message edit attempted per row |
| Sweep.MarkExpiredOutcome | src/services/verificationSweep.ts:214-230 | every expired row's record ends REVIEW_EXPIRED with no review message, whether or not its guild is cached, and records of other keys are untouched |
| Sweep.ExpiredWrite | src/services/verificationSweep.ts:218-230 | an expiry write sets REVIEW_EXPIRED and clears the review message whatever the record held |
| Sweep.PhaseExpire | src/services/verificationSweep.ts:208-298 | only the first 50 rows are handled, each expired in order, and an edit is attempted on the review messages whose guild, channel and message resolve (whether the edit succeeds is not recorded) |
| Sweep.OfGuild | src/services/verificationSweep.ts:303-314 | a guild's rows are never more than the input |
| Sweep.GuildOrderExactly | src/services/verificationSweep.ts:303-314 | the grouping's key order lists every guild of the input, each exactly once |
| Sweep.GroupsArePermutation | src/services/verificationSweep.ts:303-314 | the groups taken in key order hold exactly the input rows, as a multiset |
| Sweep.GroupByGuild | src/services/verificationSweep.ts:303-314 | the keys, in order of first appearance, are exactly the input's guilds, and each group is that guild's rows in input order |
| Sweep.Block | src/services/verificationSweep.ts:137-138 | a guild's turn takes a prefix of its rows of at most 50 and never past the total cap of 200 |
| Sweep.ScheduleBounds | src/services/verificationSweep.ts:123-145 | at most 200 rows a tick, every one an input row of an eligible guild in the order |
| Sweep.SchedulePerGuild | src/services/verificationSweep.ts:137-144 | within one guild, the processed rows are its first rows, at most 50, and only an eligible guild has any |
| Sweep.FateOutcome | src/services/verificationSweep.ts:320-388 | a member who left, by fetch or by Unknown Member error, has the record deleted; a kicked member's record changes only its status, to KICKED; a not-kickable member or another error changes nothing; no other record changes |
| Sweep.ProcessStale | src/services/verificationSweep.ts:320-388 | the table afterwards is the member's fate applied to it |
| Sweep.KickGuild | src/services/verificationSweep.ts:140-144 | the table afterwards is each capped member's fate applied in order |
| Sweep.PhaseKick | src/services/verificationSweep.ts:116-146 | the rows processed are the schedule over the grouped guilds, at most 200, and the table is their fates applied in order |
| Sweep.KickGroups | src/services/verificationSweep.ts:121-145 | the loop over the groups processes exactly the schedule and applies the fates in order |
| Sweep.SweepLoop.constructor | src/services/verificationSweep.ts:38-40 | no timer and no sweep in flight |
| Sweep.SweepLoop.Start | src/services/verificationSweep.ts:46-62 | a no-op while either timer exists; otherwise the startup timer is armed |
| Sweep.SweepLoop.StartupElapsed | src/services/verificationSweep.ts:49-61 | the startup timer is gone and the interval timer is armed |
| Sweep.SweepLoop.Stop | src/services/verificationSweep.ts:67-76 | both timers are cleared |
| Sweep.SweepLoop.BeginSweep | src/services/verificationSweep.ts:94-95 | the sweep runs exactly when none is in flight, and a sweep is in flight afterwards |
| Sweep.SweepLoop.EndSweep | src/services/verificationSweep.ts:108-110 | the in-flight flag is cleared |
| Sweep.SweepLoop.Sweep | src/services/verificationSweep.ts:92-111 | a sweep already in flight changes nothing; otherwise remind, expire and kick run in that order up to the phase whose query throws, nothing after it changes, and the flag ends cleared |

## Left out

- The captcha and identity-question images (`paintCanvasNoise`, `renderCaptchaImage`, `renderContextChallengeImage`) are not modelled: they are floating-point drawing through a foreign canvas library. Only the generated text and the expected answer are modelled.
- Random draws (`randomInt`, `randomUUID`, `Math.random` in the shuffle) are parameters, each within the range it is drawn from.
- The clock is an integer millisecond parameter, and timestamps are integers. ISO date strings are not parsed, and `toLocaleDateString` is a function parameter (`format`).
- Discord calls are not modelled; each is an input saying what a fetch returned and whether a call succeeded or threw. This covers replies, forms, role adds and removes, kicks, bans, timeouts, channel and message fetches, edits and DMs.
- Showing the answer forms (`showAnswerModal`, `showContextModal`) is only a routed destination. Opening a form is a Discord call.
- The mod-log channel message (`modLog.send`) is not modelled: it is a Discord call whose failure the callers do not act on.
- Moderation.CheckEscalation: a mod-log send that throws after the action row is written is not modelled. The source would then report the tier as failed although the row is already logged.
- Moderation.CheckEscalationJs: the older snapshot's missing DM in the mute branch is not visible, because DMs are not modelled.
- The resolution and expiry cards posted on review messages (`buildManualReviewResultEmbed` and the expired-review card) are not modelled; only which messages an edit is attempted on is. Their content is display text built by Discord's embed builder.
- Embeds.SuccessEmbed, Embeds.ErrorEmbed, Embeds.ModActionEmbed and Embeds.WarningListEmbed: the card timestamp is not modelled, because it is the clock. The footer's version string is a parameter read from the package manifest.
- `Number`-typed values are unbounded integers. Floating-point rounding in `Math.round`, `Math.floor` and `Math.ceil` for values beyond 2^53 is not modelled.
- Case mapping and `trim` are modelled on ASCII and the JavaScript whitespace set over `seq<char>`. Full Unicode case mapping and UTF-16 surrogate pairs are not modelled.
- Sweep.PhaseExpire: the result lists the review messages an edit was attempted on; a failed edit is not told apart from one that succeeded.
- Sweep.PhaseExpire and Sweep.ProcessStale: the action-log rows the expire and kick phases insert are not modelled. Those inserts follow the record writes, and their action types (`ActionTypes.REVIEW_EXPIRED`, `ActionTypes.VERIFY_KICK`) are missing from `src/config/constants.ts:28-38`.
- Sweep.PhaseKick: the kick reason text is not modelled; a kick is an input outcome (`Fate`).
- The sweep's selection queries (`getStaleVerificationStates`, `getRemindableManualReviews`, `getExpiredManualReviews`) are not part of the shown store. Their row lists are inputs to the phases.
- The sweep's `sleep` between members, the interval and startup timers and any interleaving of concurrent handlers are not modelled. Timers are the two flags of `Sweep.SweepLoop`; a tick is one `Sweep` call.
- `getWarnings` orders by `created_at DESC`. The model returns the newest insertion first, which is the same order unless two rows share a timestamp.
- `getActions`, `getGuildsWithIncidentActions`, `initialize` and `close` are not modelled. The first two serve the incident and log commands, which are outside this model; the last two are database set-up and I/O.
- SQL text, bun:sqlite and `src/db/schema.js` (plain table definitions) are not modelled. The tables are maps and sequences in class `Store.Database`.
- The `/config` view, logchannel, verificationenable, verificationchannels and panel sub-commands are not modelled. They store the chosen option directly or only display the config, with no validation to model.
- ConfigCommand.VerificationRoles: the bot's member is always present. The source dereferences `interaction.guild?.members.me` without a check, so an uncached guild would throw there.
- ConfigCommand.Thresholds: Discord's option minimum and maximum are not enforced; the handler's own `!mute` test treats 0 as absent, as the source does.
- ConfigCommand.JsHandlersWriteSame: the older handlers' missing guild check is not modelled separately. They are compared on a present guild.
- MemberAdd.Join: the role cache the unverified-role check reads is the member's roles at join. A role the on-join step has just added, when it is the same role, is not seen as held.
- MemberAdd.Join: `resolveUsedInvite` never throws in the model, because the tracker catches the fetch failure itself. The handler's catch around it is therefore unreachable.
- Verification.HandleInteraction: a review button id without a user part routes with an absent user. What `handleManualReviewAction` then does with `undefined` is not modelled further.
- Verification.Start: the guild is assumed present on the interaction once `guildId` is set. An uncached guild there is not modelled.
- The session's `phase` field is stored but never read by the handlers, so no contract mentions it beyond creation.
- The bot, command and event loaders, logger, environment, shard utilities, incident actions and the other moderation commands are not part of this model: they are wiring and I/O around the modelled core.
