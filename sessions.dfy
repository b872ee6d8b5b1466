// The in-memory challenge sessions: created with a five-minute lifetime,
// pruned on every verification interaction, and claimed (deleted) by the
// member who answers.

module Sessions {
  import opened Common

  const CHALLENGE_TTL_MS := 5 * 60 * 1000
  const MIN_SOLVE_TIME_MS := 3000

  /** What a session expects: the text of a captcha or identity answer, or a quiz button index. */
  datatype Expected = Text(answer: string) | Index(answerIndex: int)

  /** A captcha session carries no phase; an identity-question session is marked 'context'. */
  datatype Phase = NoPhase | ContextPhase

  /** `createdAt` is absent in the older snapshot's quiz sessions. */
  datatype Session = Session(guildId: string, userId: string, expected: Expected, phase: Phase,
                             createdAt: Option<int>, expiresAt: int)

  /** A handler treats a session as timed out only when the clock has passed its expiry. */
  predicate TimedOut(s: Session, now: int)
  {
    now > s.expiresAt
  }

  /** The sessions pruneChallengeSessions keeps: those whose expiry is still in the future. */
  function Unexpired(m: map<string, Session>, now: int): map<string, Session>
  {
    map id | id in m && m[id].expiresAt > now :: m[id]
  }

  /** Pruning keeps exactly the sessions expiring after now, unchanged, and drops the rest. */
  lemma UnexpiredExactly(m: map<string, Session>, now: int, id: string)
    ensures id in Unexpired(m, now) <==> id in m && m[id].expiresAt > now
    ensures id in Unexpired(m, now) ==> Unexpired(m, now)[id] == m[id]
  {
  }

  /**
   * No session that survives pruning is judged timed out at the same instant;
   * a session expiring exactly now is pruned although it would not be judged
   * timed out.
   */
  lemma PruneAndTimeoutBoundary(m: map<string, Session>, now: int)
    ensures forall id :: id in Unexpired(m, now) ==> !TimedOut(Unexpired(m, now)[id], now)
    ensures forall id :: id in m && m[id].expiresAt == now ==> id !in Unexpired(m, now) && !TimedOut(m[id], now)
  {
  }

  /** A session created at `createdAt` survives a prune at `now` exactly while now < createdAt + 300000. */
  lemma FreshSessionLifetime(m: map<string, Session>, id: string, s: Session, createdAt: int, now: int)
    requires s.expiresAt == createdAt + CHALLENGE_TTL_MS
    ensures id in Unexpired(m[id := s], now) <==> now < createdAt + 300000
  {
  }

  /** The outcome of looking a session up for an answering member. */
  datatype Claim = NoSession | OtherMember | Claimed(session: Session)

  /**
   * Lookup and ownership check: a missing id (or no id at all) finds nothing;
   * a session of another guild or user is refused.
   */
  function ClaimOf(m: map<string, Session>, id: Option<string>, guildId: Option<string>, userId: string): (c: Claim)
    ensures c.Claimed? <==> id.Some? && id.value in m && guildId == Some(m[id.value].guildId) && userId == m[id.value].userId
    ensures c.Claimed? ==> c.session == m[id.value]
    ensures c == NoSession <==> id.None? || id.value !in m
  {
    if id.None? || id.value !in m then NoSession
    else
      var s := m[id.value];
      if guildId != Some(s.guildId) || userId != s.userId then OtherMember else Claimed(s)
  }

  class SessionStore {
    var sessions: map<string, Session>

    constructor ()
      ensures sessions == map[]
    {
      sessions := map[];
    }

    /** pruneChallengeSessions: walk the entries and delete each one with expiresAt <= now. */
    method Prune(now: int)
      modifies this
      ensures sessions == Unexpired(old(sessions), now)
    {
      var ids := sessions.Keys;
      while ids != {}
        invariant ids <= old(sessions).Keys
        invariant sessions == map id | id in old(sessions) && (id in ids || old(sessions)[id].expiresAt > now) :: old(sessions)[id]
        decreases |ids|
      {
        var id :| id in ids;
        if sessions[id].expiresAt <= now {
          sessions := sessions - {id};
        }
        ids := ids - {id};
      }
    }

    /** Store a session under `id` (a colliding id is overwritten, as Map.set does). */
    method Put(id: string, s: Session)
      modifies this
      ensures sessions == old(sessions)[id := s]
    {
      sessions := sessions[id := s];
    }

    /** The lookup a "Submit Answer" button does before opening its form: nothing is deleted. */
    method Peek(id: Option<string>, guildId: Option<string>, userId: string) returns (c: Claim)
      ensures c == ClaimOf(sessions, id, guildId, userId)
    {
      c := ClaimOf(sessions, id, guildId, userId);
    }

    /**
     * The start of every answer handler: look up and check ownership; when the
     * member owns the session it is deleted before anything else is judged.
     */
    method Take(id: Option<string>, guildId: Option<string>, userId: string) returns (c: Claim)
      modifies this
      ensures c == ClaimOf(old(sessions), id, guildId, userId)
      ensures c.Claimed? ==> sessions == old(sessions) - {id.value}
      ensures !c.Claimed? ==> sessions == old(sessions)
    {
      c := ClaimOf(sessions, id, guildId, userId);
      if c.Claimed? {
        sessions := sessions - {id.value};
      }
    }
  }

  /** After a claim the same id finds nothing, so a session is judged at most once. */
  lemma ClaimedOnce(m: map<string, Session>, id: string, guildId: Option<string>, userId: string,
                    guildId2: Option<string>, userId2: string)
    requires ClaimOf(m, Some(id), guildId, userId).Claimed?
    ensures ClaimOf(m - {id}, Some(id), guildId2, userId2) == NoSession
  {
  }
}
