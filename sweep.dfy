// The periodic verification sweep: remind reviewers of ageing reviews,
// expire old ones, then kick members who never finished verification.
// The rows the database queries return and what Discord answers are inputs;
// the verification records are the state the sweep changes.

module Sweep {
  import opened Common
  import opened Store
  import Time

  const SWEEP_INTERVAL_MS := 2 * 60 * 1000
  const STARTUP_DELAY_MS := 30 * 1000
  const PER_GUILD_CAP := 50
  const TOTAL_CAP := 200
  const REMIND_CAP := 50
  const EXPIRE_CAP := 50
  /** Discord's "Unknown Member" error code. */
  const UNKNOWN_MEMBER := 10007

  function Lookup(states: map<Key, Record>, k: Key): Option<Record>
  {
    if k in states then Some(states[k]) else None
  }

  /** What upsertVerificationState leaves in the table. */
  function Upserted(states: map<Key, Record>, k: Key, p: StatePatch): map<Key, Record>
  {
    states[k := Merge(Lookup(states, k), p)]
  }

  /** One upsert, stated on the whole table. */
  method Upsert(db: Database, k: Key, p: StatePatch)
    modifies db`states
    ensures db.states == Upserted(old(db.states), k, p)
  {
    db.UpsertVerificationState(k.guild, k.user, p);
  }

  /** `rows.slice(0, cap)` */
  function Capped<T>(rows: seq<T>, cap: nat): (r: seq<T>)
    ensures |r| <= cap && |r| <= |rows| && r == rows[..|r|]
    ensures |rows| <= cap ==> r == rows
  {
    rows[..if |rows| < cap then |rows| else cap]
  }

  // ----------------------------------------------------------- reminders

  /** A manual review as the reminder and expiry queries return it. */
  datatype ReviewRow = ReviewRow(guildId: GuildId, userId: UserId, reviewChannelId: Option<string>,
                                 reviewMessageId: Option<string>, createdAt: int, timeout: int)

  function KeyOf(r: ReviewRow): Key
  {
    Key(r.guildId, r.userId)
  }

  /** What Discord answers for one reminder: guild cached, channel a text channel, message found, reply posted. */
  datatype ReminderEnv = ReminderEnv(guildCached: bool, channelOk: bool, messageFound: bool, replyOk: bool)

  /** A reminder posted under a review message, with the expiry it shows in whole seconds. */
  datatype Reminder = Reminder(key: Key, messageId: string, expiresAtSec: int)

  const REMINDED_PATCH := NO_STATE_CHANGE.(reviewReminded := Set(1))

  /** The reminder one row produces, if every lookup and the reply succeed. */
  function ReminderOf(row: ReviewRow, env: ReminderEnv): (r: Option<Reminder>)
    ensures r.Some? ==> r.value.expiresAtSec * 1000 <= row.createdAt + row.timeout < (r.value.expiresAtSec + 1) * 1000
    ensures r.Some? <==> env.guildCached && Truthy(row.reviewChannelId) && Truthy(row.reviewMessageId)
                         && env.channelOk && env.messageFound && env.replyOk
  {
    if env.guildCached && Truthy(row.reviewChannelId) && Truthy(row.reviewMessageId)
       && env.channelOk && env.messageFound && env.replyOk
    then Some(Reminder(KeyOf(row), row.reviewMessageId.value, (row.createdAt + row.timeout) / 1000))
    else None
  }

  function Reminders(rows: seq<ReviewRow>, envs: seq<ReminderEnv>): (r: seq<Reminder>)
    requires |envs| == |rows|
    ensures |r| <= |rows|
  {
    if rows == [] then []
    else
      var n := |rows| - 1;
      var one := ReminderOf(rows[n], envs[n]);
      Reminders(rows[..n], envs[..n]) + (if one.Some? then [one.value] else [])
  }

  /** The table after marking each row reminded, in order. */
  function MarkReminded(states: map<Key, Record>, rows: seq<ReviewRow>): map<Key, Record>
  {
    if rows == [] then states
    else
      var n := |rows| - 1;
      Upserted(MarkReminded(states, rows[..n]), KeyOf(rows[n]), REMINDED_PATCH)
  }

  /**
   * The reminder mark never changes a stored row, because the upsert does
   * not write review_reminded; it only creates a default row for a key that
   * has disappeared since the query.
   */
  lemma {:induction false} MarkRemindedKeepsRows(states: map<Key, Record>, rows: seq<ReviewRow>)
    ensures forall k :: k in states ==> k in MarkReminded(states, rows) && MarkReminded(states, rows)[k] == states[k]
    ensures forall k :: k in MarkReminded(states, rows) ==>
      k in states || (MarkReminded(states, rows)[k] == DEFAULT_RECORD && exists i :: 0 <= i < |rows| && KeyOf(rows[i]) == k)
  {
    if rows != [] {
      var n := |rows| - 1;
      var prev := MarkReminded(states, rows[..n]);
      MarkRemindedKeepsRows(states, rows[..n]);
      var k := KeyOf(rows[n]);
      if k in prev {
        MergeLayers(Some(prev[k]), NO_STATE_CHANGE);
        MergeNeverWritesReminded(Some(prev[k]), REMINDED_PATCH);
      }
      forall k' | k' in MarkReminded(states, rows) && k' !in states
        ensures MarkReminded(states, rows)[k'] == DEFAULT_RECORD && exists i :: 0 <= i < |rows| && KeyOf(rows[i]) == k'
      {
        if k' == k {
          assert KeyOf(rows[n]) == k';
        } else {
          var i :| 0 <= i < |rows[..n]| && KeyOf(rows[..n][i]) == k';
          assert KeyOf(rows[i]) == k';
        }
      }
    }
  }

  /**
   * phaseRemindExpiringReviews: the first fifty rows only; every one of them
   * is marked reminded on every path, and a reminder is posted where the
   * guild, channel and message all resolve.
   */
  method PhaseRemind(db: Database, rows: seq<ReviewRow>, envs: seq<ReminderEnv>) returns (sent: seq<Reminder>)
    requires |envs| == |rows|
    modifies db`states
    ensures var capped := Capped(rows, REMIND_CAP);
      sent == Reminders(capped, envs[..|capped|]) && db.states == MarkReminded(old(db.states), capped)
    ensures |sent| <= REMIND_CAP
  {
    var capped := Capped(rows, REMIND_CAP);
    ghost var start := db.states;
    sent := [];
    var i := 0;
    while i < |capped|
      invariant 0 <= i <= |capped|
      invariant sent == Reminders(capped[..i], envs[..i])
      invariant db.states == MarkReminded(start, capped[..i])
    {
      var row, env := capped[i], envs[i];
      var one := ReminderOf(row, env);
      if one.Some? {
        sent := sent + [one.value];
      }
      Upsert(db, KeyOf(row), REMINDED_PATCH);
      RemindStep(start, capped, envs, i);
      i := i + 1;
    }
    assert capped[..i] == capped;
  }

  lemma RemindStep(states: map<Key, Record>, rows: seq<ReviewRow>, envs: seq<ReminderEnv>, i: nat)
    requires i < |rows| <= |envs|
    ensures MarkReminded(states, rows[..i + 1]) == Upserted(MarkReminded(states, rows[..i]), KeyOf(rows[i]), REMINDED_PATCH)
    ensures var one := ReminderOf(rows[i], envs[i]);
      Reminders(rows[..i + 1], envs[..i + 1]) == Reminders(rows[..i], envs[..i]) + (if one.Some? then [one.value] else [])
  {
    assert rows[..i + 1][..i] == rows[..i] && envs[..i + 1][..i] == envs[..i];
  }

  // -------------------------------------------------------------- expiry

  /** What Discord answers for one expiry: guild cached, channel a text channel, review message found. */
  datatype ExpireEnv = ExpireEnv(guildCached: bool, channelOk: bool, messageFound: bool)

  function ExpiredReason(timeout: int): string
  {
    "Review expired after " + Time.FormatDuration(Some(timeout))
  }

  /** The write for an expired review: with the guild cached the reason is recorded too. */
  function ExpiredPatch(row: ReviewRow, guildCached: bool): StatePatch
  {
    if guildCached then
      NO_STATE_CHANGE.(status := Set(REVIEW_EXPIRED), manualReason := Set(Some(ExpiredReason(row.timeout))),
                       reviewMessageId := Set(None))
    else NO_STATE_CHANGE.(status := Set(REVIEW_EXPIRED), reviewMessageId := Set(None))
  }

  function MarkExpired(states: map<Key, Record>, rows: seq<ReviewRow>, envs: seq<ExpireEnv>): map<Key, Record>
    requires |envs| == |rows|
  {
    if rows == [] then states
    else
      var n := |rows| - 1;
      Upserted(MarkExpired(states, rows[..n], envs[..n]), KeyOf(rows[n]), ExpiredPatch(rows[n], envs[n].guildCached))
  }

  /**
   * The review messages on which an edit disabling the buttons is attempted.
   * The edit itself may still fail; the model does not record that.
   */
  function ReviewEditAttempts(rows: seq<ReviewRow>, envs: seq<ExpireEnv>): (r: seq<string>)
    requires |envs| == |rows|
    ensures |r| <= |rows|
  {
    if rows == [] then []
    else
      var n := |rows| - 1;
      var row, env := rows[n], envs[n];
      ReviewEditAttempts(rows[..n], envs[..n])
      + (if env.guildCached && Truthy(row.reviewChannelId) && Truthy(row.reviewMessageId) && env.channelOk && env.messageFound
         then [row.reviewMessageId.value] else [])
  }

  lemma ExpireStep(states: map<Key, Record>, rows: seq<ReviewRow>, envs: seq<ExpireEnv>, i: nat)
    requires i < |rows| <= |envs|
    ensures var row, env := rows[i], envs[i];
      MarkExpired(states, rows[..i + 1], envs[..i + 1])
        == Upserted(MarkExpired(states, rows[..i], envs[..i]), KeyOf(row), ExpiredPatch(row, env.guildCached))
      && ReviewEditAttempts(rows[..i + 1], envs[..i + 1])
        == ReviewEditAttempts(rows[..i], envs[..i])
           + (if env.guildCached && Truthy(row.reviewChannelId) && Truthy(row.reviewMessageId) && env.channelOk && env.messageFound
              then [row.reviewMessageId.value] else [])
  {
    assert rows[..i + 1][..i] == rows[..i] && envs[..i + 1][..i] == envs[..i];
  }

  /**
   * Every expired row ends REVIEW_EXPIRED with no review message, whether or
   * not its guild is cached; rows of other keys are untouched.
   */
  lemma {:induction false} MarkExpiredOutcome(states: map<Key, Record>, rows: seq<ReviewRow>, envs: seq<ExpireEnv>)
    requires |envs| == |rows|
    ensures forall i :: 0 <= i < |rows| ==>
      KeyOf(rows[i]) in MarkExpired(states, rows, envs)
      && MarkExpired(states, rows, envs)[KeyOf(rows[i])].status == REVIEW_EXPIRED
      && MarkExpired(states, rows, envs)[KeyOf(rows[i])].reviewMessageId.None?
    ensures forall k :: k in states && (forall i :: 0 <= i < |rows| ==> KeyOf(rows[i]) != k) ==>
      k in MarkExpired(states, rows, envs) && MarkExpired(states, rows, envs)[k] == states[k]
  {
    if rows != [] {
      var n := |rows| - 1;
      var init, initEnvs := rows[..n], envs[..n];
      var prev := MarkExpired(states, init, initEnvs);
      MarkExpiredOutcome(states, init, initEnvs);
      var k := KeyOf(rows[n]);
      var written := Merge(Lookup(prev, k), ExpiredPatch(rows[n], envs[n].guildCached));
      ExpiredWrite(Lookup(prev, k), rows[n], envs[n].guildCached);
      var next := MarkExpired(states, rows, envs);
      assert next == prev[k := written];
      forall i | 0 <= i < |rows|
        ensures KeyOf(rows[i]) in next && next[KeyOf(rows[i])].status == REVIEW_EXPIRED
             && next[KeyOf(rows[i])].reviewMessageId.None?
      {
        if KeyOf(rows[i]) != k {
          assert init[i] == rows[i];
        }
      }
      forall k' | k' in states && (forall i :: 0 <= i < |rows| ==> KeyOf(rows[i]) != k')
        ensures k' in next && next[k'] == states[k']
      {
        forall i | 0 <= i < |init| ensures KeyOf(init[i]) != k' {
          assert init[i] == rows[i];
        }
        assert k' != k;
      }
    }
  }

  /** An expiry write sets the status and clears the review message, whatever the row held. */
  lemma ExpiredWrite(current: Option<Record>, row: ReviewRow, guildCached: bool)
    ensures Merge(current, ExpiredPatch(row, guildCached)).status == REVIEW_EXPIRED
    ensures Merge(current, ExpiredPatch(row, guildCached)).reviewMessageId == None
  {
  }

  /** phaseExpireStaleReviews: the first fifty rows are expired, one upsert each. */
  method PhaseExpire(db: Database, rows: seq<ReviewRow>, envs: seq<ExpireEnv>) returns (editAttempts: seq<string>)
    requires |envs| == |rows|
    modifies db`states
    ensures var capped := Capped(rows, EXPIRE_CAP);
      editAttempts == ReviewEditAttempts(capped, envs[..|capped|]) && db.states == MarkExpired(old(db.states), capped, envs[..|capped|])
    ensures |editAttempts| <= EXPIRE_CAP
  {
    var capped := Capped(rows, EXPIRE_CAP);
    ghost var start := db.states;
    editAttempts := [];
    var i := 0;
    while i < |capped|
      invariant 0 <= i <= |capped|
      invariant editAttempts == ReviewEditAttempts(capped[..i], envs[..i])
      invariant db.states == MarkExpired(start, capped[..i], envs[..i])
    {
      var row, env := capped[i], envs[i];
      var patch := ExpiredPatch(row, env.guildCached);
      ghost var before := db.states;
      Upsert(db, KeyOf(row), patch);
      if env.guildCached && Truthy(row.reviewChannelId) && Truthy(row.reviewMessageId) && env.channelOk && env.messageFound {
        editAttempts := editAttempts + [row.reviewMessageId.value];
      }
      ExpireStep(start, capped, envs, i);
      assert db.states == Upserted(before, KeyOf(row), patch);
      i := i + 1;
    }
    assert capped[..i] == capped;
  }

  // ------------------------------------------------------ group by guild

  /** A stale verification row the kick phase considers. */
  datatype StaleRow = StaleRow(guildId: GuildId, userId: UserId, status: string, createdAt: int, kickTimeout: int)

  /** The guild ids in order of first appearance (the key order of the grouping Map). */
  function GuildOrder(rows: seq<StaleRow>): seq<GuildId>
  {
    if rows == [] then []
    else
      var n := |rows| - 1;
      var prev := GuildOrder(rows[..n]);
      if rows[n].guildId in prev then prev else prev + [rows[n].guildId]
  }

  /** The rows of one guild, in input order. */
  function OfGuild(rows: seq<StaleRow>, g: GuildId): (r: seq<StaleRow>)
    ensures |r| <= |rows|
  {
    if rows == [] then []
    else
      var n := |rows| - 1;
      OfGuild(rows[..n], g) + (if rows[n].guildId == g then [rows[n]] else [])
  }

  predicate Distinct<T(==)>(s: seq<T>)
  {
    forall i, j :: 0 <= i < j < |s| ==> s[i] != s[j]
  }

  /** The guild order lists every guild of the input exactly once. */
  lemma {:induction false} GuildOrderExactly(rows: seq<StaleRow>)
    ensures Distinct(GuildOrder(rows))
    ensures forall g :: g in GuildOrder(rows) <==> exists r :: r in rows && r.guildId == g
  {
    if rows != [] {
      var n := |rows| - 1;
      GuildOrderExactly(rows[..n]);
      assert rows == rows[..n] + [rows[n]];
      forall g ensures g in GuildOrder(rows) <==> exists r :: r in rows && r.guildId == g {
        if g in GuildOrder(rows) && g != rows[n].guildId {
          var r :| r in rows[..n] && r.guildId == g;
          assert r in rows;
        }
        if exists r :: r in rows && r.guildId == g {
          var r :| r in rows && r.guildId == g;
          if r != rows[n] {
            assert r in rows[..n];
          }
        }
      }
    }
  }

  /** Every row of a guild's group is an input row of that guild. */
  lemma {:induction false} OfGuildSound(rows: seq<StaleRow>, g: GuildId)
    ensures forall x :: x in OfGuild(rows, g) ==> x in rows && x.guildId == g
    ensures forall i :: 0 <= i < |OfGuild(rows, g)| ==> OfGuild(rows, g)[i].guildId == g
  {
    if rows != [] {
      var n := |rows| - 1;
      OfGuildSound(rows[..n], g);
    }
  }

  lemma {:induction false} OfGuildAppend(a: seq<StaleRow>, b: seq<StaleRow>, g: GuildId)
    ensures OfGuild(a + b, g) == OfGuild(a, g) + OfGuild(b, g)
    decreases |b|
  {
    if b != [] {
      var n := |b| - 1;
      var last := if b[n].guildId == g then [b[n]] else [];
      assert (a + b)[..|a + b| - 1] == a + b[..n];
      assert (a + b)[|a + b| - 1] == b[n];
      OfGuildAppend(a, b[..n], g);
      calc {
        OfGuild(a + b, g);
        OfGuild(a + b[..n], g) + last;
        OfGuild(a, g) + OfGuild(b[..n], g) + last;
        OfGuild(a, g) + (OfGuild(b[..n], g) + last);
      }
    } else {
      assert a + b == a;
    }
  }

  lemma {:induction false} OfGuildAbsent(rows: seq<StaleRow>, g: GuildId)
    requires forall r :: r in rows ==> r.guildId != g
    ensures OfGuild(rows, g) == []
  {
    if rows != [] {
      var n := |rows| - 1;
      OfGuildAbsent(rows[..n], g);
    }
  }

  lemma {:induction false} OfGuildAll(rows: seq<StaleRow>, g: GuildId)
    requires forall i :: 0 <= i < |rows| ==> rows[i].guildId == g
    ensures OfGuild(rows, g) == rows
  {
    if rows != [] {
      var n := |rows| - 1;
      var init := rows[..n];
      OfGuildAll(init, g);
      assert init + [rows[n]] == rows;
    }
  }

  /** The groups, concatenated in guild order. */
  function Gather(order: seq<GuildId>, rows: seq<StaleRow>): seq<StaleRow>
  {
    if order == [] then [] else OfGuild(rows, order[0]) + Gather(order[1..], rows)
  }

  lemma {:induction false} GatherAppend(order: seq<GuildId>, g: GuildId, rows: seq<StaleRow>)
    ensures Gather(order + [g], rows) == Gather(order, rows) + OfGuild(rows, g)
  {
    if order != [] {
      assert (order + [g])[1..] == order[1..] + [g];
      GatherAppend(order[1..], g, rows);
    }
  }

  /** Adding a row of a guild already in the order adds exactly that row to the gathered multiset. */
  lemma {:induction false} GatherGrows(order: seq<GuildId>, rows: seq<StaleRow>, r: StaleRow)
    requires Distinct(order)
    ensures multiset(Gather(order, rows + [r]))
         == multiset(Gather(order, rows)) + (if r.guildId in order then multiset{r} else multiset{})
  {
    if order != [] {
      assert rows + [r] == rows + [r] && (rows + [r])[..|rows|] == rows;
      assert OfGuild(rows + [r], order[0]) == OfGuild(rows, order[0]) + (if r.guildId == order[0] then [r] else []);
      assert Distinct(order[1..]);
      GatherGrows(order[1..], rows, r);
      if r.guildId == order[0] {
        assert r.guildId !in order[1..];
      }
    }
  }

  /** groupByGuild's groups, taken together in key order, are a permutation of the input. */
  lemma {:induction false} GroupsArePermutation(rows: seq<StaleRow>)
    ensures multiset(Gather(GuildOrder(rows), rows)) == multiset(rows)
  {
    if rows != [] {
      var n := |rows| - 1;
      var init, r := rows[..n], rows[n];
      assert rows == init + [r];
      GroupsArePermutation(init);
      var order := GuildOrder(init);
      GuildOrderExactly(init);
      GatherGrows(order, init, r);
      if r.guildId !in order {
        GatherAppend(order, r.guildId, rows);
        OfGuildAbsent(init, r.guildId);
        assert OfGuild(rows, r.guildId) == [r];
      }
    }
  }

  /** A guild missing from the order has no rows. */
  lemma {:induction false} OfGuildOutsideOrder(rows: seq<StaleRow>, g: GuildId)
    requires g !in GuildOrder(rows)
    ensures OfGuild(rows, g) == []
  {
    if rows != [] {
      var n := |rows| - 1;
      OfGuildOutsideOrder(rows[..n], g);
    }
  }

  /** The loop state of groupByGuild after the first i rows. */
  ghost predicate GroupedUpTo(rows: seq<StaleRow>, i: nat, order: seq<GuildId>, groups: map<GuildId, seq<StaleRow>>)
    requires i <= |rows|
  {
    order == GuildOrder(rows[..i])
    && (forall g :: g in groups <==> g in order)
    && (forall g :: g in groups ==> groups[g] == OfGuild(rows[..i], g))
  }

  /** Appending row i to its guild's list (creating the list on first sight) keeps the loop state. */
  lemma GroupStep(rows: seq<StaleRow>, i: nat, order: seq<GuildId>, groups: map<GuildId, seq<StaleRow>>)
    requires i < |rows| && GroupedUpTo(rows, i, order, groups)
    ensures var h := rows[i].guildId;
      GroupedUpTo(rows, i + 1, if h in groups then order else order + [h],
                  groups[h := if h in groups then groups[h] + [rows[i]] else [rows[i]]])
  {
    var h := rows[i].guildId;
    assert rows[..i + 1][..i] == rows[..i];
    assert rows[..i + 1][i] == rows[i];
    var order' := if h in groups then order else order + [h];
    var groups' := groups[h := if h in groups then groups[h] + [rows[i]] else [rows[i]]];
    forall g ensures g in groups' <==> g in order' {
      assert g in order' <==> g in order || g == h;
    }
    if h !in groups {
      OfGuildOutsideOrder(rows[..i], h);
    }
  }

  /** groupByGuild: a Map from guild id to its rows, keyed in order of first appearance. */
  method GroupByGuild(rows: seq<StaleRow>) returns (order: seq<GuildId>, groups: map<GuildId, seq<StaleRow>>)
    ensures order == GuildOrder(rows)
    ensures forall g :: g in groups <==> g in order
    ensures forall g :: g in groups ==> groups[g] == OfGuild(rows, g)
  {
    order, groups := [], map[];
    var i := 0;
    while i < |rows|
      invariant 0 <= i <= |rows|
      invariant GroupedUpTo(rows, i, order, groups)
    {
      var row := rows[i];
      GroupStep(rows, i, order, groups);
      if row.guildId in groups {
        groups := groups[row.guildId := groups[row.guildId] + [row]];
      } else {
        groups := groups[row.guildId := [row]];
        order := order + [row.guildId];
      }
      i := i + 1;
    }
    assert rows[..i] == rows;
  }

  // ----------------------------------------------------------------- kick

  function Min(a: int, b: int): int
  {
    if a < b then a else b
  }

  /** `members.slice(0, Math.min(PER_GUILD_CAP, remaining))` for a guild's group. */
  function Block(rows: seq<StaleRow>, g: GuildId, done: nat): (b: seq<StaleRow>)
    requires done <= TOTAL_CAP
    ensures |b| <= PER_GUILD_CAP && done + |b| <= TOTAL_CAP
    ensures |b| <= |OfGuild(rows, g)| && b == OfGuild(rows, g)[..|b|]
  {
    var group := OfGuild(rows, g);
    group[..Min(Min(PER_GUILD_CAP, TOTAL_CAP - done), |group|)]
  }

  /**
   * The rows phaseKickStaleMembers processes: guilds in order, skipping those
   * not cached or without Kick Members, each capped at fifty and all together
   * at two hundred.
   */
  function Schedule(order: seq<GuildId>, rows: seq<StaleRow>, eligible: GuildId -> bool, done: nat): seq<StaleRow>
  {
    if order == [] || done >= TOTAL_CAP then []
    else if !eligible(order[0]) then Schedule(order[1..], rows, eligible, done)
    else
      var block := Block(rows, order[0], done);
      block + Schedule(order[1..], rows, eligible, done + |block|)
  }

  /** At most two hundred rows a tick, all from eligible guilds. */
  lemma {:induction false} ScheduleBounds(order: seq<GuildId>, rows: seq<StaleRow>, eligible: GuildId -> bool, done: nat)
    requires done <= TOTAL_CAP
    ensures done + |Schedule(order, rows, eligible, done)| <= TOTAL_CAP
    ensures forall r :: r in Schedule(order, rows, eligible, done) ==> r in rows && eligible(r.guildId) && r.guildId in order
  {
    if order != [] && done < TOTAL_CAP {
      var g := order[0];
      if eligible(g) {
        var block := Block(rows, g, done);
        var rest := Schedule(order[1..], rows, eligible, done + |block|);
        ScheduleBounds(order[1..], rows, eligible, done + |block|);
        BlockOfGuild(rows, g, done);
        assert Schedule(order, rows, eligible, done) == block + rest;
      } else {
        ScheduleBounds(order[1..], rows, eligible, done);
      }
    }
  }

  /** `mine` is the first (at most fifty) rows of guild g. */
  predicate LeadingRowsOf(mine: seq<StaleRow>, rows: seq<StaleRow>, g: GuildId)
  {
    |mine| <= PER_GUILD_CAP && |mine| <= |OfGuild(rows, g)| && mine == OfGuild(rows, g)[..|mine|]
  }

  /** Within one guild, the processed rows are the first (at most fifty) rows of that guild. */
  lemma {:induction false} SchedulePerGuild(order: seq<GuildId>, rows: seq<StaleRow>, eligible: GuildId -> bool,
                                            done: nat, g: GuildId)
    requires Distinct(order) && done <= TOTAL_CAP
    ensures LeadingRowsOf(OfGuild(Schedule(order, rows, eligible, done), g), rows, g)
    ensures OfGuild(Schedule(order, rows, eligible, done), g) != [] ==> eligible(g)
    decreases |order|, 1
  {
    if order == [] || done >= TOTAL_CAP {
    } else if !eligible(order[0]) {
      assert Distinct(order[1..]);
      SchedulePerGuild(order[1..], rows, eligible, done, g);
    } else if g == order[0] {
      PerGuildOwnTurn(order, rows, eligible, done);
    } else {
      PerGuildOtherTurn(order, rows, eligible, done, g);
    }
  }

  /** Another guild's turn adds nothing of g. */
  lemma {:induction false} PerGuildOtherTurn(order: seq<GuildId>, rows: seq<StaleRow>, eligible: GuildId -> bool,
                                             done: nat, g: GuildId)
    requires Distinct(order) && order != [] && done < TOTAL_CAP && eligible(order[0]) && g != order[0]
    ensures LeadingRowsOf(OfGuild(Schedule(order, rows, eligible, done), g), rows, g)
    ensures OfGuild(Schedule(order, rows, eligible, done), g) != [] ==> eligible(g)
    decreases |order|, 0
  {
    var h := order[0];
    var block := Block(rows, h, done);
    var rest := Schedule(order[1..], rows, eligible, done + |block|);
    assert Schedule(order, rows, eligible, done) == block + rest;
    OfGuildAppend(block, rest, g);
    assert Distinct(order[1..]);
    SchedulePerGuild(order[1..], rows, eligible, done + |block|, g);
    BlockOfGuild(rows, h, done);
    OfGuildAbsent(block, g);
    assert OfGuild(block, g) + OfGuild(rest, g) == OfGuild(rest, g);
  }

  lemma BlockOfGuild(rows: seq<StaleRow>, g: GuildId, done: nat)
    requires done <= TOTAL_CAP
    ensures forall r :: r in Block(rows, g, done) ==> r in rows && r.guildId == g
    ensures forall i :: 0 <= i < |Block(rows, g, done)| ==> Block(rows, g, done)[i].guildId == g
  {
    OfGuildSound(rows, g);
    var b := Block(rows, g, done);
    forall r | r in b ensures r in rows && r.guildId == g {
      var i :| 0 <= i < |b| && b[i] == r;
      assert r == OfGuild(rows, g)[i];
    }
  }

  /** Guild order[0]'s own turn contributes its block, and later turns nothing of it. */
  lemma PerGuildOwnTurn(order: seq<GuildId>, rows: seq<StaleRow>, eligible: GuildId -> bool, done: nat)
    requires Distinct(order) && order != [] && done < TOTAL_CAP && eligible(order[0])
    ensures LeadingRowsOf(OfGuild(Schedule(order, rows, eligible, done), order[0]), rows, order[0])
  {
    var g := order[0];
    var block := Block(rows, g, done);
    var rest := Schedule(order[1..], rows, eligible, done + |block|);
    assert Schedule(order, rows, eligible, done) == block + rest;
    OwnBlockOnly(order, rows, eligible, done);
    OfGuildAppend(block, rest, g);
    assert block + [] == block;
  }

  /** Of the first guild's turn and everything after it, only its own block belongs to it. */
  lemma OwnBlockOnly(order: seq<GuildId>, rows: seq<StaleRow>, eligible: GuildId -> bool, done: nat)
    requires Distinct(order) && order != [] && done < TOTAL_CAP
    ensures var block := Block(rows, order[0], done);
      OfGuild(block, order[0]) == block
      && OfGuild(Schedule(order[1..], rows, eligible, done + |block|), order[0]) == []
  {
    var block := Block(rows, order[0], done);
    BlockOfGuild(rows, order[0], done);
    OfGuildAll(block, order[0]);
    LaterTurnsSkipFirst(order, rows, eligible, done + |block|);
  }

  /** With distinct guild ids, nothing scheduled after the first guild's turn belongs to it. */
  lemma LaterTurnsSkipFirst(order: seq<GuildId>, rows: seq<StaleRow>, eligible: GuildId -> bool, done: nat)
    requires Distinct(order) && order != [] && done <= TOTAL_CAP
    ensures OfGuild(Schedule(order[1..], rows, eligible, done), order[0]) == []
  {
    ScheduleBounds(order[1..], rows, eligible, done);
    assert order[0] !in order[1..];
    OfGuildAbsent(Schedule(order[1..], rows, eligible, done), order[0]);
  }

  /** What processing one member comes to. */
  datatype Fate =
    | MemberGone            // the fetch returned nothing
    | NotKickable           // role hierarchy forbids the kick
    | KickThrew(code: Option<int>)
    | KickedOut

  function StaleKey(r: StaleRow): Key
  {
    Key(r.guildId, r.userId)
  }

  /** processStaleVerification's effect on the table. */
  function FateEffect(states: map<Key, Record>, r: StaleRow, fate: Fate): map<Key, Record>
  {
    match fate
    case MemberGone => states - {StaleKey(r)}
    case KickThrew(code) => if code == Some(UNKNOWN_MEMBER) then states - {StaleKey(r)} else states
    case NotKickable => states
    case KickedOut => Upserted(states, StaleKey(r), NO_STATE_CHANGE.(status := Set(KICKED)))
  }

  /** A member who left has the record deleted; a kicked member changes only status, to KICKED. */
  lemma FateOutcome(states: map<Key, Record>, r: StaleRow, fate: Fate)
    ensures var after := FateEffect(states, r, fate);
      (forall k :: k != StaleKey(r) ==> (k in after <==> k in states) && (k in after ==> after[k] == states[k]))
      && (fate == MemberGone || fate == KickThrew(Some(UNKNOWN_MEMBER)) ==> StaleKey(r) !in after)
      && (fate == NotKickable || (fate.KickThrew? && fate.code != Some(UNKNOWN_MEMBER)) ==> after == states)
      && (fate == KickedOut && StaleKey(r) in states ==>
            after[StaleKey(r)] == states[StaleKey(r)].(status := KICKED))
  {
  }

  function ApplyFates(states: map<Key, Record>, rows: seq<StaleRow>, fate: StaleRow -> Fate): map<Key, Record>
  {
    if rows == [] then states
    else
      var n := |rows| - 1;
      FateEffect(ApplyFates(states, rows[..n], fate), rows[n], fate(rows[n]))
  }

  lemma ConcatAssoc<T>(a: seq<T>, b: seq<T>, c: seq<T>)
    ensures (a + b) + c == a + (b + c)
  {
  }

  lemma ApplyFatesStep(states: map<Key, Record>, rows: seq<StaleRow>, r: StaleRow, fate: StaleRow -> Fate)
    ensures ApplyFates(states, rows + [r], fate) == FateEffect(ApplyFates(states, rows, fate), r, fate(r))
  {
    assert (rows + [r])[..|rows|] == rows;
  }

  lemma {:induction false} ApplyFatesAppend(states: map<Key, Record>, a: seq<StaleRow>, b: seq<StaleRow>, fate: StaleRow -> Fate)
    ensures ApplyFates(states, a + b, fate) == ApplyFates(ApplyFates(states, a, fate), b, fate)
    decreases |b|
  {
    if b == [] {
      assert a + b == a;
    } else {
      var n := |b| - 1;
      assert a + b == (a + b[..n]) + [b[n]];
      ApplyFatesStep(states, a + b[..n], b[n], fate);
      ApplyFatesAppend(states, a, b[..n], fate);
      ApplyFatesStep(ApplyFates(states, a, fate), b[..n], b[n], fate);
      assert b == b[..n] + [b[n]];
    }
  }

  /** The members of one guild, processed in turn. */
  method KickGuild(db: Database, capped: seq<StaleRow>, fate: StaleRow -> Fate)
    modifies db`states
    ensures db.states == ApplyFates(old(db.states), capped, fate)
  {
    ghost var start := db.states;
    var j := 0;
    while j < |capped|
      invariant 0 <= j <= |capped|
      invariant db.states == ApplyFates(start, capped[..j], fate)
    {
      var r := capped[j];
      ProcessStale(db, r, fate(r));
      ApplyFatesStep(start, capped[..j], r, fate);
      assert capped[..j + 1] == capped[..j] + [r];
      j := j + 1;
    }
    assert capped[..j] == capped;
  }

  /** processStaleVerification: fetch, check kickability, kick, record; errors stay with the member. */
  method ProcessStale(db: Database, r: StaleRow, f: Fate)
    modifies db`states
    ensures db.states == FateEffect(old(db.states), r, f)
  {
    match f {
      case MemberGone =>
        db.DeleteVerificationState(r.guildId, r.userId);
      case NotKickable =>
      case KickedOut =>
        Upsert(db, StaleKey(r), NO_STATE_CHANGE.(status := Set(KICKED)));
      case KickThrew(code) =>
        if code == Some(UNKNOWN_MEMBER) {
          db.DeleteVerificationState(r.guildId, r.userId);
        }
    }
  }

  /** An ineligible guild's turn adds nothing. */
  lemma ScheduleSkip(order: seq<GuildId>, i: nat, rows: seq<StaleRow>, eligible: GuildId -> bool, done: nat)
    requires i < |order| && done < TOTAL_CAP && !eligible(order[i])
    ensures Schedule(order[i..], rows, eligible, done) == Schedule(order[i + 1..], rows, eligible, done)
  {
    assert order[i..][0] == order[i] && order[i..][1..] == order[i + 1..];
  }

  /** An eligible guild's turn adds its capped block ahead of the rest. */
  lemma ScheduleTurn(order: seq<GuildId>, i: nat, rows: seq<StaleRow>, eligible: GuildId -> bool, done: nat)
    requires i < |order| && done < TOTAL_CAP && eligible(order[i])
    ensures Schedule(order[i..], rows, eligible, done)
      == Block(rows, order[i], done) + Schedule(order[i + 1..], rows, eligible, done + |Block(rows, order[i], done)|)
  {
    assert order[i..][0] == order[i] && order[i..][1..] == order[i + 1..];
  }

  lemma ScheduleDone(order: seq<GuildId>, i: nat, rows: seq<StaleRow>, eligible: GuildId -> bool, done: nat)
    requires i <= |order| && (i == |order| || done >= TOTAL_CAP)
    ensures Schedule(order[i..], rows, eligible, done) == []
  {
  }

  /** phaseKickStaleMembers */
  method PhaseKick(db: Database, rows: seq<StaleRow>, eligible: GuildId -> bool, fate: StaleRow -> Fate)
    returns (processed: seq<StaleRow>)
    modifies db`states
    ensures processed == Schedule(GuildOrder(rows), rows, eligible, 0)
    ensures db.states == ApplyFates(old(db.states), processed, fate)
    ensures |processed| <= TOTAL_CAP
  {
    processed := [];
    if |rows| == 0 {
      return;
    }
    var order, groups := GroupByGuild(rows);
    processed := KickGroups(db, rows, order, groups, eligible, fate);
  }

  /** The loop over the grouped rows, counting processed members against the caps. */
  method KickGroups(db: Database, rows: seq<StaleRow>, order: seq<GuildId>, groups: map<GuildId, seq<StaleRow>>,
                    eligible: GuildId -> bool, fate: StaleRow -> Fate)
    returns (processed: seq<StaleRow>)
    requires forall g :: g in order ==> g in groups && groups[g] == OfGuild(rows, g)
    modifies db`states
    ensures processed == Schedule(order, rows, eligible, 0)
    ensures db.states == ApplyFates(old(db.states), processed, fate)
    ensures |processed| <= TOTAL_CAP
  {
    processed := [];
    ghost var start := db.states;
    var total := 0;
    var i := 0;
    while i < |order|
      invariant 0 <= i <= |order|
      invariant total == |processed| && total <= TOTAL_CAP
      invariant processed + Schedule(order[i..], rows, eligible, total) == Schedule(order, rows, eligible, 0)
      invariant db.states == ApplyFates(start, processed, fate)
    {
      if total >= TOTAL_CAP {
        break;
      }
      var g := order[i];
      if !eligible(g) {
        ScheduleSkip(order, i, rows, eligible, total);
        i := i + 1;
        continue;
      }
      var remaining := TOTAL_CAP - total;
      var members := groups[g];
      var capped := members[..Min(Min(PER_GUILD_CAP, remaining), |members|)];
      ScheduleTurn(order, i, rows, eligible, total);
      ghost var rest := Schedule(order[i + 1..], rows, eligible, total + |capped|);
      KickGuild(db, capped, fate);
      ApplyFatesAppend(start, processed, capped, fate);
      ConcatAssoc(processed, capped, rest);
      processed := processed + capped;
      total := total + |capped|;
      i := i + 1;
    }
    ScheduleDone(order, i, rows, eligible, total);
  }

  // ---------------------------------------------------------- scheduling

  /** The module's timers and the re-entrancy flag. */
  class SweepLoop {
    var sweepTimer: bool
    var startupTimer: bool
    var processing: bool

    constructor ()
      ensures !sweepTimer && !startupTimer && !processing
    {
      sweepTimer, startupTimer, processing := false, false, false;
    }

    /** startVerificationSweep: a no-op while either timer exists, otherwise arms the startup delay. */
    method Start()
      modifies this`startupTimer
      ensures old(sweepTimer) || old(startupTimer) ==> startupTimer == old(startupTimer)
      ensures !old(sweepTimer) && !old(startupTimer) ==> startupTimer
    {
      if sweepTimer || startupTimer {
        return;
      }
      startupTimer := true;
    }

    /** The startup delay elapsing: the one-shot timer is gone and the interval is armed. */
    method StartupElapsed()
      modifies this`startupTimer, this`sweepTimer
      ensures !startupTimer && sweepTimer
    {
      startupTimer := false;
      sweepTimer := true;
    }

    /** stopVerificationSweep clears both timers. */
    method Stop()
      modifies this`startupTimer, this`sweepTimer
      ensures !startupTimer && !sweepTimer
    {
      startupTimer := false;
      sweepTimer := false;
    }

    /** The re-entrancy guard: a sweep that finds another in flight returns at once. */
    method BeginSweep() returns (ran: bool)
      modifies this`processing
      ensures ran <==> !old(processing)
      ensures processing
    {
      if processing {
        return false;
      }
      processing := true;
      ran := true;
    }

    /** The `finally` block: the flag is cleared however the phases ended. */
    method EndSweep()
      modifies this`processing
      ensures !processing
    {
      processing := false;
    }

    /**
     * sweepStaleVerifications: remind, then expire, then kick. `failAt` is the
     * phase whose selection query throws (3 or more: none does); the phases
     * before it have run, it and the later ones change nothing, and the error
     * is swallowed. Either way the flag ends cleared, so the next tick runs.
     */
    method Sweep(db: Database, reminders: seq<ReviewRow>, reminderEnvs: seq<ReminderEnv>,
                 expired: seq<ReviewRow>, expireEnvs: seq<ExpireEnv>,
                 stale: seq<StaleRow>, eligible: GuildId -> bool, fate: StaleRow -> Fate, failAt: nat)
      returns (ran: bool, sent: seq<Reminder>, editAttempts: seq<string>, processed: seq<StaleRow>)
      requires |reminderEnvs| == |reminders| && |expireEnvs| == |expired|
      modifies this`processing, db`states
      ensures ran <==> !old(processing)
      ensures !ran ==> processing && db.states == old(db.states) && sent == [] && editAttempts == [] && processed == []
      ensures ran ==> !processing
      ensures ran ==>
        var r := Capped(reminders, REMIND_CAP);
        var e := Capped(expired, EXPIRE_CAP);
        var afterRemind := if failAt > 0 then MarkReminded(old(db.states), r) else old(db.states);
        var afterExpire := if failAt > 1 then MarkExpired(afterRemind, e, expireEnvs[..|e|]) else afterRemind;
        sent == (if failAt > 0 then Reminders(r, reminderEnvs[..|r|]) else [])
        && editAttempts == (if failAt > 1 then ReviewEditAttempts(e, expireEnvs[..|e|]) else [])
        && processed == (if failAt > 2 then Schedule(GuildOrder(stale), stale, eligible, 0) else [])
        && db.states == (if failAt > 2 then ApplyFates(afterExpire, processed, fate) else afterExpire)
    {
      sent, editAttempts, processed := [], [], [];
      ran := BeginSweep();
      if !ran {
        return;
      }
      if failAt > 0 {
        sent := PhaseRemind(db, reminders, reminderEnvs);
        if failAt > 1 {
          editAttempts := PhaseExpire(db, expired, expireEnvs);
          if failAt > 2 {
            processed := PhaseKick(db, stale, eligible, fate);
          }
        }
      }
      EndSweep();
    }
  }
}
