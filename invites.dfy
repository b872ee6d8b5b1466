// Which invite a new member used: the per-guild cache of invite use counts
// and the diff against a fresh listing.

module InviteTracker {
  import opened Common

  /** One live invite as the guild lists it; `uses` may be unknown. */
  datatype Invite = Invite(code: string, uses: Option<int>)

  /** The outcome of listing a guild's invites. */
  datatype Fetch = Fetched(invites: seq<Invite>) | FetchFailed

  function UsesOf(i: Invite): int
  {
    Coalesce(i.uses, 0)
  }

  /** `oldCache.get(code) ?? 0` */
  function CachedUses(counts: map<string, int>, code: string): int
  {
    if code in counts then counts[code] else 0
  }

  /** The fresh code -> uses map built by walking the listing (a later entry for a code overwrites). */
  function Snapshot(invites: seq<Invite>): (m: map<string, int>)
    ensures forall c :: c in m <==> exists j :: 0 <= j < |invites| && invites[j].code == c
  {
    if invites == [] then map[]
    else
      var init := invites[..|invites| - 1];
      var last := invites[|invites| - 1];
      var m := Snapshot(init)[last.code := UsesOf(last)];
      assert forall j :: 0 <= j < |init| ==> invites[j] == init[j];
      m
  }

  predicate DistinctCodes(invites: seq<Invite>)
  {
    forall i, j :: 0 <= i < j < |invites| ==> invites[i].code != invites[j].code
  }

  /** With codes distinct, the snapshot holds each invite's own count. */
  lemma {:induction false} SnapshotHoldsUses(invites: seq<Invite>, k: nat)
    requires DistinctCodes(invites) && k < |invites|
    ensures CachedUses(Snapshot(invites), invites[k].code) == UsesOf(invites[k])
  {
    var init := invites[..|invites| - 1];
    if k < |invites| - 1 {
      assert DistinctCodes(init);
      SnapshotHoldsUses(init, k);
      assert init[k] == invites[k];
    }
  }

  /** The first invite, in listing order, whose uses exceed its cached count. */
  function FirstUsed(invites: seq<Invite>, counts: map<string, int>): (r: Option<string>)
    ensures r.None? <==> forall j :: 0 <= j < |invites| ==> UsesOf(invites[j]) <= CachedUses(counts, invites[j].code)
    ensures r.Some? ==> exists i :: 0 <= i < |invites| && invites[i].code == r.value
                                    && UsesOf(invites[i]) > CachedUses(counts, invites[i].code)
                                    && (forall j :: 0 <= j < i ==> UsesOf(invites[j]) <= CachedUses(counts, invites[j].code))
  {
    if invites == [] then None
    else if UsesOf(invites[0]) > CachedUses(counts, invites[0].code) then Some(invites[0].code)
    else
      var r := FirstUsed(invites[1..], counts);
      assert forall j :: 1 <= j < |invites| ==> invites[j] == invites[1..][j - 1];
      r
  }

  /** Resolving against the snapshot of the same listing finds nothing. */
  lemma SecondResolveFindsNothing(invites: seq<Invite>)
    requires DistinctCodes(invites)
    ensures FirstUsed(invites, Snapshot(invites)) == None
  {
    forall j | 0 <= j < |invites|
      ensures UsesOf(invites[j]) <= CachedUses(Snapshot(invites), invites[j].code)
    {
      SnapshotHoldsUses(invites, j);
    }
  }

  class Tracker {
    var cache: map<string, map<string, int>>   // guild id -> (invite code -> uses)

    constructor ()
      ensures cache == map[]
    {
      cache := map[];
    }

    method BuildSnapshot(invites: seq<Invite>) returns (m: map<string, int>)
      ensures m == Snapshot(invites)
    {
      m := map[];
      var i := 0;
      while i < |invites|
        invariant 0 <= i <= |invites|
        invariant m == Snapshot(invites[..i])
      {
        assert invites[..i + 1][..i] == invites[..i];
        m := m[invites[i].code := UsesOf(invites[i])];
        i := i + 1;
      }
      assert invites[..i] == invites;
    }

    /** cacheGuildInvites: replace the guild's counts, or keep them when the listing fails. */
    method CacheGuildInvites(g: string, f: Fetch)
      modifies this
      ensures f.Fetched? ==> cache == old(cache)[g := Snapshot(f.invites)]
      ensures f.FetchFailed? ==> cache == old(cache)
    {
      if f.Fetched? {
        var m := BuildSnapshot(f.invites);
        cache := cache[g := m];
      }
    }

    /** resolveUsedInvite: the first code whose count rose, then the guild's counts are refreshed. */
    method ResolveUsedInvite(g: string, f: Fetch) returns (code: Option<string>)
      modifies this
      ensures f.FetchFailed? ==> code == None && cache == old(cache)
      ensures f.Fetched? ==>
        code == FirstUsed(f.invites, if g in old(cache) then old(cache)[g] else map[])
        && cache == old(cache)[g := Snapshot(f.invites)]
    {
      if f.FetchFailed? {
        return None;
      }
      var invites := f.invites;
      var counts := if g in cache then cache[g] else map[];
      code := None;
      var i := 0;
      while i < |invites|
        invariant 0 <= i <= |invites|
        invariant FirstUsed(invites, counts) == FirstUsed(invites[i..], counts)
      {
        if UsesOf(invites[i]) > CachedUses(counts, invites[i].code) {
          code := Some(invites[i].code);
          break;
        }
        assert invites[i..][1..] == invites[i + 1..];
        i := i + 1;
      }
      if code.None? {
        assert invites[i..] == [];
      }
      var m := BuildSnapshot(invites);
      cache := cache[g := m];
    }

    /** clearGuildCache: forget one guild, keep the rest. */
    method ClearGuildCache(g: string)
      modifies this
      ensures cache == old(cache) - {g}
    {
      cache := cache - {g};
    }
  }
}
