// Start-up schema maintenance: adding columns an older database lacks, and
// recording the schema version.

module Schema {
  import opened Common

  const CURRENT_VERSION := 6

  /** `definition.split(' ')[0] ?? ''`: the column name a definition starts with. */
  function FirstWord(definition: string): (w: string)
    ensures ' ' !in w
    ensures |w| <= |definition| && w == definition[..|w|]
  {
    FirstWordPrefix(definition);
    Split(definition, ' ')[0]
  }

  lemma {:induction false} FirstWordPrefix(s: string)
    ensures |Split(s, ' ')[0]| <= |s| && Split(s, ' ')[0] == s[..|Split(s, ' ')[0]|]
    decreases |s|
  {
    if s != [] && s[0] != ' ' {
      FirstWordPrefix(s[1..]);
    }
  }

  /**
   * The column names an ensureColumnsExist call adds, in order: the first
   * word of each definition that is non-empty and not among the names the
   * table had when the call began.
   */
  function Missing(names: set<string>, defs: seq<string>): seq<string>
  {
    if defs == [] then []
    else
      var w := FirstWord(defs[|defs| - 1]);
      Missing(names, defs[..|defs| - 1]) + (if w == "" || w in names then [] else [w])
  }

  /** After the additions every required column is present (an empty first word requires nothing). */
  lemma {:induction false} MissingCovers(names: set<string>, defs: seq<string>)
    ensures forall d :: d in defs && FirstWord(d) != "" ==> FirstWord(d) in names || FirstWord(d) in Missing(names, defs)
  {
    if defs != [] {
      MissingCovers(names, defs[..|defs| - 1]);
      forall d | d in defs && FirstWord(d) != ""
        ensures FirstWord(d) in names || FirstWord(d) in Missing(names, defs)
      {
        if d != defs[|defs| - 1] {
          assert d in defs[..|defs| - 1];
        }
      }
    }
  }

  /** A table that already has every required column gets nothing added. */
  lemma {:induction false} NothingMissing(names: set<string>, defs: seq<string>)
    requires forall d :: d in defs && FirstWord(d) != "" ==> FirstWord(d) in names
    ensures Missing(names, defs) == []
  {
    if defs != [] {
      assert defs[|defs| - 1] in defs;
      NothingMissing(names, defs[..|defs| - 1]);
    }
  }

  /** Running the same call a second time adds nothing. */
  lemma EnsureColumnsIdempotent(names: set<string>, defs: seq<string>)
    ensures Missing(names + (set w | w in Missing(names, defs)), defs) == []
  {
    MissingCovers(names, defs);
    NothingMissing(names + (set w | w in Missing(names, defs)), defs);
  }

  /** The newest recorded version: `ORDER BY version DESC LIMIT 1`. */
  function Latest(versions: seq<int>): (m: int)
    requires versions != []
    ensures m in versions && forall v :: v in versions ==> v <= m
  {
    if |versions| == 1 then versions[0]
    else
      var rest := Latest(versions[1..]);
      assert forall v :: v in versions ==> v == versions[0] || v in versions[1..];
      if versions[0] >= rest then versions[0] else rest
  }

  class SchemaDb {
    var columns: map<string, seq<string>>   // table name -> column names
    var versions: seq<int>                  // rows of schema_version

    /**
     * ensureColumnsExist. The set of existing names is read once, before the
     * loop; a definition whose name the loop itself already added makes the
     * ALTER fail, which aborts the call (ok is false).
     */
    method EnsureColumnsExist(table: string, required: seq<string>) returns (ok: bool)
      requires table in columns
      modifies this`columns
      ensures table in columns
      ensures forall t :: t in old(columns) && t != table ==> t in columns && columns[t] == old(columns)[t]
      ensures ok ==> columns[table] == old(columns)[table] + Missing((set c | c in old(columns)[table]), required)
      ensures ok ==> forall d :: d in required && FirstWord(d) != "" ==> FirstWord(d) in columns[table]
    {
      var names := set c | c in columns[table];
      ghost var before := columns[table];
      var i := 0;
      ok := true;
      while i < |required|
        invariant 0 <= i <= |required|
        invariant table in columns
        invariant forall t :: t in old(columns) && t != table ==> t in columns && columns[t] == old(columns)[t]
        invariant ok ==> columns[table] == before + Missing(names, required[..i])
      {
        var w := FirstWord(required[i]);
        assert required[..i + 1][..i] == required[..i];
        if w != "" && w !in names {
          if w in columns[table] {
            ok := false;
            return;
          }
          columns := columns[table := columns[table] + [w]];
        }
        i := i + 1;
      }
      assert required[..i] == required;
      MissingCovers(names, required);
    }

    /** Record CURRENT_VERSION when there is no version row or the newest is older. */
    method BumpVersion()
      modifies this`versions
      ensures versions != [] && Latest(versions) >= CURRENT_VERSION
      ensures old(versions) != [] && Latest(old(versions)) >= CURRENT_VERSION ==> versions == old(versions)
      ensures old(versions) == [] || Latest(old(versions)) < CURRENT_VERSION ==> versions == old(versions) + [CURRENT_VERSION]
    {
      if versions == [] || Latest(versions) < CURRENT_VERSION {
        versions := versions + [CURRENT_VERSION];
        assert CURRENT_VERSION in versions;
      }
    }
  }
}
