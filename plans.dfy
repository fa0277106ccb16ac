/**
 * Plan entitlements of the editor: which tools a user may open, and the
 * free-plan limits on projects and exports.  Everything is decided by one
 * boolean, whether the signed-in user holds the "pro" plan.
 */
module Plans {
  import opened Wrappers

  /** Projects a free user may own. */
  const FreeProjectLimit: int := 3

  /** Exports a free user may make per month. */
  const FreeExportLimit: int := 20

  /** Tools open to every plan, in table order. */
  const FreeTools: seq<string> := ["resize", "crop", "adjust", "text"]

  /** Tools open to the pro plan only, in table order. */
  const ProTools: seq<string> := ["background", "ai_extender", "ai_edit"]

  /** Every tool id the access table knows. */
  const KnownTools: seq<string> := FreeTools + ProTools

  /**
   * The plan flag: the authentication helper may not be loaded yet, in which
   * case the user counts as free.  `proCheck` is the answer of that helper
   * to "has plan pro?", or None while it is unavailable.
   */
  function IsPro(proCheck: Option<bool>): (isPro: bool)
    ensures isPro <==> proCheck == Some(true)
  {
    match proCheck
    case Some(b) => b
    case None => false
  }

  /** Free is the default: whoever is not pro is free. */
  function IsFree(isPro: bool): (isFree: bool)
    ensures isFree != isPro
  {
    !isPro
  }

  /** The plan name the hook reports. */
  function UserPlan(isPro: bool): (plan: string)
    ensures isPro ==> plan == "pro"
    ensures !isPro ==> plan == "free_user"
    ensures plan == "pro" <==> isPro
  {
    if isPro then "pro" else "free_user"
  }

  /** The access table as an ordered list of (tool id, allowed) entries. */
  function PlanAccess(isPro: bool): (table: seq<(string, bool)>)
    ensures |table| == |KnownTools|
    ensures forall i :: 0 <= i < |table| ==> table[i].0 == KnownTools[i]
    ensures forall i :: 0 <= i < |table| ==> table[i].1 == (i < |FreeTools| || isPro)
  {
    [("resize", true), ("crop", true), ("adjust", true), ("text", true),
     ("background", isPro), ("ai_extender", isPro), ("ai_edit", isPro)]
  }

  /** Property lookup on the table: the first entry with the key, if any. */
  function Lookup(table: seq<(string, bool)>, key: string): (v: Option<bool>)
    ensures v.None? <==> forall i :: 0 <= i < |table| ==> table[i].0 != key
    ensures v.Some? ==> exists i :: 0 <= i < |table| && table[i] == (key, v.value)
  {
    if table == [] then None
    else if table[0].0 == key then Some(table[0].1)
    else Lookup(table[1..], key)
  }

  /** The keys of the entries whose value is false, in table order. */
  function Denied(table: seq<(string, bool)>): (keys: seq<string>)
    ensures |keys| <= |table|
  {
    if table == [] then []
    else if !table[0].1 then [table[0].0] + Denied(table[1..])
    else Denied(table[1..])
  }

  /** Every denied key comes from an entry that maps it to false. */
  lemma {:induction false} DeniedSound(table: seq<(string, bool)>, key: string)
    requires key in Denied(table)
    ensures (key, false) in table
  {
    if table[0] != (key, false) {
      DeniedSound(table[1..], key);
      assert table == [table[0]] + table[1..];
    }
  }

  /** A table in which no key occurs twice. */
  predicate DistinctKeys(table: seq<(string, bool)>)
  {
    forall i, j :: 0 <= i < j < |table| ==> table[i].0 != table[j].0
  }

  /** With distinct keys, a key is denied exactly when the table maps it to false. */
  lemma {:induction false} DeniedIffLookupFalse(table: seq<(string, bool)>, key: string)
    requires DistinctKeys(table)
    ensures key in Denied(table) <==> Lookup(table, key) == Some(false)
  {
    if table != [] {
      assert DistinctKeys(table[1..]);
      DeniedIffLookupFalse(table[1..], key);
      if table[0].0 == key {
        assert forall i :: 0 <= i < |table[1..]| ==> table[1..][i].0 != key by {
          forall i | 0 <= i < |table[1..]| ensures table[1..][i].0 != key {
            assert table[1..][i] == table[i + 1];
          }
        }
        assert key !in Denied(table[1..]);
      }
    }
  }

  /** A tool is open to the user exactly when the table maps it to true. */
  function HasAccess(isPro: bool, toolId: string): (allowed: bool)
    ensures allowed <==> toolId in FreeTools || (isPro && toolId in ProTools)
  {
    var table := PlanAccess(isPro);
    var v := Lookup(table, toolId);
    assert v == Some(true) <==> toolId in FreeTools || (isPro && toolId in ProTools) by {
      if v.Some? {
        var i :| 0 <= i < |table| && table[i] == (toolId, v.value);
        assert toolId == KnownTools[i];
      } else {
        assert forall i :: 0 <= i < |KnownTools| ==> KnownTools[i] != toolId;
      }
      if toolId in KnownTools {
        var i :| 0 <= i < |KnownTools| && KnownTools[i] == toolId;
        assert table[i].0 == toolId;
      }
    }
    v == Some(true)
  }

  /** The ids of the tools the user may not open, in table order. */
  function RestrictedTools(isPro: bool): (tools: seq<string>)
    ensures isPro ==> tools == []
    ensures !isPro ==> tools == ProTools
  {
    if isPro then Denied(PlanAccess(true)) else Denied(PlanAccess(false))
  }

  /** The free-plan project limit; pro users are never limited. */
  function CanCreateProject(isPro: bool, currentProjectCount: int): (ok: bool)
    ensures isPro ==> ok
    ensures !isPro ==> (ok <==> currentProjectCount < FreeProjectLimit)
  {
    if isPro then true else currentProjectCount < 3
  }

  /** The free-plan monthly export limit; pro users are never limited. */
  function CanExport(isPro: bool, currentExportsThisMonth: int): (ok: bool)
    ensures isPro ==> ok
    ensures !isPro ==> (ok <==> currentExportsThisMonth < FreeExportLimit)
  {
    if isPro then true else currentExportsThisMonth < 20
  }

  /** The four basic tools are open on every plan. */
  lemma FreeToolsAlwaysAllowed(isPro: bool, toolId: string)
    requires toolId in FreeTools
    ensures HasAccess(isPro, toolId)
  {
  }

  /** The AI tools are open exactly to pro users. */
  lemma ProToolsIffPro(isPro: bool, toolId: string)
    requires toolId in ProTools
    ensures HasAccess(isPro, toolId) <==> isPro
  {
  }

  /** A tool id the table does not list is never open. */
  lemma UnknownToolDenied(isPro: bool, toolId: string)
    requires toolId !in KnownTools
    ensures !HasAccess(isPro, toolId)
  {
  }

  /** The access table is an object literal: no key occurs twice. */
  lemma PlanAccessDistinctKeys(isPro: bool)
    ensures DistinctKeys(PlanAccess(isPro))
  {
  }

  /** For every known tool, being refused and being listed as restricted coincide. */
  lemma {:induction false} RestrictedIffDenied(isPro: bool, toolId: string)
    requires toolId in KnownTools
    ensures !HasAccess(isPro, toolId) <==> toolId in RestrictedTools(isPro)
  {
    var table := PlanAccess(isPro);
    PlanAccessDistinctKeys(isPro);
    DeniedIffLookupFalse(table, toolId);
  }

  /** Once a limit refuses a count it refuses every larger count. */
  lemma LimitsMonotone(isPro: bool, n: int, m: int)
    requires n <= m
    ensures !CanCreateProject(isPro, n) ==> !CanCreateProject(isPro, m)
    ensures !CanExport(isPro, n) ==> !CanExport(isPro, m)
  {
  }
}
