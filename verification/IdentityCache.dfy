/** The bounded cache of kernel identities, with its overflow table and eviction. */
module IdentityCache {
  import opened Common

  const NAME_CAPACITY: nat := 255
  const MAX_OVERFLOW: nat := 256
  const UNKNOWN_NAME := "<unknown>"
  const OVERFLOW_NAME := "<identity-overflow>"

  datatype Key = Key(value: nat, driverFunction: bool, context: nat)

  datatype Identity = Identity(name: string, targetMatch: bool)

  /** The names the caller passes with a key. */
  datatype Names = Names(display: Option<string>, target: Option<string>)

  function Truncated(name: string): string { if |name| <= NAME_CAPACITY then name else name[..NAME_CAPACITY] }

  function DisplayName(display: Option<string>): string {
    if display.Some? && display.value != "" then Truncated(display.value) else UNKNOWN_NAME
  }

  predicate TargetMatches(target: Option<string>, targets: seq<string>, monitorAll: bool) {
    monitorAll || (target.Some? && target.value != "" && target.value in targets)
  }

  /** The identity a key has when nothing is cached. */
  function Uncached(names: Names, targets: seq<string>, monitorAll: bool): Identity {
    Identity(DisplayName(names.display), TargetMatches(names.target, targets, monitorAll))
  }

  /** The uncached identity, or under monitor-all the overflow label. */
  predicate Faithful(id: Identity, names: Names, targets: seq<string>, monitorAll: bool) {
    id == Uncached(names, targets, monitorAll) || (monitorAll && id == Identity(OVERFLOW_NAME, true))
  }

  /** What a display name is: the name passed, cut to 255 characters, or a label when there is none. */
  lemma DisplayNameMeans(display: Option<string>)
    ensures var name := DisplayName(display);
      if display.None? || display.value == "" then name == "<unknown>"
      else name <= display.value && |name| <= 255 && (|display.value| <= 255 ==> name == display.value) && (|display.value| > 255 ==> |name| == 255)
  {
  }

  function OverflowCapacity(capacity: nat): nat { if capacity < MAX_OVERFLOW then capacity else MAX_OVERFLOW }

  predicate Apart(m: map<Key, Identity>, n: map<Key, Identity>) { forall k :: k in m ==> k !in n }

  predicate Exact(m: map<Key, Identity>, names: Key -> Names, targets: seq<string>, monitorAll: bool) {
    forall k :: k in m ==> m[k] == Uncached(names(k), targets, monitorAll)
  }

  predicate Labelled(m: map<Key, Identity>, names: Key -> Names, targets: seq<string>, monitorAll: bool) {
    forall k :: k in m ==> Faithful(m[k], names(k), targets, monitorAll)
  }

  predicate HasNegative(m: map<Key, Identity>) { exists k :: k in m && !m[k].targetMatch }

  class Cache {
    const names: Key -> Names
    var identities: map<Key, Identity>
    var overflow: map<Key, Identity>
    const capacity: nat
    const monitorAll: bool
    const targets: seq<string>
    var suppressed: nat
    var full: nat
    var negatives: nat
    var positiveFailures: nat
    var monitored: nat

    ghost predicate Valid()
      reads this
    {
      TablesOk() && full == negatives + positiveFailures + monitored
    }

    constructor (naming: Key -> Names, size: nat, identitySize: nat, all: bool, wanted: seq<string>)
      ensures Valid() && names == naming && identities == overflow == map[] && monitorAll == all && targets == wanted
      ensures capacity == if identitySize == 0 then size else identitySize
    {
      names := naming;
      identities, overflow := map[], map[];
      capacity, monitorAll, targets := if identitySize == 0 then size else identitySize, all, wanted;
      suppressed, full, negatives, positiveFailures, monitored := 0, 0, 0, 0, 0;
    }

    /** Keeps an identity in the overflow table while there is room. */
    method Spill(key: Key, id: Identity)
      requires key !in overflow && |overflow| <= OverflowCapacity(capacity)
      modifies this`overflow
      ensures |overflow| <= OverflowCapacity(capacity)
      ensures overflow == if |old(overflow)| < OverflowCapacity(capacity) then old(overflow)[key := id] else old(overflow)
      ensures overflow == if |old(overflow)| < capacity && |old(overflow)| < 256 then old(overflow)[key := id] else old(overflow)
    {
      if |overflow| < OverflowCapacity(capacity) {
        Grown(overflow, key, id);
        overflow := overflow[key := id];
      }
    }

    ghost predicate TablesOk()
      reads this`identities, this`overflow
    {
      && |identities| <= capacity && |overflow| <= OverflowCapacity(capacity)
      && Apart(identities, overflow)
      && Exact(identities, names, targets, monitorAll)
      && Labelled(overflow, names, targets, monitorAll)
    }

    /** Evicts one entry that matches no target to make room for one that does. */
    method Evict(victim: Key, key: Key, id: Identity)
      requires TablesOk() && victim in identities && key !in identities && key !in overflow
      requires id == Uncached(names(key), targets, monitorAll)
      modifies this`identities, this`overflow
      ensures TablesOk() && identities == (old(identities) - {victim})[key := id]
    {
      var evicted := identities[victim];
      Shrunk(identities, victim);
      Grown(identities - {victim}, key, id);
      identities := (identities - {victim})[key := id];
      Spill(victim, evicted);
    }

    /** The answer for a full table without a victim: spilled when there is room, never admitted. */
    method Overflowing(key: Key, id: Identity) returns (result: Identity)
      requires TablesOk() && key !in identities && key !in overflow && id == Uncached(names(key), targets, monitorAll)
      modifies this`overflow
      ensures TablesOk() && Faithful(result, names(key), targets, monitorAll) && (!monitorAll ==> result == id)
    {
      result := if monitorAll then Identity(OVERFLOW_NAME, true) else id;
      Spill(key, result);
    }

    /** Each time the table is full, exactly one of the outcomes is counted. */
    method CountFull(id: Identity, evicts: bool)
      requires full == negatives + positiveFailures + monitored && (evicts ==> id.targetMatch && !monitorAll)
      modifies this`full, this`negatives, this`positiveFailures, this`monitored
      ensures full == old(full) + 1 && full == negatives + positiveFailures + monitored
      ensures positiveFailures == old(positiveFailures) + One(id.targetMatch && !monitorAll && !evicts)
      ensures monitored == old(monitored) + One(monitorAll)
    {
      full := full + 1;
      if evicts {
        negatives := negatives + 1;
      } else {
        if id.targetMatch && !monitorAll {
          positiveFailures := positiveFailures + 1;
        }
        if monitorAll {
          monitored := monitored + 1;
        } else if !id.targetMatch {
          negatives := negatives + 1;
        }
      }
    }

    /**
     * Identifies a kernel. The answer is the uncached one, except that monitor-all may label it as
     * overflow; a matching entry is never evicted, and nothing but one victim leaves the table.
     */
    method Identify(key: Key) returns (result: Identity)
      requires Valid()
      modifies this
      ensures Valid()
      ensures Faithful(result, names(key), targets, monitorAll)
      ensures result.targetMatch == Uncached(names(key), targets, monitorAll).targetMatch
      ensures result.targetMatch <==> monitorAll || exists i :: 0 <= i < |targets| && targets[i] != "" && names(key).target == Some(targets[i])
      ensures forall k :: k in old(identities) && old(identities)[k].targetMatch ==> k in identities && identities[k] == old(identities)[k]
      ensures !monitorAll ==> result == Uncached(names(key), targets, monitorAll)
      ensures key in old(identities) ==> identities == old(identities) && overflow == old(overflow) && result == old(identities)[key]
      ensures key in old(overflow) && key !in old(identities) ==> identities == old(identities) && overflow == old(overflow) && result == old(overflow)[key]
      ensures key !in old(identities) && key !in old(overflow) && |old(identities)| < capacity ==>
        identities == old(identities)[key := result] && overflow == old(overflow) && result == Uncached(names(key), targets, monitorAll)
      ensures !monitorAll && result.targetMatch && HasNegative(old(identities)) ==> key in identities || key in old(overflow)
    {
      if key in identities {
        return identities[key];
      }
      if key in overflow {
        suppressed := suppressed + 1;
        return overflow[key];
      }
      result := Uncached(names(key), targets, monitorAll);
      if |identities| < capacity {
        Grown(identities, key, result);
        identities := identities[key := result];
        return;
      }
      var evicts := result.targetMatch && !monitorAll && HasNegative(identities);
      CountFull(result, evicts);
      if evicts {
        var victim :| victim in identities && !identities[victim].targetMatch;
        Evict(victim, key, result);
      } else {
        result := Overflowing(key, result);
      }
    }

    /** Looks a key up without admitting it. */
    method Cached(key: Key) returns (result: Option<Identity>)
      requires Valid()
      modifies this`suppressed
      ensures Valid()
      ensures result.Some? <==> key in identities || key in overflow
      ensures result.Some? ==> Faithful(result.value, names(key), targets, monitorAll)
      ensures suppressed == old(suppressed) + One(key in overflow)
    {
      if key in identities {
        return Some(identities[key]);
      }
      if key !in overflow {
        return None;
      }
      suppressed := suppressed + 1;
      result := Some(overflow[key]);
    }
  }

  lemma Grown<V>(m: map<Key, V>, k: Key, v: V)
    requires k !in m
    ensures |m[k := v]| == |m| + 1
  {
    assert m[k := v].Keys == m.Keys + {k};
    assert |m| == |m.Keys|;
  }

  lemma Shrunk<V>(m: map<Key, V>, k: Key)
    requires k in m
    ensures |m - {k}| == |m| - 1
  {
    assert (m - {k}).Keys == m.Keys - {k};
    assert |m - {k}| == |(m - {k}).Keys|;
    assert |m| == |m.Keys|;
  }
}
