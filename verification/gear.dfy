/**
 * The name classifiers of the fighter persona in combined_bot.js: which
 * entities count as hostile, which dropped items are worth collecting, and
 * which inventory item `equipBestWeapon` puts in the bot's hand.
 */
module Gear {
  import opened Common
  import opened Text

  /** The ten substrings that mark an entity name as hostile. */
  const HostileMobs: seq<string> :=
    ["zombie", "skeleton", "spider", "creeper", "enderman",
     "phantom", "witch", "blaze", "ghast", "piglin_brute"]

  /** `keys.some(k => name.includes(k))`. */
  predicate AnyContained(name: string, keys: seq<string>)
    decreases |keys|
  {
    keys != [] && (Contains(name, keys[0]) || AnyContained(name, keys[1..]))
  }

  /** `some` holds exactly when one of the keys occurs in the name. */
  lemma {:induction false} AnyContainedIff(name: string, keys: seq<string>)
    ensures AnyContained(name, keys) <==> exists k :: 0 <= k < |keys| && Contains(name, keys[k])
    decreases |keys|
  {
    if keys != [] {
      AnyContainedIff(name, keys[1..]);
      if AnyContained(name, keys[1..]) {
        var k :| 0 <= k < |keys[1..]| && Contains(name, keys[1..][k]);
        assert Contains(name, keys[k + 1]);
      }
      forall k | 1 <= k < |keys| && Contains(name, keys[k])
        ensures AnyContained(name, keys[1..])
      {
        assert keys[1..][k - 1] == keys[k];
      }
    }
  }

  /** `isHostileMob`: the entity name contains one of the listed mobs. */
  predicate IsHostileMob(name: string) {
    AnyContained(name, HostileMobs)
  }

  /** An entity is hostile exactly when one of the ten mob names occurs in its name. */
  lemma HostileMobIff(name: string)
    ensures IsHostileMob(name) <==> exists k :: 0 <= k < 10 && Contains(name, HostileMobs[k])
  {
    AnyContainedIff(name, HostileMobs);
  }

  /** The material table of `isBetterGear`, with the tier number of each material. */
  const GearTiers: seq<(string, nat)> :=
    [("netherite", 5), ("diamond", 4), ("iron", 3), ("chainmail", 2), ("gold", 1), ("leather", 0)]

  /**
   * `isBetterGear`: walks the material table and answers true at the first
   * material the item name contains. The tier numbers are never consulted.
   */
  method IsBetterGear(itemName: string) returns (better: bool)
    ensures better <==> exists k :: 0 <= k < |GearTiers| && Contains(itemName, GearTiers[k].0)
  {
    var i := 0;
    while i < |GearTiers|
      invariant 0 <= i <= |GearTiers|
      invariant forall k :: 0 <= k < i ==> !Contains(itemName, GearTiers[k].0)
    {
      var (material, _) := GearTiers[i];
      if Contains(itemName, material) {
        return true;
      }
      i := i + 1;
    }
    return false;
  }

  /** The weapon priority list of `equipBestWeapon`, best first. */
  const Weapons: seq<string> :=
    ["netherite_sword", "diamond_sword", "iron_sword", "stone_sword", "golden_sword", "wooden_sword",
     "netherite_axe", "diamond_axe", "iron_axe", "stone_axe", "golden_axe", "wooden_axe"]

  /** `items.find(i => i.name.includes(key))`, as the index of the item found. */
  function FindItem(items: seq<string>, key: string, from: nat): (r: Option<nat>)
    requires from <= |items|
    ensures r.Some? ==> from <= r.value < |items| && Contains(items[r.value], key)
    ensures r.Some? ==> forall j :: from <= j < r.value ==> !Contains(items[j], key)
    ensures r.None? ==> forall j :: from <= j < |items| ==> !Contains(items[j], key)
    decreases |items| - from
  {
    if from == |items| then None
    else if Contains(items[from], key) then Some(from)
    else FindItem(items, key, from + 1)
  }

  /** The item the priority walk settles on, trying the keys from position `k` on. */
  function Pick(items: seq<string>, keys: seq<string>, k: nat): (r: Option<nat>)
    requires k <= |keys|
    ensures r.Some? ==> r.value < |items|
    decreases |keys| - k
  {
    if k == |keys| then None
    else match FindItem(items, keys[k], 0)
      case Some(j) => Some(j)
      case None => Pick(items, keys, k + 1)
  }

  /** Some key from position `k` on occurs in the item name. */
  predicate MatchesFrom(item: string, keys: seq<string>, k: nat) {
    exists m :: k <= m < |keys| && Contains(item, keys[m])
  }

  /**
   * The walk picks the first item holding the earliest key any item holds,
   * and picks nothing exactly when no item holds any key.
   */
  lemma {:induction false} PickIsFirstBest(items: seq<string>, keys: seq<string>, k: nat)
    requires k <= |keys|
    ensures Pick(items, keys, k).None? <==> forall j :: 0 <= j < |items| ==> !MatchesFrom(items[j], keys, k)
    ensures Pick(items, keys, k).Some? ==>
      exists m :: k <= m < |keys|
        && Pick(items, keys, k).value < |items|
        && Contains(items[Pick(items, keys, k).value], keys[m])
        && (forall j :: 0 <= j < Pick(items, keys, k).value ==> !Contains(items[j], keys[m]))
        && (forall m', j :: k <= m' < m && 0 <= j < |items| ==> !Contains(items[j], keys[m']))
    decreases |keys| - k
  {
    if k < |keys| {
      var found := FindItem(items, keys[k], 0);
      if found.None? {
        PickIsFirstBest(items, keys, k + 1);
        forall j | 0 <= j < |items| && MatchesFrom(items[j], keys, k)
          ensures MatchesFrom(items[j], keys, k + 1)
        {
          var m :| k <= m < |keys| && Contains(items[j], keys[m]);
          assert m != k;
        }
        if Pick(items, keys, k + 1).Some? {
          var m :| k + 1 <= m < |keys|
            && Pick(items, keys, k + 1).value < |items|
            && Contains(items[Pick(items, keys, k + 1).value], keys[m])
            && (forall j :: 0 <= j < Pick(items, keys, k + 1).value ==> !Contains(items[j], keys[m]))
            && (forall m', j :: k + 1 <= m' < m && 0 <= j < |items| ==> !Contains(items[j], keys[m']));
          assert k <= m < |keys|;
        }
      } else {
        assert MatchesFrom(items[found.value], keys, k);
      }
    }
  }

  /**
   * `equipBestWeapon`: for each weapon in priority order, looks for an item
   * whose name contains it and equips the first one found, then stops.
   * The answer is the index of the item equipped, or `None` when nothing is.
   */
  method EquipBestWeapon(items: seq<string>) returns (choice: Option<nat>)
    ensures choice == Pick(items, Weapons, 0)
  {
    var w := 0;
    while w < |Weapons|
      invariant 0 <= w <= |Weapons|
      invariant Pick(items, Weapons, 0) == Pick(items, Weapons, w)
    {
      var item := FindItem(items, Weapons[w], 0);
      if item.Some? {
        return item;
      }
      w := w + 1;
    }
    return None;
  }
}
