/**
 * A wizard declares its steps as a list of groups, each group a hash from step
 * key to step class; the wizard looks a key up in all the groups at once.
 */
module Registry {
  import opened Wrappers

  /** The groups merged into one map, a later group's entry replacing an earlier one's. */
  function Flatten<K, V>(groups: seq<map<K, V>>): map<K, V> {
    if groups == [] then map[]
    else Flatten(groups[..|groups| - 1]) + groups[|groups| - 1]
  }

  /** The class registered under `key`, if any group declares it. */
  function Lookup<K, V>(groups: seq<map<K, V>>, key: K): (r: Option<V>)
    ensures r.Some? <==> key in Flatten(groups)
    ensures r.Some? ==> r.value == Flatten(groups)[key]
  {
    var all := Flatten(groups);
    if key in all then Some(all[key]) else None
  }

  /** Every group's keys are distinct from every other group's. */
  predicate Disjoint<K, V>(groups: seq<map<K, V>>) {
    forall i, j, k :: 0 <= i < j < |groups| && k in groups[i] ==> k !in groups[j]
  }

  /** A key is registered exactly when some group declares it. */
  lemma {:induction false} FlattenKeys<K, V>(groups: seq<map<K, V>>, key: K)
    ensures key in Flatten(groups) <==> exists i :: 0 <= i < |groups| && key in groups[i]
  {
    if groups != [] {
      var init := groups[..|groups| - 1];
      FlattenKeys(init, key);
      if key in Flatten(groups) && key !in groups[|groups| - 1] {
        var i :| 0 <= i < |init| && key in init[i];
        assert groups[i] == init[i];
      }
      if exists i :: 0 <= i < |groups| && key in groups[i] {
        var i :| 0 <= i < |groups| && key in groups[i];
        if i < |groups| - 1 {
          assert init[i] == groups[i];
        }
      }
    }
  }

  /** With disjoint groups, a key maps to the class its own group gives it. */
  lemma {:induction false} FlattenValue<K, V>(groups: seq<map<K, V>>, i: nat, key: K)
    requires Disjoint(groups)
    requires i < |groups| && key in groups[i]
    ensures key in Flatten(groups) && Flatten(groups)[key] == groups[i][key]
  {
    var last := |groups| - 1;
    var init := groups[..last];
    if i < last {
      assert init[i] == groups[i];
      assert Disjoint(init) by {
        forall a, b, k | 0 <= a < b < |init| && k in init[a]
          ensures k !in init[b]
        {
          assert init[a] == groups[a] && init[b] == groups[b];
        }
      }
      FlattenValue(init, i, key);
      assert key !in groups[last];
    }
  }

  /** With disjoint groups, looking a key up finds it in whichever group declares it. */
  lemma LookupFinds<K, V>(groups: seq<map<K, V>>, i: nat, key: K)
    requires Disjoint(groups)
    requires i < |groups| && key in groups[i]
    ensures Lookup(groups, key) == Some(groups[i][key])
  {
    FlattenValue(groups, i, key);
  }

  /** A key that no group declares is not found. */
  lemma LookupMisses<K, V>(groups: seq<map<K, V>>, key: K)
    requires forall i :: 0 <= i < |groups| ==> key !in groups[i]
    ensures Lookup(groups, key) == None
  {
    FlattenKeys(groups, key);
  }
}
