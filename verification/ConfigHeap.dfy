/** The merge as the loader performs it: dictionaries are heap objects, the base
    is copied, and the copy is updated key by key in the override's own order. */
module ConfigHeap {

  import opened ConfigMerge

  datatype DictValue<V> = Plain(value: V) | Nested(dict: Dict<V>)

  /** A mutable dictionary; nested dictionaries may be shared between owners. */
  class Dict<V> {
    var slots: map<string, DictValue<V>>
    ghost var Repr: set<object>

    ghost predicate Valid()
      reads this, Repr
      decreases Repr
    {
      && this in Repr
      && forall k | k in slots && slots[k].Nested? ::
           && slots[k].dict in Repr
           && slots[k].dict.Repr <= Repr
           && this !in slots[k].dict.Repr
           && slots[k].dict.Valid()
    }

    /** The tree this dictionary stands for. */
    ghost function View(): (t: Tree<V>)
      requires Valid()
      reads this, Repr
      ensures t.Table? && t.entries.Keys == slots.Keys
      decreases Repr
    {
      Table(map k | k in slots :: SlotView(k))
    }

    ghost function SlotView(k: string): Tree<V>
      requires Valid() && k in slots
      reads this, Repr
      decreases Repr, 0
    {
      match slots[k]
      case Plain(v) => Leaf(v)
      case Nested(d) => d.View()
    }

    /** A shallow copy: nested dictionaries are shared, not copied. */
    constructor Copy(from: Dict<V>)
      requires from.Valid()
      ensures Valid() && Repr == from.Repr + {this}
      ensures slots == from.slots && View() == from.View()
    {
      slots := from.slots;
      Repr := from.Repr + {this};
      new;
      assert forall k | k in slots :: SlotView(k) == from.SlotView(k);
    }

    /** `self[key] = value` */
    method Assign(key: string, value: DictValue<V>)
      requires Valid()
      requires value.Nested? ==> value.dict.Valid() && this !in value.dict.Repr
      modifies this
      ensures Valid() && slots == old(slots)[key := value]
      ensures Repr == old(Repr) + if value.Nested? then value.dict.Repr else {}
      ensures View().entries ==
              old(View()).entries[key := match value case Plain(v) => Leaf(v) case Nested(d) => old(d.View())]
    {
      slots := slots[key := value];
      if value.Nested? {
        Repr := Repr + value.dict.Repr;
        assert value.dict.Valid();
      }
      assert Valid();
      assert forall k | k in old(slots) && k != key :: SlotView(k) == old(SlotView(k));
      Updated(old(View()).entries, key, match value case Plain(v) => Leaf(v) case Nested(d) => old(d.View()));
    }

    lemma Updated(entries: map<string, Tree<V>>, key: string, t: Tree<V>)
      requires Valid() && slots.Keys == entries.Keys + {key} && SlotView(key) == t
      requires forall k | k in entries && k != key :: SlotView(k) == entries[k]
      ensures View().entries == entries[key := t]
    {
    }
  }

  /** The entries of a table under the given keys. */
  ghost function Restricted<V>(t: Tree<V>, keys: set<string>): (r: Tree<V>)
    requires t.Table?
    ensures r.Table? && r.entries.Keys == t.entries.Keys * keys
  {
    Table(map k | k in t.entries && k in keys :: t.entries[k])
  }

  /** `merged[key]` after one iteration of the merge loop. */
  ghost function EntryAfter<V>(merged: Tree<V>, over: Tree<V>, key: string): Tree<V>
    requires merged.Table? && over.Table? && key in over.entries
  {
    if key in merged.entries then Merge(merged.entries[key], over.entries[key]) else over.entries[key]
  }

  lemma MergeOneMoreKey<V>(base: Tree<V>, over: Tree<V>, done: set<string>, key: string)
    requires base.Table? && over.Table? && key in over.entries && key !in done
    ensures var merged := Merge(base, Restricted(over, done));
            merged.entries[key := EntryAfter(merged, over, key)] ==
            Merge(base, Restricted(over, done + {key})).entries
  {
  }

  lemma RestrictedBounds<V>(base: Tree<V>, over: Tree<V>)
    requires base.Table? && over.Table?
    ensures Merge(base, Restricted(over, {})) == base
    ensures Restricted(over, over.entries.Keys) == over
  {
    MergeEmpty(base);
    assert Restricted(over, {}) == Table(map[]);
  }

  /** One iteration of the merge loop: `key` of `over` is merged into `merged`. */
  method MergeKey<V>(merged: Dict<V>, over: Dict<V>, key: string)
    requires merged.Valid() && over.Valid() && merged !in over.Repr && key in over.slots
    modifies merged
    ensures merged.Valid() && fresh(merged.Repr - old(merged.Repr) - over.Repr)
    ensures merged.View().entries ==
            old(merged.View()).entries[key := EntryAfter(old(merged.View()), old(over.View()), key)]
    decreases over.Repr, 0
  {
    var value := over.slots[key];
    if key in merged.slots && merged.slots[key].Nested? && value.Nested? {
      var sub := DeepMerge(merged.slots[key].dict, value.dict);
      merged.Assign(key, Nested(sub));
    } else {
      merged.Assign(key, value);
    }
  }

  /** The merge loop, visiting the override's keys in an arbitrary order. */
  method MergeKeys<V>(merged: Dict<V>, over: Dict<V>)
    requires merged.Valid() && over.Valid() && merged !in over.Repr
    modifies merged
    ensures merged.Valid() && fresh(merged.Repr - old(merged.Repr) - over.Repr)
    ensures merged.View() == Merge(old(merged.View()), over.View())
    decreases over.Repr, 1
  {
    ghost var b, o, done := merged.View(), over.View(), {};
    RestrictedBounds(b, o);
    var todo := over.slots.Keys;
    while todo != {}
      invariant todo !! done && todo + done == o.entries.Keys == over.slots.Keys
      invariant merged.Valid() && fresh(merged.Repr - old(merged.Repr) - over.Repr)
      invariant merged.View() == Merge(b, Restricted(o, done))
      decreases todo
    {
      var key :| key in todo;
      MergeKey(merged, over, key);
      MergeOneMoreKey(b, o, done, key);
      todo, done := todo - {key}, done + {key};
    }
    assert done == o.entries.Keys;
  }

  /** Merges `over` into a copy of `base`; neither argument changes. */
  method DeepMerge<V>(base: Dict<V>, over: Dict<V>) returns (merged: Dict<V>)
    requires base.Valid() && over.Valid()
    ensures fresh(merged) && merged.Valid() && fresh(merged.Repr - base.Repr - over.Repr)
    ensures base.View() == old(base.View()) && over.View() == old(over.View())
    ensures merged.View() == Merge(base.View(), over.View())
    decreases over.Repr, 2
  {
    merged := new Dict.Copy(base);
    MergeKeys(merged, over);
  }
}
