/** The recursive merge that layers one parsed TOML file over another. */
module ConfigMerge {

  import opened Wrappers

  /** A parsed TOML value: a table, or anything the merge treats as a unit
      (scalars, and lists, including lists of tables). */
  datatype Tree<V> = Leaf(value: V) | Table(entries: map<string, Tree<V>>)

  type Path = seq<string>

  function Merge<V>(base: Tree<V>, over: Tree<V>): (merged: Tree<V>)
    decreases over
  {
    if base.Table? && over.Table? then
      Table(map k | k in base.entries.Keys + over.entries.Keys ::
        if k !in over.entries then base.entries[k]
        else if k !in base.entries then over.entries[k]
        else Merge(base.entries[k], over.entries[k]))
    else
      over
  }

  // ---- What the merge means, path by path -----------------------------

  /** The node reached by following `path`, if every step on the way is a table. */
  function Lookup<V>(t: Tree<V>, path: Path): Option<Tree<V>> {
    if path == [] then Some(t)
    else if t.Leaf? || path[0] !in t.entries then None
    else Lookup(t.entries[path[0]], path[1..])
  }

  /** True when `t` holds a leaf at a proper prefix of `path`. */
  predicate Blocks<V>(t: Tree<V>, path: Path) {
    path != [] && (t.Leaf? || (path[0] in t.entries && Blocks(t.entries[path[0]], path[1..])))
  }

  lemma BlockedPathsAreEmpty<V>(t: Tree<V>, path: Path)
    requires Blocks(t, path)
    ensures Lookup(t, path).None?
  {
    if t.Table? {
      BlockedPathsAreEmpty(t.entries[path[0]], path[1..]);
    }
  }

  /** An override leaf hides every base path below it, an override node wins
      (tables combining), and every other base path survives. */
  lemma {:induction false} MergeLookup<V>(base: Tree<V>, over: Tree<V>, path: Path)
    ensures Lookup(Merge(base, over), path) ==
            if Blocks(over, path) then None
            else match (Lookup(base, path), Lookup(over, path))
              case (Some(b), Some(o)) => Some(Merge(b, o))
              case (None, o) => o
              case (b, None) => b
    decreases |path|
  {
    if Blocks(over, path) {
      BlockedPathsAreEmpty(over, path);
    }
    if path != [] && base.Table? && over.Table? && path[0] in base.entries && path[0] in over.entries {
      MergeLookup(base.entries[path[0]], over.entries[path[0]], path[1..]);
    }
  }

  // ---- Laws ------------------------------------------------------------

  lemma {:induction false} MergeSelf<V>(t: Tree<V>)
    ensures Merge(t, t) == t
  {
    if t.Table? {
      forall k | k in t.entries ensures Merge(t, t).entries[k] == t.entries[k] {
        MergeSelf(t.entries[k]);
      }
    }
  }

  lemma MergeEmpty<V>(t: Tree<V>)
    requires t.Table?
    ensures Merge(t, Table(map[])) == t
    ensures Merge(Table(map[]), t) == t
  {
    assert Merge(t, Table(map[])).entries == t.entries;
    assert Merge(Table(map[]), t).entries == t.entries;
  }

  /** `over` already decides everything `base` says. */
  predicate Covers<V>(over: Tree<V>, base: Tree<V>)
    decreases over
  {
    base.Table? && over.Table? ==>
      forall k | k in base.entries ::
        k in over.entries && Covers(over.entries[k], base.entries[k])
  }

  lemma {:induction false} MergeIsOverrideIffCovered<V>(base: Tree<V>, over: Tree<V>)
    ensures Merge(base, over) == over <==> Covers(over, base)
    decreases over
  {
    if base.Table? && over.Table? {
      forall k | k in base.entries && k in over.entries
        ensures Merge(base.entries[k], over.entries[k]) == over.entries[k] <==>
                Covers(over.entries[k], base.entries[k])
      {
        MergeIsOverrideIffCovered(base.entries[k], over.entries[k]);
      }
      var merged := Merge(base, over).entries;
      if Covers(over, base) {
        assert merged == over.entries;
      } else {
        var k :| k in base.entries && !(k in over.entries && Covers(over.entries[k], base.entries[k]));
        assert k in merged;
        assert k in over.entries ==> merged[k] == Merge(base.entries[k], over.entries[k]);
      }
    }
  }

  lemma {:induction false} MergeCovers<V>(base: Tree<V>, over: Tree<V>)
    ensures Covers(Merge(base, over), over)
    decreases over
  {
    if over.Table? {
      var merged := Merge(base, over);
      forall k | k in over.entries
        ensures k in merged.entries && Covers(merged.entries[k], over.entries[k])
      {
        if base.Table? && k in base.entries {
          MergeCovers(base.entries[k], over.entries[k]);
        } else {
          MergeSelf(over.entries[k]);
          MergeIsOverrideIffCovered(over.entries[k], over.entries[k]);
        }
      }
    }
  }

  /** Applying the same override twice changes nothing. */
  lemma {:induction false} MergeAbsorbs<V>(base: Tree<V>, over: Tree<V>)
    ensures Merge(Merge(base, over), over) == Merge(base, over)
    decreases over
  {
    if base.Table? && over.Table? {
      var once := Merge(base, over);
      forall k | k in once.entries
        ensures Merge(once, over).entries[k] == once.entries[k]
      {
        if k in base.entries && k in over.entries {
          MergeAbsorbs(base.entries[k], over.entries[k]);
        } else if k in over.entries {
          MergeSelf(over.entries[k]);
        }
      }
      assert Merge(once, over).entries == once.entries;
    } else {
      MergeSelf(over);
    }
  }

  /** No path where the middle operand is a leaf between two tables, unless the
      last table covers the first. */
  predicate Associable<V>(a: Tree<V>, b: Tree<V>, c: Tree<V>)
    decreases c
  {
    if !(a.Table? && c.Table?) then true
    else if b.Leaf? then Covers(c, a)
    else forall k | k in a.entries && k in b.entries && k in c.entries ::
           Associable(a.entries[k], b.entries[k], c.entries[k])
  }

  /** Layering is associative exactly on the associable triples. */
  lemma {:induction false} MergeAssociativeIff<V>(a: Tree<V>, b: Tree<V>, c: Tree<V>)
    ensures Merge(Merge(a, b), c) == Merge(a, Merge(b, c)) <==> Associable(a, b, c)
    decreases c
  {
    if a.Table? && c.Table? {
      if b.Leaf? {
        MergeIsOverrideIffCovered(a, c);
      } else {
        var left, right := Merge(Merge(a, b), c).entries, Merge(a, Merge(b, c)).entries;
        assert left.Keys == right.Keys;
        forall k | k in left
          ensures left[k] == right[k] <==>
                  (k in a.entries && k in b.entries && k in c.entries ==>
                     Associable(a.entries[k], b.entries[k], c.entries[k]))
        {
          if k in a.entries && k in b.entries && k in c.entries {
            MergeAssociativeIff(a.entries[k], b.entries[k], c.entries[k]);
          }
        }
        if Associable(a, b, c) {
          assert left == right;
        }
      }
    }
  }

  /** A leaf between two tables makes the grouping of the layers visible. */
  lemma MergeNotAssociative(x: string, y: string)
    requires x != y
    ensures var a, b, c := Table(map[x := Leaf(1)]), Leaf(2), Table(map[y := Leaf(3)]);
            Merge(Merge(a, b), c) != Merge(a, Merge(b, c))
  {
    var a, b, c := Table(map[x := Leaf(1)]), Leaf(2), Table(map[y := Leaf(3)]);
    assert x in a.entries && x !in c.entries;
    MergeAssociativeIff(a, b, c);
  }

  // ---- Schemas ---------------------------------------------------------

  /** A validation model: a typed leaf, or a section of fields which may also
      tolerate unknown keys. */
  datatype Schema<!V> =
    | Scalar(accepts: V -> bool)
    | Section(fields: map<string, Field<V>>, allowExtra: bool)

  datatype Field<!V> = Field(schema: Schema<V>, required: bool)

  /** `t` respects the schema; with `full`, all required fields are present. */
  predicate Conforms<V>(t: Tree<V>, s: Schema<V>, full: bool)
    decreases s
  {
    match s
    case Scalar(accepts) => t.Leaf? && accepts(t.value)
    case Section(fields, allowExtra) =>
      && t.Table?
      && (full ==> forall k | k in fields :: fields[k].required ==> k in t.entries)
      && (forall k | k in t.entries :: k in fields || allowExtra)
      && (forall k | k in fields :: k in t.entries ==> Conforms(t.entries[k], fields[k].schema, full))
  }

  /** Every known section that only the override supplies is itself complete. */
  predicate NewSectionsComplete<V>(base: Tree<V>, over: Tree<V>, s: Schema<V>)
    decreases s
  {
    s.Section? && base.Table? && over.Table? ==>
      forall k | k in s.fields :: k in over.entries ==>
        if k in base.entries
        then NewSectionsComplete(base.entries[k], over.entries[k], s.fields[k].schema)
        else Conforms(over.entries[k], s.fields[k].schema, true)
  }

  /** A complete configuration stays complete and well typed under a well-typed
      partial override, exactly when no section is newly added half-filled. */
  lemma {:induction false} MergeConformsIff<V>(base: Tree<V>, over: Tree<V>, s: Schema<V>)
    requires Conforms(base, s, true) && Conforms(over, s, false)
    ensures Conforms(Merge(base, over), s, true) <==> NewSectionsComplete(base, over, s)
    decreases s
  {
    if s.Section? {
      var merged := Merge(base, over);
      forall k | k in s.fields && k in over.entries
        ensures Conforms(merged.entries[k], s.fields[k].schema, true) <==>
                if k in base.entries
                then NewSectionsComplete(base.entries[k], over.entries[k], s.fields[k].schema)
                else Conforms(over.entries[k], s.fields[k].schema, true)
      {
        if k in base.entries {
          MergeConformsIff(base.entries[k], over.entries[k], s.fields[k].schema);
        }
      }
      if !Conforms(merged, s, true) {
        var k :| k in s.fields && k in merged.entries && !Conforms(merged.entries[k], s.fields[k].schema, true);
        assert k in over.entries;
      }
    }
  }

  /** Only leaves may be omitted: the shape of every section of the configuration. */
  predicate OptionalFieldsAreLeaves<V>(s: Schema<V>) {
    s.Section? ==>
      forall k | k in s.fields ::
        if s.fields[k].required then OptionalFieldsAreLeaves(s.fields[k].schema) else s.fields[k].schema.Scalar?
  }

  lemma {:induction false} OptionalLeavesSuffice<V>(base: Tree<V>, over: Tree<V>, s: Schema<V>)
    requires Conforms(base, s, true) && Conforms(over, s, false) && OptionalFieldsAreLeaves(s)
    ensures NewSectionsComplete(base, over, s)
    decreases s
  {
    if s.Section? {
      forall k | k in s.fields && k in over.entries && k in base.entries
        ensures NewSectionsComplete(base.entries[k], over.entries[k], s.fields[k].schema)
      {
        OptionalLeavesSuffice(base.entries[k], over.entries[k], s.fields[k].schema);
      }
    }
  }

  function MergeAll<V>(base: Tree<V>, overs: seq<Tree<V>>): Tree<V>
    decreases |overs|
  {
    if overs == [] then base else MergeAll(Merge(base, overs[0]), overs[1..])
  }

  // ---- Layering, path by path ------------------------------------------------

  /** The tree has something to say about `path`: a node there, or a leaf above. */
  predicate Decides<V>(t: Tree<V>, path: Path) {
    Lookup(t, path).Some? || Blocks(t, path)
  }

  lemma {:induction false} MergeAllSnoc<V>(base: Tree<V>, overs: seq<Tree<V>>)
    requires overs != []
    ensures MergeAll(base, overs) == Merge(MergeAll(base, overs[..|overs| - 1]), overs[|overs| - 1])
    decreases |overs|
  {
    if |overs| == 1 {
      assert overs[1..] == [] && overs[..0] == [];
    } else {
      MergeAllSnoc(Merge(base, overs[0]), overs[1..]);
      assert overs[1..][..|overs| - 2] == overs[..|overs| - 1][1..];
    }
  }

  /** Files that say nothing about a path leave it as it is. */
  lemma {:induction false} UndecidedSurvives<V>(base: Tree<V>, overs: seq<Tree<V>>, path: Path)
    requires forall o | o in overs :: !Decides(o, path)
    ensures Lookup(MergeAll(base, overs), path) == Lookup(base, path)
    decreases |overs|
  {
    if overs != [] {
      assert overs[0] in overs;
      MergeLookup(base, overs[0], path);
      UndecidedSurvives(Merge(base, overs[0]), overs[1..], path);
    }
  }

  /** The last file that decides a path wins there: a leaf of it above the path
      removes it, a leaf at the path replaces what was there, and a table at the path
      combines with it. */
  lemma {:induction false} LastDeciderWins<V>(base: Tree<V>, overs: seq<Tree<V>>, k: nat, path: Path)
    requires k < |overs| && Decides(overs[k], path)
    requires forall j | k < j < |overs| :: !Decides(overs[j], path)
    ensures var merged, before := Lookup(MergeAll(base, overs), path), Lookup(MergeAll(base, overs[..k]), path);
            if Blocks(overs[k], path) then merged == None
            else
              var o := Lookup(overs[k], path).value;
              merged == Some(if o.Leaf? || before.None? then o else Merge(before.value, o))
    decreases |overs|
  {
    var n := |overs| - 1;
    MergeAllSnoc(base, overs);
    MergeLookup(MergeAll(base, overs[..n]), overs[n], path);
    if k < n {
      assert overs[..n][..k] == overs[..k];
      LastDeciderWins(base, overs[..n], k, path);
    }
  }

  /** A leaf of the last file is the leaf of the whole chain. */
  lemma LastLeafWins<V>(base: Tree<V>, overs: seq<Tree<V>>, path: Path, v: V)
    requires overs != [] && Lookup(overs[|overs| - 1], path) == Some(Leaf(v))
    ensures Lookup(MergeAll(base, overs), path) == Some(Leaf(v))
  {
    var n := |overs| - 1;
    if Blocks(overs[n], path) {
      BlockedPathsAreEmpty(overs[n], path);
    }
    LastDeciderWins(base, overs, n, path);
  }

  lemma LastDecider<V>(overs: seq<Tree<V>>, path: Path) returns (k: nat)
    requires exists o | o in overs :: Decides(o, path)
    ensures k < |overs| && Decides(overs[k], path) && forall j | k < j < |overs| :: !Decides(overs[j], path)
  {
    var m: nat :| m < |overs| && Decides(overs[m], path);
    k := |overs| - 1;
    while !Decides(overs[k], path)
      invariant m <= k < |overs| && forall j | k < j < |overs| :: !Decides(overs[j], path)
      decreases k
    {
      k := k - 1;
    }
  }

  /** A default that no file repeats survives the layering exactly when no file
      decides its path. */
  lemma BaseLeafSurvivesIff<V>(base: Tree<V>, overs: seq<Tree<V>>, path: Path, v: V)
    requires Lookup(base, path) == Some(Leaf(v)) && forall o | o in overs :: Lookup(o, path) != Some(Leaf(v))
    ensures Lookup(MergeAll(base, overs), path) == Some(Leaf(v)) <==> forall o | o in overs :: !Decides(o, path)
  {
    if forall o | o in overs :: !Decides(o, path) {
      UndecidedSurvives(base, overs, path);
    } else {
      var k := LastDecider(overs, path);
      assert overs[k] in overs;
      LastDeciderWins(base, overs, k, path);
    }
  }

  /** Any chain of partial overrides over a complete default is complete. */
  lemma {:induction false} MergeAllPreservesSchema<V>(base: Tree<V>, overs: seq<Tree<V>>, s: Schema<V>)
    requires Conforms(base, s, true) && OptionalFieldsAreLeaves(s)
    requires forall o | o in overs :: Conforms(o, s, false)
    ensures Conforms(MergeAll(base, overs), s, true)
    decreases |overs|
  {
    if overs != [] {
      OptionalLeavesSuffice(base, overs[0], s);
      MergeConformsIff(base, overs[0], s);
      MergeAllPreservesSchema(Merge(base, overs[0]), overs[1..], s);
    }
  }
}
