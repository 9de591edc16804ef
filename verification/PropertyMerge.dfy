/**
 Deep merge of property maps. Python's dict equality ignores the order of the keys and no function
 here looks at that order, so a JSON object is a map.
 */
module PropertyMerge {
  import opened Wrappers

  datatype Json =
    | Null
    | Bool(truth: bool)
    | Num(number: real)
    | Str(text: string)
    | Arr(items: seq<Json>)
    | Obj(fields: map<string, Json>)

  /** `_merge_properties` on two mappings; on anything else the patch replaces the base. */
  function Merge(base: Json, patch: Json): Json
    decreases patch
  {
    if base.Obj? && patch.Obj? then
      Obj(map key | key in base.fields.Keys + patch.fields.Keys ::
            if key !in patch.fields then base.fields[key]
            else if key in base.fields then Merge(base.fields[key], patch.fields[key])
            else patch.fields[key])
    else patch
  }

  type Path = seq<string>

  /** The value at the end of a chain of keys. */
  function At(j: Json, path: Path): Option<Json>
    decreases |path|
  {
    if path == [] then Some(j)
    else if j.Obj? && path[0] in j.fields then At(j.fields[path[0]], path[1..])
    else None
  }

  /** `path` leads in `j` to a leaf, or ends early at one. */
  predicate Decides(j: Json, path: Path)
    decreases |path|
  {
    !j.Obj? || (path != [] && path[0] in j.fields && Decides(j.fields[path[0]], path[1..]))
  }

  lemma EmptyIsIdentity(j: Json)
    requires j.Obj?
    ensures Merge(Obj(map[]), j) == j == Merge(j, Obj(map[]))
  {
    assert Merge(Obj(map[]), j).fields == j.fields;
    assert Merge(j, Obj(map[])).fields == j.fields;
  }

  lemma {:induction false} MergeIsIdempotent(j: Json)
    ensures Merge(j, j) == j
    decreases j
  {
    if j.Obj? {
      forall key | key in j.fields ensures Merge(j.fields[key], j.fields[key]) == j.fields[key] {
        MergeIsIdempotent(j.fields[key]);
      }
      assert Merge(j, j).fields == j.fields;
    }
  }

  lemma {:induction false} RepeatedPatchIsAbsorbed(base: Json, patch: Json)
    ensures Merge(Merge(base, patch), patch) == Merge(base, patch)
    decreases patch
  {
    if base.Obj? && patch.Obj? {
      var once := Merge(base, patch);
      forall key | key in patch.fields ensures Merge(once.fields[key], patch.fields[key]) == once.fields[key] {
        if key in base.fields {
          RepeatedPatchIsAbsorbed(base.fields[key], patch.fields[key]);
        } else {
          MergeIsIdempotent(patch.fields[key]);
        }
      }
      assert Merge(once, patch).fields == once.fields;
    } else {
      MergeIsIdempotent(patch);
    }
  }

  /** Where a merged value comes from: the patch wherever it decides, the base everywhere else. */
  lemma {:induction false} MergedValueAt(base: Json, patch: Json, path: Path)
    ensures Decides(patch, path) ==> At(Merge(base, patch), path) == At(patch, path)
    ensures !Decides(patch, path) && At(patch, path).None? ==> At(Merge(base, patch), path) == At(base, path)
    ensures !Decides(patch, path) && At(patch, path).Some? ==>
              At(Merge(base, patch), path)
              == Some(if At(base, path).Some? then Merge(At(base, path).value, At(patch, path).value)
                      else At(patch, path).value)
    decreases |path|
  {
    if path != [] && base.Obj? && patch.Obj? {
      var key := path[0];
      if key in patch.fields && key in base.fields {
        MergedValueAt(base.fields[key], patch.fields[key], path[1..]);
      }
    }
  }

  /** Every part of `earlier` would be overwritten by `later`: what makes forgetting `earlier` harmless. */
  predicate Covers(later: Json, earlier: Json)
    decreases earlier
  {
    earlier.Obj? && later.Obj? ==>
      forall key | key in earlier.fields :: key in later.fields && Covers(later.fields[key], earlier.fields[key])
  }

  lemma {:induction false} CoversIffMergeForgets(earlier: Json, later: Json)
    ensures Merge(earlier, later) == later <==> Covers(later, earlier)
    decreases earlier
  {
    if earlier.Obj? && later.Obj? {
      forall key | key in earlier.fields && key in later.fields
        ensures Merge(earlier.fields[key], later.fields[key]) == later.fields[key]
           <==> Covers(later.fields[key], earlier.fields[key])
      {
        CoversIffMergeForgets(earlier.fields[key], later.fields[key]);
      }
      if Covers(later, earlier) {
        assert Merge(earlier, later).fields == later.fields;
      }
      if Merge(earlier, later) == later {
        forall key | key in earlier.fields ensures key in later.fields && Covers(later.fields[key], earlier.fields[key]) {
          assert key in Merge(earlier, later).fields;
          assert Merge(earlier, later).fields[key] == later.fields[key];
        }
      }
    }
  }

  /** Wherever the middle operand has a leaf between two mappings, the last one covers the first. */
  predicate Associable(a: Json, b: Json, c: Json)
    decreases a
  {
    a.Obj? && c.Obj? ==>
      if b.Obj? then
        forall key | key in a.fields && key in b.fields && key in c.fields ::
          Associable(a.fields[key], b.fields[key], c.fields[key])
      else Covers(c, a)
  }

  /** Merging is associative exactly on `Associable` operands. */
  lemma {:induction false} AssociativeIff(a: Json, b: Json, c: Json)
    ensures Merge(Merge(a, b), c) == Merge(a, Merge(b, c)) <==> Associable(a, b, c)
    decreases a
  {
    if a.Obj? && b.Obj? && c.Obj? {
      var left := Merge(Merge(a, b), c);
      var right := Merge(a, Merge(b, c));
      assert left.fields.Keys == right.fields.Keys;
      forall key | key in left.fields
        ensures left.fields[key] == right.fields[key]
           <==> (key in a.fields && key in b.fields && key in c.fields
                 ==> Associable(a.fields[key], b.fields[key], c.fields[key]))
      {
        if key in a.fields && key in b.fields && key in c.fields {
          AssociativeIff(a.fields[key], b.fields[key], c.fields[key]);
        }
      }
      if left == right {
        forall key | key in a.fields && key in b.fields && key in c.fields
          ensures Associable(a.fields[key], b.fields[key], c.fields[key])
        {
          assert key in left.fields;
        }
      }
    } else if a.Obj? && c.Obj? {
      CoversIffMergeForgets(a, c);
    }
  }

  /** A scalar between two mappings makes the grouping matter. */
  lemma GroupingMatters(first: Json, last: Json, key: string, x: string)
    requires first.Obj? && last.Obj? && x in first.fields && x !in last.fields
    ensures var a, b, c := Obj(map[key := first]), Obj(map[key := Null]), Obj(map[key := last]);
            Merge(Merge(a, b), c) != Merge(a, Merge(b, c))
  {
    var a, b, c := Obj(map[key := first]), Obj(map[key := Null]), Obj(map[key := last]);
    AssociativeIff(a, b, c);
    assert !Covers(c.fields[key], a.fields[key]);
    assert !Associable(a.fields[key], b.fields[key], c.fields[key]);
  }
}
