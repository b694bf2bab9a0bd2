/** The collection updates behind the app's handlers, as pure functions on
    sequences: the `some`, `map`, `filter` and spread-append expressions that
    produce each new recipe or family list, and what they keep true. */
module Store {
  import opened Types

  function RecipeIds(rs: seq<Recipe>): seq<string>
  {
    seq(|rs|, i requires 0 <= i < |rs| => rs[i].id)
  }

  function FamilyIds(fs: seq<RecipeFamily>): seq<string>
  {
    seq(|fs|, i requires 0 <= i < |fs| => fs[i].id)
  }

  /** No id occurs twice. */
  predicate Distinct(ids: seq<string>)
  {
    forall i, j :: 0 <= i < j < |ids| ==> ids[i] != ids[j]
  }

  /** A recipe's family reference is absent or names a family in `fs`. */
  predicate FamilyResolves(recipe: Recipe, fs: seq<RecipeFamily>)
  {
    recipe.familyId.None? || recipe.familyId.value in FamilyIds(fs)
  }

  /** Referential integrity: every recipe's family reference resolves. */
  predicate FamilyRefsResolve(rs: seq<Recipe>, fs: seq<RecipeFamily>)
  {
    forall i :: 0 <= i < |rs| ==> FamilyResolves(rs[i], fs)
  }

  // ---------------------------------------------------------------- recipes

  /** Whether some recipe carries `id`. */
  function HasRecipe(rs: seq<Recipe>, id: string): (b: bool)
    ensures b <==> id in RecipeIds(rs)
  {
    if rs == [] then false
    else
      assert RecipeIds(rs) == [rs[0].id] + RecipeIds(rs[1..]);
      rs[0].id == id || HasRecipe(rs[1..], id)
  }

  /** Every recipe with `recipe`'s id is replaced by `recipe`. */
  function ReplaceRecipe(rs: seq<Recipe>, recipe: Recipe): (r: seq<Recipe>)
    ensures |r| == |rs|
    ensures forall i :: 0 <= i < |rs| && rs[i].id == recipe.id ==> r[i] == recipe
    ensures forall i :: 0 <= i < |rs| && rs[i].id != recipe.id ==> r[i] == rs[i]
  {
    if rs == [] then []
    else [if rs[0].id == recipe.id then recipe else rs[0]] + ReplaceRecipe(rs[1..], recipe)
  }

  /** Saving a recipe: replace in place when its id is known, else append. */
  function UpsertRecipe(rs: seq<Recipe>, recipe: Recipe): (r: seq<Recipe>)
    ensures |r| == if recipe.id in RecipeIds(rs) then |rs| else |rs| + 1
    ensures recipe.id !in RecipeIds(rs) ==> r[..|rs|] == rs && r[|rs|] == recipe
    ensures forall i :: 0 <= i < |rs| ==> r[i].id == rs[i].id
    ensures forall i :: 0 <= i < |rs| && rs[i].id != recipe.id ==> r[i] == rs[i]
    ensures forall i :: 0 <= i < |r| && r[i].id == recipe.id ==> r[i] == recipe
    ensures recipe in r
  {
    if HasRecipe(rs, recipe.id) then ReplaceRecipe(rs, recipe)
    else
      assert forall i :: 0 <= i < |rs| ==> RecipeIds(rs)[i] == rs[i].id;
      rs + [recipe]
  }

  /** With distinct ids, an upsert of a known id touches exactly one slot. */
  lemma UpsertReplacesInPlace(rs: seq<Recipe>, recipe: Recipe, k: nat)
    requires Distinct(RecipeIds(rs))
    requires k < |rs| && rs[k].id == recipe.id
    ensures UpsertRecipe(rs, recipe) == rs[k := recipe]
  {
    assert RecipeIds(rs)[k] == recipe.id;
    var r := UpsertRecipe(rs, recipe);
    forall i | 0 <= i < |rs|
      ensures r[i] == rs[k := recipe][i]
    {
      if i != k {
        assert RecipeIds(rs)[i] != RecipeIds(rs)[k];
      }
    }
  }

  lemma UpsertPreservesDistinct(rs: seq<Recipe>, recipe: Recipe)
    requires Distinct(RecipeIds(rs))
    ensures Distinct(RecipeIds(UpsertRecipe(rs, recipe)))
  {
    var r := UpsertRecipe(rs, recipe);
    forall i, j | 0 <= i < j < |r|
      ensures RecipeIds(r)[i] != RecipeIds(r)[j]
    {
      if j < |rs| {
        assert RecipeIds(rs)[i] != RecipeIds(rs)[j];
      } else {
        assert RecipeIds(rs)[i] == rs[i].id;
      }
    }
  }

  /** Saving the same recipe twice is the same as saving it once. */
  lemma UpsertIdempotent(rs: seq<Recipe>, recipe: Recipe)
    ensures UpsertRecipe(UpsertRecipe(rs, recipe), recipe) == UpsertRecipe(rs, recipe)
  {
    var r := UpsertRecipe(rs, recipe);
    assert recipe in r;
    var k :| 0 <= k < |r| && r[k] == recipe;
    assert RecipeIds(r)[k] == recipe.id;
  }

  /** When the recipes already resolve, the saved list resolves exactly when
      the saved recipe's own family reference does. */
  lemma UpsertKeepsRefs(rs: seq<Recipe>, fs: seq<RecipeFamily>, recipe: Recipe)
    requires FamilyRefsResolve(rs, fs)
    ensures FamilyRefsResolve(UpsertRecipe(rs, recipe), fs) <==> FamilyResolves(recipe, fs)
  {
  }

  // --------------------------------------------------------------- families

  /** Every family with `id` gets `name`; ids and order stay as they were. */
  function RenameFamily(fs: seq<RecipeFamily>, id: string, name: string): (r: seq<RecipeFamily>)
    ensures |r| == |fs|
    ensures FamilyIds(r) == FamilyIds(fs)
    ensures forall i :: 0 <= i < |fs| ==> r[i].name == if fs[i].id == id then name else fs[i].name
  {
    if fs == [] then []
    else
      var r := [if fs[0].id == id then fs[0].(name := name) else fs[0]] + RenameFamily(fs[1..], id, name);
      assert FamilyIds(r) == [fs[0].id] + FamilyIds(fs[1..]);
      assert FamilyIds(fs) == [fs[0].id] + FamilyIds(fs[1..]);
      r
  }

  /** Drops every family with `id`, keeping the others. */
  function RemoveFamily(fs: seq<RecipeFamily>, id: string): (r: seq<RecipeFamily>)
    ensures forall f :: f in r <==> f in fs && f.id != id
    ensures id !in FamilyIds(r)
    ensures |r| <= |fs|
  {
    if fs == [] then []
    else (if fs[0].id != id then [fs[0]] else []) + RemoveFamily(fs[1..], id)
  }

  /** On one family, removal keeps it exactly when its id differs. */
  lemma RemoveFamilySingleton(f: RecipeFamily, id: string)
    ensures RemoveFamily([f], id) == if f.id == id then [] else [f]
  {
    assert [f][1..] == [];
  }

  /** Removal distributes over concatenation: it keeps relative order. */
  lemma {:induction false} RemoveFamilyAppend(a: seq<RecipeFamily>, b: seq<RecipeFamily>, id: string)
    ensures RemoveFamily(a + b, id) == RemoveFamily(a, id) + RemoveFamily(b, id)
  {
    if a == [] {
      assert a + b == b;
    } else {
      assert (a + b)[1..] == a[1..] + b;
      RemoveFamilyAppend(a[1..], b, id);
    }
  }

  /** Removing an id no family has changes nothing. */
  lemma {:induction false} RemoveAbsentFamily(fs: seq<RecipeFamily>, id: string)
    requires id !in FamilyIds(fs)
    ensures RemoveFamily(fs, id) == fs
  {
    if fs != [] {
      assert FamilyIds(fs) == [fs[0].id] + FamilyIds(fs[1..]);
      RemoveAbsentFamily(fs[1..], id);
    }
  }

  /** The ids of a slice are the slice of the ids. */
  lemma FamilyIdsSlice(fs: seq<RecipeFamily>, lo: nat, hi: nat)
    requires lo <= hi <= |fs|
    ensures FamilyIds(fs[lo..hi]) == FamilyIds(fs)[lo..hi]
  {
  }

  /** With distinct ids, the id at `k` occurs nowhere before or after `k`. */
  lemma DistinctIdIsolated(fs: seq<RecipeFamily>, k: nat)
    requires Distinct(FamilyIds(fs))
    requires k < |fs|
    ensures fs[k].id !in FamilyIds(fs[..k])
    ensures fs[k].id !in FamilyIds(fs[k + 1..])
  {
    var ids := FamilyIds(fs);
    FamilyIdsSlice(fs, 0, k);
    FamilyIdsSlice(fs, k + 1, |fs|);
    assert fs[..k] == fs[0..k];
    assert fs[k + 1..] == fs[k + 1..|fs|];
    assert forall i :: 0 <= i < k ==> ids[i] != ids[k];
    assert forall i :: k < i < |fs| ==> ids[k] != ids[i];
    assert ids[k] == fs[k].id;
  }

  /** With distinct ids, deleting the family at `k` removes that one entry. */
  lemma RemoveUniqueFamily(fs: seq<RecipeFamily>, id: string, k: nat)
    requires Distinct(FamilyIds(fs))
    requires k < |fs| && fs[k].id == id
    ensures RemoveFamily(fs, id) == fs[..k] + fs[k + 1..]
  {
    var pre, post := fs[..k], fs[k + 1..];
    assert fs == pre + ([fs[k]] + post);
    RemoveFamilyAppend(pre, [fs[k]] + post, id);
    RemoveFamilyAppend([fs[k]], post, id);
    assert RemoveFamily([fs[k]], id) == [] by {
      assert [fs[k]][1..] == [];
    }
    DistinctIdIsolated(fs, k);
    RemoveAbsentFamily(pre, id);
    RemoveAbsentFamily(post, id);
    calc {
      RemoveFamily(fs, id);
      RemoveFamily(pre, id) + RemoveFamily([fs[k]] + post, id);
      pre + (RemoveFamily([fs[k]], id) + RemoveFamily(post, id));
      pre + ([] + post);
      { assert [] + post == post; }
      pre + post;
    }
  }

  lemma MemberIdIn(fs: seq<RecipeFamily>, f: RecipeFamily)
    requires f in fs
    ensures f.id in FamilyIds(fs)
  {
    var n :| 0 <= n < |fs| && fs[n] == f;
    assert FamilyIds(fs)[n] == f.id;
  }

  /** Distinct ids stay distinct when a family is put in front of a list
      whose ids it does not share. */
  lemma PrependDistinct(f: RecipeFamily, fs: seq<RecipeFamily>)
    requires Distinct(FamilyIds(fs))
    requires f.id !in FamilyIds(fs)
    ensures Distinct(FamilyIds([f] + fs))
  {
    var ids := FamilyIds([f] + fs);
    assert ids == [f.id] + FamilyIds(fs);
  }

  lemma {:induction false} RemovePreservesDistinct(fs: seq<RecipeFamily>, id: string)
    requires Distinct(FamilyIds(fs))
    ensures Distinct(FamilyIds(RemoveFamily(fs, id)))
  {
    if fs != [] {
      var tail := fs[1..];
      FamilyIdsSlice(fs, 1, |fs|);
      assert tail == fs[1..|fs|];
      RemovePreservesDistinct(tail, id);
      var rest := RemoveFamily(tail, id);
      if fs[0].id != id {
        DistinctIdIsolated(fs, 0);
        assert fs[0].id !in FamilyIds(rest) by {
          forall m | 0 <= m < |rest|
            ensures FamilyIds(rest)[m] != fs[0].id
          {
            MemberIdIn(tail, rest[m]);
          }
        }
        PrependDistinct(fs[0], rest);
        assert RemoveFamily(fs, id) == [fs[0]] + rest;
      } else {
        assert RemoveFamily(fs, id) == [] + rest == rest;
      }
    }
  }

  /** Clears the family reference of every recipe that names `id`. */
  function ClearFamilyRefs(rs: seq<Recipe>, id: string): (r: seq<Recipe>)
    ensures |r| == |rs|
    ensures RecipeIds(r) == RecipeIds(rs)
    ensures forall i :: 0 <= i < |rs| && rs[i].familyId == Some(id) ==> r[i] == rs[i].(familyId := None)
    ensures forall i :: 0 <= i < |rs| && rs[i].familyId != Some(id) ==> r[i] == rs[i]
    ensures forall i :: 0 <= i < |r| ==> r[i].familyId != Some(id)
  {
    if rs == [] then []
    else
      var r := [if rs[0].familyId == Some(id) then rs[0].(familyId := None) else rs[0]]
               + ClearFamilyRefs(rs[1..], id);
      assert RecipeIds(r) == [rs[0].id] + RecipeIds(rs[1..]);
      assert RecipeIds(rs) == [rs[0].id] + RecipeIds(rs[1..]);
      r
  }

  /** Deleting a family together with its references keeps every remaining
      reference resolvable. */
  lemma DeleteFamilyKeepsRefs(rs: seq<Recipe>, fs: seq<RecipeFamily>, id: string)
    requires FamilyRefsResolve(rs, fs)
    ensures FamilyRefsResolve(ClearFamilyRefs(rs, id), RemoveFamily(fs, id))
  {
    var r := ClearFamilyRefs(rs, id);
    var kept := RemoveFamily(fs, id);
    forall i | 0 <= i < |r|
      ensures FamilyResolves(r[i], kept)
    {
      if r[i].familyId.Some? {
        var k := r[i].familyId.value;
        assert rs[i].familyId == Some(k) && k != id;
        var j :| 0 <= j < |fs| && FamilyIds(fs)[j] == k;
        assert fs[j] in kept;
        var m :| 0 <= m < |kept| && kept[m] == fs[j];
        assert FamilyIds(kept)[m] == k;
      }
    }
  }

  /** Appending a family with a fresh id keeps ids distinct and every
      existing reference resolvable. */
  lemma AppendFreshFamily(rs: seq<Recipe>, fs: seq<RecipeFamily>, f: RecipeFamily)
    requires f.id !in FamilyIds(fs)
    ensures Distinct(FamilyIds(fs)) ==> Distinct(FamilyIds(fs + [f]))
    ensures FamilyRefsResolve(rs, fs) ==> FamilyRefsResolve(rs, fs + [f])
    ensures FamilyIds(fs + [f]) == FamilyIds(fs) + [f.id]
  {
    assert FamilyIds(fs + [f]) == FamilyIds(fs) + [f.id];
  }
}
