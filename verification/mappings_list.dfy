/**
  The mappings list view: loading the list into the store, deleting one
  mapping or the selected ones after a confirmation, and the view-local
  selection of row keys behind the check boxes.

  Remote calls are given as their settled outcomes and `confirm()` as a
  boolean; a flow is the sequence of actions it dispatches into the store.
 */
module MappingsList {
  import opened Wrappers
  import opened JsStrings
  import opened WireMockTypes
  import opened AppStore

  const LoadError := "Error al cargar los mappings"
  const DeleteError := "Error al eliminar el mapping"
  const BulkDeleteError := "Error al eliminar los mappings seleccionados"

  // ---------------------------------------------------------------------
  // Loading and single delete
  // ---------------------------------------------------------------------

  /** `loadMappings`: loading on and error cleared, then the fetched list or
      the load error, then loading off whatever happened. */
  function LoadMappings(fetched: Remote<seq<Mapping>>): seq<AppAction> {
    [SetLoading(true), SetError(None)]
    + (if fetched.Ok? then [SetMappings(fetched.value)] else [SetError(Some(LoadError))])
    + [SetLoading(false)]
  }

  /** A load always ends with loading off; it installs the fetched list and no
      error, or keeps the old list and reports the load error. */
  lemma LoadMappingsSettles(s: AppState, fetched: Remote<seq<Mapping>>)
    ensures var t := Run(s, LoadMappings(fetched));
            && !t.loading
            && t.requests == s.requests
            && t.selectedMapping == s.selectedMapping
            && (fetched.Ok? ==> t.mappings == fetched.value && t.error == None)
            && (fetched.Fail? ==> t.mappings == s.mappings && t.error == Some(LoadError))
  {
    var middle := if fetched.Ok? then SetMappings(fetched.value) else SetError(Some(LoadError));
    RunFour(s, SetLoading(true), SetError(None), middle, SetLoading(false));
  }

  /** `handleDelete(id)`: nothing without confirmation; otherwise the local
      delete only after the remote delete resolved, or the delete error. */
  function DeleteOne(id: string, confirmed: bool, deleted: Remote<()>): seq<AppAction> {
    if !confirmed then []
    else if deleted.Ok? then [DeleteMapping(id)]
    else [SetError(Some(DeleteError))]
  }

  lemma DeleteOneOutcome(s: AppState, id: string, confirmed: bool, deleted: Remote<()>)
    ensures var t := Run(s, DeleteOne(id, confirmed, deleted));
            && (!confirmed ==> t == s)
            && (confirmed && deleted.Ok? ==> t == s.(mappings := RemoveById(s.mappings, id)))
            && (confirmed && deleted.Fail? ==> t == s.(error := Some(DeleteError)))
  {
    if confirmed {
      RunOne(s, DeleteOne(id, confirmed, deleted)[0]);
    }
  }

  // ---------------------------------------------------------------------
  // The selection: a JavaScript Set<string>, kept as its insertion order
  // ---------------------------------------------------------------------

  predicate Distinct(s: seq<string>) {
    forall i, j :: 0 <= i < j < |s| ==> s[i] != s[j]
  }

  /** `set.delete(id)` on the insertion-ordered members: every other member
      stays, as often as it occurred; the order is `WithoutConcat`'s. */
  function Without(sel: seq<string>, id: string): (r: seq<string>)
    ensures forall x :: x in r <==> x in sel && x != id
    ensures multiset(r) == multiset(sel)[id := 0]
    ensures Distinct(sel) ==> Distinct(r)
    ensures |r| <= |sel|
  {
    if sel == [] then []
    else
      assert sel == [sel[0]] + sel[1..];
      if sel[0] == id then Without(sel[1..], id)
      else
        var rest := Without(sel[1..], id);
        assert Distinct(sel) ==> sel[0] !in sel[1..];
        [sel[0]] + rest
  }

  /** Deleting from a concatenation deletes from each part and keeps the
      parts in order: the remaining members keep their insertion order. */
  lemma {:induction false} WithoutConcat(a: seq<string>, b: seq<string>, id: string)
    ensures Without(a + b, id) == Without(a, id) + Without(b, id)
  {
    if a != [] {
      assert (a + b)[1..] == a[1..] + b;
      WithoutConcat(a[1..], b, id);
    } else {
      assert a + b == b;
    }
  }

  lemma {:induction false} WithoutAbsent(sel: seq<string>, id: string)
    requires id !in sel
    ensures Without(sel, id) == sel
  {
    if sel != [] {
      WithoutAbsent(sel[1..], id);
      assert sel == [sel[0]] + sel[1..];
    }
  }

  lemma {:induction false} WithoutLast(sel: seq<string>, id: string)
    requires id !in sel
    ensures Without(sel + [id], id) == sel
  {
    WithoutConcat(sel, [id], id);
    WithoutAbsent(sel, id);
    assert Without([id], id) == Without([], id);
  }

  /** `handleSelectMapping(id)`: removes a selected id, appends an unselected one. */
  function Toggle(sel: seq<string>, id: string): (r: seq<string>)
    requires Distinct(sel)
    ensures Distinct(r)
    ensures id in r <==> id !in sel
    ensures forall x :: x != id ==> (x in r <==> x in sel)
    ensures id !in sel ==> r == sel + [id]
    ensures id in sel ==> r == Without(sel, id)
  {
    if id in sel then Without(sel, id) else sel + [id]
  }

  /** Toggling twice restores the selected set. When the id was not selected
      it also restores the order; when it was, the id moves to the end, which
      is the order a later bulk delete visits it in. */
  lemma ToggleTwice(sel: seq<string>, id: string)
    requires Distinct(sel)
    ensures forall x :: x in Toggle(Toggle(sel, id), id) <==> x in sel
    ensures id !in sel ==> Toggle(Toggle(sel, id), id) == sel
    ensures id in sel ==> Toggle(Toggle(sel, id), id) == Without(sel, id) + [id]
  {
    if id !in sel {
      WithoutLast(sel, id);
    }
  }

  /** Toggling twice restores the order exactly when the id was not selected
      or was the last one selected. */
  lemma ToggleTwiceRestoresOrder(sel: seq<string>, id: string)
    requires Distinct(sel)
    ensures Toggle(Toggle(sel, id), id) == sel <==> id !in sel || sel[|sel| - 1] == id
  {
    ToggleTwice(sel, id);
    if id in sel && sel[|sel| - 1] == id {
      var front := sel[..|sel| - 1];
      assert sel == front + [id];
      assert id !in front by {
        forall k | 0 <= k < |front| ensures front[k] != id {
          assert sel[k] != sel[|sel| - 1];
        }
      }
      WithoutLast(front, id);
    }
  }

  /** The row key of each mapping: `mapping.id || ''`. */
  function RowKeys(ms: seq<Mapping>): (keys: seq<string>)
    ensures |keys| == |ms|
    ensures forall i :: 0 <= i < |ms| ==> keys[i] == OrElse(ms[i].id, "")
  {
    seq(|ms|, i requires 0 <= i < |ms| => OrElse(ms[i].id, ""))
  }

  /** The index of the first occurrence of `x` in `xs`. */
  function IndexOf(xs: seq<string>, x: string): (k: nat)
    requires x in xs
    ensures k < |xs| && xs[k] == x
    ensures forall j :: 0 <= j < k ==> xs[j] != x
  {
    if xs[0] == x then 0 else 1 + IndexOf(xs[1..], x)
  }

  /** `new Set(xs)` continued from the members `acc`: each element is added
      unless already present, so the old members stay first, in their order,
      and the new ones follow in the order of their first occurrence in `xs`
      (`AddAllOrder`). */
  function AddAll(acc: seq<string>, xs: seq<string>): (r: seq<string>)
    requires Distinct(acc)
    ensures Distinct(r)
    ensures forall x :: x in r <==> x in acc || x in xs
    ensures |r| <= |acc| + |xs|
    ensures |acc| <= |r| && r[..|acc|] == acc
    decreases |xs|
  {
    if xs == [] then acc
    else if xs[0] in acc then AddAll(acc, xs[1..])
    else
      var acc' := acc + [xs[0]];
      var r := AddAll(acc', xs[1..]);
      assert r[..|acc|] == acc'[..|acc|];
      r
  }

  /** The members added after `acc` come from `xs`, each at its first
      occurrence's rank: they are ordered by where they first occur in `xs`. */
  lemma {:induction false} AddAllOrder(acc: seq<string>, xs: seq<string>)
    requires Distinct(acc)
    ensures forall i :: |acc| <= i < |AddAll(acc, xs)| ==> AddAll(acc, xs)[i] !in acc && AddAll(acc, xs)[i] in xs
    ensures forall i, j :: |acc| <= i < j < |AddAll(acc, xs)| ==>
      IndexOf(xs, AddAll(acc, xs)[i]) < IndexOf(xs, AddAll(acc, xs)[j])
    decreases |xs|
  {
    var r := AddAll(acc, xs);
    if xs == [] {
    } else if xs[0] in acc {
      AddAllOrder(acc, xs[1..]);
      assert r == AddAll(acc, xs[1..]);
      forall i | |acc| <= i < |r|
        ensures r[i] !in acc && r[i] in xs
        ensures IndexOf(xs, r[i]) == 1 + IndexOf(xs[1..], r[i])
      {
        assert r[i] in xs[1..];
        assert r[i] != xs[0];
      }
    } else {
      var acc' := acc + [xs[0]];
      AddAllOrder(acc', xs[1..]);
      assert r == AddAll(acc', xs[1..]);
      assert r[..|acc'|] == acc';
      assert r[|acc|] == xs[0];
      forall i | |acc| < i < |r|
        ensures r[i] !in acc && r[i] in xs && r[i] != xs[0]
        ensures IndexOf(xs, r[i]) == 1 + IndexOf(xs[1..], r[i])
      {
        assert r[i] !in acc';
        assert r[i] in xs[1..];
      }
    }
  }

  /** A repeated element makes the concatenation non-distinct. */
  lemma RepeatIsNotDistinct(acc: seq<string>, xs: seq<string>)
    requires xs != [] && xs[0] in acc
    ensures !Distinct(acc + xs)
  {
    var j :| 0 <= j < |acc| && acc[j] == xs[0];
    assert (acc + xs)[j] == acc[j];
    assert (acc + xs)[|acc|] == xs[0];
  }

  /** The set keeps one member per element exactly when the elements were
      already distinct. */
  lemma {:induction false} AddAllKeepsAllIffDistinct(acc: seq<string>, xs: seq<string>)
    requires Distinct(acc)
    ensures |AddAll(acc, xs)| == |acc| + |xs| <==> Distinct(acc + xs)
    decreases |xs|
  {
    if xs == [] {
      assert acc + xs == acc;
    } else if xs[0] in acc {
      RepeatIsNotDistinct(acc, xs);
      assert |AddAll(acc, xs)| == |AddAll(acc, xs[1..])| <= |acc| + |xs| - 1;
    } else {
      AddAllKeepsAllIffDistinct(acc + [xs[0]], xs[1..]);
      assert acc + [xs[0]] + xs[1..] == acc + xs;
    }
  }

  /** `handleSelectAll`: clears the selection when its size equals the number
      of mappings, and otherwise selects the set of row keys. */
  function SelectAll(sel: seq<string>, ms: seq<Mapping>): (r: seq<string>)
    ensures Distinct(r)
    ensures |sel| == |ms| ==> r == []
    ensures |sel| != |ms| ==> forall x :: x in r <==> x in RowKeys(ms)
  {
    if |sel| == |ms| then [] else AddAll([], RowKeys(ms))
  }

  /** With distinct row keys, a second select-all clears the selection. */
  lemma SelectAllTwiceClears(sel: seq<string>, ms: seq<Mapping>)
    requires |sel| != |ms|
    requires Distinct(RowKeys(ms))
    ensures SelectAll(SelectAll(sel, ms), ms) == []
  {
    AddAllKeepsAllIffDistinct([], RowKeys(ms));
    assert [] + RowKeys(ms) == RowKeys(ms);
  }

  /** With a repeated row key (two mappings with the same id, or two without
      an id, both keyed ''), the selected set is smaller than the list, so the
      select-all box never clears it: a second select-all selects the same set. */
  lemma SelectAllStuckOnRepeatedKey(sel: seq<string>, ms: seq<Mapping>)
    requires |sel| != |ms|
    requires !Distinct(RowKeys(ms))
    ensures SelectAll(SelectAll(sel, ms), ms) == SelectAll(sel, ms)
  {
    var keys := RowKeys(ms);
    var once := AddAll([], keys);
    AddAllKeepsAllIffDistinct([], keys);
    assert [] + keys == keys;
    assert |once| != |ms|;
    assert SelectAll(sel, ms) == once;
  }

  // ---------------------------------------------------------------------
  // Bulk delete
  // ---------------------------------------------------------------------

  /** The view's state: its own store and its selection. */
  datatype ListView = ListView(store: AppState, selection: seq<string>)

  /** The index of the first rejected call, or the number of calls. */
  function FirstFailure(succeeded: seq<bool>): (k: nat)
    ensures k <= |succeeded|
    ensures forall i :: 0 <= i < k ==> succeeded[i]
    ensures k < |succeeded| ==> !succeeded[k]
  {
    if succeeded == [] || !succeeded[0] then 0 else 1 + FirstFailure(succeeded[1..])
  }

  /** What the `for … of` loop of `handleDeleteSelected` dispatched, and
      whether it ran to the end. */
  datatype LoopOutcome = LoopOutcome(dispatched: seq<AppAction>, completed: bool)

  /** The loop awaits each remote delete in selection order; `succeeded[i]`
      is the outcome of the i-th. A rejection throws out of the loop into the
      `catch`, which reports the one bulk-delete error. */
  function DeleteEach(ids: seq<string>, succeeded: seq<bool>): (r: LoopOutcome)
    requires |succeeded| == |ids|
    ensures r.completed <==> FirstFailure(succeeded) == |ids|
    ensures r.dispatched ==
              DeleteActions(ids[..FirstFailure(succeeded)])
              + (if r.completed then [] else [SetError(Some(BulkDeleteError))])
  {
    if ids == [] then LoopOutcome([], true)
    else if !succeeded[0] then LoopOutcome([SetError(Some(BulkDeleteError))], false)
    else
      var rest := DeleteEach(ids[1..], succeeded[1..]);
      assert ids[..FirstFailure(succeeded)] == [ids[0]] + ids[1..][..FirstFailure(succeeded[1..])];
      LoopOutcome([DeleteMapping(ids[0])] + rest.dispatched, rest.completed)
  }

  /** `handleDeleteSelected`: nothing without confirmation; otherwise the
      loop, and the selection is cleared only if every delete succeeded. */
  function DeleteSelected(v: ListView, confirmed: bool, succeeded: seq<bool>): ListView
    requires |succeeded| == |v.selection|
  {
    if !confirmed then v
    else
      var loop := DeleteEach(v.selection, succeeded);
      ListView(Run(v.store, loop.dispatched), if loop.completed then [] else v.selection)
  }

  /** The ids before the first failure are gone from the store; on a failure
      the bulk-delete error is set and the selection stays; when all deletes
      succeed the selection is cleared and the error is left alone. Nothing
      else in the store changes. */
  lemma DeleteSelectedOutcome(v: ListView, succeeded: seq<bool>)
    requires |succeeded| == |v.selection|
    ensures var k := FirstFailure(succeeded);
            var r := DeleteSelected(v, true, succeeded);
            && r.store.mappings == RemoveAllIds(v.store.mappings, v.selection[..k])
            && r.store.requests == v.store.requests
            && r.store.loading == v.store.loading
            && r.store.selectedMapping == v.store.selectedMapping
            && (k == |v.selection| ==> r.selection == [] && r.store.error == v.store.error)
            && (k < |v.selection| ==> r.selection == v.selection && r.store.error == Some(BulkDeleteError))
  {
    var k := FirstFailure(succeeded);
    var loop := DeleteEach(v.selection, succeeded);
    var deletes := DeleteActions(v.selection[..k]);
    RunDeleteActions(v.store, v.selection[..k]);
    if k < |v.selection| {
      RunAppend(v.store, deletes, [SetError(Some(BulkDeleteError))]);
      RunOne(Run(v.store, deletes), SetError(Some(BulkDeleteError)));
    } else {
      assert loop.dispatched == deletes;
    }
  }

  /** After a failure, every mapping whose id is the failing one or comes
      after it in the selection is still in the store. */
  lemma FailedBulkDeleteKeepsTheRest(v: ListView, succeeded: seq<bool>, x: Mapping)
    requires |succeeded| == |v.selection|
    requires Distinct(v.selection)
    requires x in v.store.mappings && x.id.Some?
    requires x.id.value in v.selection[FirstFailure(succeeded)..]
    ensures x in DeleteSelected(v, true, succeeded).store.mappings
  {
    var k := FirstFailure(succeeded);
    DeleteSelectedOutcome(v, succeeded);
    var j :| k <= j < |v.selection| && v.selection[j] == x.id.value;
    assert x.id.value !in v.selection[..k];
  }

  /** Declining the confirmation changes nothing. */
  lemma DeclinedBulkDeleteIsNoOp(v: ListView, succeeded: seq<bool>)
    requires |succeeded| == |v.selection|
    ensures DeleteSelected(v, false, succeeded) == v
  {
  }
}
