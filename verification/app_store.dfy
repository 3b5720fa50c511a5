/**
  The application store: its initial state and the reducer `appReducer`, a
  total, pure state machine over `AppState` driven by the eight actions.
  Each action writes exactly one field; the four mapping actions replace,
  append to, map over or filter the sequence of mappings.
 */
module AppStore {
  import opened Wrappers
  import opened WireMockTypes

  /** `initialState`: nothing loaded, not loading, no error, nothing selected. */
  const InitialState := AppState([], [], false, None, None)

  /** Every component's store starts empty, so an update or a delete issued
      before anything was loaded leaves it as it was. */
  lemma InitialStateIsEmpty(m: Mapping, id: string)
    ensures InitialState.mappings == [] && InitialState.requests == []
    ensures !InitialState.loading && InitialState.error.None? && InitialState.selectedMapping.None?
    ensures Reduce(InitialState, UpdateMapping(m)) == InitialState
    ensures Reduce(InitialState, DeleteMapping(id)) == InitialState
  {
  }

  /** The five fields of `AppState`. */
  datatype Field = MappingsField | RequestsField | LoadingField | ErrorField | SelectedField

  /** The field an action writes. */
  function Writes(a: AppAction): Field {
    match a
    case SetMappings(_) => MappingsField
    case SetRequests(_) => RequestsField
    case SetLoading(_) => LoadingField
    case SetError(_) => ErrorField
    case SelectMapping(_) => SelectedField
    case AddMapping(_) => MappingsField
    case UpdateMapping(_) => MappingsField
    case DeleteMapping(_) => MappingsField
  }

  /** `s` and `t` hold the same value in field `f`. */
  predicate SameField(s: AppState, t: AppState, f: Field) {
    match f
    case MappingsField => s.mappings == t.mappings
    case RequestsField => s.requests == t.requests
    case LoadingField => s.loading == t.loading
    case ErrorField => s.error == t.error
    case SelectedField => s.selectedMapping == t.selectedMapping
  }

  /** `s` and `t` agree on the four fields other than `f`. */
  predicate AgreeExcept(s: AppState, t: AppState, f: Field) {
    && (f != MappingsField ==> SameField(s, t, MappingsField))
    && (f != RequestsField ==> SameField(s, t, RequestsField))
    && (f != LoadingField ==> SameField(s, t, LoadingField))
    && (f != ErrorField ==> SameField(s, t, ErrorField))
    && (f != SelectedField ==> SameField(s, t, SelectedField))
  }

  // ---------------------------------------------------------------------
  // The two sequence operations behind UPDATE_MAPPING and DELETE_MAPPING
  // ---------------------------------------------------------------------

  /** `mappings.map(x => x.id === m.id ? m : x)`. Ids compare as optionals,
      so an `m` without an id replaces every mapping without an id. */
  function ReplaceById(ms: seq<Mapping>, m: Mapping): (r: seq<Mapping>)
    ensures |r| == |ms|
    ensures forall i :: 0 <= i < |ms| && ms[i].id == m.id ==> r[i] == m
    ensures forall i :: 0 <= i < |ms| && ms[i].id != m.id ==> r[i] == ms[i]
  {
    if ms == [] then []
    else [if ms[0].id == m.id then m else ms[0]] + ReplaceById(ms[1..], m)
  }

  /** `mappings.filter(x => x.id !== id)`. A mapping without an id never
      equals the string `id`, so it is always kept. */
  function RemoveById(ms: seq<Mapping>, id: string): (r: seq<Mapping>)
    ensures |r| <= |ms|
    ensures forall x :: x in r <==> x in ms && x.id != Some(id)
  {
    if ms == [] then []
    else if ms[0].id != Some(id) then [ms[0]] + RemoveById(ms[1..], id)
    else RemoveById(ms[1..], id)
  }

  /** Filtering distributes over concatenation: the result keeps the
      surviving elements in their original relative order. */
  lemma {:induction false} RemoveByIdConcat(a: seq<Mapping>, b: seq<Mapping>, id: string)
    ensures RemoveById(a + b, id) == RemoveById(a, id) + RemoveById(b, id)
  {
    if a == [] {
      assert a + b == b;
    } else {
      assert (a + b)[0] == a[0];
      assert (a + b)[1..] == a[1..] + b;
      RemoveByIdConcat(a[1..], b, id);
    }
  }

  /** `a` can be obtained from `b` by dropping elements. */
  ghost predicate IsSubsequence(a: seq<Mapping>, b: seq<Mapping>)
    decreases |b|
  {
    a == [] || (b != [] && ((a[0] == b[0] && IsSubsequence(a[1..], b[1..])) || IsSubsequence(a, b[1..])))
  }

  /** DELETE_MAPPING keeps the surviving mappings in order, and each one as
      often as it occurred: only elements whose id is `Some(id)` are dropped. */
  lemma {:induction false} RemoveByIdIsFilter(ms: seq<Mapping>, id: string)
    ensures IsSubsequence(RemoveById(ms, id), ms)
    ensures forall x :: multiset(RemoveById(ms, id))[x] == if x.id == Some(id) then 0 else multiset(ms)[x]
  {
    if ms != [] {
      RemoveByIdIsFilter(ms[1..], id);
      assert ms == [ms[0]] + ms[1..];
      var r := RemoveById(ms, id);
      if ms[0].id != Some(id) {
        assert r[1..] == RemoveById(ms[1..], id);
      }
    }
  }

  /** Deleting the same id twice is deleting it once. */
  lemma {:induction false} RemoveByIdIdempotent(ms: seq<Mapping>, id: string)
    ensures RemoveById(RemoveById(ms, id), id) == RemoveById(ms, id)
  {
    if ms != [] {
      RemoveByIdIdempotent(ms[1..], id);
      if ms[0].id != Some(id) {
        var r := RemoveById(ms, id);
        assert r[0] == ms[0] && r[1..] == RemoveById(ms[1..], id);
      }
    }
  }

  /** Deleting an id no mapping carries leaves the sequence as it is. */
  lemma {:induction false} RemoveAbsentId(ms: seq<Mapping>, id: string)
    requires forall x :: x in ms ==> x.id != Some(id)
    ensures RemoveById(ms, id) == ms
  {
    if ms != [] {
      assert ms[0] in ms;
      assert forall x :: x in ms[1..] ==> x in ms;
      RemoveAbsentId(ms[1..], id);
      assert ms == [ms[0]] + ms[1..];
    }
  }

  /** A fold of DELETE_MAPPING over a list of ids. */
  function RemoveAllIds(ms: seq<Mapping>, ids: seq<string>): (r: seq<Mapping>)
    ensures forall x :: x in r <==> x in ms && !(x.id.Some? && x.id.value in ids)
    decreases |ids|
  {
    if ids == [] then ms else RemoveAllIds(RemoveById(ms, ids[0]), ids[1..])
  }

  // ---------------------------------------------------------------------
  // The reducer
  // ---------------------------------------------------------------------

  /** `appReducer`: each action writes its one field and leaves the other
      four as they were. */
  function Reduce(s: AppState, a: AppAction): (r: AppState)
    ensures AgreeExcept(s, r, Writes(a))
    ensures a.SetMappings? ==> r.mappings == a.mappings
    ensures a.SetRequests? ==> r.requests == a.requests
    ensures a.SetLoading? ==> r.loading == a.loading
    ensures a.SetError? ==> r.error == a.error
    ensures a.SelectMapping? ==> r.selectedMapping == a.selected
    ensures a.AddMapping? ==>
              && |r.mappings| == |s.mappings| + 1
              && r.mappings[..|s.mappings|] == s.mappings
              && r.mappings[|s.mappings|] == a.added
    ensures a.UpdateMapping? ==>
              && |r.mappings| == |s.mappings|
              && (forall i :: 0 <= i < |s.mappings| && s.mappings[i].id == a.updated.id ==> r.mappings[i] == a.updated)
              && (forall i :: 0 <= i < |s.mappings| && s.mappings[i].id != a.updated.id ==> r.mappings[i] == s.mappings[i])
    ensures a.DeleteMapping? ==>
              forall x :: x in r.mappings <==> x in s.mappings && x.id != Some(a.id)
  {
    match a
    case SetMappings(ms) => s.(mappings := ms)
    case SetRequests(rs) => s.(requests := rs)
    case SetLoading(b) => s.(loading := b)
    case SetError(e) => s.(error := e)
    case SelectMapping(m) => s.(selectedMapping := m)
    case AddMapping(m) => s.(mappings := s.mappings + [m])
    case UpdateMapping(m) => s.(mappings := ReplaceById(s.mappings, m))
    case DeleteMapping(id) => s.(mappings := RemoveById(s.mappings, id))
  }

  /** What reaches the reducer's `switch`: one of the eight typed actions, or
      an object whose `type` matches none of them (only a type-unsafe
      dispatch can produce one). */
  datatype Dispatched = Known(action: AppAction) | Unrecognised(tag: string)

  /** The reducer including its `default` branch, which returns the state it
      was given. */
  function ReduceDispatched(s: AppState, d: Dispatched): (r: AppState)
    ensures d.Unrecognised? ==> r == s
    ensures d.Known? ==> AgreeExcept(s, r, Writes(d.action))
  {
    match d
    case Known(a) => Reduce(s, a)
    case Unrecognised(_) => s
  }

  /** The state after dispatching `acts` in order. */
  function Run(s: AppState, acts: seq<AppAction>): AppState
    decreases |acts|
  {
    if acts == [] then s else Run(Reduce(s, acts[0]), acts[1..])
  }

  lemma {:induction false} RunAppend(s: AppState, a: seq<AppAction>, b: seq<AppAction>)
    ensures Run(s, a + b) == Run(Run(s, a), b)
    decreases |a|
  {
    if a == [] {
      assert a + b == b;
    } else {
      assert (a + b)[0] == a[0];
      assert (a + b)[1..] == a[1..] + b;
      RunAppend(Reduce(s, a[0]), a[1..], b);
    }
  }

  lemma RunOne(s: AppState, a: AppAction)
    ensures Run(s, [a]) == Reduce(s, a)
  {
    assert [a][1..] == [];
  }

  lemma RunFour(s: AppState, a: AppAction, b: AppAction, c: AppAction, d: AppAction)
    ensures Run(s, [a, b] + [c] + [d]) == Reduce(Reduce(Reduce(Reduce(s, a), b), c), d)
  {
    var acts := [a, b] + [c] + [d];
    var s1 := Reduce(s, a);
    var s2 := Reduce(s1, b);
    var s3 := Reduce(s2, c);
    assert acts[0] == a && acts[1..] == [b, c, d];
    assert [b, c, d][1..] == [c, d];
    assert [c, d][1..] == [d];
    assert Run(s, acts) == Run(s1, [b, c, d]);
    assert Run(s1, [b, c, d]) == Run(s2, [c, d]);
    assert Run(s2, [c, d]) == Run(s3, [d]);
    RunOne(s3, d);
  }

  /** A field no dispatched action writes keeps its value. */
  lemma {:induction false} RunKeepsUnwritten(s: AppState, acts: seq<AppAction>, f: Field)
    requires forall i :: 0 <= i < |acts| ==> Writes(acts[i]) != f
    ensures SameField(s, Run(s, acts), f)
    decreases |acts|
  {
    if acts != [] {
      RunKeepsUnwritten(Reduce(s, acts[0]), acts[1..], f);
    }
  }

  /** One DELETE_MAPPING per id, in order. */
  function DeleteActions(ids: seq<string>): (acts: seq<AppAction>)
    ensures |acts| == |ids|
    ensures forall i :: 0 <= i < |ids| ==> acts[i] == DeleteMapping(ids[i])
  {
    if ids == [] then [] else [DeleteMapping(ids[0])] + DeleteActions(ids[1..])
  }

  /** Dispatching DELETE_MAPPING for each id removes exactly the mappings that
      carry one of the ids and touches nothing else. */
  lemma {:induction false} RunDeleteActions(s: AppState, ids: seq<string>)
    ensures Run(s, DeleteActions(ids)) == s.(mappings := RemoveAllIds(s.mappings, ids))
    decreases |ids|
  {
    if ids != [] {
      var acts := DeleteActions(ids);
      assert acts[1..] == DeleteActions(ids[1..]);
      RunDeleteActions(Reduce(s, acts[0]), ids[1..]);
    }
  }

  // ---------------------------------------------------------------------
  // Properties of the mapping actions
  // ---------------------------------------------------------------------

  /** UPDATE_MAPPING with an id no mapping carries changes nothing; with no
      id at all, it overwrites every mapping that has no id. */
  lemma UpdateMappingCases(s: AppState, m: Mapping)
    ensures (forall x :: x in s.mappings ==> x.id != m.id) ==> Reduce(s, UpdateMapping(m)) == s
    ensures m.id == None ==>
              forall i :: 0 <= i < |s.mappings| && s.mappings[i].id == None ==> Reduce(s, UpdateMapping(m)).mappings[i] == m
  {
    if forall x :: x in s.mappings ==> x.id != m.id {
      var r := Reduce(s, UpdateMapping(m));
      assert forall i :: 0 <= i < |s.mappings| ==> s.mappings[i] in s.mappings;
      assert r.mappings == s.mappings;
    }
  }

  /** DELETE_MAPPING is idempotent and a no-op for an id no mapping carries. */
  lemma DeleteMappingCases(s: AppState, id: string)
    ensures Reduce(Reduce(s, DeleteMapping(id)), DeleteMapping(id)) == Reduce(s, DeleteMapping(id))
    ensures (forall x :: x in s.mappings ==> x.id != Some(id)) ==> Reduce(s, DeleteMapping(id)) == s
  {
    RemoveByIdIdempotent(s.mappings, id);
    if forall x :: x in s.mappings ==> x.id != Some(id) {
      RemoveAbsentId(s.mappings, id);
    }
  }

  /** ADD_MAPPING(m) followed by DELETE_MAPPING of m's id removes m together
      with every earlier mapping that carries the same id. */
  lemma AddThenDelete(s: AppState, m: Mapping, id: string)
    requires m.id == Some(id)
    ensures Run(s, [AddMapping(m), DeleteMapping(id)]) == s.(mappings := RemoveById(s.mappings, id))
  {
    var s1 := Reduce(s, AddMapping(m));
    var s2 := Reduce(s1, DeleteMapping(id));
    RunAppend(s, [AddMapping(m)], [DeleteMapping(id)]);
    assert Run(s, [AddMapping(m)]) == s1;
    assert Run(s1, [DeleteMapping(id)]) == s2;
    assert s1.mappings == s.mappings + [m];
    RemoveByIdConcat(s.mappings, [m], id);
    assert RemoveById([m], id) == [];
  }
}
