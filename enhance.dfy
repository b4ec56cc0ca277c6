/** The binding of stores to a UI component (src/StoreEnhance.js). The
    component's state mirrors every bound store's data under the store's
    name; it listens to every store's update event while mounted and renders
    the child with the state overlaid by its own props. The UI framework is
    not modelled: the lifecycle methods are called directly, and setState is
    an immediate replacement of the state. */
module StoreEnhance {
  import opened Json
  import Events
  import opened Stores

  /** The `stores` argument, as Object.keys lists it: a name and a store per
      property. A JavaScript object has each name once. */
  predicate UniqueNames(stores: seq<(string, Store)>) {
    forall i, j | 0 <= i < j < |stores| :: stores[i].0 != stores[j].0
  }

  function Names(stores: seq<(string, Store)>): (r: seq<string>)
    ensures |r| == |stores|
    ensures forall i | 0 <= i < |stores| :: r[i] == stores[i].0
  {
    seq(|stores|, i requires 0 <= i < |stores| => stores[i].0)
  }

  function Objects(stores: seq<(string, Store)>): (r: seq<Store>)
    ensures |r| == |stores|
    ensures forall i | 0 <= i < |stores| :: r[i] == stores[i].1
  {
    seq(|stores|, i requires 0 <= i < |stores| => stores[i].1)
  }

  /** getStoreData(): the fold that starts from {} and sets
      state[name] = stores[name].data for each name in turn. */
  function StoreData(stores: seq<(string, Store)>): seq<(string, Value)>
    reads Objects(stores)`data
  {
    if stores == [] then []
    else
      var init := stores[..|stores| - 1];
      assert forall i | 0 <= i < |init| :: Objects(init)[i] == Objects(stores)[i];
      Put(StoreData(init), stores[|stores| - 1].0, stores[|stores| - 1].1.data)
  }

  /** The snapshot's keys are the stores' names, in order. */
  lemma {:induction false} StoreDataKeys(stores: seq<(string, Store)>)
    requires UniqueNames(stores)
    ensures Keys(StoreData(stores)) == Names(stores)
  {
    if stores != [] {
      var init := stores[..|stores| - 1];
      var last := stores[|stores| - 1];
      StoreDataKeys(init);
      var prev := StoreData(init);
      assert last.0 !in Keys(prev) by {
        assert forall i | 0 <= i < |init| :: Keys(prev)[i] == init[i].0;
      }
      PutKeys(prev, last.0, last.1.data);
      assert Names(stores) == Names(init) + [last.0];
    }
  }

  /** Under each name the snapshot holds the current data of that store. */
  lemma {:induction false} StoreDataLookup(stores: seq<(string, Store)>)
    requires UniqueNames(stores)
    ensures forall i | 0 <= i < |stores| :: Lookup(StoreData(stores), stores[i].0) == Some(stores[i].1.data)
  {
    if stores != [] {
      var init := stores[..|stores| - 1];
      var last := stores[|stores| - 1];
      StoreDataLookup(init);
      var prev := StoreData(init);
      forall i | 0 <= i < |stores|
        ensures Lookup(StoreData(stores), stores[i].0) == Some(stores[i].1.data)
      {
        PutLookup(prev, last.0, last.1.data, stores[i].0);
        if i < |init| {
          assert stores[i] == init[i];
        }
      }
    }
  }

  /** The snapshot has exactly the stores' names as keys, in order, each
      once, and under each name the current data of that store. */
  lemma StoreDataShape(stores: seq<(string, Store)>)
    requires UniqueNames(stores)
    ensures Keys(StoreData(stores)) == Names(stores)
    ensures UniqueKeys(StoreData(stores))
    ensures forall i | 0 <= i < |stores| :: Lookup(StoreData(stores), stores[i].0) == Some(stores[i].1.data)
  {
    StoreDataKeys(stores);
    StoreDataLookup(stores);
    var d := StoreData(stores);
    forall i, j | 0 <= i < j < |d|
      ensures d[i].0 != d[j].0
    {
      assert Keys(d)[i] == d[i].0 && Keys(d)[j] == d[j].0;
    }
  }

  /** How many names the store is bound under. */
  function Occurrences(stores: seq<(string, Store)>, s: Store): nat {
    if stores == [] then 0
    else Occurrences(stores[..|stores| - 1], s) + (if stores[|stores| - 1].1 == s then 1 else 0)
  }

  /** A store bound under one name only is counted once. */
  lemma {:induction false} OccurrencesOnce(stores: seq<(string, Store)>, j: nat)
    requires j < |stores|
    requires forall i | 0 <= i < |stores| && i != j :: stores[i].1 != stores[j].1
    ensures Occurrences(stores, stores[j].1) == 1
    decreases |stores|
  {
    var init := stores[..|stores| - 1];
    if j < |init| {
      OccurrencesOnce(init, j);
    } else {
      OccurrencesAbsent(init, stores[j].1);
    }
  }

  lemma {:induction false} OccurrencesAbsent(stores: seq<(string, Store)>, s: Store)
    requires forall i | 0 <= i < |stores| :: stores[i].1 != s
    ensures Occurrences(stores, s) == 0
  {
    if stores != [] {
      OccurrencesAbsent(stores[..|stores| - 1], s);
    }
  }

  /** The wrapped component. `handler` is the identity of its storesUpdate
      method, bound once per component, so mount and unmount pass the same
      reference. */
  class Enhancer {
    const stores: seq<(string, Store)>
    const handler: Callback
    var state: seq<(string, Value)>

    ghost predicate Valid()
      reads this
    {
      UniqueNames(stores) && UniqueKeys(state)
    }

    /** Creating the component: getInitialState() is the snapshot. */
    constructor (stores: seq<(string, Store)>, handler: Callback)
      requires UniqueNames(stores)
      ensures Valid()
      ensures this.stores == stores && this.handler == handler
      ensures state == StoreData(stores)
    {
      this.stores := stores;
      this.handler := handler;
      new;
      StoreDataShape(stores);
      state := StoreData(stores);
    }

    /** componentDidMount(): onUpdate(storesUpdate) on every store, name by
        name; a store bound under several names gets the handler once per
        name. */
    method ComponentDidMount()
      modifies Objects(stores)`listeners
      ensures forall j | 0 <= j < |stores| ::
                stores[j].1.listeners ==
                old(stores[j].1.listeners) + Events.Repeat((UPDATE, handler), Occurrences(stores, stores[j].1))
      ensures forall j | 0 <= j < |stores| :: stores[j].1.data == old(stores[j].1.data)
    {
      var i := 0;
      while i < |stores|
        invariant 0 <= i <= |stores|
        invariant forall j | 0 <= j < |stores| ::
                    stores[j].1.listeners ==
                    old(stores[j].1.listeners) + Events.Repeat((UPDATE, handler), Occurrences(stores[..i], stores[j].1))
        invariant forall j | 0 <= j < |stores| :: stores[j].1.data == old(stores[j].1.data)
      {
        var s := stores[i].1;
        assert stores[..i + 1][..i] == stores[..i];
        assert Objects(stores)[i] == s;
        label before:
        s.OnUpdate(handler);
        forall j | 0 <= j < |stores|
          ensures stores[j].1.listeners ==
                  old@before(stores[j].1.listeners) +
                  (if stores[j].1 == s then [(UPDATE, handler)] else [])
        {
        }
        forall j | 0 <= j < |stores|
          ensures stores[j].1.listeners ==
                  old(stores[j].1.listeners) + Events.Repeat((UPDATE, handler), Occurrences(stores[..i + 1], stores[j].1))
        {
          var n := Occurrences(stores[..i], stores[j].1);
          if stores[j].1 == s {
            assert Events.Repeat((UPDATE, handler), n + 1) == Events.Repeat((UPDATE, handler), n) + [(UPDATE, handler)];
          }
        }
        i := i + 1;
      }
      assert stores[..i] == stores;
    }

    /** componentWillUnmount(): removeUpdateListener(storesUpdate) on every
        store, name by name. */
    method ComponentWillUnmount()
      modifies Objects(stores)`listeners
      ensures forall j | 0 <= j < |stores| ::
                stores[j].1.listeners ==
                Events.RemoveTimes(old(stores[j].1.listeners), UPDATE, handler, Occurrences(stores, stores[j].1))
      ensures forall j | 0 <= j < |stores| :: stores[j].1.data == old(stores[j].1.data)
    {
      var i := 0;
      while i < |stores|
        invariant 0 <= i <= |stores|
        invariant forall j | 0 <= j < |stores| ::
                    stores[j].1.listeners ==
                    Events.RemoveTimes(old(stores[j].1.listeners), UPDATE, handler, Occurrences(stores[..i], stores[j].1))
        invariant forall j | 0 <= j < |stores| :: stores[j].1.data == old(stores[j].1.data)
      {
        var s := stores[i].1;
        assert stores[..i + 1][..i] == stores[..i];
        assert Objects(stores)[i] == s;
        Events.RemoveTimesLast(old(s.listeners), UPDATE, handler, Occurrences(stores[..i], s));
        label before:
        s.RemoveUpdateListener(handler);
        forall j | 0 <= j < |stores|
          ensures stores[j].1.listeners ==
                  if stores[j].1 == s then Events.RemoveListener(old@before(s.listeners), UPDATE, handler)
                  else old@before(stores[j].1.listeners)
        {
        }
        forall j | 0 <= j < |stores|
          ensures stores[j].1.listeners ==
                  Events.RemoveTimes(old(stores[j].1.listeners), UPDATE, handler, Occurrences(stores[..i + 1], stores[j].1))
        {
          var t := stores[j].1;
          var n := Occurrences(stores[..i], t);
          if t == s {
            assert Occurrences(stores[..i + 1], t) == n + 1;
            assert old@before(t.listeners) == Events.RemoveTimes(old(t.listeners), UPDATE, handler, n);
          } else {
            assert Occurrences(stores[..i + 1], t) == n;
          }
        }
        i := i + 1;
      }
      assert stores[..i] == stores;
    }

    /** storesUpdate(): the state becomes a new snapshot of every store, not
        only of the one that changed. */
    method StoresUpdate()
      requires Valid()
      modifies this`state
      ensures Valid()
      ensures state == StoreData(stores)
    {
      StoreDataShape(stores);
      state := StoreData(stores);
    }

    /** render(): the child's props are {...state, ...props}. */
    function Render(props: seq<(string, Value)>): seq<(string, Value)>
      reads this
    {
      Assign(Assign([], state), props)
    }
  }

  /** Mounting and then unmounting leaves every bound store's listeners as
      they were before. */
  method MountThenUnmount(e: Enhancer)
    modifies Objects(e.stores)`listeners
    ensures forall j | 0 <= j < |e.stores| :: e.stores[j].1.listeners == old(e.stores[j].1.listeners)
  {
    e.ComponentDidMount();
    label mounted:
    e.ComponentWillUnmount();
    forall j | 0 <= j < |e.stores|
      ensures e.stores[j].1.listeners == old(e.stores[j].1.listeners)
    {
      var t := e.stores[j].1;
      Events.RemoveTimesUndoesRepeat(old(t.listeners), UPDATE, e.handler, Occurrences(e.stores, t));
    }
  }

  /** With each store bound under one name, mounting registers the handler
      exactly once on each. */
  lemma MountRegistersOnce(stores: seq<(string, Store)>, handler: Callback, j: nat)
    requires j < |stores|
    requires forall i | 0 <= i < |stores| && i != j :: stores[i].1 != stores[j].1
    ensures Events.Repeat((UPDATE, handler), Occurrences(stores, stores[j].1)) == [(UPDATE, handler)]
  {
    OccurrencesOnce(stores, j);
  }

  /** An explicit prop wins over the store state of the same name; every other
      name keeps its store state. */
  lemma RenderPrecedence(e: Enhancer, props: seq<(string, Value)>, k: string)
    requires e.Valid() && UniqueKeys(props)
    ensures Lookup(e.Render(props), k) == if k in Keys(props) then Lookup(props, k) else Lookup(e.state, k)
  {
    AssignLookup(Assign([], e.state), props, k);
    AssignLookup([], e.state, k);
  }

  /** The child sees the state's names first, then the props' new names. */
  lemma RenderKeys(e: Enhancer, props: seq<(string, Value)>)
    requires e.Valid()
    ensures Keys(e.Render(props)) == Keys(e.state) + NewKeys(Keys(props), Keys(e.state))
  {
    var ks := Keys(e.state);
    assert forall i, j | 0 <= i < j < |ks| :: ks[i] != ks[j] by {
      assert forall i | 0 <= i < |ks| :: ks[i] == e.state[i].0;
    }
    NewKeysOfUnique(ks);
    AssignKeys([], e.state);
    assert Keys([]) == [];
    assert Keys(Assign([], e.state)) == ks;
    AssignKeys(Assign([], e.state), props);
  }

  lemma {:induction false} NewKeysOfUnique(ks: seq<string>)
    requires forall i, j | 0 <= i < j < |ks| :: ks[i] != ks[j]
    ensures NewKeys(ks, []) == ks
  {
    NewKeysFrom(ks, []);
  }

  lemma {:induction false} NewKeysFrom(ks: seq<string>, seen: seq<string>)
    requires forall i, j | 0 <= i < j < |ks| :: ks[i] != ks[j]
    requires forall i | 0 <= i < |ks| :: ks[i] !in seen
    ensures NewKeys(ks, seen) == ks
    decreases |ks|
  {
    if ks != [] {
      NewKeysFrom(ks[1..], seen + [ks[0]]);
    }
  }
}
