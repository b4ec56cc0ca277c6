/** Two worked examples of the protocol, stated as methods whose
    postconditions give the observable outcome. */
module Scenarios {
  import opened Json
  import Events
  import Inflation
  import opened Stores
  import opened StoreEnhance

  /** A counter store's inflate hook: `this.data.count = payload.count`,
      followed by done(). */
  function CountMerge(data: Value, payload: Value): Value {
    var count := if payload.Obj? && Lookup(payload.entries, "count").Some?
                 then Lookup(payload.entries, "count").value else Undefined;
    if data.Obj? then Obj(Put(data.entries, "count", count)) else data
  }

  const Counter := Behaviour([], Merge(CountMerge, true))

  /** {count: 0} and {count: 5}. */
  const Zero := Obj([("count", Num(0))])
  const Five := Obj([("count", Num(5))])

  /** Both counts are plain; an explicit {count: 5} is broadcast as given;
      the hook on a freshly reset {count: 0} with payload {count: 5} leaves
      {count: 5}. */
  lemma CounterValues()
    ensures Plain(Zero) && Plain(Five)
    ensures Reparse(Zero) == Zero
    ensures Inflation.Payload(Five, Inflation.NoDocument) == Five
    ensures CountMerge(Zero, Five) == Five
  {
    assert Plain(Zero) && Plain(Five);
    ReparsePlain(Zero);
    Inflation.ExplicitPayloadWins(Five, Inflation.NoDocument, Inflation.NoDocument);
  }

  /** The broadcast to a single store with a single update listener, for a
      hook that ends with done(): its reset, its hook seeing the reset data,
      then one update carrying what the hook left. */
  lemma SingleStoreBroadcast(s: Store, l: Callback, payload: Value)
    requires s.listeners == [(UPDATE, l)] && Notifies(s.behaviour.inflate)
    ensures Broadcast([s], payload) ==
            [ResetStep(s), InflateStep(s, payload, Reparse(s.seed)),
             UpdateStep(s, l, AfterHook(s.behaviour.inflate, Reparse(s.seed), payload))]
  {
    var d := AfterHook(s.behaviour.inflate, Reparse(s.seed), payload);
    assert Events.ListenersFor([(UPDATE, l)], UPDATE) == [l] by {
      assert [(UPDATE, l)][..0] == [];
    }
    assert Deliveries(s.listeners, d) == [(l, d)];
    assert Updates(s, [(l, d)]) == [UpdateStep(s, l, d)] by {
      assert [(l, d)][..0] == [];
    }
    assert [s][..0] == [];
    assert InflateSteps([s], payload) == StoreSteps(s, payload);
  }

  /** Constructing the counter store on a fresh Inflator and registering
      update listener 1 on it. */
  method NewCounter(hub: Inflator) returns (s: Store)
    requires hub.Valid() && hub.stores == []
    modifies hub
    ensures fresh(s) && hub.Valid() && hub.stores == [s]
    ensures s.seed == Zero && s.behaviour == Counter
    ensures s.listeners == [(UPDATE, 1)]
  {
    CounterValues();
    PlainIsTransferable(Zero);
    s := new Store(Zero, hub, Counter);
    s.OnUpdate(1);
  }

  /** A store seeded with {count: 0} and one update listener: inflating
      {count: 5} resets it, runs the hook on {count: 0}, leaves {count: 5}
      and fires exactly one update carrying {count: 5}. */
  method CounterScenario() returns (s: Store, trace: seq<Step>)
    ensures s.data == Five
    ensures trace == [ResetStep(s), InflateStep(s, Five, Zero), UpdateStep(s, 1, Five)]
  {
    var hub := new Inflator();
    s := NewCounter(hub);
    CounterValues();
    trace := hub.Inflate(Five, Inflation.NoDocument);
    SingleStoreBroadcast(s, 1, Five);
  }

  /** {x: 1} and {y: 2}. */
  const X := Obj([("x", Num(1))])
  const Y := Obj([("y", Num(2))])

  lemma BindingValues()
    ensures Plain(X) && Plain(Y)
    ensures Transferable(SeedOf(X)) && Transferable(SeedOf(Y))
  {
    assert Plain(X) && Plain(Y);
    PlainIsTransferable(X);
    PlainIsTransferable(Y);
  }

  /** Two distinct stores bound under two names: getStoreData() holds both
      names, in order, with each store's data. */
  lemma TwoStoreData(na: string, a: Store, nb: string, b: Store)
    requires na != nb
    ensures StoreData([(na, a), (nb, b)]) == [(na, a.data), (nb, b.data)]
  {
    var bound := [(na, a), (nb, b)];
    var first := [(na, a)];
    assert bound[..1] == first && first[..0] == [];
    assert StoreData(first) == [(na, a.data)];
    var one := [(na, a.data)];
    assert one[1..] == [];
    assert Put(one, nb, b.data) == [(na, a.data), (nb, b.data)];
  }

  /** Constructing a store seeded with {x: 1} and one seeded with {y: 2}, both
      of the base class, on one Inflator. */
  method NewPair(hub: Inflator) returns (a: Store, b: Store)
    requires hub.Valid()
    modifies hub
    ensures fresh(a) && fresh(b) && a != b
    ensures a.data == X && b.data == Y
    ensures a.listeners == [] && b.listeners == []
  {
    BindingValues();
    a := new Store(X, hub, Base);
    b := new Store(Y, hub, Base);
  }

  /** Binding them as "A" and "B" to a component with handler 7. */
  method BindPair() returns (e: Enhancer, a: Store, b: Store)
    ensures fresh(e) && fresh(a) && fresh(b) && a != b
    ensures e.Valid() && e.stores == [("A", a), ("B", b)] && e.handler == 7
    ensures e.state == [("A", X), ("B", Y)]
    ensures a.data == X && b.data == Y && a.listeners == [] && b.listeners == []
  {
    var hub := new Inflator();
    a, b := NewPair(hub);
    e := new Enhancer([("A", a), ("B", b)], 7);
    TwoStoreData("A", a, "B", b);
  }

  /** Stores "A" ({x: 1}) and "B" ({y: 2}) bound to one component with
      handler 7: the initial state holds both; once mounted, A's done()
      reaches the handler with A's data; the state that follows again holds
      both. */
  method BindingScenario() returns (initial: seq<(string, Value)>, delivered: seq<(Callback, Value)>,
                                    after: seq<(string, Value)>)
    ensures initial == [("A", X), ("B", Y)]
    ensures delivered == [(7, X)]
    ensures after == [("A", X), ("B", Y)]
  {
    var e, a, b := BindPair();
    initial := e.state;
    e.ComponentDidMount();
    MountRegistersOnce(e.stores, 7, 0);
    assert a.listeners == [(UPDATE, 7)];
    assert Events.ListenersFor([(UPDATE, 7)], UPDATE) == [7] by {
      assert [(UPDATE, 7)][..0] == [];
    }
    delivered := a.Done();
    e.StoresUpdate();
    after := e.state;
    TwoStoreData("A", a, "B", b);
  }
}
