/** The store synchronisation protocol: the Store base class (src/Store.js) and
    the shared Inflator relay it subscribes to (src/Inflator.js). The two
    classes refer to each other, so they share this module; the Inflator's
    value-level helpers live in module Inflation.

    A store's subclass is described by a `Behaviour`: the listeners its
    `init` registers on the store's own emitter, and what its `inflate` hook
    does with the payload. The base class's hooks only log. Update listeners
    are identified by a `Callback` number, standing for the function
    reference the source compares by identity. */
module Stores {
  import opened Json
  import Events
  import Inflation

  type Callback = nat

  /** The store's update event name (`this.UPDATE`). */
  const UPDATE := "up"
  /** The Inflator's two broadcast events. */
  const RESET := "reset"
  const INFLATE := "inflate"

  /** What a store's inflate hook does: the base hook only logs; an
      overriding hook merges the payload into `data` and may call done(). */
  datatype InflateHook =
    | LogOnly
    | Merge(merge: (Value, Value) -> Value, notify: bool)

  datatype Behaviour = Behaviour(init: seq<(string, Callback)>, inflate: InflateHook)

  /** The base class itself: init and inflate only log. */
  const Base := Behaviour([], LogOnly)

  /** `data || {}`: the seed kept by the constructor. */
  function SeedOf(arg: Value): (r: Value)
    ensures !Falsy(r)
    ensures !Falsy(arg) ==> r == arg
    ensures Falsy(arg) ==> r == Obj([])
  {
    if Falsy(arg) then Obj([]) else arg
  }

  /** Store.deepClone: the bare JSON round trip, with no fallback; None is the
      exception it lets through. */
  function DeepClone(v: Value): (r: Option<Value>)
    ensures r.Some? <==> Transferable(v)
    ensures r.Some? ==> Plain(r.value)
    ensures Plain(v) ==> r == Some(v)
  {
    if Plain(v) then PlainIsTransferable(v); ReparsePlain(v); RoundTrip(v)
    else if Transferable(v) then ReparseIsPlain(v); RoundTrip(v)
    else None
  }

  /** The store's data after its inflate hook ran on `data` with `payload`. */
  function AfterHook(hook: InflateHook, data: Value, payload: Value): Value {
    match hook
    case LogOnly => data
    case Merge(f, _) => f(data, payload)
  }

  /** Whether the hook ends with done(). */
  predicate Notifies(hook: InflateHook) {
    hook.Merge? && hook.notify
  }

  /** What emit(UPDATE, data) hands out: every listener registered for the
      update event, in registration order, each with the same data. */
  function Deliveries(listeners: seq<(string, Callback)>, data: Value): (r: seq<(Callback, Value)>)
    ensures |r| == |Events.ListenersFor(listeners, UPDATE)|
    ensures forall i | 0 <= i < |r| :: r[i] == (Events.ListenersFor(listeners, UPDATE)[i], data)
  {
    var ls := Events.ListenersFor(listeners, UPDATE);
    seq(|ls|, i requires 0 <= i < |ls| => (ls[i], data))
  }

  /** done() reaches exactly the registered update listeners: each delivery
      goes to a listener registered for the update event and carries the
      data, and every such registration receives a delivery. */
  lemma DeliveriesToRegistered(listeners: seq<(string, Callback)>, data: Value)
    ensures forall i | 0 <= i < |Deliveries(listeners, data)| ::
              (UPDATE, Deliveries(listeners, data)[i].0) in listeners && Deliveries(listeners, data)[i].1 == data
    ensures forall j | 0 <= j < |listeners| && listeners[j].0 == UPDATE ::
              exists i | 0 <= i < |Deliveries(listeners, data)| :: Deliveries(listeners, data)[i].0 == listeners[j].1
  {
    var ls := Events.ListenersFor(listeners, UPDATE);
    var r := Deliveries(listeners, data);
    Events.ListenersForMembers(listeners, UPDATE);
    forall j | 0 <= j < |listeners| && listeners[j].0 == UPDATE
      ensures exists i | 0 <= i < |r| :: r[i].0 == listeners[j].1
    {
      var i :| 0 <= i < |ls| && ls[i] == listeners[j].1;
      assert r[i].0 == listeners[j].1;
    }
  }

  /** A listener on the Inflator: a store's own reset or inflate, bound to it. */
  datatype Binding = ResetOf(store: Store) | InflateOf(store: Store)

  /** One observable step of a broadcast: a store was reset; a store's inflate
      hook ran with `payload` while the store held `seen`; a store's update
      listener was called with `data`. */
  datatype Step =
    | ResetStep(store: Store)
    | InflateStep(store: Store, payload: Value, seen: Value)
    | UpdateStep(store: Store, listener: Callback, data: Value)

  function Updates(s: Store, ds: seq<(Callback, Value)>): (r: seq<Step>)
    ensures |r| == |ds|
    ensures forall i | 0 <= i < |r| :: r[i] == UpdateStep(s, ds[i].0, ds[i].1)
  {
    seq(|ds|, i requires 0 <= i < |ds| => UpdateStep(s, ds[i].0, ds[i].1))
  }

  class Store {
    /** `_data`: the seed, assigned once in the constructor. */
    const seed: Value
    const behaviour: Behaviour
    /** The working copy. */
    var data: Value
    /** The store's own emitter. */
    var listeners: seq<(string, Callback)>

    /** The seed survives the JSON round trip, so reset() cannot throw. */
    predicate Valid() {
      Transferable(seed)
    }

    /** new Store(arg), for a seed the round trip accepts (NewStore covers the
        other case): the seed is `arg || {}`, the data a copy of it, the store
        is subscribed to the Inflator, reset before inflate, and then init()
        runs. */
    constructor (arg: Value, hub: Inflator, behaviour: Behaviour)
      requires hub.Valid()
      requires Transferable(SeedOf(arg))
      modifies hub
      ensures Valid()
      ensures seed == SeedOf(arg) && this.behaviour == behaviour
      ensures DeepClone(seed) == Some(data)
      ensures Plain(seed) ==> data == seed
      ensures listeners == behaviour.init
      ensures hub.Valid() && hub.stores == old(hub.stores) + [this]
      ensures hub.subscriptions ==
              old(hub.subscriptions) + [(RESET, ResetOf(this)), (INFLATE, InflateOf(this))]
    {
      seed := SeedOf(arg);
      this.behaviour := behaviour;
      data := Undefined;
      listeners := [];
      new;
      Reset();
      hub.subscriptions := Events.On(hub.subscriptions, RESET, ResetOf(this));
      hub.subscriptions := Events.On(hub.subscriptions, INFLATE, InflateOf(this));
      hub.stores := hub.stores + [this];
      Init(hub);
    }

    /** init(): runs only once the store listens to the Inflator's reset and
        then its inflate (its precondition, which the constructor meets). The
        base hook logs and registers nothing; a subclass's registers its
        listeners. */
    method Init(ghost hub: Inflator)
      requires |hub.subscriptions| >= 2
      requires hub.subscriptions[|hub.subscriptions| - 2..] ==
               [(RESET, ResetOf(this)), (INFLATE, InflateOf(this))]
      modifies this`listeners
      ensures listeners == old(listeners) + behaviour.init
    {
      listeners := listeners + behaviour.init;
    }

    /** reset(): data becomes a fresh copy of the seed, whatever it held;
        for a plain seed, the seed itself. */
    method Reset()
      requires Valid()
      modifies this`data
      ensures DeepClone(seed) == Some(data)
      ensures Plain(seed) ==> data == seed
    {
      var copy := DeepClone(seed);
      data := copy.value;
    }

    /** inflate(payload): the hook runs on the current data; a notifying hook
        then calls done(). */
    method Inflate(payload: Value) returns (delivered: seq<(Callback, Value)>)
      modifies this`data
      ensures data == AfterHook(behaviour.inflate, old(data), payload)
      ensures delivered == if Notifies(behaviour.inflate) then Deliveries(listeners, data) else []
    {
      delivered := [];
      match behaviour.inflate
      case LogOnly =>
      case Merge(f, notify) =>
        data := f(data, payload);
        if notify {
          delivered := Done();
        }
    }

    /** done(): emit(UPDATE, data). Every update listener is called, in
        registration order, with the current data; nothing changes. */
    method Done() returns (delivered: seq<(Callback, Value)>)
      ensures |delivered| == |Events.ListenersFor(listeners, UPDATE)|
      ensures forall i | 0 <= i < |delivered| ::
                delivered[i] == (Events.ListenersFor(listeners, UPDATE)[i], data)
    {
      var ls := Events.ListenersFor(listeners, UPDATE);
      delivered := [];
      var i := 0;
      while i < |ls|
        invariant 0 <= i <= |ls|
        invariant |delivered| == i
        invariant forall k | 0 <= k < i :: delivered[k] == (ls[k], data)
      {
        delivered := delivered + [(ls[i], data)];
        i := i + 1;
      }
    }

    /** onUpdate(cb) */
    method OnUpdate(cb: Callback)
      modifies this`listeners
      ensures listeners == Events.On(old(listeners), UPDATE, cb)
    {
      listeners := Events.On(listeners, UPDATE, cb);
    }

    /** removeUpdateListener(cb) */
    method RemoveUpdateListener(cb: Callback)
      modifies this`listeners
      ensures listeners == Events.RemoveListener(old(listeners), UPDATE, cb)
    {
      listeners := Events.RemoveListener(listeners, UPDATE, cb);
    }
  }

  /** onUpdate(cb) then removeUpdateListener(cb) leaves the listeners as they
      were; a done() after that reaches cb only if it was registered before. */
  method SubscribeThenUnsubscribe(s: Store, cb: Callback) returns (delivered: seq<(Callback, Value)>)
    modifies s`listeners
    ensures s.listeners == old(s.listeners)
    ensures (forall i | 0 <= i < |delivered| :: delivered[i].0 != cb) <==>
            cb !in Events.ListenersFor(old(s.listeners), UPDATE)
  {
    s.OnUpdate(cb);
    s.RemoveUpdateListener(cb);
    Events.OnThenRemove(old(s.listeners), UPDATE, cb);
    delivered := s.Done();
  }

  /** new Store(arg) as a whole: when the seed does not survive the JSON round
      trip the constructor's first reset() throws, before anything was
      subscribed; otherwise the store is built. */
  method NewStore(arg: Value, hub: Inflator, behaviour: Behaviour) returns (r: Option<Store>)
    requires hub.Valid()
    modifies hub
    ensures hub.Valid()
    ensures r.None? <==> !Transferable(SeedOf(arg))
    ensures r.None? ==> hub.subscriptions == old(hub.subscriptions) && hub.stores == old(hub.stores)
    ensures r.Some? ==> fresh(r.value) && r.value.seed == SeedOf(arg) && hub.stores == old(hub.stores) + [r.value]
  {
    if DeepClone(SeedOf(arg)).None? {
      return None;
    }
    var s := new Store(arg, hub, behaviour);
    return Some(s);
  }

  /** What the constructors leave on the Inflator: each store's reset, then
      its inflate, store after store. */
  function Subscriptions(stores: seq<Store>): (r: seq<(string, Binding)>)
    ensures |r| == 2 * |stores|
  {
    if stores == [] then []
    else Subscriptions(stores[..|stores| - 1]) +
         [(RESET, ResetOf(stores[|stores| - 1])), (INFLATE, InflateOf(stores[|stores| - 1]))]
  }

  /** emit('reset') reaches every store once, in construction order, and
      emit('inflate') likewise. */
  lemma {:induction false} SubscribedListeners(stores: seq<Store>, e: string)
    requires e == RESET || e == INFLATE
    ensures var ls := Events.ListenersFor(Subscriptions(stores), e);
            && |ls| == |stores|
            && forall i | 0 <= i < |stores| ::
                 ls[i] == if e == RESET then ResetOf(stores[i]) else InflateOf(stores[i])
  {
    if stores != [] {
      var init := stores[..|stores| - 1];
      var last := stores[|stores| - 1];
      SubscribedListeners(init, e);
      var tail := [(RESET, ResetOf(last)), (INFLATE, InflateOf(last))];
      assert Subscriptions(stores) == Subscriptions(init) + tail;
      Events.ListenersForAppend(Subscriptions(init), tail, e);
      PairListeners(last, e);
      var before := Events.ListenersFor(Subscriptions(init), e);
      var ls := Events.ListenersFor(Subscriptions(stores), e);
      assert ls == before + [if e == RESET then ResetOf(last) else InflateOf(last)];
      forall i | 0 <= i < |stores|
        ensures ls[i] == if e == RESET then ResetOf(stores[i]) else InflateOf(stores[i])
      {
        if i < |init| {
          assert ls[i] == before[i];
          assert stores[i] == init[i];
        }
      }
    }
  }

  lemma PairListeners(s: Store, e: string)
    requires e == RESET || e == INFLATE
    ensures Events.ListenersFor([(RESET, ResetOf(s)), (INFLATE, InflateOf(s))], e) ==
            [if e == RESET then ResetOf(s) else InflateOf(s)]
  {
    var tail := [(RESET, ResetOf(s)), (INFLATE, InflateOf(s))];
    assert tail[..1] == [(RESET, ResetOf(s))];
    assert tail[..1][..0] == [];
  }

  /** The steps the inflate broadcast produces for one store. */
  function StoreSteps(s: Store, payload: Value): seq<Step>
    reads s`listeners
  {
    var seen := Reparse(s.seed);
    [InflateStep(s, payload, seen)] +
    (if Notifies(s.behaviour.inflate)
     then Updates(s, Deliveries(s.listeners, AfterHook(s.behaviour.inflate, seen, payload)))
     else [])
  }

  function InflateSteps(stores: seq<Store>, payload: Value): seq<Step>
    reads stores`listeners
  {
    if stores == [] then []
    else InflateSteps(stores[..|stores| - 1], payload) + StoreSteps(stores[|stores| - 1], payload)
  }

  /** One more store adds its own steps after those of the stores before it. */
  lemma InflateStepsExtend(stores: seq<Store>, i: nat, payload: Value)
    requires i < |stores|
    ensures InflateSteps(stores[..i + 1], payload) == InflateSteps(stores[..i], payload) + StoreSteps(stores[i], payload)
  {
    assert stores[..i + 1][..i] == stores[..i];
  }

  function ResetSteps(stores: seq<Store>): (r: seq<Step>)
    ensures |r| == |stores|
    ensures forall i | 0 <= i < |r| :: r[i] == ResetStep(stores[i])
  {
    seq(|stores|, i requires 0 <= i < |stores| => ResetStep(stores[i]))
  }

  /** The whole broadcast of one Inflator.inflate call. */
  function Broadcast(stores: seq<Store>, payload: Value): seq<Step>
    reads stores`listeners
  {
    ResetSteps(stores) + InflateSteps(stores, payload)
  }

  /** The inflate half has no reset step, hands every hook the one payload
      with the store holding its reset data, and only calls update listeners
      the store has registered, for hooks that end with done(). */
  lemma {:induction false} InflateStepsShape(stores: seq<Store>, payload: Value)
    ensures forall i | 0 <= i < |InflateSteps(stores, payload)| ::
              var t := InflateSteps(stores, payload)[i];
              && !t.ResetStep?
              && t.store in stores
              && (t.InflateStep? ==> t.payload == payload && t.seen == Reparse(t.store.seed))
              && (t.UpdateStep? ==>
                    Notifies(t.store.behaviour.inflate) &&
                    t.listener in Events.ListenersFor(t.store.listeners, UPDATE))
  {
    if stores != [] {
      var init := stores[..|stores| - 1];
      var s := stores[|stores| - 1];
      InflateStepsShape(init, payload);
      var a := InflateSteps(init, payload);
      var b := StoreSteps(s, payload);
      assert InflateSteps(stores, payload) == a + b;
      var ab: seq<Step> := a + b;
      forall i | 0 <= i < |ab|
        ensures ab[i].store in stores
      {
        if i < |a| {
          assert a[i].store in init;
        }
      }
    }
  }

  /** Every reset runs before any inflate hook, whatever the number of
      stores; every hook gets the same payload and sees its store freshly
      reset. */
  lemma BroadcastOrder(stores: seq<Store>, payload: Value)
    ensures var t := Broadcast(stores, payload);
            forall i, j | 0 <= i < |t| && 0 <= j < |t| && t[i].ResetStep? && !t[j].ResetStep? :: i < j
    ensures var t := Broadcast(stores, payload);
            forall i | 0 <= i < |t| && t[i].InflateStep? ::
              t[i].payload == payload && t[i].seen == Reparse(t[i].store.seed)
  {
    InflateStepsShape(stores, payload);
    var t := Broadcast(stores, payload);
    assert forall i | |stores| <= i < |t| :: t[i] == InflateSteps(stores, payload)[i - |stores|];
  }

  /** The stores whose inflate hook ran, in the order it ran. */
  function Inflated(t: seq<Step>): seq<Store> {
    if t == [] then []
    else Inflated(t[..|t| - 1]) + (if t[|t| - 1].InflateStep? then [t[|t| - 1].store] else [])
  }

  lemma {:induction false} InflatedAppend(a: seq<Step>, b: seq<Step>)
    ensures Inflated(a + b) == Inflated(a) + Inflated(b)
    decreases |b|
  {
    if b == [] {
      assert a + b == a;
    } else {
      InflatedAppend(a, b[..|b| - 1]);
      assert (a + b)[..|a + b| - 1] == a + b[..|b| - 1];
    }
  }

  lemma {:induction false} InflatedUpdates(s: Store, ds: seq<(Callback, Value)>)
    ensures Inflated(Updates(s, ds)) == []
    decreases |ds|
  {
    if ds != [] {
      InflatedUpdates(s, ds[..|ds| - 1]);
      assert Updates(s, ds)[..|ds| - 1] == Updates(s, ds[..|ds| - 1]);
    }
  }

  /** The inflate hooks run once per store, in the order the stores were
      constructed. */
  lemma {:induction false} InflateHookOrder(stores: seq<Store>, payload: Value)
    ensures Inflated(Broadcast(stores, payload)) == stores
  {
    InflatedAppend(ResetSteps(stores), InflateSteps(stores, payload));
    NoInflateInResets(stores);
    InflatedInflateSteps(stores, payload);
  }

  lemma {:induction false} NoInflateInResets(stores: seq<Store>)
    ensures Inflated(ResetSteps(stores)) == []
    decreases |stores|
  {
    if stores != [] {
      NoInflateInResets(stores[..|stores| - 1]);
      assert ResetSteps(stores)[..|stores| - 1] == ResetSteps(stores[..|stores| - 1]);
    }
  }

  lemma {:induction false} InflatedInflateSteps(stores: seq<Store>, payload: Value)
    ensures Inflated(InflateSteps(stores, payload)) == stores
    decreases |stores|
  {
    if stores != [] {
      var init := stores[..|stores| - 1];
      var s := stores[|stores| - 1];
      var a := InflateSteps(init, payload);
      var b := StoreSteps(s, payload);
      assert InflateSteps(stores, payload) == a + b;
      InflatedInflateSteps(init, payload);
      InflatedAppend(a, b);
      InflatedStoreSteps(s, payload);
      assert init + [s] == stores;
    }
  }

  /** One store's steps hold one run of its inflate hook. */
  lemma InflatedStoreSteps(s: Store, payload: Value)
    ensures Inflated(StoreSteps(s, payload)) == [s]
  {
    var first := [InflateStep(s, payload, Reparse(s.seed))];
    var rest := StoreSteps(s, payload)[1..];
    assert StoreSteps(s, payload) == first + rest;
    InflatedAppend(first, rest);
    assert Inflated(first) == [s] by {
      assert first[..0] == [];
    }
    if Notifies(s.behaviour.inflate) {
      InflatedUpdates(s, Deliveries(s.listeners, AfterHook(s.behaviour.inflate, Reparse(s.seed), payload)));
    } else {
      assert rest == [];
    }
  }

  /** A store with the base inflate hook and a plain seed holds exactly its
      seed after a broadcast. */
  lemma BaseHookKeepsSeed(s: Store, payload: Value)
    requires s.behaviour.inflate.LogOnly? && Plain(s.seed)
    ensures AfterHook(s.behaviour.inflate, Reparse(s.seed), payload) == s.seed
  {
    ReparsePlain(s.seed);
  }

  /** One turn of emit('inflate'): the hook of store i runs on the payload
      and its steps follow those of the stores before it; the stores before
      it keep their merged data and those after it their reset data. */
  method InflateTurn(ghost ss: seq<Store>, i: nat, b: Binding, payload: Value, trace: seq<Step>)
    returns (trace': seq<Step>)
    requires i < |ss| && b == InflateOf(ss[i]) && ss[i].Valid()
    requires forall k | 0 <= k < |ss| && k != i :: ss[k] != ss[i]
    requires trace == InflateSteps(ss[..i], payload)
    requires forall k | 0 <= k < i ::
               ss[k].data == AfterHook(ss[k].behaviour.inflate, Reparse(ss[k].seed), payload)
    requires forall k | i <= k < |ss| :: ss[k].data == Reparse(ss[k].seed)
    modifies b.store`data
    ensures trace' == InflateSteps(ss[..i + 1], payload)
    ensures forall k | 0 <= k < i + 1 ::
              ss[k].data == AfterHook(ss[k].behaviour.inflate, Reparse(ss[k].seed), payload)
    ensures forall k | i + 1 <= k < |ss| :: ss[k].data == Reparse(ss[k].seed)
  {
    var steps := Inflator.CallInflate(b, payload);
    InflateStepsExtend(ss, i, payload);
    trace' := trace + steps;
  }

  /** The single shared relay. `stores` records the stores constructed with
      it, in order; only their constructors subscribe to it. */
  class Inflator {
    var subscriptions: seq<(string, Binding)>
    ghost var stores: seq<Store>

    ghost predicate Valid()
      reads this
    {
      && subscriptions == Subscriptions(stores)
      && (forall i, j | 0 <= i < j < |stores| :: stores[i] != stores[j])
      && (forall i | 0 <= i < |stores| :: stores[i].Valid())
    }

    constructor ()
      ensures Valid() && stores == [] && subscriptions == []
    {
      subscriptions := [];
      stores := [];
    }

    /** inflate(arg): resolve the payload, emit('reset'), clone the payload
        and emit('inflate', payload). Returns the steps in the order they
        happened. Afterwards every store holds its hook's merge of the
        payload into a fresh copy of its seed; no listener list changes. */
    method Inflate(arg: Value, page: Inflation.PageSource) returns (trace: seq<Step>)
      requires Valid()
      modifies stores`data
      ensures trace == Broadcast(stores, Inflation.Payload(arg, page))
      ensures forall k | 0 <= k < |stores| ::
                stores[k].data ==
                AfterHook(stores[k].behaviour.inflate, Reparse(stores[k].seed), Inflation.Payload(arg, page))
      ensures forall k | 0 <= k < |stores| :: stores[k].listeners == old(stores[k].listeners)
    {
      var given := Inflation.Resolve(arg, page);
      var resets := EmitReset();
      var payload := Inflation.DeepClone(given);
      var inflates := EmitInflate(payload);
      trace := resets + inflates;
    }

    /** emit('reset'): every store is reset, in construction order. */
    method EmitReset() returns (trace: seq<Step>)
      requires Valid()
      modifies stores`data
      ensures trace == ResetSteps(stores)
      ensures forall k | 0 <= k < |stores| :: stores[k].data == Reparse(stores[k].seed)
    {
      var ls := Events.ListenersFor(subscriptions, RESET);
      SubscribedListeners(stores, RESET);
      trace := [];
      var i := 0;
      while i < |ls|
        invariant 0 <= i <= |ls| == |stores|
        invariant trace == ResetSteps(stores[..i])
        invariant forall k | 0 <= k < i :: stores[k].data == Reparse(stores[k].seed)
      {
        var steps := Call(ls[i], Undefined);
        trace := trace + steps;
        i := i + 1;
      }
      assert stores[..i] == stores;
    }

    /** emit('inflate', payload): every store's hook runs on the payload, in
        construction order. */
    method EmitInflate(payload: Value) returns (trace: seq<Step>)
      requires Valid()
      requires forall k | 0 <= k < |stores| :: stores[k].data == Reparse(stores[k].seed)
      modifies stores`data
      ensures trace == InflateSteps(stores, payload)
      ensures forall k | 0 <= k < |stores| ::
                stores[k].data == AfterHook(stores[k].behaviour.inflate, Reparse(stores[k].seed), payload)
    {
      ghost var ss := stores;
      var ls := Events.ListenersFor(subscriptions, INFLATE);
      SubscribedListeners(ss, INFLATE);
      trace := [];
      var i := 0;
      while i < |ls|
        invariant 0 <= i <= |ls| == |ss|
        invariant trace == InflateSteps(ss[..i], payload)
        invariant forall k | 0 <= k < i ::
                    ss[k].data == AfterHook(ss[k].behaviour.inflate, Reparse(ss[k].seed), payload)
        invariant forall k | i <= k < |ss| :: ss[k].data == Reparse(ss[k].seed)
      {
        trace := InflateTurn(ss, i, ls[i], payload, trace);
        i := i + 1;
      }
      assert ss[..i] == ss;
    }

    /** Calling a bound inflate on a store that was just reset yields that
        store's steps of the broadcast. */
    static method CallInflate(b: Binding, payload: Value) returns (steps: seq<Step>)
      requires b.InflateOf? && b.store.Valid() && b.store.data == Reparse(b.store.seed)
      modifies b.store`data
      ensures steps == StoreSteps(b.store, payload)
      ensures b.store.data == AfterHook(b.store.behaviour.inflate, Reparse(b.store.seed), payload)
    {
      steps := Call(b, payload);
    }

    /** How emit calls one listener: a bound reset ignores the arguments; a
        bound inflate runs the store's hook on the payload. */
    static method Call(b: Binding, payload: Value) returns (steps: seq<Step>)
      requires b.store.Valid()
      modifies b.store`data
      ensures b.ResetOf? ==> Some(b.store.data) == DeepClone(b.store.seed) && steps == [ResetStep(b.store)]
      ensures b.InflateOf? ==>
                var s := b.store;
                && s.data == AfterHook(s.behaviour.inflate, old(s.data), payload)
                && steps == [InflateStep(s, payload, old(s.data))] +
                            (if Notifies(s.behaviour.inflate) then Updates(s, Deliveries(s.listeners, s.data)) else [])
    {
      match b
      case ResetOf(s) =>
        s.Reset();
        steps := [ResetStep(s)];
      case InflateOf(s) =>
        var seen := s.data;
        var delivered := s.Inflate(payload);
        steps := [InflateStep(s, payload, seen)] + Updates(s, delivered);
    }
  }
}
