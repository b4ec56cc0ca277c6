# simplux store synchronisation, modelled in Dafny

simplux is a small Flux-style state layer. A `Store` keeps a seed and a
working copy (`data`) of it. It announces changes through its own event
emitter: `done()` emits the update event `'up'` with the data. A single
`Inflator` relay rehydrates every store from data embedded in the page:
`inflate(arg)` resolves the payload (`arg`, or the JSON text of the element
`page-data`), broadcasts `reset` and then `inflate` with a deep copy of the
payload. Every store subscribed to both events in its constructor, its reset
before its inflate. `StoreEnhance` wraps a UI component. Its state is a
snapshot of the bound stores' data under their names. It registers its
`storesUpdate` handler on every store while mounted, and it renders the
child with `{...state, ...props}`.

The model is in six modules:

- `Json` (json.dfy) covers JavaScript values and truthiness.
  - It models the `JSON.parse(JSON.stringify(v))` round trip structurally:
    undefined properties disappear, undefined array items become null, and
    an exception object becomes `{}`. Top-level undefined and cyclic values
    make it throw.
  - It models plain objects as ordered property lists, with assignment and
    spread.
- `Events` (events.dfy) models one emitter's listener list. `on` appends a
  pair. `removeListener` removes the most recently added matching pair, as
  Node's `events` module scans from the end. `emit` calls the event's
  listeners in registration order.
- `Inflation` (inflation.dfy) holds the value-level part of the Inflator:
  the page read, the payload choice, and the clone that falls back to `{}`.
- `Stores` (stores.dfy) holds the `Store` and `Inflator` classes, which
  refer to each other.
  - A store subclass is a `Behaviour`: the listeners its `init` registers,
    and an inflate hook that either only logs (the base class) or merges the
    payload into `data` and may then call `done()`.
  - `Inflator.Inflate` returns the trace of what happened, as a sequence of
    `Step`s: resets, hook runs with the payload and the data the hook saw,
    and update deliveries.
- `StoreEnhance` (enhance.dfy) holds the component as a class with its
  lifecycle methods.
- `Scenarios` (scenarios.dfy) holds two worked examples stated as methods:
  a counter store inflated with `{count: 5}`, and two stores bound to one
  component.

Where the code and the usual description of the system differ, the model
follows the code:

- When the page data cannot be read, `_loadPageData` returns `{error: e}`
  around the exception. The clone turns the exception into `{}`, so the
  stores receive `{error: {}}` and not the details of the failure
  (`Inflation.ReadFailureBroadcast`).
- `init()` runs after the store subscribed to the Inflator, so listeners
  that init registers cannot come before the store's own reset and inflate
  bindings. `Stores.Store.Init` states this order as its precondition.

## Model

| member | source | states |
|---|---|---|
| Json.RoundTrip | src/Store.js:55-57 | The JSON round trip returns a value exactly when the input is neither undefined nor cyclic; otherwise it throws. |
| Json.DropUndefined | src/Store.js:56 | Stringifying an object keeps exactly its properties whose value is not undefined: every kept one is defined and one of the object's, every defined one is kept, and with none undefined all are kept in order. |
| Json.DropUndefinedAppend | src/Store.js:56 | The defined properties keep their relative order: dropping the undefined ones from two parts of a property list and joining the results is the same as dropping them from the whole. |
| Json.ReparseIsPlain | src/Store.js:56 | Json.Reparse (the structural `JSON.parse(JSON.stringify(v))`): whatever the round trip returns is plain JSON data: nothing undefined, no exception object, nothing cyclic, at any depth. |
| Json.ReparsePlain | src/Store.js:56 | Json.Reparse copies plain data exactly. |
| Json.RoundTripIdentity | src/Store.js:56 | The round trip gives back its input unchanged if and only if the input is plain. |
| Json.PlainIsTransferable | src/Store.js:56 | Plain data never makes the round trip throw. |
| Json.RoundTripTruthiness | src/Inflator.js:13-15 | A falsy value survives the round trip as itself and a truthy one stays truthy. |
| Json.Keys | src/StoreEnhance.js:11-12 | The names of an object's properties, one per property, in order. |
| Json.Lookup | src/StoreEnhance.js:12 | Reading a property finds a value exactly when the name is a key, and that value is the one stored under it. |
| Json.PutKeys | src/StoreEnhance.js:12 | Json.Put (`obj[k] = v`): setting a property keeps an existing key in place, or adds a new key last. |
| Json.PutLookup | src/StoreEnhance.js:12 | Json.Put: after setting a property, reading it gives the new value; every other property reads as before. |
| Json.PutUnique | src/StoreEnhance.js:12 | Setting a property never makes a key appear twice. |
| Json.AssignLookup | src/StoreEnhance.js:43 | Json.Assign (`{...a, ...b}`): in a spread, a property of the later object wins over the earlier one; other names keep the earlier value. |
| Json.AssignKeys | src/StoreEnhance.js:43 | Json.Assign: a spread keeps the earlier object's keys in order and appends the later object's new keys in their order. |
| Events.ListenersForMembers | src/Store.js:43-45 | Events.ListenersFor (the listeners emit calls): emit calls exactly the listeners registered for the event: each one it calls is registered for it, and each registered one is called. |
| Events.ListenersForAppend | src/Store.js:43-45 | Events.ListenersFor: listeners registered later are called after those registered earlier. |
| Events.ListenersForOn | src/Store.js:47-49 | Events.On (`on(e, l)`): it makes l the last listener of e and leaves every other event's listeners unchanged. |
| Events.RemoveListener | src/Store.js:51-53 | removeListener changes nothing when the pair is not registered; otherwise the list loses exactly one entry. |
| Events.RemoveListenerMultiset | src/Store.js:51-53 | removeListener takes out exactly one copy of the pair, when there is one, and nothing else. |
| Events.RemoveLatest | src/Store.js:51-53 | removeListener undoes the pair's latest registration and keeps every later registration, in order. |
| Events.OnThenRemove | src/Store.js:47-53 | Events.On and Events.RemoveListener are inverse: onUpdate(cb) followed by removeUpdateListener(cb) restores the listener list exactly. |
| Events.Repeat | src/StoreEnhance.js:27-29 | n registrations of one pair: n entries, each that pair. |
| Events.RemoveTimesUndoesRepeat | src/StoreEnhance.js:26-36 | n registrations of a listener followed by n removals of it restore the listener list. |
| Events.RemoveTimesLast | src/StoreEnhance.js:33-35 | Each further removal acts on the list the earlier removals left. |
| Inflation.LoadPageData | src/Inflator.js:23-34 | The page read gives undefined exactly when there is no document (a parsed page holds only plain JSON data, never undefined); a failed read or parse gives an object whose `error` is the exception. |
| Inflation.DeepClone | src/Inflator.js:12-21 | Inflator.deepClone never throws and always returns truthy plain data; falsy or unserialisable input becomes {}. |
| Inflation.DeepCloneCopies | src/Inflator.js:12-21 | Truthy plain data is cloned exactly. |
| Inflation.DeepCloneIdempotent | src/Inflator.js:12-21 | Cloning a clone changes nothing. |
| Inflation.ExplicitPayloadWins | src/Inflator.js:6 | Inflation.Resolve (`arg \|\| this._loadPageData()`) and Inflation.Payload: for every truthy argument the resolved payload is the argument itself and the page is not consulted; a truthy plain argument is broadcast unchanged. |
| Inflation.NoDocumentBroadcastsEmpty | src/Inflator.js:6-25 | Inflation.Payload: outside a browser, inflate() without an argument broadcasts {}. |
| Inflation.ReadFailureBroadcast | src/Inflator.js:6-31 | Inflation.Payload: when the page data cannot be read, the stores receive {error: {}}. |
| Inflation.ParsedPageBroadcast | src/Inflator.js:6-28 | Inflation.Payload: plain truthy page data is broadcast unchanged; falsy page data (null, 0, "") gives {}. |
| Stores.SeedOf | src/Store.js:18 | The seed is the argument when that is truthy and {} otherwise, so it is never falsy. |
| Stores.DeepClone | src/Store.js:55-57 | Store.deepClone succeeds exactly when the round trip does and then returns plain data; plain input is copied exactly. |
| Stores.DeliveriesToRegistered | src/Store.js:43-45 | Stores.Deliveries (what done() hands out): each delivery goes to a listener registered for the update event and carries the current data, and every registered update listener receives a delivery. |
| Stores.Store.constructor | src/Store.js:12-29 | The seed is `data \|\| {}` and the data a copy of it. The store is then subscribed to the Inflator, reset before inflate, and the Inflator records it last. Finally init() registers the subclass's listeners. |
| Stores.Store.Init | src/Store.js:25-33 | init() runs only after the store's reset and inflate are subscribed, and it adds the subclass's listeners after those already present. |
| Stores.Store.Reset | src/Store.js:39-41 | reset() makes data a fresh copy of the seed, whatever it held before; for a plain seed, the seed itself. |
| Stores.Store.Inflate | src/Store.js:35-37 | The inflate hook changes data into its merge of the payload; the base hook changes nothing. A hook that ends with done() delivers the merged data to every update listener. |
| Stores.Store.Done | src/Store.js:43-45 | done() calls every update listener in registration order with the current data and changes nothing. |
| Stores.Store.OnUpdate | src/Store.js:47-49 | onUpdate(cb) registers cb last for the update event. |
| Stores.Store.RemoveUpdateListener | src/Store.js:51-53 | removeUpdateListener(cb) removes cb's most recent registration for the update event. |
| Stores.SubscribeThenUnsubscribe | src/Store.js:43-53 | Subscribing and then unsubscribing cb leaves the listeners unchanged, and a later done() reaches cb exactly when cb was registered before. |
| Stores.NewStore | src/Store.js:12-19 | Construction throws, with the Inflator untouched, exactly when the seed does not survive the round trip; otherwise the new store is subscribed last. |
| Stores.SubscribedListeners | src/Store.js:25-26 | Stores.Subscriptions (the Inflator's listener list): emit('reset') and emit('inflate') each reach every store exactly once, in construction order. |
| Stores.InflateStepsShape | src/Store.js:35-45 | The inflate half contains no reset. Each hook gets the one payload while its store holds a fresh copy of its seed. Every update goes to a listener the store registered, for a hook that calls done(). |
| Stores.BroadcastOrder | src/Inflator.js:5-10 | Stores.Broadcast (the trace of inflate(arg)): every reset comes before every hook run and every update, whatever the number of stores, and each hook sees its store freshly reset with the one payload. |
| Stores.InflateHookOrder | src/Store.js:26 | Stores.Broadcast: the inflate hooks run once per store, in the order the stores were constructed. |
| Stores.BaseHookKeepsSeed | src/Store.js:35-41 | After a broadcast, a base-class store with a plain seed holds exactly its seed. |
| Stores.InflateTurn | src/Inflator.js:9 | One listener call of emit('inflate'): that store's hook runs and its steps follow those of the stores before it. The stores before it keep their merged data and the stores after it their reset data. |
| Stores.Inflator.Inflate | src/Inflator.js:5-10 | inflate(arg) produces exactly the resets and then the hook runs and updates described by the broadcast. Each store ends with its hook's merge of the resolved, cloned payload into a fresh copy of its seed. No listener list changes. |
| Stores.Inflator.EmitReset | src/Inflator.js:8 | emit('reset') resets every store, in construction order. |
| Stores.Inflator.EmitInflate | src/Inflator.js:9 | emit('inflate', payload) runs every store's hook on its reset data, in construction order. |
| Stores.Inflator.CallInflate | src/Store.js:26 | Calling a bound inflate on a freshly reset store yields that store's part of the broadcast. |
| Stores.Inflator.Call | src/Store.js:25-26 | A bound reset resets its own store; a bound inflate runs its own store's hook on the payload. |
| Stores.Inflator.constructor | src/Inflator.js:38 | The relay starts with no subscriptions. |
| StoreEnhance.StoreDataShape | src/StoreEnhance.js:10-15 | StoreEnhance.StoreData (`getStoreData()`): it has exactly the stores' names as keys, in order and each once, and under each name the current data of that store. |
| StoreEnhance.StoreDataKeys | src/StoreEnhance.js:10-15 | The keys of getStoreData() are the stores' names, in order. |
| StoreEnhance.StoreDataLookup | src/StoreEnhance.js:10-15 | Under each name, getStoreData() holds that store's current data. |
| StoreEnhance.OccurrencesOnce | src/StoreEnhance.js:27-29 | A store bound under a single name is visited once by the forEach. |
| StoreEnhance.OccurrencesAbsent | src/StoreEnhance.js:27-29 | A store that is not bound is never visited. |
| StoreEnhance.Enhancer.constructor | src/StoreEnhance.js:22-24 | The initial state is getStoreData(). |
| StoreEnhance.Enhancer.ComponentDidMount | src/StoreEnhance.js:26-30 | Mounting registers the handler on every bound store, once per name the store is bound under, after its existing listeners. No store's data changes. |
| StoreEnhance.Enhancer.ComponentWillUnmount | src/StoreEnhance.js:32-36 | Unmounting removes the handler from every bound store, once per name the store is bound under. No store's data changes. |
| StoreEnhance.Enhancer.StoresUpdate | src/StoreEnhance.js:38-40 | On any store's update the state becomes a new snapshot of all bound stores, not only of the one that changed. |
| StoreEnhance.MountThenUnmount | src/StoreEnhance.js:26-36 | Mounting and then unmounting leaves every bound store's listeners as they were. |
| StoreEnhance.MountRegistersOnce | src/StoreEnhance.js:26-30 | When a store is bound under a single name, mounting adds exactly one registration of the handler to it. |
| StoreEnhance.RenderPrecedence | src/StoreEnhance.js:42-44 | In the child's props, an explicit prop wins over the store state of the same name; every other name keeps its store state. |
| StoreEnhance.RenderKeys | src/StoreEnhance.js:42-44 | The child sees the state's names first and then the new names of the props. |
| Scenarios.CounterValues | src/Inflator.js:5-10 | An explicit {count: 5} is broadcast as given, and the counter hook turns a freshly reset {count: 0} into {count: 5}. |
| Scenarios.SingleStoreBroadcast | src/Inflator.js:5-10 | For one store with one update listener and a hook that calls done(), the broadcast is: its reset, its hook on the reset data, then one update with the merged data. |
| Scenarios.NewCounter | src/Store.js:12-49 | Constructing the counter store and registering one listener leaves it as the Inflator's only store, with that one listener. |
| Scenarios.CounterScenario | src/Inflator.js:5-10 | A counter store seeded with {count: 0} and inflated with {count: 5} holds {count: 5}. It goes through exactly a reset, the hook seeing {count: 0}, and one update carrying {count: 5}. |
| Scenarios.BindingValues | src/Store.js:18 | The seeds {x: 1} and {y: 2} are plain, so construction with them does not throw. |
| Scenarios.TwoStoreData | src/StoreEnhance.js:10-15 | For two stores under two names, getStoreData() is exactly those names in order, each with its store's data. |
| Scenarios.NewPair | src/Store.js:12-29 | Two base-class stores are distinct, hold their seeds and have no listeners. |
| Scenarios.BindPair | src/StoreEnhance.js:22-24 | Binding them as "A" and "B" gives the initial state {A: {x: 1}, B: {y: 2}}. |
| Scenarios.BindingScenario | src/StoreEnhance.js:22-40 | The initial state holds both stores. Once mounted, A's done() reaches the handler exactly once with A's data, and the next snapshot again holds both stores. |

## Left out

- The EventEmitter's own machinery is not modelled: `setMaxListeners(100)` and the warning it suppresses, the `newListener` event, `once`, and errors thrown by listeners.
- `console.error` in the base `init`, the base `inflate` and `_loadPageData` is not modelled; logging has no effect on state.
- The DOM is abstracted: the read of `page-data` is a `PageSource` parameter (no document, a parsed value, or a read exception).
- Numbers are integers. NaN, Infinity and -0, which do not survive JSON unchanged, are outside the model, and so are functions, symbols, BigInt and Date as property values.
- Aliasing is not modelled. The source keeps the constructor argument by reference as `_data`, so a caller that mutates it later changes what reset copies, and can make reset throw. In the model, `Stores.Store.seed` is immutable, so a store that was constructed can always reset. Likewise the one payload object of a broadcast is shared by all hooks, which could mutate it for the hooks that follow.
- Subclasses that override `reset`, `done`, `onUpdate` or `removeUpdateListener` are not modelled; behaviour is limited to the listeners `init` registers and the inflate hook.
- Stores.Store.Inflate: the hook is a pure function of the data and the payload, optionally followed by done(). A hook that registers listeners, calls other stores or throws is not modelled.
- Listeners on the Inflator other than stores' bindings are not modelled; `Stores.Inflator.Valid` states that only store constructors subscribe to it.
- The UI framework is not modelled: rendering, batching of `setState`, lifecycle scheduling, and the `React` and `ChildComponent` parameters. The lifecycle methods are called directly, and `setState` replaces the state at once.
- StoreEnhance.Enhancer.Render: it has no contract of its own; what the child sees is stated by `StoreEnhance.RenderPrecedence` and `StoreEnhance.RenderKeys`.
- Object.keys lists integer-like keys in numeric order first; the model keeps insertion order for every key.
- src/Action.js is not part of this model.
- Update listeners are identities (`Callback` numbers) whose calls are recorded as deliveries in the trace, not executed; they are taken not to touch any store or listener list. So a delivery to a mounted component's `storesUpdate` does not re-snapshot the state in the middle of a broadcast (the stores after it would still hold their reset data), and the "no listener list changes" and final-data ensures of `Stores.Inflator.Inflate` rely on this.
- Objects with duplicate keys are outside the domain: an `Obj` property list may repeat a name, which no JavaScript object can, and `Json.Plain` and `Json.RoundTripIdentity` do not exclude that case; `Json.PutUnique` and `StoreEnhance.StoreDataShape` show that the objects the model builds never repeat a key.
- Stores.Store.constructor: it requires a seed the JSON round trip accepts; the throwing path is `Stores.NewStore`.
