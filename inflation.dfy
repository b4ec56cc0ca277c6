/** The value-level half of the Inflator (src/Inflator.js): reading the page's
    embedded data, choosing the payload, and the clone that never fails. The
    broadcast itself is `Stores.Inflator.Inflate`. */
module Inflation {
  import opened Json

  /** What reading the `page-data` element can give: no document at all (the
      code runs outside a browser), the value JSON.parse made of the
      element's text, or an exception (no such element, or text that is not
      JSON). */
  datatype PageSource =
    | NoDocument
    | Parsed(value: JsonValue)
    | ReadFailure(message: string)

  /** What JSON.parse can return: plain data only. */
  type JsonValue = v: Value | Plain(v) witness Null

  /** Inflator._loadPageData(): undefined without a document; a failed read
      yields the object {error: e} around the exception. */
  function LoadPageData(page: PageSource): (r: Value)
    ensures r.Undefined? <==> page.NoDocument?
    ensures page.ReadFailure? ==> r.Obj? && Lookup(r.entries, "error") == Some(Error(page.message))
  {
    match page
    case NoDocument => Undefined
    case Parsed(v) => v
    case ReadFailure(m) => Obj([("error", Error(m))])
  }

  /** `data || Inflator._loadPageData()`: the page is only read when no
      truthy payload is given. */
  function Resolve(arg: Value, page: PageSource): Value {
    if Falsy(arg) then LoadPageData(page) else arg
  }

  /** Inflator.deepClone: falsy input and input the round trip throws on both
      become {}; the result is always plain. */
  function DeepClone(v: Value): (r: Value)
    ensures Plain(r)
    ensures !Falsy(r)
    ensures Falsy(v) || !Transferable(v) ==> r == Obj([])
  {
    var d := if Falsy(v) then Obj([]) else v;
    match RoundTrip(d)
    case Some(c) => ReparseIsPlain(d); RoundTripTruthiness(d); c
    case None => Obj([])
  }

  /** The payload inflate(arg) broadcasts to every store. */
  function Payload(arg: Value, page: PageSource): Value {
    DeepClone(Resolve(arg, page))
  }

  /** A truthy plain value is cloned exactly. */
  lemma DeepCloneCopies(v: Value)
    requires Plain(v) && !Falsy(v)
    ensures DeepClone(v) == v
  {
    RoundTripIdentity(v);
  }

  /** Cloning a clone changes nothing. */
  lemma DeepCloneIdempotent(v: Value)
    ensures DeepClone(DeepClone(v)) == DeepClone(v)
  {
    DeepCloneCopies(DeepClone(v));
  }

  /** A truthy explicit argument is used as given and the page is not
      consulted; a plain one is broadcast unchanged. */
  lemma ExplicitPayloadWins(arg: Value, page: PageSource, other: PageSource)
    requires !Falsy(arg)
    ensures Resolve(arg, page) == arg
    ensures Payload(arg, page) == Payload(arg, other)
    ensures Plain(arg) ==> Payload(arg, page) == arg
  {
    if Plain(arg) {
      DeepCloneCopies(arg);
    }
  }

  /** inflate() outside a browser broadcasts {}. */
  lemma NoDocumentBroadcastsEmpty(arg: Value)
    requires Falsy(arg)
    ensures Payload(arg, NoDocument) == Obj([])
  {
  }

  /** When the page data cannot be read, the stores receive {error: {}}: the
      exception object carries no enumerable fields through the clone. */
  lemma ReadFailureBroadcast(arg: Value, m: string)
    requires Falsy(arg)
    ensures Payload(arg, ReadFailure(m)) == Obj([("error", Obj([]))])
  {
    var d := Obj([("error", Error(m))]);
    assert !HasUnserialisable(d) by {
      assert forall i | 0 <= i < |d.entries| :: d.entries[i].1 == Error(m);
    }
    var mapped := seq(1, i requires 0 <= i < 1 => (d.entries[i].0, Reparse(d.entries[i].1)));
    assert mapped == [("error", Obj([]))];
  }

  /** Page data that parses to a plain truthy value is broadcast unchanged;
      page data that parses to a falsy value (null, 0, "") gives {}. */
  lemma ParsedPageBroadcast(arg: Value, v: Value)
    requires Falsy(arg) && Plain(v)
    ensures !Falsy(v) ==> Payload(arg, Parsed(v)) == v
    ensures Falsy(v) ==> Payload(arg, Parsed(v)) == Obj([])
  {
    if !Falsy(v) {
      DeepCloneCopies(v);
    }
  }
}
