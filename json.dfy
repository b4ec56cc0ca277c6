/** JavaScript values as the store layer handles them, JavaScript truthiness, the
    JSON.parse(JSON.stringify(v)) round trip both Store and Inflator use to copy
    data, and the key/value semantics of plain objects (property assignment and
    object spread). */
module Json {

  datatype Option<T> = None | Some(value: T)

  /** A JavaScript value. Numbers are integers here; an object is its own
      enumerable properties in insertion order. `Error` is an exception
      object, whose fields are not enumerable. `Unserialisable` stands for a
      truthy value that JSON.stringify throws on (a cyclic structure). */
  datatype Value =
    | Undefined
    | Null
    | Bool(b: bool)
    | Num(n: int)
    | Str(s: string)
    | Arr(items: seq<Value>)
    | Obj(entries: seq<(string, Value)>)
    | Error(message: string)
    | Unserialisable

  /** The values `x || y` replaces by `y`. */
  predicate Falsy(v: Value) {
    v.Undefined? || v.Null? || v == Bool(false) || v == Num(0) || v == Str("")
  }

  predicate HasUnserialisable(v: Value) {
    match v
    case Unserialisable => true
    case Arr(xs) => exists i | 0 <= i < |xs| :: HasUnserialisable(xs[i])
    case Obj(es) => exists i | 0 <= i < |es| :: HasUnserialisable(es[i].1)
    case _ => false
  }

  /** JSON.parse(JSON.stringify(v)) returns instead of throwing: stringify
      throws on a cyclic value, and yields no text at all for undefined, which
      parse then rejects. */
  predicate Transferable(v: Value) {
    !v.Undefined? && !HasUnserialisable(v)
  }

  /** The values JSON represents exactly: nothing undefined, no exception
      object, nothing unserialisable, at any depth. */
  predicate Plain(v: Value) {
    match v
    case Undefined => false
    case Error(_) => false
    case Unserialisable => false
    case Arr(xs) => forall i | 0 <= i < |xs| :: Plain(xs[i])
    case Obj(es) => forall i | 0 <= i < |es| :: Plain(es[i].1)
    case _ => true
  }

  /** Object entries whose value is not undefined, in order. */
  function DropUndefined(es: seq<(string, Value)>): (r: seq<(string, Value)>)
    ensures forall i | 0 <= i < |r| :: r[i] in es && !r[i].1.Undefined?
    ensures forall i | 0 <= i < |es| && !es[i].1.Undefined? :: es[i] in r
    ensures (forall i | 0 <= i < |es| :: !es[i].1.Undefined?) ==> r == es
  {
    if es == [] then []
    else (if es[0].1.Undefined? then [] else [es[0]]) + DropUndefined(es[1..])
  }

  /** The defined properties keep their relative order: dropping from two
      runs of properties is dropping from each. */
  lemma {:induction false} DropUndefinedAppend(a: seq<(string, Value)>, b: seq<(string, Value)>)
    ensures DropUndefined(a + b) == DropUndefined(a) + DropUndefined(b)
    decreases |a|
  {
    if a == [] {
      assert a + b == b;
    } else {
      assert (a + b)[0] == a[0];
      assert (a + b)[1..] == a[1..] + b;
      DropUndefinedAppend(a[1..], b);
    }
  }

  /** What the round trip produces for a transferable value: properties
      holding undefined disappear, undefined array items become null and an
      exception object becomes an empty object. */
  function Reparse(v: Value): Value {
    match v
    case Arr(xs) =>
      Arr(seq(|xs|, i requires 0 <= i < |xs| => if xs[i].Undefined? then Null else Reparse(xs[i])))
    case Obj(es) =>
      Obj(DropUndefined(seq(|es|, i requires 0 <= i < |es| => (es[i].0, Reparse(es[i].1)))))
    case Error(_) => Obj([])
    case _ => v
  }

  /** JSON.parse(JSON.stringify(v)); None where that expression throws. */
  function RoundTrip(v: Value): (r: Option<Value>)
    ensures r.Some? <==> Transferable(v)
  {
    if Transferable(v) then Some(Reparse(v)) else None
  }

  lemma {:induction false} ReparseUndefined(v: Value)
    ensures Reparse(v).Undefined? <==> v.Undefined?
  {
  }

  /** Whatever comes out of the round trip is plain. */
  lemma {:induction false} ReparseIsPlain(v: Value)
    requires Transferable(v)
    ensures Plain(Reparse(v))
  {
    match v
    case Arr(xs) =>
      forall i | 0 <= i < |xs| && !xs[i].Undefined?
        ensures Plain(Reparse(xs[i]))
      {
        assert !HasUnserialisable(xs[i]);
        ReparseIsPlain(xs[i]);
      }
    case Obj(es) =>
      var mapped := seq(|es|, i requires 0 <= i < |es| => (es[i].0, Reparse(es[i].1)));
      var r := DropUndefined(mapped);
      forall j | 0 <= j < |r|
        ensures Plain(r[j].1)
      {
        var i :| 0 <= i < |mapped| && mapped[i] == r[j];
        assert !HasUnserialisable(es[i].1);
        ReparseUndefined(es[i].1);
        ReparseIsPlain(es[i].1);
      }
    case _ =>
  }

  /** The round trip is an exact copy of a plain value. */
  lemma {:induction false} ReparsePlain(v: Value)
    requires Plain(v)
    ensures Reparse(v) == v
  {
    match v
    case Arr(xs) =>
      forall i | 0 <= i < |xs|
        ensures Reparse(xs[i]) == xs[i]
      {
        ReparsePlain(xs[i]);
      }
      assert Reparse(v).items == xs;
    case Obj(es) =>
      var mapped := seq(|es|, i requires 0 <= i < |es| => (es[i].0, Reparse(es[i].1)));
      forall i | 0 <= i < |es|
        ensures mapped[i] == es[i]
      {
        ReparsePlain(es[i].1);
      }
      assert mapped == es;
    case _ =>
  }

  /** Plain values are exactly those the round trip copies unchanged. */
  lemma {:induction false} RoundTripIdentity(v: Value)
    ensures RoundTrip(v) == Some(v) <==> Plain(v)
  {
    if Plain(v) {
      PlainIsTransferable(v);
      ReparsePlain(v);
    }
    if RoundTrip(v) == Some(v) {
      ReparseIsPlain(v);
    }
  }

  lemma {:induction false} PlainIsTransferable(v: Value)
    requires Plain(v)
    ensures Transferable(v)
  {
    match v
    case Arr(xs) =>
      forall i | 0 <= i < |xs|
        ensures !HasUnserialisable(xs[i])
      {
        PlainIsTransferable(xs[i]);
      }
    case Obj(es) =>
      forall i | 0 <= i < |es|
        ensures !HasUnserialisable(es[i].1)
      {
        PlainIsTransferable(es[i].1);
      }
    case _ =>
  }

  /** The round trip keeps truthiness: a falsy value comes back as itself and
      a truthy one comes back truthy. */
  lemma RoundTripTruthiness(v: Value)
    requires Transferable(v)
    ensures Falsy(v) ==> RoundTrip(v) == Some(v)
    ensures !Falsy(v) ==> !Falsy(RoundTrip(v).value)
  {
  }

  // ---------------------------------------------------------------------
  // Plain objects as ordered property lists.

  function Keys(es: seq<(string, Value)>): (ks: seq<string>)
    ensures |ks| == |es|
    ensures forall i | 0 <= i < |es| :: ks[i] == es[i].0
  {
    if es == [] then [] else [es[0].0] + Keys(es[1..])
  }

  /** No key occurs twice, as in every JavaScript object. */
  predicate UniqueKeys(es: seq<(string, Value)>) {
    forall i, j | 0 <= i < j < |es| :: es[i].0 != es[j].0
  }

  /** obj[k]: the value of the first property named k. */
  function Lookup(es: seq<(string, Value)>, k: string): (r: Option<Value>)
    ensures r.Some? <==> k in Keys(es)
    ensures r.Some? ==> (k, r.value) in es
  {
    if es == [] then None
    else if es[0].0 == k then Some(es[0].1)
    else Lookup(es[1..], k)
  }

  /** obj[k] = v: an existing property keeps its position and takes the new
      value, a new one is added last. */
  function Put(es: seq<(string, Value)>, k: string, v: Value): (r: seq<(string, Value)>)
  {
    if es == [] then [(k, v)]
    else if es[0].0 == k then [(k, v)] + es[1..]
    else [es[0]] + Put(es[1..], k, v)
  }

  lemma {:induction false} PutKeys(es: seq<(string, Value)>, k: string, v: Value)
    ensures Keys(Put(es, k, v)) == if k in Keys(es) then Keys(es) else Keys(es) + [k]
  {
    if es != [] && es[0].0 != k {
      PutKeys(es[1..], k, v);
      assert Keys(es) == [es[0].0] + Keys(es[1..]);
    }
  }

  lemma {:induction false} PutLookup(es: seq<(string, Value)>, k: string, v: Value, k': string)
    ensures Lookup(Put(es, k, v), k') == if k' == k then Some(v) else Lookup(es, k')
  {
    if es != [] && es[0].0 != k {
      PutLookup(es[1..], k, v, k');
    }
  }

  lemma PutUnique(es: seq<(string, Value)>, k: string, v: Value)
    requires UniqueKeys(es)
    ensures UniqueKeys(Put(es, k, v))
  {
    var r := Put(es, k, v);
    PutKeys(es, k, v);
    forall i, j | 0 <= i < j < |r|
      ensures r[i].0 != r[j].0
    {
      assert Keys(r)[i] == r[i].0 && Keys(r)[j] == r[j].0;
      assert Keys(es) == seq(|es|, n requires 0 <= n < |es| => es[n].0);
    }
  }

  /** Object.assign(target, src) and the spread {...target, ...src}: the
      properties of src are put into target one by one, in order. */
  function Assign(target: seq<(string, Value)>, src: seq<(string, Value)>): seq<(string, Value)>
    decreases |src|
  {
    if src == [] then target
    else Assign(Put(target, src[0].0, src[0].1), src[1..])
  }

  /** A property of src wins over one of target; the others come from target. */
  lemma {:induction false} AssignLookup(target: seq<(string, Value)>, src: seq<(string, Value)>, k: string)
    requires UniqueKeys(src)
    ensures Lookup(Assign(target, src), k) ==
            if k in Keys(src) then Lookup(src, k) else Lookup(target, k)
    decreases |src|
  {
    if src != [] {
      AssignLookup(Put(target, src[0].0, src[0].1), src[1..], k);
      PutLookup(target, src[0].0, src[0].1, k);
      assert Keys(src) == [src[0].0] + Keys(src[1..]);
      assert src[0].0 !in Keys(src[1..]) by {
        forall i | 0 <= i < |src[1..]| ensures Keys(src[1..])[i] != src[0].0 {
          assert src[1..][i] == src[i + 1];
        }
      }
    }
  }

  /** Assignment keeps the target's keys in place and adds the new ones of src
      after them, in src's order. */
  lemma {:induction false} AssignKeys(target: seq<(string, Value)>, src: seq<(string, Value)>)
    ensures Keys(Assign(target, src)) == Keys(target) + NewKeys(Keys(src), Keys(target))
    decreases |src|
  {
    if src != [] {
      var t' := Put(target, src[0].0, src[0].1);
      PutKeys(target, src[0].0, src[0].1);
      AssignKeys(t', src[1..]);
      assert Keys(src) == [src[0].0] + Keys(src[1..]);
      NewKeysStep(src[0].0, Keys(src[1..]), Keys(target));
    }
  }

  /** The keys of ks that are not in seen, first occurrences only, in order. */
  function NewKeys(ks: seq<string>, seen: seq<string>): seq<string>
    decreases |ks|
  {
    if ks == [] then []
    else if ks[0] in seen then NewKeys(ks[1..], seen)
    else [ks[0]] + NewKeys(ks[1..], seen + [ks[0]])
  }

  lemma NewKeysStep(k: string, rest: seq<string>, seen: seq<string>)
    ensures (if k in seen then seen else seen + [k]) + NewKeys(rest, if k in seen then seen else seen + [k])
            == seen + NewKeys([k] + rest, seen)
  {
    assert ([k] + rest)[1..] == rest;
  }
}
