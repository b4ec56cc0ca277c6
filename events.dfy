/** The listener list of one event emitter (Node's `events` EventEmitter, which
    Store and Inflator extend): an ordered sequence of (event name, listener)
    pairs. `on` appends a pair; `removeListener` takes out one matching pair,
    the most recently added one, as Node's implementation scans the list from
    its end; `emit` calls the listeners registered for the event, in order. */
module Events {

  /** emitter.on(e, l) */
  function On<L>(list: seq<(string, L)>, e: string, l: L): seq<(string, L)> {
    list + [(e, l)]
  }

  /** The listeners emit(e) calls, in the order they were registered. */
  function ListenersFor<L(==)>(list: seq<(string, L)>, e: string): (r: seq<L>)
    ensures |r| <= |list|
  {
    if list == [] then []
    else
      var rest := ListenersFor(list[..|list| - 1], e);
      var last := list[|list| - 1];
      if last.0 == e then rest + [last.1] else rest
  }

  /** emit(e) calls exactly the listeners registered for e. */
  lemma {:induction false} ListenersForMembers<L>(list: seq<(string, L)>, e: string)
    ensures forall i | 0 <= i < |ListenersFor(list, e)| :: (e, ListenersFor(list, e)[i]) in list
    ensures forall i | 0 <= i < |list| && list[i].0 == e :: list[i].1 in ListenersFor(list, e)
  {
    if list != [] {
      var init := list[..|list| - 1];
      var last := list[|list| - 1];
      assert list == init + [last];
      ListenersForMembers(init, e);
    }
  }

  /** emitter.removeListener(e, l): at most one pair goes, the last one that
      matches. */
  function RemoveListener<L(==)>(list: seq<(string, L)>, e: string, l: L): (r: seq<(string, L)>)
    ensures (e, l) !in list ==> r == list
    ensures (e, l) in list ==> |r| == |list| - 1
  {
    if list == [] then []
    else
      var init := list[..|list| - 1];
      var last := list[|list| - 1];
      assert list == init + [last];
      if last == (e, l) then init else RemoveListener(init, e, l) + [last]
  }

  /** removeListener takes out exactly one matching pair when there is one,
      and nothing else. */
  lemma {:induction false} RemoveListenerMultiset<L>(list: seq<(string, L)>, e: string, l: L)
    ensures multiset(RemoveListener(list, e, l)) == multiset(list) - multiset{(e, l)}
  {
    if list != [] {
      var init := list[..|list| - 1];
      var last := list[|list| - 1];
      assert list == init + [last];
      if last != (e, l) {
        RemoveListenerMultiset(init, e, l);
      }
    }
  }

  /** Pairs added in order are delivered in that order. */
  lemma {:induction false} ListenersForAppend<L>(a: seq<(string, L)>, b: seq<(string, L)>, e: string)
    ensures ListenersFor(a + b, e) == ListenersFor(a, e) + ListenersFor(b, e)
    decreases |b|
  {
    if b != [] {
      var b' := b[..|b| - 1];
      assert a + b == (a + b') + [b[|b| - 1]];
      assert (a + b)[..|a + b| - 1] == a + b';
      ListenersForAppend(a, b', e);
    } else {
      assert a + b == a;
    }
  }

  /** on(e, l) adds l last to the listeners of e and leaves every other
      event's listeners as they were. */
  lemma ListenersForOn<L>(list: seq<(string, L)>, e: string, l: L, e': string)
    ensures ListenersFor(On(list, e, l), e') ==
            if e' == e then ListenersFor(list, e') + [l] else ListenersFor(list, e')
  {
    assert On(list, e, l)[..|list|] == list;
  }

  /** Removing l undoes its latest registration, whatever came before it:
      the pairs registered after it are kept, in order. */
  lemma {:induction false} RemoveLatest<L>(a: seq<(string, L)>, b: seq<(string, L)>, e: string, l: L)
    requires (e, l) !in b
    ensures RemoveListener(a + [(e, l)] + b, e, l) == a + b
    decreases |b|
  {
    if b == [] {
      assert (a + [(e, l)] + b)[..|a| ] == a;
    } else {
      var b' := b[..|b| - 1];
      var list := a + [(e, l)] + b;
      assert list[..|list| - 1] == a + [(e, l)] + b';
      assert b[|b| - 1] in b;
      assert forall x :: x in b' ==> x in b;
      RemoveLatest(a, b', e, l);
      assert a + b == (a + b') + [b[|b| - 1]];
    }
  }

  /** on(e, l) followed by removeListener(e, l) restores the list exactly. */
  lemma OnThenRemove<L>(list: seq<(string, L)>, e: string, l: L)
    ensures RemoveListener(On(list, e, l), e, l) == list
  {
    RemoveLatest(list, [], e, l);
    assert list + [(e, l)] + [] == list + [(e, l)];
    assert list + [] == list;
  }

  /** n registrations of the same pair. */
  function Repeat<L>(p: (string, L), n: nat): (r: seq<(string, L)>)
    ensures |r| == n
    ensures forall i | 0 <= i < n :: r[i] == p
  {
    if n == 0 then [] else Repeat(p, n - 1) + [p]
  }

  /** n successive removeListener(e, l) calls. */
  function RemoveTimes<L(==)>(list: seq<(string, L)>, e: string, l: L, n: nat): seq<(string, L)>
    decreases n
  {
    if n == 0 then list else RemoveTimes(RemoveListener(list, e, l), e, l, n - 1)
  }

  /** n registrations of l undone by n removals give back the list. */
  lemma {:induction false} RemoveTimesUndoesRepeat<L>(list: seq<(string, L)>, e: string, l: L, n: nat)
    ensures RemoveTimes(list + Repeat((e, l), n), e, l, n) == list
  {
    if n == 0 {
      assert list + Repeat((e, l), 0) == list;
    } else {
      var shorter := list + Repeat((e, l), n - 1);
      assert list + Repeat((e, l), n) == On(shorter, e, l);
      OnThenRemove(shorter, e, l);
      RemoveTimesUndoesRepeat(list, e, l, n - 1);
    }
  }

  /** The n+1st removal acts on what the first n left. */
  lemma {:induction false} RemoveTimesLast<L>(list: seq<(string, L)>, e: string, l: L, n: nat)
    ensures RemoveTimes(list, e, l, n + 1) == RemoveListener(RemoveTimes(list, e, l, n), e, l)
    decreases n
  {
    if n > 0 {
      RemoveTimesLast(RemoveListener(list, e, l), e, l, n - 1);
    }
  }
}
