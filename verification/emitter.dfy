/**
 * The listener lists of a Node.js `EventEmitter`, the event bus the broker keeps in its `events` field.
 * The emitter itself is not part of this model's source; its behaviour is taken as a modelling assumption:
 *   - `on(e, l)` appends `l` to the end of the list for `e`;
 *   - `removeListener(e, l)` scans the list for `e` from the end and removes at most one occurrence of `l`,
 *     the most recently added one, and drops the entry for `e` once its list is empty;
 *   - `emit(e, ...)` invokes the listeners of `e` in list order.
 */
module Emitter {
  import opened Base

  /** Listener lists keyed by event name. */
  type Table<L> = map<string, seq<L>>

  /** An event with no listeners has no entry, as the emitter deletes the key of an emptied list. */
  ghost predicate WellFormed<L>(t: Table<L>) {
    forall e :: e in t ==> t[e] != []
  }

  /** The listeners of `e` in invocation order; an event without an entry has none. */
  function Listeners<L>(t: Table<L>, e: string): seq<L> {
    if e in t then t[e] else []
  }

  /** Two well-formed tables that agree on every event's listener list are the same table. */
  lemma TablesEqual<L>(a: Table<L>, b: Table<L>)
    requires WellFormed(a) && WellFormed(b)
    requires forall e :: Listeners(a, e) == Listeners(b, e)
    ensures a == b
  {
    forall e | e in a || e in b
      ensures e in a && e in b && a[e] == b[e]
    {
      assert Listeners(a, e) == Listeners(b, e);
    }
  }

  /** `on(e, l)`: `l` joins the end of the list for `e`; every other list is unchanged. */
  function On<L>(t: Table<L>, e: string, l: L): (r: Table<L>)
    ensures Listeners(r, e) == Listeners(t, e) + [l]
    ensures forall e' :: e' != e ==> Listeners(r, e') == Listeners(t, e')
    ensures WellFormed(t) ==> WellFormed(r)
  {
    t[e := Listeners(t, e) + [l]]
  }

  /** The position of the most recent occurrence of `l` in `s`, found by scanning from the end. */
  function LastIndexOf<L(==)>(s: seq<L>, l: L): (r: Option<nat>)
    ensures r.None? <==> l !in s
    ensures r.Some? ==> r.value < |s| && s[r.value] == l && l !in s[r.value + 1..]
  {
    if |s| == 0 then None
    else if s[|s| - 1] == l then Some(|s| - 1)
    else
      var r := LastIndexOf(s[..|s| - 1], l);
      assert r.Some? ==> s[r.value + 1..] == s[..|s| - 1][r.value + 1..] + [s[|s| - 1]];
      r
  }

  /** The list with its most recent occurrence of `l` taken out, or unchanged when `l` is absent. */
  function RemoveLast<L(==)>(s: seq<L>, l: L): (r: seq<L>)
    ensures l !in s ==> r == s
    ensures l in s ==> |r| == |s| - 1 && multiset(r) == multiset(s) - multiset{l}
    ensures l in s ==> exists i :: 0 <= i < |s| && s[i] == l && l !in s[i + 1..] && r == s[..i] + s[i + 1..]
  {
    match LastIndexOf(s, l)
    case None => s
    case Some(i) =>
      assert s == s[..i] + [s[i]] + s[i + 1..];
      s[..i] + s[i + 1..]
  }

  /** `removeListener(e, l)`: at most one occurrence of `l` leaves the list for `e`; every other list is unchanged. */
  function RemoveListener<L(==)>(t: Table<L>, e: string, l: L): (r: Table<L>)
    ensures Listeners(r, e) == RemoveLast(Listeners(t, e), l)
    ensures forall e' :: e' != e ==> Listeners(r, e') == Listeners(t, e')
    ensures WellFormed(t) ==> WellFormed(r)
    ensures WellFormed(t) && l !in Listeners(t, e) ==> r == t
  {
    var rest := RemoveLast(Listeners(t, e), l);
    if rest == [] then t - {e} else t[e := rest]
  }

  /** The listeners that the subscriptions `ps` give to event `e`, in subscription order. */
  function Select<L>(ps: seq<(string, L)>, e: string): seq<L>
  {
    if ps == [] then []
    else (if ps[0].0 == e then [ps[0].1] else []) + Select(ps[1..], e)
  }

  /** Selecting from two blocks of subscriptions selects from each in turn. */
  lemma {:induction false} SelectConcat<L>(ps: seq<(string, L)>, qs: seq<(string, L)>, e: string)
    ensures Select(ps + qs, e) == Select(ps, e) + Select(qs, e)
    decreases |ps|
  {
    if ps != [] {
      assert (ps + qs)[1..] == ps[1..] + qs;
      SelectConcat(ps[1..], qs, e);
    } else {
      assert ps + qs == qs;
    }
  }

  /** Removes the listeners `xs` one by one, each with `RemoveLast`. */
  function RemoveEachOf<L(==)>(s: seq<L>, xs: seq<L>): seq<L>
  {
    if xs == [] then s else RemoveEachOf(RemoveLast(s, xs[0]), xs[1..])
  }

  /** Calls `on` for every (event, listener) pair in order. */
  function OnEach<L>(t: Table<L>, ps: seq<(string, L)>): (r: Table<L>)
    ensures forall e :: Listeners(r, e) == Listeners(t, e) + Select(ps, e)
    ensures WellFormed(t) ==> WellFormed(r)
    decreases |ps|
  {
    if ps == [] then t
    else
      var t' := On(t, ps[0].0, ps[0].1);
      var r := OnEach(t', ps[1..]);
      forall e ensures Listeners(r, e) == Listeners(t, e) + Select(ps, e) {
        OnThenRest(t, ps, e, Listeners(r, e));
      }
      r
  }

  /** One `on` for the first pair, followed by the rest, appends the event's selected listeners. */
  lemma {:induction false} OnThenRest<L>(t: Table<L>, ps: seq<(string, L)>, e: string, rest: seq<L>)
    requires ps != []
    requires rest == Listeners(On(t, ps[0].0, ps[0].1), e) + Select(ps[1..], e)
    ensures rest == Listeners(t, e) + Select(ps, e)
  {
    var before := Listeners(t, e);
    var later := Select(ps[1..], e);
    if ps[0].0 == e {
      assert Listeners(On(t, ps[0].0, ps[0].1), e) == before + [ps[0].1];
      assert Select(ps, e) == [ps[0].1] + later;
      assert (before + [ps[0].1]) + later == before + ([ps[0].1] + later);
    } else {
      assert Listeners(On(t, ps[0].0, ps[0].1), e) == before;
      assert Select(ps, e) == later;
    }
  }

  /** Calls `removeListener` for every (event, listener) pair in order. */
  function RemoveEach<L(==)>(t: Table<L>, ps: seq<(string, L)>): (r: Table<L>)
    ensures forall e :: Listeners(r, e) == RemoveEachOf(Listeners(t, e), Select(ps, e))
    ensures WellFormed(t) ==> WellFormed(r)
    decreases |ps|
  {
    if ps == [] then t
    else
      var t' := RemoveListener(t, ps[0].0, ps[0].1);
      var r := RemoveEach(t', ps[1..]);
      forall e ensures Listeners(r, e) == RemoveEachOf(Listeners(t, e), Select(ps, e)) {
        RemoveThenRest(t, ps, e, Listeners(r, e));
      }
      r
  }

  /** One `removeListener` for the first pair, followed by the rest, removes the event's selected listeners. */
  lemma {:induction false} RemoveThenRest<L>(t: Table<L>, ps: seq<(string, L)>, e: string, rest: seq<L>)
    requires ps != []
    requires rest == RemoveEachOf(Listeners(RemoveListener(t, ps[0].0, ps[0].1), e), Select(ps[1..], e))
    ensures rest == RemoveEachOf(Listeners(t, e), Select(ps, e))
  {
    if ps[0].0 == e {
      assert Select(ps, e) == [ps[0].1] + Select(ps[1..], e);
    } else {
      assert Select(ps, e) == Select(ps[1..], e);
    }
  }

  /** When `l` occurs in the appended part, removing its last occurrence leaves the prefix alone. */
  lemma RemoveLastInSuffix<L>(base: seq<L>, tail: seq<L>, l: L)
    requires l in tail
    ensures RemoveLast(base + tail, l) == base + RemoveLast(tail, l)
  {
    var s := base + tail;
    var i := LastIndexOf(tail, l).value;
    assert s[|base| + i] == l;
    var j := LastIndexOf(s, l).value;
    LastIndexShift(base, tail, l, i, j);
    SlicesAround(base, tail, i);
    calc {
      RemoveLast(s, l);
      { RemoveLastAt(s, l, j); }
      s[..j] + s[j + 1..];
      (base + tail[..i]) + tail[i + 1..];
      base + (tail[..i] + tail[i + 1..]);
      { RemoveLastAt(tail, l, i); }
      base + RemoveLast(tail, l);
    }
  }

  /** With `j` the last position of `l`, removing the last occurrence cuts exactly position `j`. */
  lemma RemoveLastAt<L>(s: seq<L>, l: L, j: nat)
    requires LastIndexOf(s, l) == Some(j)
    ensures RemoveLast(s, l) == s[..j] + s[j + 1..]
  {
  }

  /** Cutting `base + tail` around position `i` of `tail` cuts `tail` alone and keeps `base` whole. */
  lemma SlicesAround<L>(base: seq<L>, tail: seq<L>, i: nat)
    requires i < |tail|
    ensures (base + tail)[..|base| + i] == base + tail[..i]
    ensures (base + tail)[|base| + i + 1..] == tail[i + 1..]
  {
  }

  /** The last occurrence in `base + tail` is the last occurrence in `tail`, shifted by `|base|`. */
  lemma LastIndexShift<L>(base: seq<L>, tail: seq<L>, l: L, i: nat, j: nat)
    requires i < |tail| && tail[i] == l && l !in tail[i + 1..]
    requires j < |base + tail| && (base + tail)[j] == l && l !in (base + tail)[j + 1..]
    ensures j == |base| + i
  {
    var s := base + tail;
    assert s[|base| + i] == l;
    forall k | j < k < |s| ensures s[k] != l {
      assert s[k] == s[j + 1..][k - j - 1];
    }
    forall k | |base| + i < k < |s| ensures s[k] != l {
      assert s[k] == tail[i + 1..][k - |base| - i - 1];
    }
  }

  /** Removing, one by one, listeners that are a permutation of an appended block takes exactly that block away. */
  lemma {:induction false} RemoveEachOfCancels<L>(base: seq<L>, tail: seq<L>, xs: seq<L>)
    requires multiset(tail) == multiset(xs)
    ensures RemoveEachOf(base + tail, xs) == base
    decreases |xs|
  {
    if xs == [] {
      assert |tail| == |multiset(tail)| == 0;
      assert base + tail == base;
    } else {
      var x := xs[0];
      assert xs == [x] + xs[1..];
      assert x in multiset(tail);
      RemoveLastInSuffix(base, tail, x);
      var tail' := RemoveLast(tail, x);
      assert multiset(tail') == multiset(xs[1..]);
      RemoveEachOfCancels(base, tail', xs[1..]);
    }
  }

  /**
   * Attaching listeners with `on` and then detaching the same (event, listener) pairs, in the same order,
   * with `removeListener` restores the table exactly, whatever other listeners were already attached.
   */
  lemma RemoveEachUndoesOnEach<L>(t: Table<L>, ps: seq<(string, L)>)
    requires WellFormed(t)
    ensures RemoveEach(OnEach(t, ps), ps) == t
  {
    var added := OnEach(t, ps);
    var r := RemoveEach(added, ps);
    forall e ensures Listeners(r, e) == Listeners(t, e) {
      RemoveEachOfCancels(Listeners(t, e), Select(ps, e), Select(ps, e));
    }
    TablesEqual(r, t);
  }
}
