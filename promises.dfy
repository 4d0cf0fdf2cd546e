/** The one rule of a promise that the user model depends on: it settles at
    most once. The first `resolve` or `reject` fixes its state and every
    later call is ignored. Scheduling and callbacks are not modelled. */
module Promises {
  import opened JsValues

  /** The state of a promise whose fulfilment values have type `V`;
      rejection reasons are arbitrary JavaScript values. */
  datatype Settlement<V> = Pending | Fulfilled(value: V) | Rejected(reason: JsValue)

  /** The state after asking a promise in state `s` to settle as `next`. */
  function After<V>(s: Settlement<V>, next: Settlement<V>): Settlement<V>
  {
    if s.Pending? then next else s
  }

  /** The state after a series of `resolve`/`reject` calls, in call order. */
  function AfterAll<V>(s: Settlement<V>, calls: seq<Settlement<V>>): Settlement<V>
    decreases |calls|
  {
    if calls == [] then s else AfterAll(After(s, calls[0]), calls[1..])
  }

  /** One more call acts on the state the earlier calls left. */
  lemma {:induction false} AfterAllSnoc<V>(s: Settlement<V>, calls: seq<Settlement<V>>, next: Settlement<V>)
    ensures AfterAll(s, calls + [next]) == After(AfterAll(s, calls), next)
    decreases |calls|
  {
    if calls != [] {
      assert (calls + [next])[1..] == calls[1..] + [next];
      AfterAllSnoc(After(s, calls[0]), calls[1..], next);
    }
  }

  /** A settled promise ignores every later call. */
  lemma {:induction false} SettledIsFinal<V>(s: Settlement<V>, calls: seq<Settlement<V>>)
    requires !s.Pending?
    ensures AfterAll(s, calls) == s
    decreases |calls|
  {
    if calls != [] {
      SettledIsFinal(s, calls[1..]);
    }
  }

  /** A promise ends in the state named by the first call that settles it. */
  lemma {:induction false} FirstSettlementWins<V>(calls: seq<Settlement<V>>, i: nat)
    requires i < |calls| && !calls[i].Pending?
    requires forall j :: 0 <= j < i ==> calls[j].Pending?
    ensures AfterAll(Pending, calls) == calls[i]
    decreases i
  {
    if i == 0 {
      SettledIsFinal(calls[0], calls[1..]);
    } else {
      FirstSettlementWins(calls[1..], i - 1);
    }
  }

  /** A promise, seen through its state. `calls` records every settle
      request made so far; the state is always what those calls produce. */
  class Promise<V> {
    var state: Settlement<V>
    ghost var calls: seq<Settlement<V>>

    ghost predicate Valid()
      reads this
    {
      state == AfterAll(Pending, calls)
    }

    constructor ()
      ensures Valid() && state == Pending && calls == []
    {
      state := Pending;
      calls := [];
    }

    /** `resolve(v)`: fulfils the promise unless it has already settled. */
    method Resolve(v: V)
      requires Valid()
      modifies this
      ensures Valid()
      ensures calls == old(calls) + [Fulfilled(v)]
      ensures state == After(old(state), Fulfilled(v))
    {
      AfterAllSnoc(Pending, calls, Fulfilled(v));
      state := After(state, Fulfilled(v));
      calls := calls + [Fulfilled(v)];
    }

    /** `reject(reason)`: rejects the promise unless it has already settled. */
    method Reject(reason: JsValue)
      requires Valid()
      modifies this
      ensures Valid()
      ensures calls == old(calls) + [Rejected(reason)]
      ensures state == After(old(state), Rejected(reason))
    {
      AfterAllSnoc(Pending, calls, Rejected(reason));
      state := After(state, Rejected(reason));
      calls := calls + [Rejected(reason)];
    }
  }
}
