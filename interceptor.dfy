/** The interceptor registry: `createInterceptorManager` of src/interceptor.ts
    and its compiled copy src/interceptor.js. A manager holds an id counter and
    an ordered array of registrations, changed in place by `use`, `eject` and
    `clear`. It is generic over the fulfilled-handler type F and the
    rejected-handler type R. */
module Interceptor {
  import opened Platform

  /** One registration, `{ id, fulfilled, rejected }`; a missing handler is null. */
  datatype Handler<F, R> = Handler(id: nat, fulfilled: Option<F>, rejected: Option<R>)

  /** The ids of the registrations, in array order. */
  function Ids<F, R>(hs: seq<Handler<F, R>>): (ids: seq<nat>)
    ensures |ids| == |hs|
    ensures forall i :: 0 <= i < |hs| ==> ids[i] == hs[i].id
  {
    seq(|hs|, i requires 0 <= i < |hs| => hs[i].id)
  }

  /** The registry invariant: ids strictly increase along the array and all lie
      below the counter. */
  ghost predicate Ordered<F, R>(hs: seq<Handler<F, R>>, counter: nat) {
    && (forall i, j :: 0 <= i < j < |hs| ==> hs[i].id < hs[j].id)
    && (forall i :: 0 <= i < |hs| ==> hs[i].id < counter)
  }

  /** `rejected || null`: an omitted, undefined or null rejected handler is stored as null. */
  function StoredRejected<R>(rejected: Js<R>): (r: Option<R>)
    ensures r.Some? <==> rejected.Is?
    ensures rejected.Is? ==> r.value == rejected.value
  {
    if rejected.Is? then Some(rejected.value) else None
  }

  /** Two handler lists that differ at most in their rejected handlers. */
  ghost predicate SameFulfilled<F, R>(hs: seq<Handler<F, R>>, gs: seq<Handler<F, R>>) {
    |hs| == |gs| && forall i :: 0 <= i < |hs| ==> hs[i].fulfilled == gs[i].fulfilled
  }

  /** `findIndex` followed by `splice(index, 1)`: the array without the first
      registration carrying the id (unchanged when there is none). */
  function Without<F, R>(hs: seq<Handler<F, R>>, id: int): seq<Handler<F, R>> {
    if hs == [] then []
    else if hs[0].id == id then hs[1..]
    else [hs[0]] + Without(hs[1..], id)
  }

  /** The independent reference: every registration except those carrying the id, in order. */
  function Filter<F, R>(hs: seq<Handler<F, R>>, id: int): seq<Handler<F, R>> {
    if hs == [] then []
    else if hs[0].id == id then Filter(hs[1..], id)
    else [hs[0]] + Filter(hs[1..], id)
  }

  /** Filter keeps exactly the registrations with another id. */
  lemma {:induction false} FilterMembers<F, R>(hs: seq<Handler<F, R>>, id: int)
    ensures forall h :: h in Filter(hs, id) <==> h in hs && h.id != id
  {
    if hs != [] {
      FilterMembers(hs[1..], id);
      assert hs == [hs[0]] + hs[1..];
    }
  }

  /** Every registration Filter keeps comes from its input. */
  lemma {:induction false} FilterMember<F, R>(hs: seq<Handler<F, R>>, id: int, h: Handler<F, R>)
    requires h in Filter(hs, id)
    ensures h in hs && h.id != id
  {
    FilterMembers(hs, id);
  }

  /** Removing a registration whose id is absent changes nothing. */
  lemma {:induction false} WithoutAbsent<F, R>(hs: seq<Handler<F, R>>, id: int)
    requires id !in Ids(hs)
    ensures Without(hs, id) == hs
  {
    if hs != [] {
      assert hs[0].id == Ids(hs)[0];
      assert Ids(hs[1..]) == Ids(hs)[1..];
      WithoutAbsent(hs[1..], id);
    }
  }

  /** With unique, increasing ids, dropping the first match is dropping every
      match: `eject` removes exactly the entry with that id and keeps the
      relative order of all the others. */
  lemma {:induction false} WithoutIsFilter<F, R>(hs: seq<Handler<F, R>>, counter: nat, id: int)
    requires Ordered(hs, counter)
    ensures Without(hs, id) == Filter(hs, id)
  {
    if hs != [] {
      var tail := hs[1..];
      assert Ordered(tail, counter);
      if hs[0].id == id {
        assert id !in Ids(tail) by {
          forall i | 0 <= i < |tail| ensures Ids(tail)[i] != id {
            assert hs[0].id < hs[i + 1].id;
          }
        }
        WithoutAbsent(tail, id);
        FilterAbsent(tail, id);
      } else {
        WithoutIsFilter(tail, counter, id);
      }
    }
  }

  /** Filtering keeps the registry invariant. */
  lemma {:induction false} FilterOrdered<F, R>(hs: seq<Handler<F, R>>, counter: nat, id: int)
    requires Ordered(hs, counter)
    ensures Ordered(Filter(hs, id), counter)
  {
    if hs != [] {
      var tail := hs[1..];
      assert Ordered(tail, counter);
      FilterOrdered(tail, counter, id);
      if hs[0].id != id {
        var rest := Filter(tail, id);
        forall j | 0 <= j < |rest| ensures hs[0].id < rest[j].id {
          FilterMember(tail, id, rest[j]);
          var k :| 0 <= k < |tail| && tail[k] == rest[j];
          assert hs[0].id < hs[k + 1].id;
        }
        assert Filter(hs, id) == [hs[0]] + rest;
      }
    }
  }

  /** `eject` shortens the array by one exactly when the id is registered. */
  lemma {:induction false} WithoutLength<F, R>(hs: seq<Handler<F, R>>, id: int)
    ensures |Without(hs, id)| == if id in Ids(hs) then |hs| - 1 else |hs|
  {
    if hs != [] {
      assert Ids(hs) == [hs[0].id] + Ids(hs[1..]);
      WithoutLength(hs[1..], id);
    }
  }

  /** Filtering an absent id changes nothing. */
  lemma {:induction false} FilterAbsent<F, R>(hs: seq<Handler<F, R>>, id: int)
    requires id !in Ids(hs)
    ensures Filter(hs, id) == hs
  {
    if hs != [] {
      assert hs[0].id == Ids(hs)[0];
      assert Ids(hs[1..]) == Ids(hs)[1..];
      FilterAbsent(hs[1..], id);
    }
  }

  /** Splicing out the first match found by `findIndex` is `Without`. */
  lemma {:induction false} SpliceIsWithout<F, R>(hs: seq<Handler<F, R>>, id: int, k: nat)
    requires k < |hs| && hs[k].id == id
    requires forall i :: 0 <= i < k ==> hs[i].id != id
    ensures hs[..k] + hs[k + 1..] == Without(hs, id)
  {
    if k > 0 {
      SpliceIsWithout(hs[1..], id, k - 1);
      assert hs[..k] == [hs[0]] + hs[1..][..k - 1];
      assert hs[k + 1..] == hs[1..][k..];
    }
  }

  /** `handlers.findIndex(h => h.id === id)`. */
  method FindIndex<F, R>(hs: seq<Handler<F, R>>, id: int) returns (index: int)
    ensures -1 <= index < |hs|
    ensures index == -1 <==> id !in Ids(hs)
    ensures 0 <= index ==> hs[index].id == id && forall i :: 0 <= i < index ==> hs[i].id != id
  {
    index := 0;
    while index < |hs|
      invariant 0 <= index <= |hs|
      invariant forall i :: 0 <= i < index ==> hs[i].id != id
    {
      if hs[index].id == id {
        return;
      }
      index := index + 1;
    }
    index := -1;
  }

  /** The manager returned by `createInterceptorManager`; the two factories
      `createRequestInterceptorManager` and `createResponseInterceptorManager`
      each allocate a new one. */
  class InterceptorManager<F, R> {
    /** `handlers`, in registration order. */
    var handlers: seq<Handler<F, R>>
    /** `currentIdIndex`, the id the next `use` hands out. */
    var nextId: nat

    ghost predicate Valid()
      reads this
    {
      Ordered(handlers, nextId)
    }

    constructor ()
      ensures Valid()
      ensures handlers == [] && nextId == 0
    {
      handlers := [];
      nextId := 0;
    }

    /** `use(fulfilled, rejected?)`: append a registration under the current
        counter value, then increment the counter and return the old value. */
    method Use(fulfilled: Option<F>, rejected: Js<R>) returns (id: nat)
      requires Valid()
      modifies this
      ensures Valid()
      ensures id == old(nextId) && nextId == old(nextId) + 1
      ensures handlers == old(handlers) + [Handler(id, fulfilled, StoredRejected(rejected))]
      ensures forall i :: 0 <= i < |old(handlers)| ==> old(handlers)[i].id < id
    {
      handlers := handlers + [Handler(nextId, fulfilled, StoredRejected(rejected))];
      id := nextId;
      nextId := nextId + 1;
    }

    /** `eject(id)`: remove the registration with that id, or do nothing. */
    method Eject(id: int)
      requires Valid()
      modifies this
      ensures Valid()
      ensures handlers == Without(old(handlers), id) == Filter(old(handlers), id)
      ensures |handlers| == if id in Ids(old(handlers)) then |old(handlers)| - 1 else |old(handlers)|
      ensures nextId == old(nextId)
    {
      WithoutIsFilter(handlers, nextId, id);
      FilterOrdered(handlers, nextId, id);
      WithoutLength(handlers, id);
      var index := FindIndex(handlers, id);
      if index >= 0 {
        SpliceIsWithout(handlers, id, index);
        handlers := handlers[..index] + handlers[index + 1..];
      } else {
        WithoutAbsent(handlers, id);
      }
    }

    /** `clear()`: `handlers.length = 0`; the counter is untouched. */
    method Clear()
      requires Valid()
      modifies this
      ensures Valid()
      ensures handlers == [] && nextId == old(nextId)
    {
      handlers := [];
    }
  }

  /** Register three handlers, eject the first and the third: one registration
      is left and it carries the second id; ejecting it leaves none. */
  method EjectFirstAndThird() returns (idsAfterTwo: seq<nat>, secondId: nat, lengthAfterThree: nat)
    ensures idsAfterTwo == [secondId] && secondId == 1
    ensures lengthAfterThree == 0
  {
    var m := new InterceptorManager<int -> int, int -> int>();
    var id1 := m.Use(Some(x => x), Undefined);
    var id2 := m.Use(Some(x => x), Undefined);
    var id3 := m.Use(Some(x => x), Undefined);
    m.Eject(id1);
    m.Eject(id3);
    idsAfterTwo := Ids(m.handlers);
    secondId := id2;
    m.Eject(id2);
    lengthAfterThree := |m.handlers|;
  }

  /** Each factory call yields its own counter and array: registering twice on
      one manager leaves the other empty, and ejecting or clearing never lowers
      the counter, so an id is never handed out twice. */
  method IndependentManagers() returns (firstIds: seq<nat>, otherLength: nat, otherNext: nat, afterClear: nat)
    ensures firstIds == [0, 1]
    ensures otherLength == 0 && otherNext == 0
    ensures afterClear == 2
  {
    var a := new InterceptorManager<int -> int, int -> int>();
    var b := new InterceptorManager<int -> int, int -> int>();
    var x := a.Use(None, Null);
    var y := a.Use(Some(v => v + 1), Undefined);
    firstIds := Ids(a.handlers);
    otherLength := |b.handlers|;
    otherNext := b.nextId;
    a.Eject(x);
    a.Clear();
    afterClear := a.Use(None, Undefined);
  }
}
