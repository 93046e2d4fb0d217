/**
 * The client's global toast channel (SafeZone-Web/src/utils/toast.js): a module-level `Set` of
 * listener functions, and `_emit`, which calls every listener with the message and its type.
 * Listeners are modelled by identities; a call of a listener is recorded, not run.
 */
module ToastBus {
  import opened Common

  /** One call `fn(message, type)` made by `_emit`. */
  datatype Call = Call(listener: nat, message: string, kind: string)

  const DefaultKind := "info"

  predicate Distinct(s: seq<nat>) {
    forall i, j :: 0 <= i < j < |s| ==> s[i] != s[j]
  }

  /** `Set.prototype.add`: a new element goes last, one already present stays where it is. */
  function Added(s: seq<nat>, fn: nat): (r: seq<nat>)
    ensures forall x :: x in r <==> x in s || x == fn
    ensures Distinct(s) ==> Distinct(r)
    ensures fn in s ==> r == s
  {
    if fn in s then s else s + [fn]
  }

  function Other(fn: nat): nat -> bool {
    (x: nat) => x != fn
  }

  /** `Set.prototype.delete`. */
  function Removed(s: seq<nat>, fn: nat): (r: seq<nat>)
    ensures forall x :: x in r <==> x in s && x != fn
  {
    Filter(s, Other(fn))
  }

  lemma {:induction false} RemovedDistinct(s: seq<nat>, fn: nat)
    requires Distinct(s)
    ensures Distinct(Removed(s, fn))
    decreases |s|
  {
    if s != [] {
      RemovedDistinct(s[1..], fn);
      assert s[0] !in s[1..];
    }
  }

  /** Subscribing the same function twice registers it once. */
  lemma SubscribeTwice(s: seq<nat>, fn: nat)
    ensures Added(Added(s, fn), fn) == Added(s, fn)
  {
  }

  /** The function `subscribe` returns undoes the subscription of a function that was not registered. */
  lemma {:induction false} UnsubscribeUndoes(s: seq<nat>, fn: nat)
    requires fn !in s
    ensures Removed(Added(s, fn), fn) == s
  {
    FilterAppend(s, [fn], Other(fn));
    FilterAll(s, Other(fn));
    assert Filter([fn], Other(fn)) == [];
  }

  function CallOf(message: string, kind: string): nat -> Call {
    (fn: nat) => Call(fn, message, kind)
  }

  /** The global toast object with its listener set and the calls its listeners have received. */
  class Bus {
    var listeners: seq<nat>
    var calls: seq<Call>

    ghost predicate Valid()
      reads this
    {
      Distinct(listeners)
    }

    constructor()
      ensures Valid() && listeners == [] && calls == []
    {
      listeners := [];
      calls := [];
    }

    /** `subscribe(fn)`. */
    method Subscribe(fn: nat)
      requires Valid()
      modifies this`listeners
      ensures Valid()
      ensures listeners == Added(old(listeners), fn)
    {
      listeners := Added(listeners, fn);
    }

    /** The function returned by `subscribe(fn)`: `() => listeners.delete(fn)`. */
    method Unsubscribe(fn: nat)
      requires Valid()
      modifies this`listeners
      ensures Valid()
      ensures listeners == Removed(old(listeners), fn)
    {
      RemovedDistinct(listeners, fn);
      listeners := Removed(listeners, fn);
    }

    /** `_emit(message, type = 'info')`: every current listener is called once, in insertion order. */
    method Emit(message: string, kind: Option<string>)
      modifies this`calls
      ensures |calls| == |old(calls)| + |listeners|
      ensures calls[..|old(calls)|] == old(calls)
      ensures forall i :: 0 <= i < |listeners| ==>
        calls[|old(calls)| + i] == Call(listeners[i], message, kind.GetOr(DefaultKind))
    {
      var made := AppendEach(listeners, CallOf(message, kind.GetOr(DefaultKind)));
      calls := calls + made;
    }

    method Success(message: string)
      modifies this`calls
      ensures calls == old(calls) + MapSeq(listeners, CallOf(message, "success"))
    {
      Emit(message, Some("success"));
    }

    method Error(message: string)
      modifies this`calls
      ensures calls == old(calls) + MapSeq(listeners, CallOf(message, "error"))
    {
      Emit(message, Some("error"));
    }

    method Warning(message: string)
      modifies this`calls
      ensures calls == old(calls) + MapSeq(listeners, CallOf(message, "warning"))
    {
      Emit(message, Some("warning"));
    }

    method Info(message: string)
      modifies this`calls
      ensures calls == old(calls) + MapSeq(listeners, CallOf(message, "info"))
    {
      Emit(message, Some("info"));
    }
  }
}
