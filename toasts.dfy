/**
 * The toast list behind the client's notifications (SafeZone-Web/src/hooks/useToast.js). A
 * module-level counter hands out ids; `toastsRef.current` holds the list, which every change
 * copies into the rendered state. The two `setTimeout` callbacks are recorded as scheduled
 * timers and run by the methods `Expire` and `RemoveToast`.
 */
module Toasts {
  import opened Common

  datatype Toast = Toast(id: nat, message: string, kind: string, exiting: bool)

  /** A scheduled callback: mark the toast as leaving, or remove it, after `delay` milliseconds. */
  datatype Timer = ExpireAfter(id: nat, delay: int) | RemoveAfter(id: nat, delay: int)

  const DefaultKind := "info"
  const DefaultDuration := 3500
  const ExitDelay := 300

  function EarlierId(): (Toast, Toast) -> bool {
    (a: Toast, b: Toast) => a.id < b.id
  }

  /** The list is in strictly increasing id order. */
  ghost predicate Increasing(ts: seq<Toast>) {
    Pairwise(ts, EarlierId())
  }

  function ExitIf(id: nat): Toast -> Toast {
    (t: Toast) => if t.id == id then t.(exiting := true) else t
  }

  /** The expiry step's `map`: only the toasts with that id are marked as leaving. */
  function MarkExiting(ts: seq<Toast>, id: nat): (r: seq<Toast>)
    ensures |r| == |ts|
    ensures forall i :: 0 <= i < |ts| ==> r[i] == ts[i].(exiting := ts[i].exiting || ts[i].id == id)
  {
    MapSeq(ts, ExitIf(id))
  }

  lemma MarkExitingIncreasing(ts: seq<Toast>, id: nat)
    requires Increasing(ts)
    ensures Increasing(MarkExiting(ts, id))
  {
    var r := MarkExiting(ts, id);
    forall i, j | 0 <= i < j < |r| ensures EarlierId()(r[i], r[j]) {
      assert r[i].id == ts[i].id && r[j].id == ts[j].id;
    }
  }

  function IdIsNot(id: nat): Toast -> bool {
    (t: Toast) => t.id != id
  }

  /** `removeToast`'s `filter`. */
  function Without(ts: seq<Toast>, id: nat): (r: seq<Toast>)
    ensures forall t :: t in r <==> t in ts && t.id != id
  {
    Filter(ts, IdIsNot(id))
  }

  /** The rest keep their order: the list stays in increasing id order. */
  lemma WithoutIncreasing(ts: seq<Toast>, id: nat)
    requires Increasing(ts)
    ensures Increasing(Without(ts, id))
  {
    FilterPairwise(ts, IdIsNot(id), EarlierId());
  }

  /** Removing a toast just shown gives back the list as it was before. */
  lemma ShowThenRemove(ts: seq<Toast>, t: Toast)
    requires forall u :: u in ts ==> u.id < t.id
    ensures Without(ts + [t], t.id) == ts
  {
    FilterAppend(ts, [t], IdIsNot(t.id));
    FilterAll(ts, IdIsNot(t.id));
    assert Filter([t], IdIsNot(t.id)) == [];
  }

  class ToastList {
    /** `globalToastId`. */
    var lastId: nat
    /** `toastsRef.current`, and the rendered `toasts` that copies it. */
    var toasts: seq<Toast>
    var timers: seq<Timer>

    ghost predicate Valid()
      reads this
    {
      Increasing(toasts) && forall t :: t in toasts ==> t.id <= lastId
    }

    constructor(lastId: nat)
      ensures Valid() && this.lastId == lastId && toasts == [] && timers == []
    {
      this.lastId := lastId;
      toasts := [];
      timers := [];
    }

    /** `showToast(message, type = 'info', duration = 3500)`. */
    method ShowToast(message: string, kind: Option<string>, duration: Option<int>) returns (id: nat)
      requires Valid()
      modifies this`lastId, this`toasts, this`timers
      ensures Valid()
      ensures id == old(lastId) + 1 && lastId == id
      ensures forall t :: t in old(toasts) ==> t.id < id
      ensures toasts == old(toasts) + [Toast(id, message, kind.GetOr(DefaultKind), false)]
      ensures timers == old(timers) + [ExpireAfter(id, duration.GetOr(DefaultDuration))]
    {
      lastId := lastId + 1;
      id := lastId;
      var t := Toast(id, message, kind.GetOr(DefaultKind), false);
      AppendPairwise(toasts, t, EarlierId());
      toasts := toasts + [t];
      timers := timers + [ExpireAfter(id, duration.GetOr(DefaultDuration))];
    }

    /** The first timer's callback: the toast starts leaving, and its removal is scheduled. */
    method Expire(id: nat)
      requires Valid()
      modifies this`toasts, this`timers
      ensures Valid()
      ensures toasts == MarkExiting(old(toasts), id)
      ensures timers == old(timers) + [RemoveAfter(id, ExitDelay)]
    {
      MarkExitingIncreasing(toasts, id);
      toasts := MarkExiting(toasts, id);
      timers := timers + [RemoveAfter(id, ExitDelay)];
    }

    /** `removeToast(id)`. */
    method RemoveToast(id: nat)
      requires Valid()
      modifies this`toasts
      ensures Valid()
      ensures toasts == Without(old(toasts), id)
    {
      WithoutIncreasing(toasts, id);
      toasts := Without(toasts, id);
    }
  }
}
