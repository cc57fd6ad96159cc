/** The toast queue: a counter that only goes up hands out ids, a `show-toast` event appends
    a toast, and closing it or its timer running out removes it by id. */
module Toast {
  import opened Js
  import opened Lists

  /** A visible toast (`{ id, message, type }`). */
  datatype ToastItem = ToastItem(id: nat, message: Value, kind: Value)

  /** The icons a toast can show. */
  datatype Icon = CheckIcon | AlertTriangleIcon | InfoIcon

  /** `getIcon` */
  function GetIcon(kind: Value): (icon: Icon)
    ensures icon == CheckIcon <==> kind == Str("success")
    ensures icon == AlertTriangleIcon <==> kind == Str("error") || kind == Str("warning")
    ensures icon == InfoIcon <==> kind !in {Str("success"), Str("error"), Str("warning")}
  {
    if kind == Str("success") then CheckIcon
    else if kind == Str("error") || kind == Str("warning") then AlertTriangleIcon
    else InfoIcon
  }

  /** Ids strictly increase along the queue. */
  predicate IdsIncreasing(toasts: seq<ToastItem>) {
    forall i, j :: 0 <= i < j < |toasts| ==> toasts[i].id < toasts[j].id
  }

  /** `toasts.filter(toast => toast.id !== id)` */
  function WithoutToast(toasts: seq<ToastItem>, id: int): (r: seq<ToastItem>)
    ensures forall i :: 0 <= i < |r| ==> r[i].id != id
    ensures forall i :: 0 <= i < |toasts| && toasts[i].id != id ==> toasts[i] in r
    ensures forall i :: 0 <= i < |r| ==> r[i] in toasts
    ensures Subseq(r, toasts)
  {
    FilterIsSubseq(toasts, (t: ToastItem) => t.id != id);
    Filter(toasts, (t: ToastItem) => t.id != id)
  }

  /** An order-preserving sub-list of a queue with increasing ids has increasing ids. */
  lemma {:induction false} SubseqKeepsIncreasing(a: seq<ToastItem>, b: seq<ToastItem>)
    requires Subseq(a, b) && IdsIncreasing(b)
    ensures IdsIncreasing(a)
    ensures forall i :: 0 <= i < |a| ==> exists j :: 0 <= j < |b| && a[i] == b[j]
    decreases |b|
  {
    if a != [] && b != [] {
      assert IdsIncreasing(b[1..]);
      if a[0] == b[0] {
        SubseqKeepsIncreasing(a[1..], b[1..]);
        forall i, j | 0 <= i < j < |a|
          ensures a[i].id < a[j].id
        {
          var k :| 0 <= k < |b[1..]| && a[1..][j - 1] == b[1..][k];
          if i == 0 {
            assert b[0].id < b[k + 1].id;
          } else {
            assert a[1..][i - 1].id < a[1..][j - 1].id;
          }
        }
        forall i | 0 <= i < |a|
          ensures exists j :: 0 <= j < |b| && a[i] == b[j]
        {
          if i == 0 {
            assert a[0] == b[0];
          } else {
            var k :| 0 <= k < |b[1..]| && a[1..][i - 1] == b[1..][k];
            assert a[i] == b[k + 1];
          }
        }
      } else {
        SubseqKeepsIncreasing(a, b[1..]);
        forall i | 0 <= i < |a|
          ensures exists j :: 0 <= j < |b| && a[i] == b[j]
        {
          var k :| 0 <= k < |b[1..]| && a[i] == b[1..][k];
          assert a[i] == b[k + 1];
        }
      }
    }
  }

  /** Removing a toast keeps the ids increasing. */
  lemma RemoveKeepsOrder(toasts: seq<ToastItem>, id: int)
    requires IdsIncreasing(toasts)
    ensures IdsIncreasing(WithoutToast(toasts, id))
  {
    SubseqKeepsIncreasing(WithoutToast(toasts, id), toasts);
  }

  /** With increasing ids, removing an id that is present drops exactly that one toast and
      keeps the toasts before and after it. */
  lemma RemovePresent(toasts: seq<ToastItem>, k: int)
    requires IdsIncreasing(toasts) && 0 <= k < |toasts|
    ensures WithoutToast(toasts, toasts[k].id) == toasts[..k] + toasts[k + 1..]
    ensures |WithoutToast(toasts, toasts[k].id)| == |toasts| - 1
  {
    var id := toasts[k].id;
    forall i | 0 <= i < |toasts| && i != k
      ensures toasts[i].id != id
    {
      if i < k {
        assert toasts[i].id < toasts[k].id;
      } else {
        assert toasts[k].id < toasts[i].id;
      }
    }
    FilterRemovesOne(toasts, k, (t: ToastItem) => t.id != id);
  }

  /** Removing an id no toast has changes nothing. */
  lemma RemoveAbsent(toasts: seq<ToastItem>, id: int)
    requires forall i :: 0 <= i < |toasts| ==> toasts[i].id != id
    ensures WithoutToast(toasts, id) == toasts
  {
    FilterKeepsAll(toasts, (t: ToastItem) => t.id != id);
  }

  /** `type = "info"`: the default applies only to an absent (undefined) type. */
  function ToastKind(detail: Record): (kind: Value)
    ensures Get(detail, "type").Undefined? ==> kind == Str("info")
    ensures !Get(detail, "type").Undefined? ==> kind == Get(detail, "type")
  {
    if Get(detail, "type").Undefined? then Str("info") else Get(detail, "type")
  }

  /** `duration = 3000`: likewise for the duration. */
  function ToastDuration(detail: Record): (duration: Value)
    ensures Get(detail, "duration").Undefined? ==> duration == Num(3000)
    ensures !Get(detail, "duration").Undefined? ==> duration == Get(detail, "duration")
  {
    if Get(detail, "duration").Undefined? then Num(3000) else Get(detail, "duration")
  }

  /** The toast container together with the module-level `toastId` counter. */
  class ToastCenter {
    /** The last id handed out. */
    var toastId: nat
    var toasts: seq<ToastItem>

    /** Every visible toast has an id no greater than the counter, in increasing order. */
    predicate Valid()
      reads this
    {
      IdsIncreasing(toasts) && forall i :: 0 <= i < |toasts| ==> toasts[i].id <= toastId
    }

    constructor ()
      ensures toastId == 0 && toasts == [] && Valid()
    {
      toastId, toasts := 0, [];
    }

    /** `handleToast` for a `show-toast` event: the new toast gets the next id, larger than
        every id before it, and goes at the end; the expiry timer is returned as the
        duration after which `RemoveToast(id)` runs. A detail of `null` or `undefined` makes
        the destructuring throw. */
    method HandleToast(detail: Value) returns (id: nat, duration: Value)
      requires Valid()
      modifies this
      ensures Valid()
      ensures detail.Undefined? || detail.Null? ==> unchanged(this)
      ensures !(detail.Undefined? || detail.Null?) ==>
                var fields := if detail.Obj? then detail.fields else map[];
                && id == toastId == old(toastId) + 1
                && (forall i :: 0 <= i < |old(toasts)| ==> old(toasts)[i].id < id)
                && toasts == old(toasts) + [ToastItem(id, Get(fields, "message"), ToastKind(fields))]
                && duration == ToastDuration(fields)
    {
      var message := ReadOwn(detail, "message");
      if message.None? {
        return 0, Undefined;
      }
      var fields := if detail.Obj? then detail.fields else map[];
      toastId := toastId + 1;
      id := toastId;
      toasts := toasts + [ToastItem(id, message.value, ToastKind(fields))];
      duration := ToastDuration(fields);
    }

    /** `removeToast`, and the expiry callback (the same filter). */
    method RemoveToast(id: int)
      requires Valid()
      modifies this`toasts
      ensures Valid()
      ensures toasts == WithoutToast(old(toasts), id)
    {
      RemoveKeepsOrder(toasts, id);
      toasts := WithoutToast(toasts, id);
    }
  }
}
