/** The toast list of src/hooks/useToast.ts: a `toasts` state cell holding the
    notifications on screen, which `showToast` appends to and `removeToast`
    filters. The id, `Date.now()` in the source, is a parameter. */
module Toasts {

  datatype ToastType = Success | Error | Warning | Info

  datatype Toast = Toast(message: string, kind: ToastType, id: int)

  /** `prevToasts.filter((toast) => toast.id !== id)` */
  function WithoutId(toasts: seq<Toast>, id: int): (r: seq<Toast>)
    ensures |r| <= |toasts|
    ensures forall k :: 0 <= k < |r| ==> r[k].id != id && r[k] in toasts
    ensures forall t :: t in toasts && t.id != id ==> t in r
  {
    if toasts == [] then []
    else if toasts[0].id != id then [toasts[0]] + WithoutId(toasts[1..], id)
    else WithoutId(toasts[1..], id)
  }

  /** The filter works piece by piece, so the toasts it keeps stay in their
      original order. */
  lemma {:induction false} WithoutIdConcat(a: seq<Toast>, b: seq<Toast>, id: int)
    ensures WithoutId(a + b, id) == WithoutId(a, id) + WithoutId(b, id)
  {
    if a == [] {
      assert a + b == b;
    } else {
      assert (a + b)[1..] == a[1..] + b;
      WithoutIdConcat(a[1..], b, id);
    }
  }

  /** Each toast with another id is kept as many times as it occurred, and no
      toast with the removed id is left. */
  lemma {:induction false} WithoutIdCounts(toasts: seq<Toast>, id: int, t: Toast)
    ensures multiset(WithoutId(toasts, id))[t] == if t.id == id then 0 else multiset(toasts)[t]
  {
    if toasts != [] {
      var h, rest := toasts[0], toasts[1..];
      WithoutIdCounts(rest, id, t);
      assert toasts == [h] + rest;
      MultisetConsCount(h, rest, t);
      if h.id != id {
        var kept := WithoutId(rest, id);
        assert WithoutId(toasts, id) == [h] + kept;
        MultisetConsCount(h, kept, t);
      } else {
        assert WithoutId(toasts, id) == WithoutId(rest, id);
      }
    }
  }

  /** The count of `t` in `[h] + s` is that in `s`, plus one when `h` is `t`. */
  lemma MultisetConsCount(h: Toast, s: seq<Toast>, t: Toast)
    ensures multiset([h] + s)[t] == (if h == t then 1 else 0) + multiset(s)[t]
  {
    assert multiset([h] + s) == multiset{h} + multiset(s);
  }

  /** Removing an id no toast has leaves the list as it was. */
  lemma {:induction false} WithoutAbsentId(toasts: seq<Toast>, id: int)
    requires forall k :: 0 <= k < |toasts| ==> toasts[k].id != id
    ensures WithoutId(toasts, id) == toasts
  {
    if toasts != [] {
      WithoutAbsentId(toasts[1..], id);
    }
  }

  /** Removing twice is removing once. */
  lemma WithoutIdIdempotent(toasts: seq<Toast>, id: int)
    ensures WithoutId(WithoutId(toasts, id), id) == WithoutId(toasts, id)
  {
    WithoutAbsentId(WithoutId(toasts, id), id);
  }

  /** For an id not yet on screen, showing a toast and then removing its id
      gives back the earlier list. */
  lemma ShowThenRemove(toasts: seq<Toast>, message: string, kind: ToastType, id: int)
    requires forall k :: 0 <= k < |toasts| ==> toasts[k].id != id
    ensures WithoutId(toasts + [Toast(message, kind, id)], id) == toasts
  {
    WithoutIdConcat(toasts, [Toast(message, kind, id)], id);
    WithoutAbsentId(toasts, id);
  }

  /** The `toasts` state cell of one `useToast` hook. */
  class ToastList {
    var toasts: seq<Toast>

    constructor ()
      ensures toasts == []
    {
      toasts := [];
    }

    /** `showToast(message, type)` with the id it draws: one toast appended
        at the end, the earlier ones untouched and in order; the id is
        returned. */
    method ShowToast(message: string, kind: ToastType, id: int) returns (r: int)
      modifies this
      ensures r == id
      ensures toasts == old(toasts) + [Toast(message, kind, id)]
      ensures |toasts| == |old(toasts)| + 1 && toasts[..|old(toasts)|] == old(toasts)
    {
      toasts := toasts + [Toast(message, kind, id)];
      r := id;
    }

    /** `removeToast(id)`: every toast with that id goes, the others stay in
        their order. */
    method RemoveToast(id: int)
      modifies this
      ensures toasts == WithoutId(old(toasts), id)
      ensures |toasts| <= |old(toasts)|
    {
      toasts := WithoutId(toasts, id);
    }
  }
}
