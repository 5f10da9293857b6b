/**
  The notifier registry: an ordered list of (callback, user data) pairs that
  receives every snapshot the counter emits.
 */
module Notifiers {

  /** Identity of a callback function pointer. */
  type Callback = nat

  /** Identity of the opaque user-data pointer. */
  type UserData = nat

  datatype Notifier = Notifier(callback: Callback, userData: UserData)

  /** connui_utils_notify_add: appends, with no uniqueness check. */
  function Add(list: seq<Notifier>, cb: Callback, userData: UserData): (r: seq<Notifier>)
    ensures |r| == |list| + 1 && r[..|list|] == list && r[|list|] == Notifier(cb, userData)
  {
    list + [Notifier(cb, userData)]
  }

  /** connui_utils_notify_remove: drops every entry with callback cb, keeping the others in order. */
  function Remove(list: seq<Notifier>, cb: Callback): (r: seq<Notifier>)
    ensures forall n :: n in r <==> n in list && n.callback != cb
    ensures |r| <= |list|
    ensures |r| == |list| <==> forall i :: 0 <= i < |list| ==> list[i].callback != cb
  {
    if list == [] then []
    else if list[0].callback == cb then Remove(list[1..], cb)
    else [list[0]] + Remove(list[1..], cb)
  }

  /** Removal distributes over concatenation. */
  lemma {:induction false} RemoveAppend(a: seq<Notifier>, b: seq<Notifier>, cb: Callback)
    ensures Remove(a + b, cb) == Remove(a, cb) + Remove(b, cb)
  {
    if a != [] {
      assert (a + b)[0] == a[0];
      assert (a + b)[1..] == a[1..] + b;
      RemoveAppend(a[1..], b, cb);
      if a[0].callback != cb {
        assert [a[0]] + (Remove(a[1..], cb) + Remove(b, cb)) == ([a[0]] + Remove(a[1..], cb)) + Remove(b, cb);
      }
    } else {
      assert a + b == b;
    }
  }

  /** Removing a callback nobody registered changes nothing. */
  lemma {:induction false} RemoveAbsent(list: seq<Notifier>, cb: Callback)
    requires forall i :: 0 <= i < |list| ==> list[i].callback != cb
    ensures Remove(list, cb) == list
  {
    if list != [] {
      RemoveAbsent(list[1..], cb);
      assert list == [list[0]] + list[1..];
    }
  }
}
