/** The toast store (src/hooks/use-toast.ts): a module-level list of toast
    records, newest first, and a set of listeners notified after every change.
    Listeners are identified by number; the clock reading and the random text
    an id is made from are inputs. */
module ToastStore {
  import opened Wrappers
  import opened Seqs
  import opened Strings

  /** What a caller passes to `open`: everything of a record except its id. */
  datatype ToastPayload = ToastPayload(title: Option<string>, description: Option<string>)

  datatype ToastRecord = ToastRecord(id: string, payload: ToastPayload)

  /** `s.slice(start, end)` for `0 <= start <= end`, clamped to the string. */
  function Slice(s: string, start: nat, end: nat): (r: string)
    requires start <= end
    ensures |r| <= end - start
    ensures start + |r| <= |s| || r == []
    ensures start < |s| ==> r == s[start..if end < |s| then end else |s|]
    ensures start >= |s| ==> r == []
  {
    if start >= |s| then [] else s[start..if end < |s| then end else |s|]
  }

  /** `String(Date.now()) + Math.random().toString(36).slice(2, 7)`, where
      `now` is the clock reading and `randomText` the base-36 rendering. */
  function ToastId(now: nat, randomText: string): (id: string)
    ensures |NatToString(now)| <= |id| <= |NatToString(now)| + 5
    ensures id[..|NatToString(now)|] == NatToString(now)
    ensures id[|NatToString(now)|..] == Slice(randomText, 2, 7)
  {
    NatToString(now) + Slice(randomText, 2, 7)
  }

  /** The list after `open`: the new record in front of the old list. */
  function Opened(toasts: seq<ToastRecord>, rec: ToastRecord): (r: seq<ToastRecord>)
    ensures |r| == |toasts| + 1 && r[0] == rec && r[1..] == toasts
  {
    [rec] + toasts
  }

  /** The filter predicate `t => t.id !== id`. */
  function OtherId(id: string): ToastRecord -> bool {
    (t: ToastRecord) => t.id != id
  }

  /** The list after `close(id)`: every record with another id, in order,
      each kept as often as it occurs. */
  function Closed(toasts: seq<ToastRecord>, id: string): (r: seq<ToastRecord>)
    ensures |r| == Count(toasts, OtherId(id))
    ensures forall i :: 0 <= i < |r| ==> r[i].id != id
    ensures forall i :: 0 <= i < |toasts| && toasts[i].id != id ==> toasts[i] in r
    ensures IsSubsequence(r, toasts)
    ensures (forall i :: 0 <= i < |toasts| ==> toasts[i].id != id) ==> r == toasts
  {
    Filter(toasts, OtherId(id))
  }

  /** Closing a record whose id was fresh when it was opened gives back
      the list as it was before. */
  lemma {:induction false} OpenThenCloseRestores(toasts: seq<ToastRecord>, rec: ToastRecord)
    requires forall i :: 0 <= i < |toasts| ==> toasts[i].id != rec.id
    ensures Closed(Opened(toasts, rec), rec.id) == toasts
  {
    var f := OtherId(rec.id);
    assert Opened(toasts, rec) == [rec] + toasts;
    FilterConcat([rec], toasts, f);
    assert Filter([rec], f) == [];
  }

  /** `listeners.delete(l)`: the set without `l`, in the same order. */
  function Without(listeners: seq<nat>, l: nat): (r: seq<nat>)
    ensures l !in r
    ensures forall i :: 0 <= i < |listeners| && listeners[i] != l ==> listeners[i] in r
    ensures IsSubsequence(r, listeners)
    ensures l !in listeners ==> r == listeners
  {
    Filter(listeners, (x: nat) => x != l)
  }

  /** Removing a listener from a set it was just added to, having been absent,
      gives back the set as it was. */
  lemma {:induction false} UnsubscribeAfterSubscribeRestores(listeners: seq<nat>, l: nat)
    requires l !in listeners
    ensures Without(listeners + [l], l) == listeners
  {
    FilterConcat(listeners, [l], (x: nat) => x != l);
    assert Filter([l], (x: nat) => x != l) == [];
  }

  /** No listener is held twice, as in a `Set`. */
  predicate Distinct(xs: seq<nat>) {
    forall i, j :: 0 <= i < j < |xs| ==> xs[i] != xs[j]
  }

  class Store {
    var toasts: seq<ToastRecord>
    /** The listener set, in insertion order (the order a `Set` iterates in). */
    var listeners: seq<nat>
    /** Every listener invocation so far, oldest first. */
    var calls: seq<nat>

    predicate Valid()
      reads this
    {
      Distinct(listeners)
    }

    constructor ()
      ensures Valid() && toasts == [] && listeners == [] && calls == []
    {
      toasts := [];
      listeners := [];
      calls := [];
    }

    /** `getSnapshot`: the current list itself. */
    function GetSnapshot(): (snapshot: seq<ToastRecord>)
      reads this
      ensures snapshot == toasts
    {
      toasts
    }

    /** `notify`: every listener is invoked once, in set order. */
    method Notify()
      modifies this`calls
      ensures calls == old(calls) + listeners
    {
      var i := 0;
      while i < |listeners|
        invariant 0 <= i <= |listeners|
        invariant calls == old(calls) + listeners[..i]
      {
        calls := calls + [listeners[i]];
        i := i + 1;
      }
    }

    /** `toast.open`: prepends a record with the new id, notifies, and returns
        the id. */
    method Open(payload: ToastPayload, now: nat, randomText: string) returns (id: string)
      modifies this`toasts, this`calls
      ensures id == ToastId(now, randomText)
      ensures toasts == Opened(old(toasts), ToastRecord(id, payload))
      ensures calls == old(calls) + listeners
    {
      id := ToastId(now, randomText);
      toasts := [ToastRecord(id, payload)] + toasts;
      Notify();
    }

    /** `toast.close`: drops every record with that id and notifies. */
    method Close(id: string)
      modifies this`toasts, this`calls
      ensures toasts == Closed(old(toasts), id)
      ensures calls == old(calls) + listeners
    {
      toasts := Closed(toasts, id);
      Notify();
    }

    /** `toast.show`: the same as `open`. */
    method Show(payload: ToastPayload, now: nat, randomText: string) returns (id: string)
      modifies this`toasts, this`calls
      ensures id == ToastId(now, randomText)
      ensures toasts == Opened(old(toasts), ToastRecord(id, payload))
      ensures calls == old(calls) + listeners
    {
      id := Open(payload, now, randomText);
    }

    /** `subscribe`: adds the listener to the set (no change when present). */
    method Subscribe(l: nat)
      requires Valid()
      modifies this`listeners
      ensures Valid()
      ensures l in old(listeners) ==> listeners == old(listeners)
      ensures l !in old(listeners) ==> listeners == old(listeners) + [l]
    {
      if l !in listeners {
        listeners := listeners + [l];
      }
    }

    /** The function `subscribe` returns: deletes the listener from the set. */
    method Unsubscribe(l: nat)
      requires Valid()
      modifies this`listeners
      ensures Valid()
      ensures listeners == Without(old(listeners), l)
    {
      listeners := Without(listeners, l);
      DistinctSubsequence(listeners, old(listeners));
    }
  }

  /** A subsequence of a duplicate-free list is duplicate-free. */
  lemma {:induction false} DistinctSubsequence(a: seq<nat>, b: seq<nat>)
    requires Distinct(b) && IsSubsequence(a, b)
    ensures Distinct(a)
    decreases |b|
  {
    if a != [] {
      if a[0] == b[0] && IsSubsequence(a[1..], b[1..]) {
        DistinctSubsequence(a[1..], b[1..]);
        SubsequenceMembers(a[1..], b[1..]);
        forall j | 0 < j < |a| ensures a[0] != a[j] {
          assert a[j] == a[1..][j - 1];
          assert a[j] in b[1..];
          var k :| 0 <= k < |b[1..]| && b[1..][k] == a[j];
          assert b[k + 1] == a[j];
        }
      } else {
        DistinctSubsequence(a, b[1..]);
      }
    }
  }

  lemma {:induction false} SubsequenceMembers(a: seq<nat>, b: seq<nat>)
    requires IsSubsequence(a, b)
    ensures forall x :: x in a ==> x in b
    decreases |b|
  {
    if a != [] {
      if a[0] == b[0] && IsSubsequence(a[1..], b[1..]) {
        SubsequenceMembers(a[1..], b[1..]);
        assert a == [a[0]] + a[1..];
      } else {
        SubsequenceMembers(a, b[1..]);
      }
    }
  }
}
