/** Lists of listener callbacks and the array and Set operations the core
    applies to them. A JavaScript Set iterates in insertion order, so a Set
    of callbacks is modelled as a duplicate-free list. */
module Callbacks {
  import opened Effects

  predicate NoDuplicates(ids: seq<ListenerId>)
  {
    forall i, j :: 0 <= i < j < |ids| ==> ids[i] != ids[j]
  }

  /** Array.prototype.indexOf: the first position of `f`, or -1. */
  function IndexOf(ids: seq<ListenerId>, f: ListenerId): (k: int)
    ensures -1 <= k < |ids|
    ensures k == -1 <==> f !in ids
    ensures k >= 0 ==> ids[k] == f && f !in ids[..k]
  {
    if ids == [] then -1
    else if ids[0] == f then 0
    else
      var k := IndexOf(ids[1..], f);
      assert ids[1..][..if k < 0 then 0 else k] == ids[1..if k < 0 then 1 else k + 1];
      if k == -1 then -1 else k + 1
  }

  /** Array.prototype.splice(start, 1): a negative start counts from the end
      and is clamped at 0; a start at or past the end removes nothing. */
  function SpliceOne(ids: seq<ListenerId>, start: int): seq<ListenerId>
  {
    var k := if start < 0 then (if |ids| + start < 0 then 0 else |ids| + start) else start;
    if k < |ids| then ids[..k] + ids[k + 1..] else ids
  }

  /** UndoStack.unsubscribe: splice at indexOf, guarded by `index !== -1`. */
  function Unsubscribed(ids: seq<ListenerId>, f: ListenerId): seq<ListenerId>
  {
    var k := IndexOf(ids, f);
    if k != -1 then SpliceOne(ids, k) else ids
  }

  /** The unguarded `list.splice(list.indexOf(f), 1)` of the src/lib cleanups. */
  function SplicedOut(ids: seq<ListenerId>, f: ListenerId): seq<ListenerId>
  {
    SpliceOne(ids, IndexOf(ids, f))
  }

  /** Set.prototype.add: a callback already in the set keeps its place. */
  function SetAdded(ids: seq<ListenerId>, f: ListenerId): seq<ListenerId>
  {
    if f in ids then ids else ids + [f]
  }

  /** Set.prototype.delete: drops `f`, the rest keep their order. */
  function SetDeleted(ids: seq<ListenerId>, f: ListenerId): seq<ListenerId>
  {
    if ids == [] then []
    else if ids[0] == f then SetDeleted(ids[1..], f)
    else [ids[0]] + SetDeleted(ids[1..], f)
  }

  /** The calls made by `ids.forEach(f => f())`. */
  function Notifications(ids: seq<ListenerId>): seq<Event>
  {
    if ids == [] then [] else [Notified(ids[0])] + Notifications(ids[1..])
  }

  lemma {:induction false} NotificationsAppend(ids: seq<ListenerId>, f: ListenerId)
    ensures Notifications(ids + [f]) == Notifications(ids) + [Notified(f)]
  {
    if ids != [] {
      assert (ids + [f])[1..] == ids[1..] + [f];
      NotificationsAppend(ids[1..], f);
    }
  }

  /** Notifying calls the callbacks in list order, one call per entry. */
  lemma {:induction false} NotificationsInOrder(ids: seq<ListenerId>)
    ensures |Notifications(ids)| == |ids|
    ensures forall i :: 0 <= i < |ids| ==> Notifications(ids)[i] == Notified(ids[i])
  {
    if ids != [] {
      NotificationsInOrder(ids[1..]);
    }
  }

  /** Each callback is called once per registration: a duplicate entry is
      called twice, an absent callback never. */
  lemma {:induction false} CalledOncePerRegistration(ids: seq<ListenerId>, f: ListenerId)
    ensures multiset(Notifications(ids))[Notified(f)] == multiset(ids)[f]
  {
    if ids != [] {
      CalledOncePerRegistration(ids[1..], f);
      assert ids == [ids[0]] + ids[1..];
    }
  }

  /** unsubscribe removes exactly the first occurrence of a registered
      callback, keeping the others in order, and does nothing otherwise. */
  lemma UnsubscribeRemovesFirst(ids: seq<ListenerId>, f: ListenerId)
    ensures f !in ids ==> Unsubscribed(ids, f) == ids
    ensures f in ids ==>
      var k := IndexOf(ids, f);
      Unsubscribed(ids, f) == ids[..k] + ids[k + 1..] &&
      f !in ids[..k] &&
      multiset(Unsubscribed(ids, f)) == multiset(ids) - multiset{f}
  {
    if f in ids {
      var k := IndexOf(ids, f);
      assert ids == ids[..k] + [f] + ids[k + 1..];
    }
  }

  /** The unguarded splice agrees with unsubscribe on a registered callback;
      on an absent one it removes the LAST callback of a non-empty list. */
  lemma SplicedOutCases(ids: seq<ListenerId>, f: ListenerId)
    ensures f in ids ==> SplicedOut(ids, f) == Unsubscribed(ids, f)
    ensures f !in ids && ids != [] ==> SplicedOut(ids, f) == ids[..|ids| - 1]
    ensures f !in ids && ids == [] ==> SplicedOut(ids, f) == []
  {
  }

  /** In a duplicate-free list an entry occurs neither before nor after itself. */
  lemma NoDuplicatesApart(ids: seq<ListenerId>, i: nat)
    requires NoDuplicates(ids) && i < |ids|
    ensures ids[i] !in ids[..i] && ids[i] !in ids[i + 1..]
  {
    var after := ids[i + 1..];
    forall j | 0 <= j < |after|
      ensures after[j] != ids[i]
    {
      assert after[j] == ids[i + 1 + j];
    }
  }

  lemma {:induction false} SetDeletedMembers(ids: seq<ListenerId>, f: ListenerId)
    ensures forall g :: g in SetDeleted(ids, f) <==> g in ids && g != f
    ensures NoDuplicates(ids) ==> NoDuplicates(SetDeleted(ids, f))
  {
    if ids != [] {
      SetDeletedMembers(ids[1..], f);
      var rest := SetDeleted(ids[1..], f);
      if ids[0] != f && NoDuplicates(ids) {
        NoDuplicatesApart(ids, 0);
        assert ids[0] !in rest;
        forall i, j | 0 <= i < j < |[ids[0]] + rest|
          ensures ([ids[0]] + rest)[i] != ([ids[0]] + rest)[j]
        {
          if i == 0 {
            assert ([ids[0]] + rest)[j] == rest[j - 1];
          } else {
            assert ([ids[0]] + rest)[i] == rest[i - 1];
            assert ([ids[0]] + rest)[j] == rest[j - 1];
          }
        }
      }
    }
  }

  /** Set semantics: add stores a callback at most once and is idempotent,
      delete removes it and only it, and both keep the list duplicate-free. */
  lemma SetOperations(ids: seq<ListenerId>, f: ListenerId)
    requires NoDuplicates(ids)
    ensures NoDuplicates(SetAdded(ids, f)) && NoDuplicates(SetDeleted(ids, f))
    ensures forall g :: g in SetAdded(ids, f) <==> g in ids || g == f
    ensures SetAdded(SetAdded(ids, f), f) == SetAdded(ids, f)
    ensures multiset(SetAdded(ids, f))[f] == 1
    ensures forall g :: g in SetDeleted(ids, f) <==> g in ids && g != f
    ensures f !in ids ==> SetDeleted(ids, f) == ids
  {
    SetDeletedMembers(ids, f);
    if f !in ids {
      SetDeletedAbsent(ids, f);
      assert multiset(ids)[f] == 0;
    } else {
      var k := IndexOf(ids, f);
      assert ids == ids[..k] + [f] + ids[k + 1..];
      NoDuplicatesApart(ids, k);
      assert multiset(ids)[f] == multiset(ids[..k])[f] + 1 + multiset(ids[k + 1..])[f];
    }
  }

  lemma {:induction false} SetDeletedAbsent(ids: seq<ListenerId>, f: ListenerId)
    requires f !in ids
    ensures SetDeleted(ids, f) == ids
  {
    if ids != [] {
      SetDeletedAbsent(ids[1..], f);
    }
  }

  /** On a duplicate-free list, Set.delete and the guarded splice of
      UndoStack.unsubscribe remove the same entry. */
  lemma {:induction false} SetDeleteIsUnsubscribe(ids: seq<ListenerId>, f: ListenerId)
    requires NoDuplicates(ids)
    ensures SetDeleted(ids, f) == Unsubscribed(ids, f)
  {
    if ids != [] {
      assert NoDuplicates(ids[1..]) by {
        forall i, j | 0 <= i < j < |ids[1..]| ensures ids[1..][i] != ids[1..][j] {
          assert ids[1..][i] == ids[i + 1] && ids[1..][j] == ids[j + 1];
        }
      }
      if ids[0] == f {
        NoDuplicatesApart(ids, 0);
        SetDeletedAbsent(ids[1..], f);
      } else {
        SetDeleteIsUnsubscribe(ids[1..], f);
        var k := IndexOf(ids[1..], f);
        if k != -1 {
          assert ids[..k + 1] + ids[k + 2..] == [ids[0]] + (ids[1..][..k] + ids[1..][k + 1..]);
        }
      }
    }
  }

  /** `forEach(f => f())` over a list of callbacks: every entry is called
      once, in order. */
  method CallEach(ids: seq<ListenerId>, trace: Trace)
    modifies trace
    ensures trace.events == old(trace.events) + Notifications(ids)
  {
    var i := 0;
    while i < |ids|
      invariant 0 <= i <= |ids|
      invariant trace.events == old(trace.events) + Notifications(ids[..i])
    {
      NotificationsAppend(ids[..i], ids[i]);
      assert ids[..i + 1] == ids[..i] + [ids[i]];
      trace.Invoke(ids[i]);
      i := i + 1;
    }
    assert ids[..i] == ids;
  }

  /** The calls made by forEach over several callback lists, list by list. */
  function AllNotifications(lists: seq<seq<ListenerId>>): seq<Event>
  {
    if lists == [] then []
    else AllNotifications(lists[..|lists| - 1]) + Notifications(lists[|lists| - 1])
  }

  /** The lists joined end to end. */
  function Concat(lists: seq<seq<ListenerId>>): seq<ListenerId>
  {
    if lists == [] then [] else Concat(lists[..|lists| - 1]) + lists[|lists| - 1]
  }

  lemma {:induction false} NotificationsConcat(a: seq<ListenerId>, b: seq<ListenerId>)
    ensures Notifications(a + b) == Notifications(a) + Notifications(b)
  {
    if a == [] {
      assert a + b == b;
    } else {
      assert (a + b)[1..] == a[1..] + b;
      NotificationsConcat(a[1..], b);
    }
  }

  /** Notifying several lists in turn is notifying their concatenation, so
      a callback is called once per registration in any of them. */
  lemma {:induction false} AllNotificationsFlatten(lists: seq<seq<ListenerId>>, f: ListenerId)
    ensures AllNotifications(lists) == Notifications(Concat(lists))
    ensures multiset(AllNotifications(lists))[Notified(f)] == multiset(Concat(lists))[f]
  {
    if lists != [] {
      AllNotificationsFlatten(lists[..|lists| - 1], f);
      NotificationsConcat(Concat(lists[..|lists| - 1]), lists[|lists| - 1]);
    }
    CalledOncePerRegistration(Concat(lists), f);
  }

  /** forEach over each list of `lists` in turn. */
  method CallEachList(lists: seq<seq<ListenerId>>, trace: Trace)
    modifies trace
    ensures trace.events == old(trace.events) + AllNotifications(lists)
  {
    var i := 0;
    while i < |lists|
      invariant 0 <= i <= |lists|
      invariant trace.events == old(trace.events) + AllNotifications(lists[..i])
    {
      assert lists[..i + 1][..i] == lists[..i];
      CallEach(lists[i], trace);
      i := i + 1;
    }
    assert lists[..i] == lists;
  }

  /** A list of callbacks owned by one object and changed in place. */
  class CallbackList {
    var ids: seq<ListenerId>

    constructor ()
      ensures ids == []
    {
      ids := [];
    }

    /** Array.prototype.push. */
    method Push(f: ListenerId)
      modifies this
      ensures ids == old(ids) + [f]
    {
      ids := ids + [f];
    }

    /** Removal guarded by `indexOf(f) !== -1`. */
    method RemoveFirst(f: ListenerId)
      modifies this
      ensures ids == Unsubscribed(old(ids), f)
    {
      var k := IndexOf(ids, f);
      if k != -1 {
        ids := SpliceOne(ids, k);
      }
    }

    /** Unguarded `splice(indexOf(f), 1)`. */
    method SpliceIndexOf(f: ListenerId)
      modifies this
      ensures ids == SplicedOut(old(ids), f)
    {
      ids := SpliceOne(ids, IndexOf(ids, f));
    }

    /** Set.prototype.add. */
    method SetAdd(f: ListenerId)
      modifies this
      ensures ids == SetAdded(old(ids), f)
    {
      if f !in ids {
        ids := ids + [f];
      }
    }

    /** Set.prototype.delete. */
    method SetDelete(f: ListenerId)
      modifies this
      ensures ids == SetDeleted(old(ids), f)
    {
      var rest := ids;
      var kept := [];
      while rest != []
        invariant SetDeleted(ids, f) == kept + SetDeleted(rest, f)
        decreases |rest|
      {
        if rest[0] != f {
          kept := kept + [rest[0]];
        }
        rest := rest[1..];
      }
      ids := kept;
    }

    /** `forEach(f => f())`. */
    method CallAll(trace: Trace)
      modifies trace
      ensures trace.events == old(trace.events) + Notifications(ids)
    {
      CallEach(ids, trace);
    }
  }
}
