/**
 * The client's position watcher: a list of subscriber callbacks sharing one
 * platform watch, registered with the first subscriber and cleared when the
 * last one leaves. The platform's watch calls are recorded in a trace.
 */
module Watch {
  import opened Common

  /** Identity of a subscriber function (removal compares by identity). */
  type CallbackId = nat

  /** What watchPosition returns. */
  type WatchId = nat

  /** The calls the service makes on the platform's geolocation API. */
  datatype PlatformCall = WatchRegistered(id: WatchId) | WatchCleared(id: WatchId)

  /** `s` without any occurrence of `x`, the rest in order. */
  function RemoveAll(s: seq<CallbackId>, x: CallbackId): (r: seq<CallbackId>)
    ensures x !in r
    ensures forall y :: y != x ==> multiset(r)[y] == multiset(s)[y]
    ensures |r| == |s| - multiset(s)[x]
  {
    if s == [] then []
    else
      assert s == [s[0]] + s[1..];
      var rest := RemoveAll(s[1..], x);
      if s[0] == x then rest else [s[0]] + rest
  }

  /** Removal keeps the order of what remains: it distributes over concatenation. */
  lemma {:induction false} RemoveAllAppend(a: seq<CallbackId>, b: seq<CallbackId>, x: CallbackId)
    ensures RemoveAll(a + b, x) == RemoveAll(a, x) + RemoveAll(b, x)
  {
    if a == [] {
      assert a + b == b;
    } else {
      assert (a + b)[0] == a[0];
      assert (a + b)[1..] == a[1..] + b;
      RemoveAllAppend(a[1..], b, x);
    }
  }

  /** Removing a callback that is not subscribed changes nothing. */
  lemma {:induction false} RemoveAllAbsent(s: seq<CallbackId>, x: CallbackId)
    requires x !in s
    ensures RemoveAll(s, x) == s
  {
    if s != [] {
      RemoveAllAbsent(s[1..], x);
    }
  }

  /** Subscribing a new callback and unsubscribing it leaves the other subscribers as they were. */
  lemma SubscribeThenUnsubscribe(s: seq<CallbackId>, x: CallbackId)
    requires x !in s
    ensures RemoveAll(s + [x], x) == s
  {
    RemoveAllAppend(s, [x], x);
    RemoveAllAbsent(s, x);
    assert RemoveAll([x], x) == [];
  }

  class LocationService {
    var watchId: Option<WatchId>
    var callbacks: seq<CallbackId>
    /** The platform calls made so far, oldest first. */
    var calls: seq<PlatformCall>

    /** A platform watch is open exactly while someone is subscribed. */
    ghost predicate Valid()
      reads this
    {
      watchId.Some? <==> |callbacks| > 0
    }

    constructor ()
      ensures Valid() && watchId.None? && callbacks == [] && calls == []
    {
      watchId, callbacks, calls := None, [], [];
    }

    /**
     * startWatching: the callback is appended (a second subscription of the
     * same callback is a second entry); the platform watch is registered, as
     * `platformId`, only when none is open.
     */
    method StartWatching(callback: CallbackId, platformId: WatchId)
      requires Valid()
      modifies this
      ensures Valid()
      ensures callbacks == old(callbacks) + [callback]
      ensures old(watchId).None? ==> watchId == Some(platformId) && calls == old(calls) + [WatchRegistered(platformId)]
      ensures old(watchId).Some? ==> watchId == old(watchId) && calls == old(calls)
    {
      callbacks := callbacks + [callback];
      if watchId.None? {
        watchId := Some(platformId);
        calls := calls + [WatchRegistered(platformId)];
      }
    }

    /**
     * stopWatching: with a callback, every entry of it is dropped; without
     * one, all are. The platform watch is cleared exactly when nobody is left.
     */
    method StopWatching(callback: Option<CallbackId>)
      requires Valid()
      modifies this
      ensures Valid()
      ensures callback.Some? ==> callbacks == RemoveAll(old(callbacks), callback.value)
      ensures callback.None? ==> callbacks == []
      ensures callbacks == [] && old(watchId).Some? ==>
                watchId.None? && calls == old(calls) + [WatchCleared(old(watchId).value)]
      ensures callbacks != [] ==> watchId == old(watchId) && calls == old(calls)
      ensures old(watchId).None? ==> watchId.None? && calls == old(calls)
    {
      if callback.Some? {
        callbacks := RemoveAll(callbacks, callback.value);
      } else {
        callbacks := [];
      }
      if |callbacks| == 0 && watchId.Some? {
        calls := calls + [WatchCleared(watchId.value)];
        watchId := None;
      }
    }

    /**
     * The watch's position handler: every subscribed callback is handed the
     * position once, in subscription order.
     */
    method Deliver(location: Location) returns (delivered: seq<(CallbackId, Location)>)
      ensures |delivered| == |callbacks|
      ensures forall i :: 0 <= i < |delivered| ==> delivered[i] == (callbacks[i], location)
    {
      delivered := [];
      var i := 0;
      while i < |callbacks|
        invariant 0 <= i <= |callbacks|
        invariant |delivered| == i
        invariant forall k :: 0 <= k < i ==> delivered[k] == (callbacks[k], location)
      {
        delivered := delivered + [(callbacks[i], location)];
        i := i + 1;
      }
    }
  }

  /** Two subscribers, one leaves: the watch stays open for the other, and closes when it leaves too. */
  method TwoSubscribers(service: LocationService, first: CallbackId, second: CallbackId, platformId: WatchId)
    requires service.Valid() && service.callbacks == [] && first != second
    modifies service
    ensures service.Valid() && service.watchId.None?
  {
    service.StartWatching(first, platformId);
    service.StartWatching(second, platformId + 1);
    assert service.watchId == Some(platformId);
    service.StopWatching(Some(first));
    assert service.callbacks == [second] by {
      assert service.callbacks == RemoveAll([first, second], first);
      assert [first, second] == [first] + [second];
      RemoveAllAppend([first], [second], first);
      RemoveAllAbsent([second], first);
    }
    assert service.watchId == Some(platformId);
    service.StopWatching(Some(second));
  }
}
