/**
 * The client's location-polling service: start/stop/restart of the
 * recurring cycle, and what one cycle does. The platform (device position,
 * HTTP calls, timers) is outside; each of its answers is a parameter, and
 * what the service asks of it or hands to its callbacks is appended to a
 * trace of effects.
 */
module Polling {
  import opened Common

  /** Identity of a callback function (two registrations compare by identity). */
  type CallbackId = nat

  /** What setInterval returns. */
  type TimerHandle = nat

  /** Interval used when the caller does not give one. */
  const DEFAULT_INTERVAL_MS := 5000
  /** The radius the client always asks the nearby endpoint for. */
  const NEARBY_QUERY_RADIUS := 2000000

  datatype Effect =
    | DeviceQueried                                                   // getCurrentPosition
    | LocationPosted(userId: UserId, location: Location)              // POST /api/users/location
    | LocationDelivered(callback: CallbackId, location: Location)     // onLocationUpdate(location)
    | NearbyRequested(userId: UserId, location: Location, radius: int) // GET /api/users/nearby
    | NearbyDelivered(callback: CallbackId, users: seq<NearbyUser>)   // onNearbyUsersUpdate(users)
    | ErrorLogged                                                     // console.error
    | TimerArmed(handle: TimerHandle, intervalMs: int)                // setInterval
    | TimerCleared(handle: TimerHandle)                               // clearInterval

  /**
   * What getCurrentLocation comes back with: no geolocation API at all (no
   * query is made), a query that fails or is refused (logged), or a position.
   */
  datatype DeviceAnswer = Unsupported | Failed | Position(location: Location)

  /**
   * The platform's answers during one cycle: the device's answer, whether the
   * location POST succeeded, and the users of the nearby response (None when
   * the fetch failed).
   */
  datatype CycleOutcome = CycleOutcome(device: DeviceAnswer, postOk: bool, nearby: Option<seq<NearbyUser>>)

  /** The service's fields, as a value. */
  datatype PollerState = PollerState(
    pollingInterval: Option<TimerHandle>,
    isPolling: bool,
    currentUserId: Option<UserId>,
    onLocationUpdate: Option<CallbackId>,
    onNearbyUsersUpdate: Option<CallbackId>)

  /** A state change together with the effects it produced, in order. */
  datatype Transition = Transition(state: PollerState, effects: seq<Effect>)

  const IDLE := PollerState(None, false, None, None, None)

  /** Between public calls: polling exactly when a user, a timer and both callbacks are set. */
  predicate Consistent(s: PollerState)
  {
    && (s.isPolling <==> s.currentUserId.Some?)
    && (s.isPolling <==> s.pollingInterval.Some?)
    && (s.isPolling <==> s.onLocationUpdate.Some?)
    && (s.isPolling <==> s.onNearbyUsersUpdate.Some?)
  }

  /** How many timers a trace arms. */
  function TimersArmed(e: seq<Effect>): nat
  {
    if e == [] then 0 else (if e[0].TimerArmed? then 1 else 0) + TimersArmed(e[1..])
  }

  predicate NoTimers(e: seq<Effect>)
  {
    forall i :: 0 <= i < |e| ==> !e[i].TimerArmed?
  }

  lemma {:induction false} TimersArmedAppend(a: seq<Effect>, b: seq<Effect>)
    ensures TimersArmed(a + b) == TimersArmed(a) + TimersArmed(b)
  {
    if a == [] {
      assert a + b == b;
    } else {
      assert (a + b)[1..] == a[1..] + b;
      TimersArmedAppend(a[1..], b);
    }
  }

  lemma {:induction false} NoTimersArmed(e: seq<Effect>)
    requires NoTimers(e)
    ensures TimersArmed(e) == 0
  {
    if e != [] {
      NoTimersArmed(e[1..]);
    }
  }

  function Logged(failed: bool): seq<Effect>
  {
    if failed then [ErrorLogged] else []
  }

  /** `callback?.(location)`. */
  function NotifyLocation(callback: Option<CallbackId>, location: Location): seq<Effect>
  {
    if callback.Some? then [LocationDelivered(callback.value, location)] else []
  }

  /** `callback?.(users)`. */
  function NotifyNearby(callback: Option<CallbackId>, users: seq<NearbyUser>): seq<Effect>
  {
    if callback.Some? then [NearbyDelivered(callback.value, users)] else []
  }

  /** updateLocationOnServer: nothing without a user; a failure is only logged. */
  function PostLocation(userId: Option<UserId>, location: Location, ok: bool): (e: seq<Effect>)
    ensures !TruthyString(userId) ==> e == []
    ensures TruthyString(userId) ==> |e| == (if ok then 1 else 2) && e[0] == LocationPosted(userId.value, location)
    ensures TruthyString(userId) && !ok ==> e[1] == ErrorLogged
    ensures forall x :: x in e ==> x.LocationPosted? || x.ErrorLogged?
  {
    if !TruthyString(userId) then [] else [LocationPosted(userId.value, location)] + Logged(!ok)
  }

  /** fetchNearbyUsers: `[]` without a user; a failed fetch is logged and yields `[]`. */
  function FetchNearby(userId: Option<UserId>, location: Location, answer: Option<seq<NearbyUser>>)
    : (r: (seq<Effect>, seq<NearbyUser>))
    ensures !TruthyString(userId) ==> r == ([], [])
    ensures TruthyString(userId) ==> |r.0| >= 1 && r.0[0] == NearbyRequested(userId.value, location, NEARBY_QUERY_RADIUS)
    ensures answer.None? ==> r.1 == []
    ensures TruthyString(userId) && answer.Some? ==> r.1 == answer.value
  {
    if !TruthyString(userId) then ([], [])
    else
      var request := [NearbyRequested(userId.value, location, NEARBY_QUERY_RADIUS)];
      match answer
      case None => (request + [ErrorLogged], [])
      case Some(users) => (request, users)
  }

  /**
   * The steps after the position is known, as updateLocationManually runs
   * them: post the position, hand it to the location callback, fetch the
   * nearby users, hand them to the nearby callback. Nothing without a user.
   */
  function Report(s: PollerState, location: Location, postOk: bool, nearby: Option<seq<NearbyUser>>): (e: seq<Effect>)
    ensures !TruthyString(s.currentUserId) ==> e == []
    ensures NoTimers(e)
  {
    if !TruthyString(s.currentUserId) then []
    else
      var fetched := FetchNearby(s.currentUserId, location, nearby);
      var posted := PostLocation(s.currentUserId, location, postOk);
      assert NoTimers(posted) && NoTimers(fetched.0) by {
        assert forall x :: x in fetched.0 ==> x.NearbyRequested? || x.ErrorLogged?;
      }
      posted
      + NotifyLocation(s.onLocationUpdate, location)
      + fetched.0
      + NotifyNearby(s.onNearbyUsersUpdate, fetched.1)
  }

  /**
   * With a user and both callbacks installed, a report is, in this order:
   * the location POST (and a logged error if it fails), the location
   * callback even after a failed POST, the nearby request (and a logged
   * error if it fails), and the nearby callback, given `[]` after a failed
   * fetch.
   */
  lemma ReportTrace(s: PollerState, location: Location, postOk: bool, nearby: Option<seq<NearbyUser>>)
    requires TruthyString(s.currentUserId) && s.onLocationUpdate.Some? && s.onNearbyUsersUpdate.Some?
    ensures var u := s.currentUserId.value;
            Report(s, location, postOk, nearby)
            == [LocationPosted(u, location)] + Logged(!postOk)
               + [LocationDelivered(s.onLocationUpdate.value, location),
                  NearbyRequested(u, location, NEARBY_QUERY_RADIUS)]
               + Logged(nearby.None?)
               + [NearbyDelivered(s.onNearbyUsersUpdate.value, if nearby.Some? then nearby.value else [])]
  {
  }

  /**
   * One poll. Nothing unless polling with a (truthy) user. Then: nothing
   * more without a geolocation API; the device query and a logged error when
   * the query fails; otherwise the device query followed by the report of
   * the position. A cycle never arms a timer.
   */
  function Cycle(s: PollerState, outcome: CycleOutcome): (e: seq<Effect>)
    ensures !s.isPolling || !TruthyString(s.currentUserId) ==> e == []
    ensures outcome.device.Unsupported? ==> e == []
    ensures s.isPolling && TruthyString(s.currentUserId) && outcome.device.Failed? ==>
              e == [DeviceQueried, ErrorLogged]
    ensures s.isPolling && TruthyString(s.currentUserId) && outcome.device.Position? ==>
              e == [DeviceQueried] + Report(s, outcome.device.location, outcome.postOk, outcome.nearby)
    ensures NoTimers(e)
  {
    if !TruthyString(s.currentUserId) || !s.isPolling then []
    else
      match outcome.device
      case Unsupported => []
      case Failed => [DeviceQueried, ErrorLogged]
      case Position(location) => [DeviceQueried] + Report(s, location, outcome.postOk, outcome.nearby)
  }

  /** stopPolling: clear the timer if any, and reset every field. */
  function Stop(s: PollerState): (r: Transition)
    ensures r.state == IDLE && Consistent(r.state)
    ensures s.pollingInterval.None? ==> r.effects == []
    ensures s.pollingInterval.Some? ==> r.effects == [TimerCleared(s.pollingInterval.value)]
  {
    var cleared := if s.pollingInterval.Some? then [TimerCleared(s.pollingInterval.value)] else [];
    Transition(IDLE, cleared)
  }

  /**
   * startPolling: a no-op when already polling for this user; otherwise stop
   * whatever runs, install the user and callbacks, run one cycle at once (it
   * starts before setInterval returns, so before the handle is stored) and
   * arm exactly one timer.
   */
  function Start(s: PollerState, userId: UserId, onLocation: CallbackId, onNearby: CallbackId,
                 intervalMs: int, handle: TimerHandle, outcome: CycleOutcome): (r: Transition)
    requires Consistent(s)
    ensures Consistent(r.state)
    ensures s.isPolling && s.currentUserId == Some(userId) ==> r == Transition(s, [])
    ensures !(s.isPolling && s.currentUserId == Some(userId)) ==>
              r.state == PollerState(Some(handle), true, Some(userId), Some(onLocation), Some(onNearby))
    ensures !(s.isPolling && s.currentUserId == Some(userId)) ==>
              r.effects == Stop(s).effects
                           + Cycle(PollerState(None, true, Some(userId), Some(onLocation), Some(onNearby)), outcome)
                           + [TimerArmed(handle, intervalMs)]
  {
    if s.isPolling && s.currentUserId == Some(userId) then Transition(s, [])
    else
      var stopped := if s.isPolling then Stop(s).effects else [];
      var installed := PollerState(None, true, Some(userId), Some(onLocation), Some(onNearby));
      Transition(installed.(pollingInterval := Some(handle)),
                 stopped + Cycle(installed, outcome) + [TimerArmed(handle, intervalMs)])
  }

  /**
   * A start that does something arms exactly one timer, as its last effect,
   * and, when it replaces a running poll, first clears that poll's timer.
   */
  lemma StartArmsOneTimer(s: PollerState, userId: UserId, onLocation: CallbackId, onNearby: CallbackId,
                          intervalMs: int, handle: TimerHandle, outcome: CycleOutcome)
    requires Consistent(s) && !(s.isPolling && s.currentUserId == Some(userId))
    ensures var e := Start(s, userId, onLocation, onNearby, intervalMs, handle, outcome).effects;
            && TimersArmed(e) == 1
            && e[|e| - 1] == TimerArmed(handle, intervalMs)
            && (s.isPolling ==> e[0] == TimerCleared(s.pollingInterval.value))
  {
    var stopped := if s.isPolling then Stop(s).effects else [];
    var installed := PollerState(None, true, Some(userId), Some(onLocation), Some(onNearby));
    var cycle := Cycle(installed, outcome);
    var armed := [TimerArmed(handle, intervalMs)];
    NoTimersArmed(stopped);
    NoTimersArmed(cycle);
    TimersArmedAppend(stopped, cycle);
    TimersArmedAppend(stopped + cycle, armed);
    assert TimersArmed(armed) == 1;
  }

  /** Stopping twice is stopping once: the second call changes nothing and clears nothing. */
  lemma StopIdempotent(s: PollerState)
    ensures Stop(Stop(s).state) == Transition(Stop(s).state, [])
  {
  }

  /** Starting for another user is a stop followed by a start from idle. */
  lemma RestartIsStopThenStart(s: PollerState, userId: UserId, onLocation: CallbackId, onNearby: CallbackId,
                               intervalMs: int, handle: TimerHandle, outcome: CycleOutcome)
    requires Consistent(s) && s.isPolling && s.currentUserId != Some(userId)
    ensures var direct := Start(s, userId, onLocation, onNearby, intervalMs, handle, outcome);
            var restarted := Start(Stop(s).state, userId, onLocation, onNearby, intervalMs, handle, outcome);
            direct.state == restarted.state && direct.effects == Stop(s).effects + restarted.effects
  {
    var installed := PollerState(None, true, Some(userId), Some(onLocation), Some(onNearby));
    var tail := Cycle(installed, outcome) + [TimerArmed(handle, intervalMs)];
    assert Start(Stop(s).state, userId, onLocation, onNearby, intervalMs, handle, outcome).effects
           == [] + Cycle(installed, outcome) + [TimerArmed(handle, intervalMs)];
    assert [] + Cycle(installed, outcome) + [TimerArmed(handle, intervalMs)] == tail;
    assert Stop(s).effects + Cycle(installed, outcome) + [TimerArmed(handle, intervalMs)]
           == Stop(s).effects + tail;
  }

  /** A start repeated for the same user arms no second timer and changes nothing. */
  lemma StartTwiceArmsOnce(s: PollerState, userId: UserId, onLocation: CallbackId, onNearby: CallbackId,
                           intervalMs: int, handle: TimerHandle, handle2: TimerHandle,
                           outcome: CycleOutcome, outcome2: CycleOutcome)
    requires Consistent(s) && !s.isPolling
    ensures var first := Start(s, userId, onLocation, onNearby, intervalMs, handle, outcome);
            var second := Start(first.state, userId, onLocation, onNearby, intervalMs, handle2, outcome2);
            second.state == first.state
            && TimersArmed(first.effects + second.effects) == 1
  {
    var first := Start(s, userId, onLocation, onNearby, intervalMs, handle, outcome);
    var second := Start(first.state, userId, onLocation, onNearby, intervalMs, handle2, outcome2);
    StartArmsOneTimer(s, userId, onLocation, onNearby, intervalMs, handle, outcome);
    assert first.effects + second.effects == first.effects;
  }

  class LocationPollingService {
    var pollingInterval: Option<TimerHandle>
    var isPolling: bool
    var currentUserId: Option<UserId>
    var onLocationUpdate: Option<CallbackId>
    var onNearbyUsersUpdate: Option<CallbackId>
    /** What the service has asked of the platform and handed to callbacks, oldest first. */
    var effects: seq<Effect>

    function State(): PollerState
      reads this`pollingInterval, this`isPolling, this`currentUserId, this`onLocationUpdate, this`onNearbyUsersUpdate
    {
      PollerState(pollingInterval, isPolling, currentUserId, onLocationUpdate, onNearbyUsersUpdate)
    }

    ghost predicate Valid()
      reads this
    {
      Consistent(State())
    }

    constructor ()
      ensures Valid() && State() == IDLE && effects == []
    {
      pollingInterval, isPolling, currentUserId := None, false, None;
      onLocationUpdate, onNearbyUsersUpdate := None, None;
      effects := [];
    }

    /** getPollingStatus: polling exactly when a user is set. */
    function GetPollingStatus(): (status: (bool, Option<UserId>))
      reads this
      requires Valid()
      ensures status.0 <==> status.1.Some?
      ensures status.1 == currentUserId
    {
      (isPolling, currentUserId)
    }

    method StartPolling(userId: UserId, onLocation: CallbackId, onNearby: CallbackId,
                        handle: TimerHandle, outcome: CycleOutcome, intervalMs: int := DEFAULT_INTERVAL_MS)
      requires Valid()
      modifies this
      ensures Valid()
      ensures var t := Start(old(State()), userId, onLocation, onNearby, intervalMs, handle, outcome);
              State() == t.state && effects == old(effects) + t.effects
    {
      if isPolling && currentUserId == Some(userId) {
        return;
      }
      if isPolling {
        ghost var running := State();
        StopPolling();
        RestartIsStopThenStart(running, userId, onLocation, onNearby, intervalMs, handle, outcome);
      }
      Launch(userId, onLocation, onNearby, handle, outcome, intervalMs);
    }

    /** The part of startPolling after any running poll is stopped: install, poll once, arm the timer. */
    method Launch(userId: UserId, onLocation: CallbackId, onNearby: CallbackId,
                  handle: TimerHandle, outcome: CycleOutcome, intervalMs: int)
      requires Valid() && !isPolling
      modifies this
      ensures Valid()
      ensures var t := Start(old(State()), userId, onLocation, onNearby, intervalMs, handle, outcome);
              State() == t.state && effects == old(effects) + t.effects
    {
      currentUserId := Some(userId);
      onLocationUpdate := Some(onLocation);
      onNearbyUsersUpdate := Some(onNearby);
      isPolling := true;
      ghost var before := effects;
      ghost var installed := State();
      Poll(outcome);
      pollingInterval := Some(handle);
      effects := effects + [TimerArmed(handle, intervalMs)];
      assert [] + Cycle(installed, outcome) + [TimerArmed(handle, intervalMs)]
             == Cycle(installed, outcome) + [TimerArmed(handle, intervalMs)];
    }

    method StopPolling()
      modifies this
      ensures State() == IDLE && Valid()
      ensures effects == old(effects) + Stop(old(State())).effects
    {
      if pollingInterval.Some? {
        effects := effects + [TimerCleared(pollingInterval.value)];
        pollingInterval := None;
      }
      isPolling := false;
      currentUserId := None;
      onLocationUpdate := None;
      onNearbyUsersUpdate := None;
    }

    /** poll(): one cycle. */
    method Poll(outcome: CycleOutcome)
      modifies this`effects
      ensures effects == old(effects) + Cycle(State(), outcome)
    {
      if !TruthyString(currentUserId) || !isPolling {
        return;
      }
      match outcome.device {
        case Unsupported =>
        case Failed =>
          effects := effects + [DeviceQueried, ErrorLogged];
        case Position(location) =>
          effects := effects + [DeviceQueried];
          UpdateLocationManually(location, outcome.postOk, outcome.nearby);
      }
    }

    /** updateLocationOnServer. */
    method UpdateLocationOnServer(location: Location, ok: bool)
      modifies this`effects
      ensures effects == old(effects) + PostLocation(currentUserId, location, ok)
    {
      if !TruthyString(currentUserId) {
        return;
      }
      effects := effects + [LocationPosted(currentUserId.value, location)];
      if !ok {
        effects := effects + [ErrorLogged];
      }
    }

    /** fetchNearbyUsers. */
    method FetchNearbyUsers(location: Location, answer: Option<seq<NearbyUser>>) returns (users: seq<NearbyUser>)
      modifies this`effects
      ensures var fetched := FetchNearby(currentUserId, location, answer);
              effects == old(effects) + fetched.0 && users == fetched.1
    {
      if !TruthyString(currentUserId) {
        return [];
      }
      effects := effects + [NearbyRequested(currentUserId.value, location, NEARBY_QUERY_RADIUS)];
      if answer.None? {
        effects := effects + [ErrorLogged];
        return [];
      }
      users := answer.value;
    }

    /** updateLocationManually: post, notify, fetch, notify; nothing without a user. */
    method UpdateLocationManually(location: Location, postOk: bool, nearby: Option<seq<NearbyUser>>)
      modifies this`effects
      ensures effects == old(effects) + Report(State(), location, postOk, nearby)
    {
      if !TruthyString(currentUserId) {
        return;
      }
      ghost var start := effects;
      ghost var posted := PostLocation(currentUserId, location, postOk);
      ghost var notified := NotifyLocation(onLocationUpdate, location);
      ghost var fetched := FetchNearby(currentUserId, location, nearby);
      UpdateLocationOnServer(location, postOk);
      if onLocationUpdate.Some? {
        effects := effects + [LocationDelivered(onLocationUpdate.value, location)];
      }
      assert effects == start + posted + notified;
      var users := FetchNearbyUsers(location, nearby);
      assert effects == start + posted + notified + fetched.0;
      if onNearbyUsersUpdate.Some? {
        effects := effects + [NearbyDelivered(onNearbyUsersUpdate.value, users)];
      }
      assert effects == start + posted + notified + fetched.0 + NotifyNearby(onNearbyUsersUpdate, fetched.1);
      assert start + posted + notified + fetched.0 + NotifyNearby(onNearbyUsersUpdate, fetched.1)
             == start + (posted + notified + fetched.0 + NotifyNearby(onNearbyUsersUpdate, fetched.1));
    }
  }
}
