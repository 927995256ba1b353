/**
 * POST and GET /api/users/location over the location table, a map from user
 * id to that user's single location row.
 */
module LocationRoute {
  import opened Common

  /**
   * A body field as the store sees it: omitted (an update leaves the column
   * as it is), an explicit null, or a value.
   */
  datatype Field<T> = Omitted | Null | Given(value: T)

  /** The JSON body of POST; `None` is a field that is absent or null. */
  datatype LocationBody = LocationBody(
    userId: Option<string>,
    latitude: Option<real>,
    longitude: Option<real>,
    accuracy: Field<real>)

  type Locations = map<UserId, LocationRecord>

  /** The minimal user projection the GET response carries. */
  datatype UserSummary = UserSummary(id: UserId, name: string, avatar: Option<string>)

  /** The GET response: the stored row and its user, if that user exists. */
  datatype LocationView = LocationView(record: LocationRecord, user: Option<UserSummary>)

  /** Every row sits under its own user's key: one location per user. */
  predicate WellKeyed(locations: Locations)
  {
    forall u :: u in locations ==> locations[u].userId == u
  }

  /** The truthiness check on the body: 0 is as missing as an absent field. */
  predicate AcceptsBody(body: LocationBody)
  {
    TruthyString(body.userId) && TruthyNumber(body.latitude) && TruthyNumber(body.longitude)
  }

  /**
   * The upsert keyed by `userId`: the row is created when absent and
   * overwritten when present, always active and stamped with `now`; an
   * omitted accuracy keeps the stored one on update. Other users' rows are
   * untouched.
   */
  function Upsert(locations: Locations, userId: UserId, latitude: real, longitude: real,
                  accuracy: Field<real>, now: Millis, freshId: string): (m: Locations)
    requires WellKeyed(locations)
    ensures WellKeyed(m)
    ensures m.Keys == locations.Keys + {userId}
    ensures forall u :: u in locations && u != userId ==> m[u] == locations[u]
    ensures m[userId].latitude == latitude && m[userId].longitude == longitude
    ensures m[userId].isActive && m[userId].lastSeen == now
    ensures userId in locations ==> m[userId].id == locations[userId].id
    ensures userId !in locations ==> m[userId].id == freshId
    ensures accuracy.Given? ==> m[userId].accuracy == Some(accuracy.value)
    ensures accuracy.Null? ==> m[userId].accuracy == None
    ensures accuracy.Omitted? && userId in locations ==> m[userId].accuracy == locations[userId].accuracy
    ensures accuracy.Omitted? && userId !in locations ==> m[userId].accuracy == None
  {
    if userId in locations then
      var prev := locations[userId];
      var acc := match accuracy
        case Omitted => prev.accuracy
        case Null => None
        case Given(a) => Some(a);
      locations[userId := prev.(latitude := latitude, longitude := longitude, accuracy := acc,
                                isActive := true, lastSeen := now)]
    else
      var acc := if accuracy.Given? then Some(accuracy.value) else None;
      locations[userId := LocationRecord(freshId, userId, latitude, longitude, acc, true, now)]
  }

  /**
   * POST: 400 when `userId`, `latitude` or `longitude` is falsy (a
   * coordinate of exactly 0 included), leaving the table alone; otherwise the
   * upsert, answering with the stored row.
   */
  function Post(locations: Locations, body: LocationBody, now: Millis, freshId: string): (r: Step<Locations, LocationRecord>)
    requires WellKeyed(locations)
    ensures r.response.Err? <==> (body.userId.None? || body.userId.value == ""
                                  || body.latitude.None? || body.latitude.value == 0.0
                                  || body.longitude.None? || body.longitude.value == 0.0)
    ensures r.response.Err? ==> r.response.status == BadRequest && r.state == locations
    ensures r.response.Ok? ==>
              && r.state == Upsert(locations, body.userId.value, body.latitude.value, body.longitude.value,
                                   body.accuracy, now, freshId)
              && r.response.value == r.state[body.userId.value]
  {
    if !AcceptsBody(body) then
      Step(Err(BadRequest), locations)
    else
      var userId := body.userId.value;
      var m := Upsert(locations, userId, body.latitude.value, body.longitude.value, body.accuracy, now, freshId);
      Step(Ok(m[userId]), m)
  }

  /** GET: 400 without a user id, 404 without a stored location, else the row and its user. */
  function Get(locations: Locations, users: map<UserId, User>, userId: Option<string>): (r: Result<LocationView>)
    ensures !TruthyString(userId) ==> r == Err(BadRequest)
    ensures TruthyString(userId) ==> (r.Err? <==> userId.value !in locations)
    ensures TruthyString(userId) && r.Err? ==> r.status == NotFound
    ensures r.Ok? ==> r.value.record == locations[userId.value]
    ensures r.Ok? ==> (r.value.user.Some? <==> userId.value in users)
    ensures r.Ok? && r.value.user.Some? ==>
              var user := users[userId.value];
              r.value.user.value == UserSummary(user.id, user.name, user.avatar)
  {
    if !TruthyString(userId) then Err(BadRequest)
    else if userId.value !in locations then Err(NotFound)
    else
      var u := userId.value;
      var summary := if u in users then Some(UserSummary(users[u].id, users[u].name, users[u].avatar)) else None;
      Ok(LocationView(locations[u], summary))
  }

  /** Reading back after a successful POST yields exactly the row POST answered with. */
  lemma PostThenGet(locations: Locations, users: map<UserId, User>, body: LocationBody, now: Millis, freshId: string)
    requires WellKeyed(locations)
    requires Post(locations, body, now, freshId).response.Ok?
    ensures var step := Post(locations, body, now, freshId);
            Get(step.state, users, body.userId).Ok?
            && Get(step.state, users, body.userId).value.record == step.response.value
  {
  }

  /**
   * Two accepted POSTs for the same user leave one row holding the later
   * coordinates and time, under the id the first one gave it.
   */
  lemma PostTwiceKeepsLater(locations: Locations, first: LocationBody, second: LocationBody,
                            t1: Millis, t2: Millis, id1: string, id2: string)
    requires WellKeyed(locations)
    requires Post(locations, first, t1, id1).response.Ok?
    requires second.userId == first.userId
    requires Post(Post(locations, first, t1, id1).state, second, t2, id2).response.Ok?
    ensures var after := Post(Post(locations, first, t1, id1).state, second, t2, id2).state;
            var u := first.userId.value;
            && after.Keys == locations.Keys + {u}
            && after[u].latitude == second.latitude.value
            && after[u].longitude == second.longitude.value
            && after[u].lastSeen == t2
            && after[u].id == Post(locations, first, t1, id1).response.value.id
  {
  }
}
