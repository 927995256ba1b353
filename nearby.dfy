/**
 * GET /api/users/nearby: parameter validation, the candidate predicate the
 * store query applies, the 50-row cap, the radius filter, the result
 * projection and the sort by rounded distance. The handler writes nothing,
 * so it is a function of the query, a snapshot of the user rows, the clock
 * and the distance function (the haversine formula, left abstract).
 */
module Nearby {
  import opened Common

  /** A location older than this many milliseconds is stale (one hour). */
  const FRESHNESS_WINDOW_MS := 60 * 60 * 1000
  /** The store returns at most this many candidate rows. */
  const CANDIDATE_LIMIT := 50
  /** Radius in metres when the request does not give one. */
  const DEFAULT_RADIUS := 1000

  /** What parseFloat yields: NaN or a number. */
  datatype JsNumber = NaN | Num(v: real)

  /**
   * The query string. `None` is a parameter that is absent or empty (both
   * fall back to the handler's default string); `radius` is the value
   * parseInt produced.
   */
  datatype NearbyQuery = NearbyQuery(
    lat: Option<JsNumber>,
    lng: Option<JsNumber>,
    radius: Option<int>,
    userId: Option<string>)

  /** The validated query: query point, radius in metres, the requesting user. */
  datatype ParsedQuery = ParsedQuery(lat: real, lng: real, radius: int, viewer: UserId)

  /** Distance in metres from (lat1, lon1) to (lat2, lon2). */
  type DistanceFn = (real, real, real, real) -> real

  /** A user row read together with its location and privacy-settings rows. */
  datatype UserRow = UserRow(user: User, location: Option<LocationRecord>, privacy: Option<PrivacySettings>)

  /** JavaScript truthiness of a parsed number: 0 and NaN are falsy. */
  predicate Truthy(n: JsNumber)
  {
    n.Num? && n.v != 0.0
  }

  function OrZero(p: Option<JsNumber>): JsNumber
  {
    if p.Some? then p.value else Num(0.0)
  }

  /**
   * Validation: latitude and longitude must both be present, numeric and
   * non-zero, so a point on the equator or the prime meridian is refused
   * like a missing one.
   */
  function ParseQuery(q: NearbyQuery): (r: Result<ParsedQuery>)
    ensures r.Ok? <==> (q.lat.Some? && q.lat.value.Num? && q.lat.value.v != 0.0
                        && q.lng.Some? && q.lng.value.Num? && q.lng.value.v != 0.0)
    ensures r.Err? ==> r.status == BadRequest
    ensures r.Ok? ==> r.value.lat == q.lat.value.v && r.value.lng == q.lng.value.v
    ensures r.Ok? && q.radius.None? ==> r.value.radius == DEFAULT_RADIUS
    ensures r.Ok? && q.radius.Some? ==> r.value.radius == q.radius.value
    ensures r.Ok? && q.userId.None? ==> r.value.viewer == ""
    ensures r.Ok? && q.userId.Some? ==> r.value.viewer == q.userId.value
  {
    var lat := OrZero(q.lat);
    var lng := OrZero(q.lng);
    if !Truthy(lat) || !Truthy(lng) then
      Err(BadRequest)
    else
      var radius := if q.radius.Some? then q.radius.value else DEFAULT_RADIUS;
      var viewer := if q.userId.Some? then q.userId.value else "";
      Ok(ParsedQuery(lat.v, lng.v, radius, viewer))
  }

  /**
   * The store-side filter: someone other than the viewer, with an active
   * location seen within the last hour, who allows nearby search and is not
   * PRIVATE. FRIENDS is treated like PUBLIC: no friendship is checked.
   */
  predicate IsCandidate(row: UserRow, viewer: UserId, now: Millis)
  {
    && row.user.id != viewer
    && row.location.Some?
    && row.location.value.isActive
    && row.location.value.lastSeen >= now - FRESHNESS_WINDOW_MS
    && row.privacy.Some?
    && row.privacy.value.allowNearbySearch
    && row.privacy.value.visibility != PRIVATE
  }

  /** The rows that pass the filter, in store order. */
  function Matching(rows: seq<UserRow>, viewer: UserId, now: Millis): (r: seq<UserRow>)
    ensures |r| <= |rows|
    ensures forall x :: x in r ==> x in rows && IsCandidate(x, viewer, now)
    ensures forall x :: x in rows && IsCandidate(x, viewer, now) ==> x in r
  {
    if rows == [] then []
    else
      var rest := Matching(rows[1..], viewer, now);
      if IsCandidate(rows[0], viewer, now) then [rows[0]] + rest else rest
  }

  /**
   * The store query with `take: 50`: the first fifty matching rows. When
   * fewer than fifty come back, every matching row is among them.
   */
  function FetchCandidates(rows: seq<UserRow>, viewer: UserId, now: Millis): (r: seq<UserRow>)
    ensures |r| <= CANDIDATE_LIMIT
    ensures forall x :: x in r ==> x in rows && IsCandidate(x, viewer, now)
    ensures |r| < CANDIDATE_LIMIT ==> forall x :: x in rows && IsCandidate(x, viewer, now) ==> x in r
  {
    var m := Matching(rows, viewer, now);
    if |m| <= CANDIDATE_LIMIT then m else m[..CANDIDATE_LIMIT]
  }

  /** The privacy fields of a row as the response echoes them. */
  function PrivacyOf(p: Option<PrivacySettings>): PrivacyView
  {
    match p
    case None => PrivacyView(None, None, None)
    case Some(s) => PrivacyView(Some(s.visibility), Some(s.showDistance), Some(s.showLastSeen))
  }

  /**
   * The map step for one candidate: dropped when it has no location or lies
   * farther than the radius; otherwise the response entry. The rounded
   * distance is always included, whatever `showDistance` says.
   */
  function Project(row: UserRow, p: ParsedQuery, distance: DistanceFn): (r: Option<NearbyUser>)
    ensures r.Some? <==> row.location.Some? && distance(p.lat, p.lng, row.location.value.latitude,
                                                        row.location.value.longitude) <= p.radius as real
    ensures r.Some? ==> r.value.id == row.user.id && r.value.name == row.user.name
                        && r.value.avatar == row.user.avatar
    ensures r.Some? ==> var loc := row.location.value;
                        && r.value.distance == Round(distance(p.lat, p.lng, loc.latitude, loc.longitude))
                        && r.value.distance <= p.radius
                        && r.value.isOnline == loc.isActive
                        && r.value.lastSeen == loc.lastSeen == r.value.location.timestamp
                        && r.value.location.latitude == loc.latitude
                        && r.value.location.longitude == loc.longitude
                        && r.value.location.accuracy == loc.accuracy
    ensures r.Some? ==> r.value.privacy == PrivacyOf(row.privacy)
  {
    match row.location
    case None => None
    case Some(loc) =>
      var d := distance(p.lat, p.lng, loc.latitude, loc.longitude);
      if d > p.radius as real then None
      else
        Some(NearbyUser(
          row.user.id, row.user.name, row.user.avatar, Round(d),
          Location(loc.latitude, loc.longitude, loc.accuracy, loc.lastSeen),
          loc.isActive, loc.lastSeen, PrivacyOf(row.privacy)))
  }

  /** Map then drop the nulls: the entries that survive, in candidate order. */
  function Survivors(rows: seq<UserRow>, p: ParsedQuery, distance: DistanceFn): (r: seq<NearbyUser>)
    ensures |r| <= |rows|
    ensures forall u :: u in r ==> exists row :: row in rows && Project(row, p, distance) == Some(u)
    ensures forall row :: row in rows && Project(row, p, distance).Some? ==> Project(row, p, distance).value in r
  {
    if rows == [] then []
    else
      var rest := Survivors(rows[1..], p, distance);
      match Project(rows[0], p, distance)
      case None => rest
      case Some(u) => [u] + rest
  }

  predicate SortedByDistance(s: seq<NearbyUser>)
  {
    forall i, j :: 0 <= i < j < |s| ==> s[i].distance <= s[j].distance
  }

  /** Insert ahead of the first entry that is not nearer, so equal keys keep their order. */
  function Insert(u: NearbyUser, s: seq<NearbyUser>): (r: seq<NearbyUser>)
    requires SortedByDistance(s)
    ensures SortedByDistance(r)
    ensures forall x :: x in r ==> x == u || x in s
    ensures multiset(r) == multiset(s) + multiset{u}
  {
    if s == [] || u.distance <= s[0].distance then [u] + s
    else
      var rest := Insert(u, s[1..]);
      assert s == [s[0]] + s[1..];
      assert forall k :: 0 <= k < |rest| ==> s[0].distance <= rest[k].distance by {
        forall k | 0 <= k < |rest|
          ensures s[0].distance <= rest[k].distance
        {
          assert rest[k] in rest;
        }
      }
      [s[0]] + rest
  }

  /** Array.prototype.sort with comparator `a.distance - b.distance` (a stable sort). */
  function SortByDistance(s: seq<NearbyUser>): (r: seq<NearbyUser>)
    ensures SortedByDistance(r)
    ensures multiset(r) == multiset(s)
  {
    if s == [] then []
    else
      assert s == [s[0]] + s[1..];
      Insert(s[0], SortByDistance(s[1..]))
  }

  /** The whole handler: 400 on a bad query, otherwise the sorted result list. */
  function Get(q: NearbyQuery, rows: seq<UserRow>, now: Millis, distance: DistanceFn): (r: Result<seq<NearbyUser>>)
    ensures r.Err? <==> ParseQuery(q).Err?
    ensures r.Err? ==> r.status == BadRequest
  {
    match ParseQuery(q)
    case Err(s) => Err(s)
    case Ok(p) => Ok(SortByDistance(Survivors(FetchCandidates(rows, p.viewer, now), p, distance)))
  }

  /** No user appears twice in the store scan. */
  predicate UniqueRowIds(rows: seq<UserRow>)
  {
    forall i, j :: 0 <= i < j < |rows| ==> rows[i].user.id != rows[j].user.id
  }

  /** No user appears twice in a result list. */
  predicate UniqueIds(s: seq<NearbyUser>)
  {
    forall i, j :: 0 <= i < j < |s| ==> s[i].id != s[j].id
  }

  /**
   * Everything returned passed the store filter and the radius filter, the
   * list is sorted by rounded distance, it holds at most fifty entries, and
   * it is a permutation of the entries that survived the radius filter.
   */
  lemma GetSound(q: NearbyQuery, rows: seq<UserRow>, now: Millis, distance: DistanceFn)
    requires Get(q, rows, now, distance).Ok?
    ensures var p := ParseQuery(q).value;
            var users := Get(q, rows, now, distance).value;
            && |users| <= CANDIDATE_LIMIT
            && SortedByDistance(users)
            && multiset(users) == multiset(Survivors(FetchCandidates(rows, p.viewer, now), p, distance))
            && forall u :: u in users ==>
                 exists row :: row in rows && IsCandidate(row, p.viewer, now) && Project(row, p, distance) == Some(u)
  {
    var p := ParseQuery(q).value;
    var candidates := FetchCandidates(rows, p.viewer, now);
    var survivors := Survivors(candidates, p, distance);
    var users := Get(q, rows, now, distance).value;
    assert |multiset(users)| == |multiset(survivors)|;
    forall u | u in users
      ensures exists row :: row in rows && IsCandidate(row, p.viewer, now) && Project(row, p, distance) == Some(u)
    {
      assert u in multiset(survivors);
      var row :| row in candidates && Project(row, p, distance) == Some(u);
      assert row in rows && IsCandidate(row, p.viewer, now);
    }
  }

  /**
   * The privacy and freshness rules seen from the response: never the
   * viewer, never a PRIVATE user, never an inactive or stale location, never
   * farther than the radius.
   */
  lemma GetVisibility(q: NearbyQuery, rows: seq<UserRow>, now: Millis, distance: DistanceFn)
    requires Get(q, rows, now, distance).Ok?
    ensures var p := ParseQuery(q).value;
            forall u :: u in Get(q, rows, now, distance).value ==>
              && u.id != p.viewer
              && u.isOnline
              && u.lastSeen >= now - FRESHNESS_WINDOW_MS
              && u.privacy.visibility.Some? && u.privacy.visibility.value != PRIVATE
              && u.distance <= p.radius
  {
    var p := ParseQuery(q).value;
    forall u | u in Get(q, rows, now, distance).value
      ensures u.id != p.viewer && u.isOnline && u.lastSeen >= now - FRESHNESS_WINDOW_MS
      ensures u.privacy.visibility.Some? && u.privacy.visibility.value != PRIVATE
      ensures u.distance <= p.radius
    {
      GetSound(q, rows, now, distance);
      var row :| row in rows && IsCandidate(row, p.viewer, now) && Project(row, p, distance) == Some(u);
    }
  }

  /**
   * When no more than fifty rows pass the store filter, the cap drops
   * nothing: every such row within the radius is in the response.
   */
  lemma GetComplete(q: NearbyQuery, rows: seq<UserRow>, now: Millis, distance: DistanceFn)
    requires Get(q, rows, now, distance).Ok?
    requires |Matching(rows, ParseQuery(q).value.viewer, now)| <= CANDIDATE_LIMIT
    ensures var p := ParseQuery(q).value;
            forall row :: row in rows && IsCandidate(row, p.viewer, now) && Project(row, p, distance).Some? ==>
              Project(row, p, distance).value in Get(q, rows, now, distance).value
  {
    var p := ParseQuery(q).value;
    var candidates := FetchCandidates(rows, p.viewer, now);
    var survivors := Survivors(candidates, p, distance);
    var users := Get(q, rows, now, distance).value;
    assert candidates == Matching(rows, p.viewer, now);
    forall row | row in rows && IsCandidate(row, p.viewer, now) && Project(row, p, distance).Some?
      ensures Project(row, p, distance).value in users
    {
      assert Project(row, p, distance).value in multiset(survivors);
    }
  }

  lemma {:induction false} MatchingUnique(rows: seq<UserRow>, viewer: UserId, now: Millis)
    requires UniqueRowIds(rows)
    ensures UniqueRowIds(Matching(rows, viewer, now))
  {
    if rows != [] {
      MatchingUnique(rows[1..], viewer, now);
      var rest := Matching(rows[1..], viewer, now);
      forall x | x in rest ensures x.user.id != rows[0].user.id {
        var k :| 1 <= k < |rows| && rows[k] == x;
      }
    }
  }

  lemma {:induction false} SurvivorsUnique(rows: seq<UserRow>, p: ParsedQuery, distance: DistanceFn)
    requires UniqueRowIds(rows)
    ensures UniqueIds(Survivors(rows, p, distance))
  {
    if rows != [] {
      SurvivorsUnique(rows[1..], p, distance);
      var rest := Survivors(rows[1..], p, distance);
      forall x | x in rest ensures x.id != rows[0].user.id {
        var row :| row in rows[1..] && Project(row, p, distance) == Some(x);
        var k :| 1 <= k < |rows| && rows[k] == row;
      }
    }
  }

  lemma {:induction false} InsertUnique(u: NearbyUser, s: seq<NearbyUser>)
    requires SortedByDistance(s) && UniqueIds(s)
    requires forall x :: x in s ==> x.id != u.id
    ensures UniqueIds(Insert(u, s))
  {
    if s != [] && u.distance > s[0].distance {
      InsertUnique(u, s[1..]);
      var rest := Insert(u, s[1..]);
      forall x | x in rest ensures x.id != s[0].id {
        if x != u {
          var k :| 1 <= k < |s| && s[k] == x;
        }
      }
    }
  }

  lemma {:induction false} SortUnique(s: seq<NearbyUser>)
    requires UniqueIds(s)
    ensures UniqueIds(SortByDistance(s))
  {
    if s != [] {
      SortUnique(s[1..]);
      var sorted := SortByDistance(s[1..]);
      forall x | x in sorted ensures x.id != s[0].id {
        assert x in multiset(s[1..]);
        var k :| 1 <= k < |s| && s[k] == x;
      }
      InsertUnique(s[0], sorted);
    }
  }

  /** A store scan without repeated users yields a response without repeated users. */
  lemma GetUnique(q: NearbyQuery, rows: seq<UserRow>, now: Millis, distance: DistanceFn)
    requires UniqueRowIds(rows)
    requires Get(q, rows, now, distance).Ok?
    ensures UniqueIds(Get(q, rows, now, distance).value)
  {
    var p := ParseQuery(q).value;
    var m := Matching(rows, p.viewer, now);
    MatchingUnique(rows, p.viewer, now);
    var candidates := FetchCandidates(rows, p.viewer, now);
    assert UniqueRowIds(candidates);
    SurvivorsUnique(candidates, p, distance);
    SortUnique(Survivors(candidates, p, distance));
  }
}
