/**
 * The three tables behind the user routes, updated in place by the write
 * handlers. Each handler's effect is the corresponding route function's.
 */
module Store {
  import opened Common
  import LocationRoute
  import PrivacyRoute
  import UsersRoute

  class Database {
    var users: map<UserId, User>
    var locations: map<UserId, LocationRecord>
    var settings: map<UserId, PrivacySettings>

    /** At most one location and one settings row per user, each under its own key. */
    ghost predicate Valid()
      reads this
    {
      && UsersRoute.UsersWellKeyed(users)
      && LocationRoute.WellKeyed(locations)
      && PrivacyRoute.WellKeyed(settings)
    }

    constructor ()
      ensures Valid()
      ensures users == map[] && locations == map[] && settings == map[]
    {
      users, locations, settings := map[], map[], map[];
    }

    /** POST /api/users/location. */
    method PostLocation(body: LocationRoute.LocationBody, now: Millis, freshId: string)
      returns (response: Result<LocationRecord>)
      requires Valid()
      modifies this
      ensures Valid()
      ensures users == old(users) && settings == old(settings)
      ensures Step(response, locations) == LocationRoute.Post(old(locations), body, now, freshId)
    {
      if !TruthyString(body.userId) || !TruthyNumber(body.latitude) || !TruthyNumber(body.longitude) {
        return Err(BadRequest);
      }
      var userId := body.userId.value;
      var row: LocationRecord;
      if userId in locations {
        row := locations[userId].(latitude := body.latitude.value, longitude := body.longitude.value,
                                  isActive := true, lastSeen := now);
        match body.accuracy {
          case Omitted =>
          case Null => row := row.(accuracy := None);
          case Given(a) => row := row.(accuracy := Some(a));
        }
      } else {
        var accuracy := if body.accuracy.Given? then Some(body.accuracy.value) else None;
        row := LocationRecord(freshId, userId, body.latitude.value, body.longitude.value, accuracy, true, now);
      }
      locations := locations[userId := row];
      response := Ok(row);
    }

    /** GET /api/users/privacy: get-or-create the defaults. */
    method GetPrivacy(userId: Option<string>) returns (response: Result<PrivacySettings>)
      requires Valid()
      modifies this
      ensures Valid()
      ensures users == old(users) && locations == old(locations)
      ensures Step(response, settings) == PrivacyRoute.GetOrCreate(old(settings), userId)
    {
      if !TruthyString(userId) {
        return Err(BadRequest);
      }
      var u := userId.value;
      if u in settings {
        return Ok(settings[u]);
      }
      var created := DefaultSettings(u);
      settings := settings[u := created];
      response := Ok(created);
    }

    /** PUT /api/users/privacy: upsert with defaults on create, partial update otherwise. */
    method PutPrivacy(body: PrivacyRoute.PrivacyBody) returns (response: Result<PrivacySettings>)
      requires Valid()
      modifies this
      ensures Valid()
      ensures users == old(users) && locations == old(locations)
      ensures Step(response, settings) == PrivacyRoute.Put(old(settings), body)
    {
      if !TruthyString(body.userId) {
        return Err(BadRequest);
      }
      var u := body.userId.value;
      var row: PrivacySettings;
      if u in settings {
        row := settings[u];
        if body.visibility.Some? {
          var parsed := PrivacyRoute.ParseVisibility(body.visibility.value);
          if parsed.None? {
            return Err(ServerError);
          }
          row := row.(visibility := parsed.value);
        }
        if body.showDistance.Some? { row := row.(showDistance := body.showDistance.value); }
        if body.showLastSeen.Some? { row := row.(showLastSeen := body.showLastSeen.value); }
        if body.allowNearbySearch.Some? { row := row.(allowNearbySearch := body.allowNearbySearch.value); }
      } else {
        var visibility := FRIENDS;
        if body.visibility.Some? && body.visibility.value != "" {
          var parsed := PrivacyRoute.ParseVisibility(body.visibility.value);
          if parsed.None? {
            return Err(ServerError);
          }
          visibility := parsed.value;
        }
        row := PrivacySettings(u, visibility, PrivacyRoute.OrTrue(body.showDistance),
                               PrivacyRoute.OrTrue(body.showLastSeen), PrivacyRoute.OrTrue(body.allowNearbySearch));
      }
      settings := settings[u := row];
      response := Ok(row);
    }

    /** POST /api/users: the user row first, then (a separate write) its default settings. */
    method PostUser(body: UsersRoute.UserBody, newId: UserId, now: Millis, settingsFails: bool)
      returns (response: Result<User>)
      requires Valid()
      requires newId !in users
      modifies this
      ensures Valid()
      ensures locations == old(locations)
      ensures Step(response, UsersRoute.Tables(users, settings))
              == UsersRoute.Post(UsersRoute.Tables(old(users), old(settings)), body, newId, now, settingsFails)
    {
      if !TruthyString(body.name) || !TruthyString(body.email) {
        return Err(BadRequest);
      }
      var user := User(newId, body.name.value, body.email.value, body.avatar, now);
      users := users[newId := user];
      if settingsFails || newId in settings {
        return Err(ServerError);
      }
      settings := settings[newId := DefaultSettings(newId)];
      response := Ok(user);
    }
  }

  /** A client of the tables: a user is created, reports a position, and reads both back. */
  method CreateAndLocate(db: Database, newId: UserId, locationId: string, now: Millis)
    requires db.Valid() && newId != "" && newId !in db.users && newId !in db.settings
    modifies db
    ensures db.Valid()
  {
    var created := db.PostUser(UsersRoute.UserBody(Some("Ada"), Some("ada@example.org"), None), newId, now, false);
    assert created.Ok? && created.value.id == newId;
    var posted := db.PostLocation(LocationRoute.LocationBody(Some(newId), Some(51.5), Some(-0.12), LocationRoute.Omitted),
                                  now, locationId);
    assert posted.Ok? && posted.value.isActive && posted.value.lastSeen == now;
    var settings := db.GetPrivacy(Some(newId));
    assert settings == Ok(DefaultSettings(newId));
    var equator := db.PostLocation(LocationRoute.LocationBody(Some(newId), Some(0.0), Some(-0.12), LocationRoute.Omitted),
                                   now, locationId);
    assert equator == Err(BadRequest);
  }
}
