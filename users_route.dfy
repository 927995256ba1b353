/**
 * POST and GET /api/users: creating a user (then its default privacy
 * settings, in a second, separate write) and reading a user back with its
 * location and settings.
 */
module UsersRoute {
  import opened Common
  import PrivacyRoute

  /** The JSON body of POST; `None` is a field that is absent or null. */
  datatype UserBody = UserBody(name: Option<string>, email: Option<string>, avatar: Option<string>)

  /** The two tables POST writes. */
  datatype Tables = Tables(users: map<UserId, User>, settings: PrivacyRoute.SettingsTable)

  /** The GET response: the user, and its location and settings rows when they exist. */
  datatype UserView = UserView(user: User, location: Option<LocationRecord>, privacySettings: Option<PrivacySettings>)

  /** Every user row sits under its own id. */
  predicate UsersWellKeyed(users: map<UserId, User>)
  {
    forall u :: u in users ==> users[u].id == u
  }

  predicate WellKeyed(t: Tables)
  {
    UsersWellKeyed(t.users) && PrivacyRoute.WellKeyed(t.settings)
  }

  function Lookup<T>(m: map<UserId, T>, u: UserId): Option<T>
  {
    if u in m then Some(m[u]) else None
  }

  /**
   * POST. `newId` is the id the store generates for the new row and
   * `settingsFails` says whether the second write fails for a reason the
   * tables do not show; it also fails when a settings row for that id is
   * already there, the settings being unique per user. 400 (nothing written)
   * without a name or an email. Otherwise the user is written first; if the
   * settings write then fails the answer is 500 and the user stays; if not,
   * the default settings are written too and the answer is the user's public
   * fields, with no privacy fields.
   */
  function Post(t: Tables, body: UserBody, newId: UserId, now: Millis, settingsFails: bool): (r: Step<Tables, User>)
    requires WellKeyed(t)
    requires newId !in t.users
    ensures WellKeyed(r.state)
    ensures !TruthyString(body.name) || !TruthyString(body.email) ==>
              r.response == Err(BadRequest) && r.state == t
    ensures TruthyString(body.name) && TruthyString(body.email) ==>
              && r.state.users == t.users[newId := User(newId, body.name.value, body.email.value, body.avatar, now)]
              && (r.response.Err? <==> settingsFails || newId in t.settings)
    ensures TruthyString(body.name) && TruthyString(body.email) && r.response.Err? ==>
              r.response.status == ServerError && r.state.settings == t.settings
    ensures r.response.Ok? ==>
              && r.response.value == r.state.users[newId]
              && r.state.settings == t.settings[newId := DefaultSettings(newId)]
  {
    if !TruthyString(body.name) || !TruthyString(body.email) then
      Step(Err(BadRequest), t)
    else
      var user := User(newId, body.name.value, body.email.value, body.avatar, now);
      var users := t.users[newId := user];
      if settingsFails || newId in t.settings then
        Step(Err(ServerError), Tables(users, t.settings))
      else
        Step(Ok(user), Tables(users, t.settings[newId := DefaultSettings(newId)]))
  }

  /** GET: 400 without a user id, 404 for an unknown one, else the user with its (possibly missing) rows. */
  function Get(users: map<UserId, User>, locations: map<UserId, LocationRecord>,
               settings: PrivacyRoute.SettingsTable, userId: Option<string>): (r: Result<UserView>)
    ensures !TruthyString(userId) ==> r == Err(BadRequest)
    ensures TruthyString(userId) ==> (r.Err? <==> userId.value !in users)
    ensures TruthyString(userId) && r.Err? ==> r.status == NotFound
    ensures r.Ok? ==> r.value.user == users[userId.value]
    ensures r.Ok? ==> (r.value.location.Some? <==> userId.value in locations)
                      && (r.value.location.Some? ==> r.value.location.value == locations[userId.value])
    ensures r.Ok? ==> (r.value.privacySettings.Some? <==> userId.value in settings)
                      && (r.value.privacySettings.Some? ==> r.value.privacySettings.value == settings[userId.value])
  {
    if !TruthyString(userId) then Err(BadRequest)
    else if userId.value !in users then Err(NotFound)
    else
      var u := userId.value;
      Ok(UserView(users[u], Lookup(locations, u), Lookup(settings, u)))
  }

  /** A created user reads back with the default settings. */
  lemma PostThenGet(t: Tables, locations: map<UserId, LocationRecord>, body: UserBody,
                    newId: UserId, now: Millis, settingsFails: bool)
    requires WellKeyed(t) && newId !in t.users && newId != ""
    requires Post(t, body, newId, now, settingsFails).response.Ok?
    ensures var step := Post(t, body, newId, now, settingsFails);
            var got := Get(step.state.users, locations, step.state.settings, Some(newId));
            && got.Ok?
            && got.value.user == step.response.value
            && got.value.privacySettings == Some(DefaultSettings(newId))
  {
  }

  /**
   * The two writes are not one transaction: when the settings write fails
   * the caller sees 500, yet the user exists, without settings.
   */
  lemma FailedSettingsLeavesUser(t: Tables, locations: map<UserId, LocationRecord>, body: UserBody,
                                 newId: UserId, now: Millis)
    requires WellKeyed(t) && newId !in t.users && newId !in t.settings && newId != ""
    requires TruthyString(body.name) && TruthyString(body.email)
    ensures var step := Post(t, body, newId, now, true);
            var got := Get(step.state.users, locations, step.state.settings, Some(newId));
            && step.response == Err(ServerError)
            && got.Ok?
            && got.value.user.name == body.name.value
            && got.value.privacySettings.None?
  {
  }
}
