/**
 * GET and PUT /api/users/privacy over the settings table, a map from user id
 * to that user's single privacy-settings row.
 */
module PrivacyRoute {
  import opened Common

  type SettingsTable = map<UserId, PrivacySettings>

  /**
   * The JSON body of PUT. `None` is a field left out (or null); `visibility`
   * is the raw string, which the store accepts only as an enum name.
   */
  datatype PrivacyBody = PrivacyBody(
    userId: Option<string>,
    visibility: Option<string>,
    showDistance: Option<bool>,
    showLastSeen: Option<bool>,
    allowNearbySearch: Option<bool>)

  /** Every row sits under its own user's key: one settings row per user. */
  predicate WellKeyed(settings: SettingsTable)
  {
    forall u :: u in settings ==> settings[u].userId == u
  }

  /** The enum names the store accepts. */
  function ParseVisibility(s: string): (v: Option<Visibility>)
    ensures v == Some(PUBLIC) <==> s == "PUBLIC"
    ensures v == Some(FRIENDS) <==> s == "FRIENDS"
    ensures v == Some(PRIVATE) <==> s == "PRIVATE"
  {
    if s == "PUBLIC" then Some(PUBLIC)
    else if s == "FRIENDS" then Some(FRIENDS)
    else if s == "PRIVATE" then Some(PRIVATE)
    else None
  }

  /** `b ?? true`: only a missing value falls back. */
  function OrTrue(b: Option<bool>): bool
  {
    if b.Some? then b.value else true
  }

  /** `b` when given, the stored value otherwise (an update leaves omitted fields alone). */
  function OrKeep(b: Option<bool>, stored: bool): bool
  {
    if b.Some? then b.value else stored
  }

  /**
   * GET: 400 without a user id; the stored row when there is one, with no
   * write; otherwise the defaults, which are created and returned.
   */
  function GetOrCreate(settings: SettingsTable, userId: Option<string>): (r: Step<SettingsTable, PrivacySettings>)
    requires WellKeyed(settings)
    ensures WellKeyed(r.state)
    ensures !TruthyString(userId) ==> r.response == Err(BadRequest) && r.state == settings
    ensures TruthyString(userId) ==>
              && r.response.Ok?
              && r.state.Keys == settings.Keys + {userId.value}
              && r.response.value == r.state[userId.value]
    ensures TruthyString(userId) && userId.value in settings ==>
              r.state == settings && r.response.value == settings[userId.value]
    ensures TruthyString(userId) && userId.value !in settings ==>
              r.state == settings[userId.value := DefaultSettings(userId.value)]
  {
    if !TruthyString(userId) then
      Step(Err(BadRequest), settings)
    else if userId.value in settings then
      Step(Ok(settings[userId.value]), settings)
    else
      var created := DefaultSettings(userId.value);
      Step(Ok(created), settings[userId.value := created])
  }

  /**
   * The row PUT would write for `u`, or None when the store refuses the
   * visibility string. Update: each given field replaces the stored one.
   * Create: a falsy visibility falls back to FRIENDS, each missing boolean
   * to true, and an explicit false is kept.
   */
  function Merge(settings: SettingsTable, u: UserId, body: PrivacyBody): (r: Option<PrivacySettings>)
    requires WellKeyed(settings)
    ensures r.Some? ==> r.value.userId == u
    ensures u in settings && r.Some? ==>
              var prev := settings[u];
              && (body.visibility.None? ==> r.value.visibility == prev.visibility)
              && (body.showDistance.None? ==> r.value.showDistance == prev.showDistance)
              && (body.showLastSeen.None? ==> r.value.showLastSeen == prev.showLastSeen)
              && (body.allowNearbySearch.None? ==> r.value.allowNearbySearch == prev.allowNearbySearch)
    ensures u in settings ==> (r.None? <==> body.visibility.Some? && ParseVisibility(body.visibility.value).None?)
    ensures u !in settings ==> (r.None? <==> body.visibility.Some? && body.visibility.value != ""
                                             && ParseVisibility(body.visibility.value).None?)
    ensures u !in settings && r.Some? && (body.visibility.None? || body.visibility.value == "") ==>
              r.value.visibility == FRIENDS
    ensures r.Some? && body.visibility.Some? && ParseVisibility(body.visibility.value).Some? ==>
              r.value.visibility == ParseVisibility(body.visibility.value).value
    ensures r.Some? && body.showDistance.Some? ==> r.value.showDistance == body.showDistance.value
    ensures r.Some? && body.showLastSeen.Some? ==> r.value.showLastSeen == body.showLastSeen.value
    ensures r.Some? && body.allowNearbySearch.Some? ==> r.value.allowNearbySearch == body.allowNearbySearch.value
    ensures u !in settings && r.Some? ==>
              && (body.showDistance.None? ==> r.value.showDistance)
              && (body.showLastSeen.None? ==> r.value.showLastSeen)
              && (body.allowNearbySearch.None? ==> r.value.allowNearbySearch)
  {
    if u in settings then
      var prev := settings[u];
      var vis := if body.visibility.None? then Some(prev.visibility) else ParseVisibility(body.visibility.value);
      if vis.None? then None
      else
        Some(PrivacySettings(u, vis.value,
                             OrKeep(body.showDistance, prev.showDistance),
                             OrKeep(body.showLastSeen, prev.showLastSeen),
                             OrKeep(body.allowNearbySearch, prev.allowNearbySearch)))
    else
      var vis := if body.visibility.None? || body.visibility.value == "" then Some(FRIENDS)
                 else ParseVisibility(body.visibility.value);
      if vis.None? then None
      else
        Some(PrivacySettings(u, vis.value,
                             OrTrue(body.showDistance),
                             OrTrue(body.showLastSeen),
                             OrTrue(body.allowNearbySearch)))
  }

  /**
   * PUT: 400 without a user id; 500 (nothing written) when the store refuses
   * the visibility string; otherwise the upsert, answering with the row.
   */
  function Put(settings: SettingsTable, body: PrivacyBody): (r: Step<SettingsTable, PrivacySettings>)
    requires WellKeyed(settings)
    ensures WellKeyed(r.state)
    ensures !TruthyString(body.userId) ==> r.response == Err(BadRequest) && r.state == settings
    ensures r.response.Err? ==> r.state == settings
    ensures r.response.Ok? ==>
              && r.state == settings[body.userId.value := r.response.value]
              && r.response.value.userId == body.userId.value
    ensures TruthyString(body.userId) ==>
              (r.response.Ok? <==> Merge(settings, body.userId.value, body).Some?)
    ensures TruthyString(body.userId) && r.response.Ok? ==>
              Some(r.response.value) == Merge(settings, body.userId.value, body)
    ensures TruthyString(body.userId) && r.response.Err? ==> r.response.status == ServerError
  {
    if !TruthyString(body.userId) then
      Step(Err(BadRequest), settings)
    else
      var u := body.userId.value;
      match Merge(settings, u, body)
      case None => Step(Err(ServerError), settings)
      case Some(row) => Step(Ok(row), settings[u := row])
  }

  /** A second GET returns what the first returned and writes nothing. */
  lemma GetIdempotent(settings: SettingsTable, userId: Option<string>)
    requires WellKeyed(settings)
    ensures var first := GetOrCreate(settings, userId);
            var second := GetOrCreate(first.state, userId);
            second == Step(first.response, first.state)
  {
  }

  /** After an accepted PUT, GET returns the row PUT answered with and writes nothing. */
  lemma PutThenGet(settings: SettingsTable, body: PrivacyBody)
    requires WellKeyed(settings)
    requires Put(settings, body).response.Ok?
    ensures var put := Put(settings, body);
            GetOrCreate(put.state, body.userId) == put
  {
  }

  /** A PUT that gives no field leaves an existing row exactly as it was. */
  lemma EmptyPutKeepsRow(settings: SettingsTable, u: UserId)
    requires WellKeyed(settings) && u != "" && u in settings
    ensures Put(settings, PrivacyBody(Some(u), None, None, None, None)) == Step(Ok(settings[u]), settings)
  {
    var body := PrivacyBody(Some(u), None, None, None, None);
    assert Merge(settings, u, body) == Some(settings[u]);
    assert settings[u := settings[u]] == settings;
  }

  /** On a user without settings, a PUT that gives no field creates the same defaults GET would. */
  lemma EmptyPutCreatesDefaults(settings: SettingsTable, u: UserId)
    requires WellKeyed(settings) && u != "" && u !in settings
    ensures Put(settings, PrivacyBody(Some(u), None, None, None, None)) == GetOrCreate(settings, Some(u))
  {
  }
}
