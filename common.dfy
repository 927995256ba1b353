/**
 * Shared data shapes of the location-sharing service: stored records, the
 * client-side location value, the nearby-user projection, the HTTP error
 * classification, and the two pieces of JavaScript semantics the handlers
 * lean on (truthiness of request values and Math.round).
 */
module Common {

  datatype Option<T> = None | Some(value: T)

  /** Error classification of the route handlers: 400, 404 or 500. */
  datatype Status = BadRequest | NotFound | ServerError {
    function Code(): (c: int)
      ensures c in {400, 404, 500}
      ensures (c == 400) == BadRequest? && (c == 404) == NotFound?
    {
      match this
      case BadRequest => 400
      case NotFound => 404
      case ServerError => 500
    }
  }

  /** The handlers' response: a payload, or an error status. */
  datatype Result<T> = Ok(value: T) | Err(status: Status)

  /** A handler's response together with the table(s) it leaves behind. */
  datatype Step<S, T> = Step(response: Result<T>, state: S)

  type UserId = string

  /** Milliseconds since the epoch. */
  type Millis = int

  datatype Visibility = PUBLIC | FRIENDS | PRIVATE

  /** The user table row. */
  datatype User = User(id: UserId, name: string, email: string, avatar: Option<string>, createdAt: Millis)

  /** The location table row; at most one per user, keyed by `userId`. */
  datatype LocationRecord = LocationRecord(
    id: string,
    userId: UserId,
    latitude: real,
    longitude: real,
    accuracy: Option<real>,
    isActive: bool,
    lastSeen: Millis)

  /** The privacy-settings table row; at most one per user, keyed by `userId`. */
  datatype PrivacySettings = PrivacySettings(
    userId: UserId,
    visibility: Visibility,
    showDistance: bool,
    showLastSeen: bool,
    allowNearbySearch: bool)

  /** The settings every user starts with. */
  function DefaultSettings(userId: UserId): (s: PrivacySettings)
    ensures s.userId == userId && s.visibility == FRIENDS
    ensures s.showDistance && s.showLastSeen && s.allowNearbySearch
  {
    PrivacySettings(userId, FRIENDS, true, true, true)
  }

  /** A device position as the client passes it around. */
  datatype Location = Location(latitude: real, longitude: real, accuracy: Option<real>, timestamp: Millis)

  /** The privacy fields echoed in a nearby result (absent when the user has no settings row). */
  datatype PrivacyView = PrivacyView(
    visibility: Option<Visibility>,
    showDistance: Option<bool>,
    showLastSeen: Option<bool>)

  /** One entry of the nearby-users response. */
  datatype NearbyUser = NearbyUser(
    id: UserId,
    name: string,
    avatar: Option<string>,
    distance: int,
    location: Location,
    isOnline: bool,
    lastSeen: Millis,
    privacy: PrivacyView)

  /** JavaScript truthiness of an optional string: absent, null and "" are falsy. */
  predicate TruthyString(s: Option<string>)
  {
    s.Some? && s.value != ""
  }

  /** JavaScript truthiness of an optional JSON number: absent, null and 0 are falsy. */
  predicate TruthyNumber(x: Option<real>)
  {
    x.Some? && x.value != 0.0
  }

  /** JavaScript Math.round: the nearest integer, halves rounded up. */
  function Round(x: real): (r: int)
    ensures x - 0.5 < r as real <= x + 0.5
  {
    (x + 0.5).Floor
  }
}
