/**
 * The weather widget: a location cache kept in browser storage for 24
 * hours, the cache-first way of obtaining the user's location, and the
 * loading/error/weather state of the fetch with its render precedence.
 * Storage is a map from keys to stored text, `Date.now()` is a parameter,
 * and geolocation and the weather request are given as their outcomes.
 */
module Weather {
  import opened Wrappers

  const StorageKey := "weather_location"
  const LocationValidityHours := 24
  const MsPerHour := 1000 * 60 * 60
  const GeolocationUnsupported := "Geolocalizaci\U{F3}n no soportada"
  const WeatherFetchFailed := "Error al obtener el clima"
  const WeatherLoadFailed := "Error al cargar el clima"

  datatype UserLocation = UserLocation(lat: real, lon: real)
  datatype StoredLocation = StoredLocation(lat: real, lon: real, timestamp: int)

  /** What storage holds under a key, as `getItem` and `JSON.parse` see it. */
  datatype StoredText =
    | EmptyText                         // "", which `if (!stored)` treats as nothing stored
    | LocationJson(loc: StoredLocation)  // the JSON that `saveLocation` writes
    | Unparseable                       // anything `JSON.parse` or the field reads reject

  /**
   * `(now - timestamp) / (1000 * 60 * 60) < 24`: in whole milliseconds, the
   * entry is fresh iff it is less than 86,400,000 ms old.
   */
  function IsFresh(now: int, timestamp: int): (young: bool)
    ensures young <==> now - timestamp < 86_400_000
  {
    var age := (now - timestamp) as real;
    assert MsPerHour as real == 3_600_000.0;
    assert age / 3_600_000.0 < 24.0 <==> age < 86_400_000.0;
    age / (MsPerHour as real) < LocationValidityHours as real
  }

  /** A thrown value: an `Error` with its message, or something that is not an `Error`. */
  datatype Thrown = ErrorObject(message: string) | NotAnError

  /** What `navigator.geolocation` does: missing, a position, or a rejection. */
  datatype Geolocation =
    | Unsupported
    | Position(latitude: real, longitude: real)
    /** The callback receives a `GeolocationPositionError`, which is not an `Error`. */
    | Denied

  /** The result of the `/api/weather` request as `getWeather` reads it. */
  datatype WeatherResponse =
    | WeatherOk(data: WeatherData)
    /** A non-ok status; the body's `error` field when it is a text. */
    | WeatherNotOk(error: Option<string>)
    /** `fetch` or `response.json()` threw this error. */
    | WeatherThrew(thrown: Thrown)

  datatype WeatherData = WeatherData(city: string, country: string, temperature: real, icon: string)

  /** `getWeather`: the data, or the error it throws. */
  function GetWeather(response: WeatherResponse): (r: Result<WeatherData, Thrown>)
    ensures response.WeatherOk? <==> r.Ok?
    ensures response.WeatherOk? ==> r.value == response.data
    ensures response.WeatherNotOk? ==>
      r == Err(ErrorObject(if response.error.Some? && response.error.value != ""
                           then response.error.value else WeatherFetchFailed))
    ensures response.WeatherThrew? ==> r == Err(response.thrown)
  {
    match response
    case WeatherOk(data) => Ok(data)
    case WeatherNotOk(error) =>
      Err(ErrorObject(if error.Some? && error.value != "" then error.value else WeatherFetchFailed))
    case WeatherThrew(thrown) => Err(thrown)
  }

  /** The browser's storage for this origin. */
  class LocationStorage {
    var items: map<string, StoredText>

    constructor (items: map<string, StoredText>)
      ensures this.items == items
    {
      this.items := items;
    }

    /**
     * `getStoredLocation`: a fresh entry is returned; a stale or unreadable
     * one is removed and nothing is returned; an absent or empty entry gives
     * nothing and is left alone.
     */
    method GetStoredLocation(now: int) returns (r: Option<StoredLocation>)
      modifies this
      ensures StorageKey in old(items) && old(items)[StorageKey].LocationJson? &&
              IsFresh(now, old(items)[StorageKey].loc.timestamp)
        ==> r == Some(old(items)[StorageKey].loc) && items == old(items)
      ensures StorageKey in old(items) && old(items)[StorageKey].LocationJson? &&
              !IsFresh(now, old(items)[StorageKey].loc.timestamp)
        ==> r.None? && items == old(items) - {StorageKey}
      ensures StorageKey in old(items) && old(items)[StorageKey].Unparseable?
        ==> r.None? && items == old(items) - {StorageKey}
      ensures (StorageKey !in old(items) || old(items)[StorageKey].EmptyText?)
        ==> r.None? && items == old(items)
    {
      if StorageKey !in items || items[StorageKey].EmptyText? {
        return None;
      }
      match items[StorageKey] {
        case LocationJson(location) =>
          if IsFresh(now, location.timestamp) {
            return Some(location);
          }
          items := items - {StorageKey};
          return None;
        case Unparseable =>
          items := items - {StorageKey};
          return None;
      }
    }

    /** `saveLocation`: stores the coordinates stamped with `now`; a failed write changes nothing. */
    method SaveLocation(location: UserLocation, now: int, writeFails: bool)
      modifies this
      ensures items == if writeFails then old(items)
                       else old(items)[StorageKey := LocationJson(StoredLocation(location.lat, location.lon, now))]
    {
      if !writeFails {
        items := items[StorageKey := LocationJson(StoredLocation(location.lat, location.lon, now))];
      }
    }

    /**
     * `getUserLocation`: a fresh cached entry answers without consulting
     * geolocation; otherwise a stale or unreadable entry is dropped and a
     * position is saved and returned.
     */
    method GetUserLocation(now: int, geolocation: Geolocation, writeFails: bool)
      returns (r: Result<UserLocation, Thrown>)
      modifies this
      ensures r == ResolveLocation(old(items), now, geolocation)
      ensures items == StorageAfter(old(items), now, geolocation, writeFails)
    {
      var stored := GetStoredLocation(now);
      if stored.Some? {
        return Ok(UserLocation(stored.value.lat, stored.value.lon));
      }
      match geolocation {
        case Unsupported =>
          r := Err(ErrorObject(GeolocationUnsupported));
        case Denied =>
          r := Err(NotAnError);
        case Position(lat, lon) =>
          var location := UserLocation(lat, lon);
          SaveLocation(location, now, writeFails);
          r := Ok(location);
      }
    }
  }

  /** Storage holds a location that is still fresh at `now`: stored less than 24 hours ago. */
  function Cached(items: map<string, StoredText>, now: int): (cached: bool)
    ensures cached <==> StorageKey in items && items[StorageKey].LocationJson? &&
                        now - items[StorageKey].loc.timestamp < 86_400_000
  {
    StorageKey in items && items[StorageKey].LocationJson? &&
    IsFresh(now, items[StorageKey].loc.timestamp)
  }

  /**
   * The storage after `getUserLocation`: untouched on a cache hit; otherwise
   * a stale or unreadable entry is removed, an empty one stays, and a
   * position is then written unless the write fails. No other key changes.
   */
  function StorageAfter(items: map<string, StoredText>, now: int, geolocation: Geolocation,
                        writeFails: bool): (r: map<string, StoredText>)
    ensures r - {StorageKey} == items - {StorageKey}
    ensures Cached(items, now) ==> r == items
    ensures !Cached(items, now) && geolocation.Position? && !writeFails ==>
      StorageKey in r &&
      r[StorageKey] == LocationJson(StoredLocation(geolocation.latitude, geolocation.longitude, now))
    ensures !Cached(items, now) && !(geolocation.Position? && !writeFails) ==>
      (StorageKey in r <==> StorageKey in items && items[StorageKey].EmptyText?) &&
      (StorageKey in r ==> r[StorageKey] == EmptyText)
    ensures StorageKey in r ==>
      !r[StorageKey].Unparseable? &&
      (r[StorageKey].LocationJson? ==> IsFresh(now, r[StorageKey].loc.timestamp))
  {
    if Cached(items, now) then items
    else
      var cleared := if StorageKey in items && !items[StorageKey].EmptyText?
                     then items - {StorageKey} else items;
      match geolocation
      case Position(lat, lon) =>
        if writeFails then cleared
        else cleared[StorageKey := LocationJson(StoredLocation(lat, lon, now))]
      case _ => cleared
  }

  /**
   * The location `getUserLocation` settles with, from the storage it starts
   * with: geolocation is consulted only without a fresh cache entry, and
   * each of its outcomes is passed on.
   */
  function ResolveLocation(items: map<string, StoredText>, now: int, geolocation: Geolocation): (r: Result<UserLocation, Thrown>)
    ensures Cached(items, now) ==>
      r == Ok(UserLocation(items[StorageKey].loc.lat, items[StorageKey].loc.lon))
    ensures !Cached(items, now) ==> (r.Ok? <==> geolocation.Position?)
    ensures !Cached(items, now) && geolocation.Position? ==>
      r.value == UserLocation(geolocation.latitude, geolocation.longitude)
    ensures !Cached(items, now) && geolocation.Unsupported? ==> r == Err(ErrorObject(GeolocationUnsupported))
    ensures !Cached(items, now) && geolocation.Denied? ==> r == Err(NotAnError)
  {
    if Cached(items, now) then
      Ok(UserLocation(items[StorageKey].loc.lat, items[StorageKey].loc.lon))
    else match geolocation
      case Unsupported => Err(ErrorObject(GeolocationUnsupported))
      case Denied => Err(NotAnError)
      case Position(lat, lon) => Ok(UserLocation(lat, lon))
  }

  /** A fresh cache entry answers whatever geolocation would have done. */
  lemma CacheShortCircuitsGeolocation(items: map<string, StoredText>, now: int, g1: Geolocation, g2: Geolocation)
    requires Cached(items, now)
    ensures ResolveLocation(items, now, g1) == ResolveLocation(items, now, g2)
  {
  }

  /** Right after a successful save, the next lookup answers from the cache with the saved coordinates. */
  lemma SavedLocationIsCached(items: map<string, StoredText>, location: UserLocation, now: int, geolocation: Geolocation)
    ensures var saved := items[StorageKey := LocationJson(StoredLocation(location.lat, location.lon, now))];
            Cached(saved, now) && ResolveLocation(saved, now, geolocation) == Ok(location)
  {
  }

  /** A saved location stops answering once 24 hours have passed. */
  lemma SavedLocationExpires(items: map<string, StoredText>, location: UserLocation, saved: int, now: int)
    ensures var stored := items[StorageKey := LocationJson(StoredLocation(location.lat, location.lon, saved))];
            Cached(stored, now) <==> now - saved < 86_400_000
  {
  }

  /** What the widget renders. */
  datatype View = LoadingView | ErrorView(message: string) | WeatherView(weather: WeatherData) | Nothing

  /** The render's early returns: loading, then a non-empty error, then the weather, then nothing. */
  function Render(loading: bool, error: Option<string>, weather: Option<WeatherData>): (v: View)
    ensures v.LoadingView? <==> loading
    ensures v.ErrorView? <==> !loading && error.Some? && error.value != ""
    ensures v.ErrorView? ==> v.message == error.value
    ensures v.WeatherView? <==> !loading && !(error.Some? && error.value != "") && weather.Some?
    ensures v.WeatherView? ==> v.weather == weather.value
  {
    if loading then LoadingView
    else if error.Some? && error.value != "" then ErrorView(error.value)
    else if weather.Some? then WeatherView(weather.value)
    else Nothing
  }

  /** `err instanceof Error ? err.message : 'Error al cargar el clima'`. */
  function ErrorMessage(thrown: Thrown): (m: string)
    ensures thrown.ErrorObject? ==> m == thrown.message
    ensures thrown.NotAnError? ==> m == WeatherLoadFailed
  {
    match thrown
    case ErrorObject(message) => message
    case NotAnError => WeatherLoadFailed
  }

  /** What the `try` block of `fetchWeather` settles with: the located user's weather, or the first error. */
  function FetchOutcome(location: Result<UserLocation, Thrown>, response: WeatherResponse): (r: Result<WeatherData, Thrown>)
    ensures r.Ok? <==> location.Ok? && response.WeatherOk?
    ensures r.Ok? ==> r.value == response.data
    ensures location.Err? ==> r == Err(location.error)
    ensures location.Ok? && response.WeatherThrew? ==> r == Err(response.thrown)
    ensures location.Ok? && response.WeatherNotOk? ==> r.Err? && r.error.ErrorObject?
  {
    if location.Err? then Err(location.error) else GetWeather(response)
  }

  /**
   * After the fetch: success shows the new weather; a failure shows its
   * message unless that message is empty, in which case whatever weather
   * was already there (or nothing) is shown.
   */
  lemma ViewAfterFetch(outcome: Result<WeatherData, Thrown>, previous: Option<WeatherData>)
    ensures outcome.Ok? ==> Render(false, None, Some(outcome.value)) == WeatherView(outcome.value)
    ensures outcome.Err? && ErrorMessage(outcome.error) != "" ==>
      Render(false, Some(ErrorMessage(outcome.error)), previous) == ErrorView(ErrorMessage(outcome.error))
    ensures outcome.Err? && ErrorMessage(outcome.error) == "" ==>
      Render(false, Some(ErrorMessage(outcome.error)), previous) ==
        (if previous.Some? then WeatherView(previous.value) else Nothing)
  {
  }

  /** The widget's three pieces of state. */
  class WeatherWidget {
    var weather: Option<WeatherData>
    var loading: bool
    var error: Option<string>

    /** The first render, before the effect's fetch settles. */
    constructor ()
      ensures weather.None? && loading && error.None?
      ensures View() == LoadingView
    {
      weather := None;
      loading := true;
      error := None;
    }

    /** The render's output for the current state. */
    function View(): (v: View)
      reads this
      ensures loading ==> v == LoadingView
      ensures !loading && error.Some? && error.value != "" ==> v == ErrorView(error.value)
      ensures !loading && !(error.Some? && error.value != "") ==>
        v == if weather.Some? then WeatherView(weather.value) else Nothing
    {
      Render(loading, error, weather)
    }

    /**
     * `fetchWeather`: loading on and error cleared, then locate the user and
     * ask for the weather, record the data or the error's message, and turn
     * loading off on both paths.
     */
    method FetchWeather(storage: LocationStorage, now: int, geolocation: Geolocation,
                        writeFails: bool, response: WeatherResponse)
      modifies this, storage
      ensures !loading
      ensures var outcome := FetchOutcome(ResolveLocation(old(storage.items), now, geolocation), response);
              match outcome
              case Ok(data) => weather == Some(data) && error.None?
              case Err(thrown) => error == Some(ErrorMessage(thrown)) && weather == old(weather)
      ensures storage.items == StorageAfter(old(storage.items), now, geolocation, writeFails)
    {
      loading := true;
      error := None;
      var location := storage.GetUserLocation(now, geolocation, writeFails);
      if location.Err? {
        error := Some(ErrorMessage(location.error));
      } else {
        var fetched := GetWeather(response);
        if fetched.Ok? {
          weather := Some(fetched.value);
        } else {
          error := Some(ErrorMessage(fetched.error));
        }
      }
      loading := false;
    }
  }
}
