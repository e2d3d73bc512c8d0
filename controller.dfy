/**
 * The application's weather state: the current snapshot, the background image
 * derived from it, the location being shown and the error indicator, and the
 * handlers that update them when a request for the location succeeds or fails,
 * when no API key is configured, and when the user saves a new location.
 */
module Controller {
  import opened Wrappers
  import opened Text
  import Caption

  // ---- The weather snapshot returned by the provider ----

  datatype MainReadings = MainReadings(temp: real, feelsLike: real, tempMin: real, tempMax: real,
                                       pressure: real, humidity: real)
  datatype Condition = Condition(main: string, description: string, icon: string)
  datatype Wind = Wind(speed: real, deg: real, gust: real)
  datatype Sys = Sys(country: string, sunrise: int, sunset: int)

  /** A snapshot. `dt` (the report time) is absent from the placeholder. */
  datatype WeatherData = WeatherData(name: string, main: MainReadings, weather: seq<Condition>,
                                     wind: Wind, sys: Sys, dt: Option<int>)

  /** The "Loading..." snapshot shown before the first response arrives. */
  const Placeholder: WeatherData :=
    WeatherData("Loading...", MainReadings(0.0, 0.0, 0.0, 0.0, 0.0, 0.0),
                [Condition("Clear", "clear sky", "01d")], Wind(0.0, 0.0, 0.0), Sys("IN", 0, 0), None)

  const DefaultLocation: string := "tamilnadu"
  const FailureMessage: string := "Failed to load weather data"

  // ---- Day or night, and the background image ----

  /** Day iff the report time lies in [sunrise, sunset); a missing report time compares
      false against both bounds, which makes it night. */
  function IsDay(dt: Option<int>, sunrise: int, sunset: int): (day: bool)
    ensures day <==> dt.Some? && sunrise <= dt.value < sunset
    ensures dt == Some(sunset) ==> !day
    ensures dt == Some(sunrise) ==> (day <==> sunrise < sunset)
    ensures dt.None? ==> !day
  {
    dt.Some? && dt.value >= sunrise && dt.value < sunset
  }

  lemma DayBoundaries(sunrise: int, sunset: int)
    requires sunrise < sunset
    ensures IsDay(Some(sunrise), sunrise, sunset)
    ensures !IsDay(Some(sunset), sunrise, sunset)
    ensures !IsDay(None, sunrise, sunset)
  {
  }

  datatype Backdrop = Rainy | Cloudy | Sunny

  /** The backdrop for the lowered condition: rain, then cloud, then sunny for everything else. */
  function BackdropOf(c: string): (b: Backdrop)
    ensures b == Rainy <==> Includes(c, "rain")
    ensures b == Cloudy <==> !Includes(c, "rain") && Includes(c, "cloud")
    ensures b == Sunny <==> !Includes(c, "rain") && !Includes(c, "cloud")
  {
    if Includes(c, "rain") then Rainy else if Includes(c, "cloud") then Cloudy else Sunny
  }

  function BackdropName(b: Backdrop): string
  {
    match b
    case Rainy => "rainy"
    case Cloudy => "cloudy"
    case Sunny => "sunny"
  }

  function TimeOfDay(day: bool): string
  {
    if day then "day" else "night"
  }

  /** The six background images. */
  const Backgrounds: set<string> := {
    "/day-rainy.png", "/day-cloudy.png", "/day-sunny.png",
    "/night-rainy.png", "/night-cloudy.png", "/night-sunny.png"}

  /** Reads an image path back into the time of day and backdrop it shows. */
  function ParseBackground(path: string): Option<(bool, Backdrop)>
  {
    if path == "/day-rainy.png" then Some((true, Rainy))
    else if path == "/day-cloudy.png" then Some((true, Cloudy))
    else if path == "/day-sunny.png" then Some((true, Sunny))
    else if path == "/night-rainy.png" then Some((false, Rainy))
    else if path == "/night-cloudy.png" then Some((false, Cloudy))
    else if path == "/night-sunny.png" then Some((false, Sunny))
    else None
  }

  /** The image for a time of day and a backdrop, e.g. "/night-cloudy.png": one of the six
      images, and the image reads back as that pair. */
  function BackgroundFor(day: bool, b: Backdrop): (path: string)
    ensures path in Backgrounds
    ensures ParseBackground(path) == Some((day, b))
  {
    var path := "/" + (TimeOfDay(day) + "-" + BackdropName(b) + ".png");
    if day then DayImages(b, path); path else NightImages(b, path); path
  }

  /** The three day images, spelled out. */
  lemma DayImages(b: Backdrop, path: string)
    requires path == "/" + (TimeOfDay(true) + "-" + BackdropName(b) + ".png")
    ensures path == (match b
      case Rainy => "/day-rainy.png" case Cloudy => "/day-cloudy.png" case Sunny => "/day-sunny.png")
  {
  }

  /** The three night images, spelled out. */
  lemma NightImages(b: Backdrop, path: string)
    requires path == "/" + (TimeOfDay(false) + "-" + BackdropName(b) + ".png")
    ensures path == (match b
      case Rainy => "/night-rainy.png" case Cloudy => "/night-cloudy.png" case Sunny => "/night-sunny.png")
  {
  }

  /** The background image for a condition name and the report, sunrise and sunset times. */
  function BackgroundPath(conditionMain: string, dt: Option<int>, sunrise: int, sunset: int): (path: string)
    ensures path in Backgrounds
    ensures ParseBackground(path) == Some((IsDay(dt, sunrise, sunset), BackdropOf(ToLower(conditionMain))))
  {
    BackgroundFor(IsDay(dt, sunrise, sunset), BackdropOf(ToLower(conditionMain)))
  }

  /** Two reports with the same image agree on the time of day and on the backdrop. */
  lemma BackgroundPathDetermines(m1: string, dt1: Option<int>, r1: int, s1: int,
                                 m2: string, dt2: Option<int>, r2: int, s2: int)
    requires BackgroundPath(m1, dt1, r1, s1) == BackgroundPath(m2, dt2, r2, s2)
    ensures IsDay(dt1, r1, s1) == IsDay(dt2, r2, s2)
    ensures BackdropOf(ToLower(m1)) == BackdropOf(ToLower(m2))
  {
  }

  /** The background and the caption's joke pool agree: a rainy background goes with the rain
      jokes, a cloudy one with the cloud jokes, a sunny one with any other pool. */
  lemma BackdropMatchesJokePool(conditionMain: string)
    ensures var c := ToLower(conditionMain);
      (BackdropOf(c) == Rainy <==> Caption.JokeSky(c) == Caption.Rain) &&
      (BackdropOf(c) == Cloudy <==> Caption.JokeSky(c) == Caption.Cloud)
  {
  }

  /** "Rain" reported between sunrise and sunset shows the rainy day image. */
  lemma RainyDayBackground(conditionMain: string, dt: int, sunrise: int, sunset: int)
    requires conditionMain == "Rain" && sunrise <= dt < sunset
    ensures BackgroundPath(conditionMain, Some(dt), sunrise, sunset) == "/day-rainy.png"
  {
    Caption.RainWords(conditionMain);
    BackdropMatchesJokePool(conditionMain);
  }

  /** "Clear" reported at or after sunset shows the sunny night image. */
  lemma ClearNightBackground(conditionMain: string, dt: int, sunrise: int, sunset: int)
    requires conditionMain == "Clear" && sunset <= dt
    ensures BackgroundPath(conditionMain, Some(dt), sunrise, sunset) == "/night-sunny.png"
  {
    Caption.ClearWords(conditionMain);
    BackdropMatchesJokePool(conditionMain);
  }

  // ---- The state and its transitions ----

  /** The four state cells; `error` is `None` for `null`. */
  datatype AppState = AppState(weather: WeatherData, bgImage: string, location: string, error: Option<string>)

  const Initial: AppState := AppState(Placeholder, "", DefaultLocation, None)

  /** What can happen to the state: a response arrives, the request fails, the effect runs
      without an API key, or the user saves the location form (`input` is the text field, if any). */
  datatype Event = Fetched(res: WeatherData) | FetchFailed | KeyMissing | Saved(input: Option<string>)

  /** The state after an event. A response whose `weather` list is empty makes the success
      handler throw after it has stored the snapshot, so the failure handler runs as well. */
  function Next(s: AppState, e: Event): (t: AppState)
    ensures e.Fetched? ==> t.weather == e.res && t.location == s.location
    ensures e.Fetched? && |e.res.weather| > 0 ==>
      t.error == Some("") &&
      t.bgImage == BackgroundPath(e.res.weather[0].main, e.res.dt, e.res.sys.sunrise, e.res.sys.sunset)
    ensures e.Fetched? && |e.res.weather| == 0 ==> t.error == Some(FailureMessage) && t.bgImage == s.bgImage
    ensures e.FetchFailed? ==> t == s.(error := Some(FailureMessage))
    ensures e.KeyMissing? ==> t == s
    ensures e.Saved? ==> t.weather == s.weather && t.bgImage == s.bgImage && t.error == None &&
                          t.location == (if e.input.Some? then e.input.value else s.location)
  {
    match e
    case Fetched(res) =>
      if |res.weather| == 0 then s.(weather := res, error := Some(FailureMessage))
      else
        var c := res.weather[0];
        s.(weather := res, error := Some(""),
           bgImage := BackgroundPath(c.main, res.dt, res.sys.sunrise, res.sys.sunset))
    case FetchFailed => s.(error := Some(FailureMessage))
    case KeyMissing => s
    case Saved(input) => s.(location := if input.Some? then input.value else s.location, error := None)
  }

  /** The event one run of the fetch effect produces: nothing is requested without a key
      (absent or empty); otherwise the request's outcome decides (`None` is a failed request). */
  function EffectEvent(apiKey: Option<string>, outcome: Option<WeatherData>): (e: Event)
    ensures e.KeyMissing? <==> apiKey.None? || apiKey.value == ""
    ensures e.Fetched? <==> apiKey.Some? && apiKey.value != "" && outcome.Some?
    ensures e.FetchFailed? <==> apiKey.Some? && apiKey.value != "" && outcome.None?
    ensures e.Fetched? ==> e.res == outcome.value
  {
    if apiKey.None? || apiKey.value == "" then KeyMissing
    else if outcome.Some? then Fetched(outcome.value)
    else FetchFailed
  }

  /** The state after a sequence of events. */
  function Run(s: AppState, events: seq<Event>): AppState
    decreases |events|
  {
    if events == [] then s else Run(Next(s, events[0]), events[1..])
  }

  /** What holds of every state the application can be in: the background is unset or one
      of the six images, and the error indicator is `null`, cleared or the failure message. */
  predicate WellFormed(s: AppState)
  {
    (s.bgImage == "" || s.bgImage in Backgrounds) &&
    (s.error == None || s.error == Some("") || s.error == Some(FailureMessage))
  }

  lemma InitialWellFormed()
    ensures WellFormed(Initial)
  {
  }

  lemma NextWellFormed(s: AppState, e: Event)
    requires WellFormed(s)
    ensures WellFormed(Next(s, e))
  {
  }

  lemma {:induction false} RunWellFormed(s: AppState, events: seq<Event>)
    requires WellFormed(s)
    ensures WellFormed(Run(s, events))
    decreases |events|
  {
    if events != [] {
      NextWellFormed(s, events[0]);
      RunWellFormed(Next(s, events[0]), events[1..]);
    }
  }

  /** A later successful response erases any earlier failure: failing and then succeeding
      leaves the same state as succeeding straight away. */
  lemma SuccessAfterFailure(s: AppState, res: WeatherData)
    ensures Next(Next(s, FetchFailed), Fetched(res)) == Next(s, Fetched(res))
  {
  }

  /** A run of the effect without a key changes nothing, whatever the request would have given. */
  lemma MissingKeyChangesNothing(s: AppState, outcome: Option<WeatherData>)
    ensures Next(s, EffectEvent(None, outcome)) == s
    ensures Next(s, EffectEvent(Some(""), outcome)) == s
  {
  }

  /** A run of events in which no response arrives never changes the snapshot or the background. */
  lemma {:induction false} NoResponseKeepsSnapshot(s: AppState, events: seq<Event>)
    requires forall k :: 0 <= k < |events| ==> !events[k].Fetched?
    ensures Run(s, events).weather == s.weather && Run(s, events).bgImage == s.bgImage
    decreases |events|
  {
    if events != [] {
      NoResponseKeepsSnapshot(Next(s, events[0]), events[1..]);
    }
  }

  /** The background follows the snapshot after every complete response; the placeholder and
      a response without conditions leave a background that does not belong to the snapshot. */
  lemma StaleBackgrounds(s: AppState, res: WeatherData)
    requires |res.weather| == 0
    ensures Initial.bgImage !in Backgrounds
    ensures Next(s, Fetched(res)).weather == res && Next(s, Fetched(res)).bgImage == s.bgImage
  {
  }

  // ---- The application object ----

  /** The four state cells the component keeps, and the handlers that set them. */
  class WeatherApp {
    var weather: WeatherData
    var bgImage: string
    var location: string
    var error: Option<string>

    function State(): AppState
      reads this
    {
      AppState(weather, bgImage, location, error)
    }

    ghost predicate Valid()
      reads this
    {
      WellFormed(State())
    }

    constructor ()
      ensures State() == Initial && Valid()
    {
      weather := Placeholder;
      bgImage := "";
      location := DefaultLocation;
      error := None;
    }

    /** The `.then` handler: clear the error, store the snapshot, then derive the background
        from its first condition (throwing into the `.catch` handler when there is none). */
    method OnSuccess(res: WeatherData)
      requires Valid()
      modifies this
      ensures Valid()
      ensures State() == Next(old(State()), Fetched(res))
    {
      error := Some("");
      weather := res;
      if |res.weather| == 0 {
        OnFailure();
        return;
      }
      var condition := ToLower(res.weather[0].main);
      var currentTime := res.dt;
      var sunrise := res.sys.sunrise;
      var sunset := res.sys.sunset;
      var isDay := currentTime.Some? && currentTime.value >= sunrise && currentTime.value < sunset;
      var timeOfDay := if isDay then "day" else "night";
      var bg := "";
      if Includes(condition, "rain") {
        bg := timeOfDay + "-rainy.png";
        assert bg == timeOfDay + "-" + BackdropName(Rainy) + ".png";
      } else if Includes(condition, "cloud") {
        bg := timeOfDay + "-cloudy.png";
        assert bg == timeOfDay + "-" + BackdropName(Cloudy) + ".png";
      } else {
        bg := timeOfDay + "-sunny.png";
        assert bg == timeOfDay + "-" + BackdropName(Sunny) + ".png";
      }
      bgImage := "/" + bg;
      assert bgImage == BackgroundPath(res.weather[0].main, currentTime, sunrise, sunset);
    }

    /** The `.catch` handler: only the error indicator changes. */
    method OnFailure()
      modifies this`error
      ensures error == Some(FailureMessage)
      ensures State() == old(State()).(error := Some(FailureMessage))
    {
      error := Some(FailureMessage);
    }

    /** The effect without an API key: a diagnostic is logged and nothing changes. */
    method OnMissingKey()
      ensures State() == old(State())
    {
    }

    /** `saveChanges`: take the input's text as the location when there is an input, and reset
        the error to `null`. Returns whether the location changed, which is what makes the
        fetch effect run again. */
    method SaveChanges(input: Option<string>) returns (refetch: bool)
      requires Valid()
      modifies this`location, this`error
      ensures Valid()
      ensures State() == Next(old(State()), Saved(input))
      ensures refetch <==> location != old(location)
    {
      refetch := false;
      assert bgImage == old(bgImage);
      if input.Some? {
        refetch := input.value != location;
        location := input.value;
      }
      error := None;
    }

    /** One run of the fetch effect for the current location. */
    method RunEffect(apiKey: Option<string>, outcome: Option<WeatherData>)
      requires Valid()
      modifies this
      ensures Valid()
      ensures State() == Next(old(State()), EffectEvent(apiKey, outcome))
    {
      if apiKey.None? || apiKey.value == "" {
        OnMissingKey();
        return;
      }
      match outcome
      case Some(res) => OnSuccess(res);
      case None => OnFailure();
    }
  }
}
