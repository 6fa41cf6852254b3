/** The weather reading that `get_weather` builds from the provider's
    decoded body. Floating-point rounding (`round(x, 1)`) is passed in as
    the function `round1`, and the wall-clock stamp as the string `now`.
 */
module Weather {
  import opened Payload
  import TitleCase

  /** The parts of the provider's body that the handler reads. */
  datatype Sys = Sys(country: Key<string>)
  datatype Main = Main(temp: Key<real>, feelsLike: Key<real>, humidity: Key<int>, pressure: Key<int>)
  datatype Condition = Condition(description: Key<string>, icon: Key<string>)
  datatype Wind = Wind(speed: Key<real>)
  datatype Report = Report(
    name: Key<string>,
    sys: Key<Sys>,
    main: Key<Main>,
    weather: Key<seq<Condition>>,
    wind: Key<Wind>)

  /** The `weather_data` record sent back to the dashboard. Values that the
      handler copies without using them may be `null`. */
  datatype Reading = Reading(
    city: Json<string>,
    country: Json<string>,
    temperature: real,
    feelsLike: real,
    description: string,
    icon: Json<string>,
    humidity: Json<int>,
    windSpeed: real,
    pressure: Json<int>,
    timestamp: string)

  /** `data['weather'][0]`. */
  function FirstCondition(r: Report): Result<Condition>
  {
    var conditions :- IndexValue(r.weather, "weather");
    if |conditions| == 0 then Err(IndexError) else Ok(conditions[0])
  }

  /** The `weather_data` dict literal, evaluated entry by entry: the first
      lookup that raises decides the fault. */
  function Normalize(r: Report, round1: real -> real, now: string): (res: Result<Reading>)
    ensures res.Err? ==> !res.fault.ValueError?
    ensures res.Ok? ==> res.value.timestamp == now
    ensures res.Ok? ==> TitleCase.Title(res.value.description) == res.value.description
  {
    var city :- Index(r.name, "name");
    var sys :- IndexValue(r.sys, "sys");
    var country :- Index(sys.country, "country");
    var main :- IndexValue(r.main, "main");
    var temp :- IndexValue(main.temp, "temp");
    var feelsLike :- IndexValue(main.feelsLike, "feels_like");
    var condition :- FirstCondition(r);
    var description :- Index(condition.description, "description");
    var text :- if description.Null? then Err(AttributeError) else Ok(description.value);
    var icon :- Index(condition.icon, "icon");
    var humidity :- Index(main.humidity, "humidity");
    var wind :- IndexValue(r.wind, "wind");
    var speed :- IndexValue(wind.speed, "speed");
    var pressure :- Index(main.pressure, "pressure");
    TitleCase.TitleIdempotent(text);
    Ok(Reading(city, country, round1(temp), round1(feelsLike), TitleCase.Title(text),
               icon, humidity, round1(speed), pressure, now))
  }

  /** What a provider body must hold for the handler not to raise. */
  predicate WellFormed(r: Report)
  {
    && r.name.Present?
    && r.sys.Present? && r.sys.json.Val? && r.sys.json.value.country.Present?
    && r.main.Present? && r.main.json.Val? && MainWellFormed(r.main.json.value)
    && r.weather.Present? && r.weather.json.Val? && |r.weather.json.value| > 0
    && ConditionWellFormed(r.weather.json.value[0])
    && r.wind.Present? && r.wind.json.Val?
    && r.wind.json.value.speed.Present? && r.wind.json.value.speed.json.Val?
  }

  predicate MainWellFormed(m: Main)
  {
    && m.temp.Present? && m.temp.json.Val?
    && m.feelsLike.Present? && m.feelsLike.json.Val?
    && m.humidity.Present? && m.pressure.Present?
  }

  predicate ConditionWellFormed(c: Condition)
  {
    c.description.Present? && c.description.json.Val? && c.icon.Present?
  }

  /** The handler builds a reading exactly when the body is well formed,
      and the reading copies, rounds and title-cases the body's fields. */
  lemma NormalizeOk(r: Report, round1: real -> real, now: string)
    ensures Normalize(r, round1, now).Ok? <==> WellFormed(r)
    ensures Normalize(r, round1, now).Ok? ==>
      var rd := Normalize(r, round1, now).value;
      var m := r.main.json.value;
      && rd.city == r.name.json
      && rd.country == r.sys.json.value.country.json
      && rd.temperature == round1(m.temp.json.value)
      && rd.feelsLike == round1(m.feelsLike.json.value)
      && rd.description == TitleCase.Title(r.weather.json.value[0].description.json.value)
      && rd.icon == r.weather.json.value[0].icon.json
      && rd.humidity == m.humidity.json
      && rd.windSpeed == round1(r.wind.json.value.speed.json.value)
      && rd.pressure == m.pressure.json
      && rd.timestamp == now
  {
  }

  /** The first missing key, in the order the dict literal reads them, is
      the one reported. */
  lemma MissingKeys(r: Report, round1: real -> real, now: string)
    ensures r.name.Absent? ==> Normalize(r, round1, now) == Err(KeyError("name"))
    ensures r.name.Present? && r.sys.Absent? ==> Normalize(r, round1, now) == Err(KeyError("sys"))
    ensures r.name.Present? && r.sys == Present(Null) ==> Normalize(r, round1, now) == Err(TypeError)
  {
  }
}
