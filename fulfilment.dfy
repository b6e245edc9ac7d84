/** The decision tree of `Speaker.fulfil_request`: from the corrected intent
    record to the reply the speaker produces, written as a tagged outcome that
    records which providers would be asked for what. The language model, the
    weather providers, the geocoder and the day resolver are collaborators
    whose code is not part of this model; their results are parameters. */
module Fulfilment {
  import opened PyValue
  import opened Intent

  /** Device coordinates, as `format_user_location` extracts them. */
  datatype Coords = Coords(lat: real, long: real)

  /** The two weather providers. */
  datatype Provider = OpenMeteo | VisualCrossing

  /** Every way `fulfil_request` can end. */
  datatype Outcome =
    | CouldNotProcess          // the fixed "Couldn't process that request." (line 126)
    | Conversational           // a chat reply from the language model, no provider
    | DeviceForecast(wants: seq<string>, start: Value, end: Value, at: Coords)
                               // Open-Meteo at the device's coordinates
    | NamedForecast(wants: seq<string>, place: Value, long: Value, lat: Value, start: Value, end: Value)
                               // geocode `place`, then Open-Meteo and Visual Crossing
    | NoLocation               // the "enable location services" reply
    | Confused                 // the "didn't understand" reply
    | NoReply                  // the method falls off its end and returns None
    | ErrorReply               // the `else` branch of line 223
    | Raised(error: PyError)   // an exception escapes

  /** The weather providers an outcome consults. */
  function Providers(o: Outcome): set<Provider> {
    match o
    case DeviceForecast(_, _, _, _) => {OpenMeteo}
    case NamedForecast(_, _, _, _, _, _) => {OpenMeteo, VisualCrossing}
    case _ => {}
  }

  /** The forecast is for the coordinates the geocoder gives for its place:
      `location[0]` as the longitude and `location[1]` as the latitude
      (lines 191-193). */
  predicate Geocoded(o: Outcome, geocode: Value -> Py<Value>)
    requires o.NamedForecast?
  {
    && geocode(o.place).Ok?
    && Index(geocode(o.place).value, 0) == Ok(o.long)
    && Index(geocode(o.place).value, 1) == Ok(o.lat)
  }

  /** The keys whose values are truthy, in the record's order: the `wants`
      list of lines 148-150. */
  function TruthyKeys(es: seq<(string, Value)>): seq<string> {
    if es == [] then []
    else (if Truthy(es[0].1) then [es[0].0] else []) + TruthyKeys(es[1..])
  }

  /** A key is wanted exactly when some entry with that key has a truthy value. */
  lemma {:induction false} TruthyKeysMembers(es: seq<(string, Value)>, k: string)
    ensures k in TruthyKeys(es) <==> exists j :: 0 <= j < |es| && es[j].0 == k && Truthy(es[j].1)
  {
    if es != [] {
      TruthyKeysMembers(es[1..], k);
      if k in TruthyKeys(es[1..]) {
        var j :| 0 <= j < |es[1..]| && es[1..][j].0 == k && Truthy(es[1..][j].1);
        assert es[j + 1] == es[1..][j];
      }
      if exists j :: 0 <= j < |es| && es[j].0 == k && Truthy(es[j].1) {
        var j :| 0 <= j < |es| && es[j].0 == k && Truthy(es[j].1);
        if j > 0 {
          assert es[1..][j - 1] == es[j];
        }
      }
    }
  }

  /** The wanted keys of two consecutive stretches of entries come in the
      same order: the filter keeps the record's order. */
  lemma {:induction false} TruthyKeysAppend(a: seq<(string, Value)>, b: seq<(string, Value)>)
    ensures TruthyKeys(a + b) == TruthyKeys(a) + TruthyKeys(b)
  {
    if a == [] {
      assert a + b == b;
    } else {
      var head := if Truthy(a[0].1) then [a[0].0] else [];
      assert (a + b)[0] == a[0];
      assert (a + b)[1..] == a[1..] + b;
      assert TruthyKeys(a + b) == head + TruthyKeys(a[1..] + b);
      TruthyKeysAppend(a[1..], b);
      assert TruthyKeys(a) == head + TruthyKeys(a[1..]);
    }
  }

  /** The loop of lines 148-150, appending every key whose value is truthy. */
  method CollectWants(es: seq<(string, Value)>) returns (wants: seq<string>)
    ensures wants == TruthyKeys(es)
  {
    wants := [];
    var i := 0;
    while i < |es|
      invariant 0 <= i <= |es|
      invariant wants == TruthyKeys(es[..i])
    {
      var (key, item) := es[i];
      TruthyKeysAppend(es[..i], [es[i]]);
      assert es[..i + 1] == es[..i] + [es[i]];
      assert TruthyKeys([es[i]]) == if Truthy(item) then [key] else [];
      if Truthy(item) {
        wants := wants + [key];
      }
      i := i + 1;
    }
    assert es[..i] == es;
  }

  /** The key `k` is present and its value truthy. */
  predicate IsTruthy(es: seq<(string, Value)>, k: string) {
    Find(es, k).Ok? && Truthy(Find(es, k).value)
  }

  /** The key `k` is present and its value falsy. */
  predicate IsFalsy(es: seq<(string, Value)>, k: string) {
    Find(es, k).Ok? && !Truthy(Find(es, k).value)
  }

  /** Lines 129-132: `general_conversation` truthy and `weather_report_requested
      is False` (an identity test: only the value False passes, not 0 or None). */
  function ChatRequested(es: seq<(string, Value)>): Py<bool> {
    match Find(es, GeneralConversation)
    case Raise(e) => Raise(e)
    case Ok(chat) =>
      if !Truthy(chat) then Ok(false)
      else
        match Find(es, WeatherReportRequested)
        case Raise(e) => Raise(e)
        case Ok(requested) => Ok(requested == Bool(false))
  }

  /** Lines 152-154: the first two entries of what the day resolver returns
      for `specific_days`. */
  function DateRange(es: seq<(string, Value)>, resolveDays: Value -> Py<Value>): Py<(Value, Value)> {
    match Find(es, SpecificDays)
    case Raise(e) => Raise(e)
    case Ok(days) =>
      match resolveDays(days)
      case Raise(e) => Raise(e)
      case Ok(range) =>
        match Index(range, 0)
        case Raise(e) => Raise(e)
        case Ok(start) =>
          match Index(range, 1)
          case Raise(e) => Raise(e)
          case Ok(end) => Ok((start, end))
  }

  /** Lines 221-222: the "didn't understand" reply, or nothing at all. */
  function MistakeCheck(es: seq<(string, Value)>): Outcome {
    match Find(es, UserHasMadeMistake)
    case Raise(e) => Raised(e)
    case Ok(mistake) => if Truthy(mistake) then Confused else NoReply
  }

  /** Lines 158-161: the device location is available and no location is
      named. The test `asked == ""` adds nothing to `not asked`. */
  function DeviceUsable(es: seq<(string, Value)>): Py<bool> {
    match Find(es, DeviceLocationAvailable)
    case Raise(e) => Raise(e)
    case Ok(available) =>
      if !Truthy(available) then Ok(false)
      else
        match Find(es, AskedLocation)
        case Raise(e) => Raise(e)
        case Ok(asked) => Ok(!Truthy(asked) || PyEq(asked, Str("")))
  }

  /** Lines 184-188 as written: they read `from_device_location`, a key the
      record template does not have, before testing the device flag; when
      the test fails the method goes on to line 221. */
  function DeviceUnavailable(es: seq<(string, Value)>): Outcome {
    match Find(es, FromDeviceLocation)
    case Raise(e) => Raised(e)
    case Ok(from) =>
      if !Truthy(from) then MistakeCheck(es)
      else
        match Find(es, DeviceLocationAvailable)
        case Raise(e) => Raised(e)
        case Ok(available) => if !Truthy(available) then NoLocation else MistakeCheck(es)
  }

  /** Lines 184-188 as evidently intended: the device location was asked for
      (line 156 already holds) and is not available. */
  function DeviceUnavailableIntended(es: seq<(string, Value)>): Outcome {
    match Find(es, DeviceLocationAvailable)
    case Raise(e) => Raised(e)
    case Ok(available) => if !Truthy(available) then NoLocation else MistakeCheck(es)
  }

  /** Lines 156-188: the device-location path. */
  function DevicePath(es: seq<(string, Value)>, wants: seq<string>, start: Value, end: Value,
                      device: Py<Coords>, intended: bool): Outcome {
    match DeviceUsable(es)
    case Raise(e) => Raised(e)
    case Ok(usable) =>
      if usable then
        match device
        case Raise(e) => Raised(e)
        case Ok(at) => DeviceForecast(wants, start, end, at)
      else if intended then DeviceUnavailableIntended(es)
      else DeviceUnavailable(es)
  }

  /** Lines 189-220: geocode the asked location, then both providers. */
  function NamedPath(es: seq<(string, Value)>, wants: seq<string>, start: Value, end: Value,
                     geocode: Value -> Py<Value>): Outcome {
    match Find(es, AskedLocation)
    case Raise(e) => Raised(e)
    case Ok(place) =>
      match geocode(place)
      case Raise(e) => Raised(e)
      case Ok(location) =>
        match Index(location, 0)
        case Raise(e) => Raised(e)
        case Ok(long) =>
          match Index(location, 1)
          case Raise(e) => Raised(e)
          case Ok(lat) => NamedForecast(wants, place, long, lat, start, end)
  }

  /** Lines 146-220: a weather report was requested. */
  function WeatherPath(es: seq<(string, Value)>, resolveDays: Value -> Py<Value>, device: Py<Coords>,
                       geocode: Value -> Py<Value>, intended: bool): Outcome {
    var wants := TruthyKeys(es);
    match DateRange(es, resolveDays)
    case Raise(e) => Raised(e)
    case Ok((start, end)) =>
      match Find(es, UseDeviceLocation)
      case Raise(e) => Raised(e)
      case Ok(useDevice) =>
        if Truthy(useDevice) then DevicePath(es, wants, start, end, device, intended)
        else NamedPath(es, wants, start, end, geocode)
  }

  /** Lines 125-224, shared by the method as written (`intended` false) and
      the variant with lines 184-188 corrected. */
  function Route(w: Value, resolveDays: Value -> Py<Value>, device: Py<Coords>,
                 geocode: Value -> Py<Value>, intended: bool): Outcome {
    if w == None then CouldNotProcess
    else if w != None then
      match w
      case Dict(es) => (
        match ChatRequested(es)
        case Raise(e) => Raised(e)
        case Ok(chat) =>
          if chat then Conversational
          else
            match Find(es, WeatherReportRequested)
            case Raise(e) => Raised(e)
            case Ok(requested) =>
              if Truthy(requested) then WeatherPath(es, resolveDays, device, geocode, intended)
              else MistakeCheck(es))
      // indexing anything but a dict with a string raises TypeError
      case _ => Raised(TypeError)
    else ErrorReply
  }

  /** `fulfil_request` as written (Speaker.py:106-224). `resolveDays` stands for
      `get_specific_days`, `device` for what `format_user_location` makes of
      the device location, `geocode` for `Geocoding.default`. */
  function Fulfil(w: Value, resolveDays: Value -> Py<Value>, device: Py<Coords>,
                  geocode: Value -> Py<Value>): (r: Outcome)
    ensures w == None ==> r == CouldNotProcess
    ensures !r.ErrorReply?
    ensures r.Conversational? <==>
              w.Dict? && IsTruthy(w.entries, GeneralConversation)
              && Find(w.entries, WeatherReportRequested) == Ok(Bool(false))
    ensures r.DeviceForecast? ==>
              && w.Dict?
              && r.wants == TruthyKeys(w.entries)
              && IsTruthy(w.entries, WeatherReportRequested)
              && DateRange(w.entries, resolveDays) == Ok((r.start, r.end))
              && IsTruthy(w.entries, UseDeviceLocation)
              && IsTruthy(w.entries, DeviceLocationAvailable)
              && IsFalsy(w.entries, AskedLocation)
              && device == Ok(r.at)
    ensures r.NamedForecast? ==>
              && w.Dict?
              && r.wants == TruthyKeys(w.entries)
              && IsTruthy(w.entries, WeatherReportRequested)
              && DateRange(w.entries, resolveDays) == Ok((r.start, r.end))
              && IsFalsy(w.entries, UseDeviceLocation)
              && Find(w.entries, AskedLocation) == Ok(r.place)
              && Geocoded(r, geocode)
    ensures r.NoLocation? ==>
              && w.Dict?
              && IsTruthy(w.entries, UseDeviceLocation)
              && IsTruthy(w.entries, FromDeviceLocation)
              && IsFalsy(w.entries, DeviceLocationAvailable)
    ensures r.Confused? ==> w.Dict? && IsTruthy(w.entries, UserHasMadeMistake)
    ensures r.NoReply? ==> w.Dict? && IsFalsy(w.entries, UserHasMadeMistake)
    ensures w != None && !w.Dict? ==> r == Raised(TypeError)
  {
    Route(w, resolveDays, device, geocode, false)
  }

  /** Lines 184-222: a weather request for the device location, with the
      device location unavailable and `from_device_location` falsy, passes
      every branch and the method returns None when no mistake is flagged. */
  lemma WeatherRequestUnanswered(es: seq<(string, Value)>, resolveDays: Value -> Py<Value>, device: Py<Coords>,
                                 geocode: Value -> Py<Value>)
    requires Find(es, GeneralConversation).Ok?
    requires IsTruthy(es, WeatherReportRequested)
    requires DateRange(es, resolveDays).Ok?
    requires IsTruthy(es, UseDeviceLocation) && IsFalsy(es, DeviceLocationAvailable)
    requires IsFalsy(es, FromDeviceLocation) && IsFalsy(es, UserHasMadeMistake)
    ensures Fulfil(Dict(es), resolveDays, device, geocode) == NoReply
  {
  }

  /** One such record: the keys of the template plus a falsy
      `from_device_location`, with the day resolver answering a pair. */
  lemma UnansweredExample(resolveDays: Value -> Py<Value>, device: Py<Coords>, geocode: Value -> Py<Value>)
    requires resolveDays(Today) == Ok(List([Str("2024-05-01"), Str("2024-05-01")]))
    ensures var es := [(GeneralConversation, Bool(false)), (UseDeviceLocation, Bool(true)),
                       (DeviceLocationAvailable, Bool(false)), (WeatherReportRequested, Bool(true)),
                       (SpecificDays, Today), (AskedLocation, None), (UserHasMadeMistake, Bool(false)),
                       (FromDeviceLocation, Bool(false))];
            Fulfil(Dict(es), resolveDays, device, geocode) == NoReply
  {
    var es := [(GeneralConversation, Bool(false)), (UseDeviceLocation, Bool(true)),
               (DeviceLocationAvailable, Bool(false)), (WeatherReportRequested, Bool(true)),
               (SpecificDays, Today), (AskedLocation, None), (UserHasMadeMistake, Bool(false)),
               (FromDeviceLocation, Bool(false))];
    FindAt(es, UseDeviceLocation, 1);
    FindAt(es, DeviceLocationAvailable, 2);
    FindAt(es, WeatherReportRequested, 3);
    FindAt(es, SpecificDays, 4);
    FindAt(es, UserHasMadeMistake, 6);
    FindAt(es, FromDeviceLocation, 7);
    WeatherRequestUnanswered(es, resolveDays, device, geocode);
  }

  /** Every forecast asks Open-Meteo for `weather_report_requested` itself
      among the wanted fields: the wants list is every truthy key, not only
      the weather variables. */
  lemma ForecastWantsWeatherFlag(w: Value, resolveDays: Value -> Py<Value>, device: Py<Coords>,
                                    geocode: Value -> Py<Value>)
    requires Fulfil(w, resolveDays, device, geocode).DeviceForecast?
          || Fulfil(w, resolveDays, device, geocode).NamedForecast?
    ensures WeatherReportRequested in Fulfil(w, resolveDays, device, geocode).wants
  {
    var es := w.entries;
    FindFound(es, WeatherReportRequested);
    var j :| 0 <= j < |es| && es[j].0 == WeatherReportRequested;
    FindFirst(es, WeatherReportRequested);
    TruthyKeysMembers(es, WeatherReportRequested);
  }

  /** The value `Find` returns is the value of some entry with that key. */
  lemma {:induction false} FindFirst(es: seq<(string, Value)>, k: string)
    requires Find(es, k).Ok?
    ensures exists j :: 0 <= j < |es| && es[j] == (k, Find(es, k).value)
  {
    if es[0].0 != k {
      FindFirst(es[1..], k);
      var j :| 0 <= j < |es[1..]| && es[1..][j] == (k, Find(es[1..], k).value);
      assert es[j + 1] == es[1..][j];
    }
  }

  /** A lookup finds the first entry with its key. */
  lemma {:induction false} FindAt(es: seq<(string, Value)>, k: string, n: nat)
    requires n < |es| && es[n].0 == k
    requires forall i :: 0 <= i < n ==> es[i].0 != k
    ensures Find(es, k) == Ok(es[n].1)
  {
    if n > 0 {
      FindAt(es[1..], k, n - 1);
    }
  }

  /** The device path is taken whenever its conditions hold (the converse of
      the device clause of `Fulfil`), and it consults Open-Meteo only. */
  lemma DevicePathTaken(es: seq<(string, Value)>, resolveDays: Value -> Py<Value>, at: Coords,
                        geocode: Value -> Py<Value>, start: Value, end: Value)
    requires Find(es, GeneralConversation).Ok?
    requires IsTruthy(es, WeatherReportRequested)
    requires DateRange(es, resolveDays) == Ok((start, end))
    requires IsTruthy(es, UseDeviceLocation) && IsTruthy(es, DeviceLocationAvailable)
    requires IsFalsy(es, AskedLocation)
    ensures Fulfil(Dict(es), resolveDays, Ok(at), geocode) == DeviceForecast(TruthyKeys(es), start, end, at)
    ensures Providers(Fulfil(Dict(es), resolveDays, Ok(at), geocode)) == {OpenMeteo}
  {
  }

  /** The named path is taken whenever its conditions hold, and it geocodes
      the asked location and consults both providers. */
  lemma NamedPathTaken(es: seq<(string, Value)>, resolveDays: Value -> Py<Value>, device: Py<Coords>,
                       geocode: Value -> Py<Value>, start: Value, end: Value, long: Value, lat: Value)
    requires Find(es, GeneralConversation).Ok?
    requires IsTruthy(es, WeatherReportRequested)
    requires DateRange(es, resolveDays) == Ok((start, end))
    requires IsFalsy(es, UseDeviceLocation)
    requires Find(es, AskedLocation).Ok?
    requires geocode(Find(es, AskedLocation).value) == Ok(List([long, lat]))
    ensures Fulfil(Dict(es), resolveDays, device, geocode)
            == NamedForecast(TruthyKeys(es), Find(es, AskedLocation).value, long, lat, start, end)
    ensures Providers(Fulfil(Dict(es), resolveDays, device, geocode)) == {OpenMeteo, VisualCrossing}
  {
  }

  /** Only the two forecast outcomes reach a provider; a conversational reply,
      the fixed reply for None and every clarification reach none. */
  lemma ProvidersOnlyForForecasts(w: Value, resolveDays: Value -> Py<Value>, device: Py<Coords>,
                                  geocode: Value -> Py<Value>)
    ensures var r := Fulfil(w, resolveDays, device, geocode);
            (Providers(r) != {} <==> r.DeviceForecast? || r.NamedForecast?)
            && (OpenMeteo in Providers(r) ==> IsTruthy(w.entries, WeatherReportRequested))
            && (r.DeviceForecast? ==> device == Ok(r.at))
            && (VisualCrossing in Providers(r) ==>
                 && r.NamedForecast? && Geocoded(r, geocode)
                 && Find(w.entries, AskedLocation) == Ok(r.place)
                 && IsFalsy(w.entries, UseDeviceLocation))
  {
  }

  /** After the correction pass, a record that names a location never gets a
      chat reply, the device forecast or the location-services reply: any
      forecast it gets is for the named place. */
  lemma NamedLocationIsLookedUp(json: Value, locationAccess: bool, resolveDays: Value -> Py<Value>,
                                device: Py<Coords>, geocode: Value -> Py<Value>)
    requires json != None && Correct(json, locationAccess).Ok?
    requires NamesLocation(Find(Record(json), AskedLocation).value)
    ensures var r := Fulfil(Correct(json, locationAccess).value, resolveDays, device, geocode);
            && !r.Conversational? && !r.DeviceForecast? && !r.NoLocation?
            && (r.NamedForecast? ==> r.place == Find(Record(json), AskedLocation).value)
  {
    var out := Correct(json, locationAccess).value.entries;
    FindFound(Record(json), AskedLocation);
    assert Untouched(AskedLocation);
    assert Find(out, AskedLocation) == Find(Record(json), AskedLocation);
  }

  /** As written, a template record asking for the device location when none
      is available raises KeyError on `from_device_location` instead of
      producing the location-services reply. */
  lemma DeviceUnavailableRaises(es: seq<(string, Value)>, resolveDays: Value -> Py<Value>, device: Py<Coords>,
                                geocode: Value -> Py<Value>)
    requires !HasKey(es, FromDeviceLocation)
    requires Find(es, GeneralConversation).Ok?
    requires IsTruthy(es, WeatherReportRequested)
    requires DateRange(es, resolveDays).Ok?
    requires IsTruthy(es, UseDeviceLocation) && IsFalsy(es, DeviceLocationAvailable)
    ensures Fulfil(Dict(es), resolveDays, device, geocode) == Raised(KeyError(Str(FromDeviceLocation)))
  {
    FindFound(es, FromDeviceLocation);
  }

  /** `fulfil_request` with lines 184-188 testing only keys the record
      template (Speaker.py:64-86) has: a device location asked for and not
      available gets the location-services reply and consults no provider. */
  function FulfilIntended(w: Value, resolveDays: Value -> Py<Value>, device: Py<Coords>,
                          geocode: Value -> Py<Value>): (r: Outcome)
    ensures w == None ==> r == CouldNotProcess
    ensures !r.ErrorReply?
    ensures w.Dict? && Find(w.entries, GeneralConversation).Ok? && IsTruthy(w.entries, WeatherReportRequested)
            && DateRange(w.entries, resolveDays).Ok?
            && IsTruthy(w.entries, UseDeviceLocation) && IsFalsy(w.entries, DeviceLocationAvailable)
            ==> r == NoLocation && Providers(r) == {}
    ensures r.NoLocation? ==>
              w.Dict? && IsTruthy(w.entries, UseDeviceLocation) && IsFalsy(w.entries, DeviceLocationAvailable)
  {
    Route(w, resolveDays, device, geocode, true)
  }
}
