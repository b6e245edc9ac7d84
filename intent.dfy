/** The correction pass the speaker applies to the intent record the
    language model produced (`Speaker.json_check`), and the key names of
    that record (the template of `Speaker.what_does_user_want`). */
module Intent {
  import opened PyValue

  const GeneralConversation := "general_conversation"
  const UseDeviceLocation := "use_device_location"
  const DeviceLocationAvailable := "device_location_available"
  const WeatherReportRequested := "weather_report_requested"
  const SpecificDays := "specific_days"
  const AskedLocation := "asked_location"
  const UserHasMadeMistake := "user_has_made_mistake"
  const FromDeviceLocation := "from_device_location"

  /** The day list an empty `specific_days` is replaced by. */
  const Today := List([Str("today")])

  /** `asked not in (None, "")`: the record names a location. A string of
      blanks names one too: nothing trims it. */
  predicate NamesLocation(asked: Value) {
    !(PyEq(asked, None) || PyEq(asked, Str("")))
  }

  /** `json["weather_report"]` is a dict. */
  predicate HasRecord(json: Value) {
    GetItem(json, "weather_report").Ok? && GetItem(json, "weather_report").value.Dict?
  }

  /** The entries of `json["weather_report"]`. */
  function Record(json: Value): seq<(string, Value)>
    requires HasRecord(json)
  {
    GetItem(json, "weather_report").value.entries
  }

  /** The record holds every key the pass as written reads. */
  predicate Checkable(json: Value) {
    && HasRecord(json)
    && HasKey(Record(json), AskedLocation)
    && HasKey(Record(json), SpecificDays)
    && HasKey(Record(json), DeviceLocationAvailable)
  }

  /** A key neither repair rule nor the device-flag line writes. */
  predicate Untouched(k: string) {
    k != GeneralConversation && k != UseDeviceLocation && k != SpecificDays && k != DeviceLocationAvailable
  }

  /** The two repair rules, as a relation between the record `es` and the
      corrected record `out`: a named location switches conversation mode and
      the device location off, an empty day list becomes `["today"]`, other
      keys except the device flag read as before, and the keys of `es` keep
      their positions (new keys only come after them). What happens to the
      device flag is stated by each variant of the pass. */
  ghost predicate Repaired(es: seq<(string, Value)>, out: seq<(string, Value)>)
    requires HasKey(es, AskedLocation) && HasKey(es, SpecificDays)
  {
    FindFound(es, AskedLocation);
    FindFound(es, SpecificDays);
    var asked := Find(es, AskedLocation).value;
    var days := Find(es, SpecificDays).value;
    && (NamesLocation(asked) ==>
          Find(out, GeneralConversation) == Ok(Bool(false)) && Find(out, UseDeviceLocation) == Ok(Bool(false)))
    && (!NamesLocation(asked) ==>
          Find(out, GeneralConversation) == Find(es, GeneralConversation)
          && Find(out, UseDeviceLocation) == Find(es, UseDeviceLocation))
    && Find(out, SpecificDays) == (if PyEq(days, List([])) then Ok(Today) else Ok(days))
    && (forall k :: Untouched(k) ==> Find(out, k) == Find(es, k))
    && |es| <= |out| && (forall i :: 0 <= i < |es| ==> out[i].0 == es[i].0)
  }

  /** The record after the two repair rules, or the KeyError a missing
      `asked_location` or `specific_days` raises. */
  function RepairRules(es: seq<(string, Value)>): (r: Py<seq<(string, Value)>>)
    ensures r.Ok? <==> HasKey(es, AskedLocation) && HasKey(es, SpecificDays)
    ensures r.Ok? ==> Repaired(es, r.value) && (forall k :: HasKey(es, k) ==> HasKey(r.value, k))
    ensures r.Ok? ==> Find(r.value, DeviceLocationAvailable) == Find(es, DeviceLocationAvailable)
  {
    FindFound(es, AskedLocation);
    match Find(es, AskedLocation)
    case Raise(e) => Raise(e)
    case Ok(asked) =>
      var es1 := if NamesLocation(asked)
                 then SetItem(SetItem(es, GeneralConversation, Bool(false)), UseDeviceLocation, Bool(false))
                 else es;
      SetItemFind(es, GeneralConversation, Bool(false));
      SetItemFind(SetItem(es, GeneralConversation, Bool(false)), UseDeviceLocation, Bool(false));
      SetItemKeys(es, GeneralConversation, Bool(false));
      SetItemKeys(SetItem(es, GeneralConversation, Bool(false)), UseDeviceLocation, Bool(false));
      FindFound(es, SpecificDays);
      FindFound(es1, SpecificDays);
      match Find(es1, SpecificDays)
      case Raise(e) => Raise(e)
      case Ok(days) =>
        var es2 := if PyEq(days, List([])) then SetItem(es1, SpecificDays, Today) else es1;
        SetItemFind(es1, SpecificDays, Today);
        SetItemKeys(es1, SpecificDays, Today);
        forall k | HasKey(es, k) ensures HasKey(es2, k) {
          FindFound(es, k);
          FindFound(es2, k);
          FindFound(es1, k);
        }
        Ok(es2)
  }

  /** `json_check` as written (Speaker.py:369-394). `json(None)` is returned
      as is. Line 389 compares `device_location_available` with the
      location-access flag and discards the result, so the flag keeps the
      value the language model gave it; the lookup on that line still raises
      KeyError when the key is missing. */
  function Correct(json: Value, locationAccess: bool): (r: Py<Value>)
    ensures json == None ==> r == Ok(None)
    ensures json != None ==> (r.Ok? <==> Checkable(json))
    ensures json != None && r.Ok? ==>
              && r.value.Dict?
              && Repaired(Record(json), r.value.entries)
              && Find(r.value.entries, DeviceLocationAvailable) == Find(Record(json), DeviceLocationAvailable)
  {
    if json != None then
      match GetItem(json, "weather_report")
      case Raise(e) => Raise(e)
      case Ok(report) =>
        match report
        case Dict(es) => (
          match RepairRules(es)
          case Raise(e) => Raise(e)
          case Ok(out) =>
            FindFound(es, DeviceLocationAvailable);
            FindFound(out, DeviceLocationAvailable);
            match Find(out, DeviceLocationAvailable)
            case Raise(e) => Raise(e)
            case Ok(_) => Ok(Dict(out)))
        // indexing anything but a dict with a string raises TypeError
        case _ => Raise(TypeError)
    else Ok(None)
  }

  /** `json_check` step by step, updating the record in place as the source
      does. */
  method JsonCheck(json: Value, locationAccess: bool) returns (r: Py<Value>)
    ensures r == Correct(json, locationAccess)
  {
    if json == None {
      return Ok(None);
    }
    var report := GetItem(json, "weather_report");
    if report.Raise? {
      return Raise(report.error);
    }
    if !report.value.Dict? {
      return Raise(TypeError);
    }
    var record := report.value.entries;
    var asked := Find(record, AskedLocation);
    if asked.Raise? {
      return Raise(asked.error);
    }
    if NamesLocation(asked.value) {
      record := SetItem(record, GeneralConversation, Bool(false));
      record := SetItem(record, UseDeviceLocation, Bool(false));
    }
    var days := Find(record, SpecificDays);
    if days.Raise? {
      return Raise(days.error);
    }
    if PyEq(days.value, List([])) {
      record := SetItem(record, SpecificDays, Today);
    }
    var flag := Find(record, DeviceLocationAvailable);
    if flag.Raise? {
      return Raise(flag.error);
    }
    var _ := PyEq(flag.value, Bool(locationAccess));
    return Ok(Dict(record));
  }

  /** The location-access flag has no effect on the pass as written. */
  lemma CorrectIgnoresAccess(json: Value)
    ensures Correct(json, true) == Correct(json, false)
  {
  }

  /** The pass as line 389 evidently intends it: the device flag is
      overwritten with the server's own knowledge of the device location
      (assigned, so a missing flag is added rather than raising). */
  function CorrectIntended(json: Value, locationAccess: bool): (r: Py<Value>)
    ensures json == None ==> r == Ok(None)
    ensures json != None ==>
              (r.Ok? <==> HasRecord(json) && HasKey(Record(json), AskedLocation) && HasKey(Record(json), SpecificDays))
    ensures json != None && r.Ok? ==>
              && r.value.Dict?
              && Repaired(Record(json), r.value.entries)
              && Find(r.value.entries, DeviceLocationAvailable) == Ok(Bool(locationAccess))
  {
    if json != None then
      match GetItem(json, "weather_report")
      case Raise(e) => Raise(e)
      case Ok(report) =>
        match report
        case Dict(es) => (
          match RepairRules(es)
          case Raise(e) => Raise(e)
          case Ok(out) =>
            var fixed := SetItem(out, DeviceLocationAvailable, Bool(locationAccess));
            SetItemFind(out, DeviceLocationAvailable, Bool(locationAccess));
            SetItemKeys(out, DeviceLocationAvailable, Bool(locationAccess));
            assert Repaired(es, fixed);
            Ok(Dict(fixed)))
        case _ => Raise(TypeError)
    else Ok(None)
  }

  /** A record whose device flag says false while the server knows the device
      location: the pass as written keeps false, the intended one gives true. */
  lemma DeviceFlagNotOverwritten()
    ensures var record := [(DeviceLocationAvailable, Bool(false)), (AskedLocation, None), (SpecificDays, Today)];
            var json := Dict([("weather_report", Dict(record))]);
            && Correct(json, true) == Ok(Dict(record))
            && Find(CorrectIntended(json, true).value.entries, DeviceLocationAvailable) == Ok(Bool(true))
  {
    var record := [(DeviceLocationAvailable, Bool(false)), (AskedLocation, None), (SpecificDays, Today)];
    var json := Dict([("weather_report", Dict(record))]);
    assert Find(record, AskedLocation) == Ok(None);
    assert Find(record[2..], SpecificDays) == Ok(Today);
    assert record[1..][1..] == record[2..];
    assert Find(record, SpecificDays) == Ok(Today);
    assert Find(record, DeviceLocationAvailable) == Ok(Bool(false));
    assert HasRecord(json) && Record(json) == record;
  }
}
