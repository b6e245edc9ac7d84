/** The Flask front end (`webserver/main.py`): how the request's `location`
    argument sets the speaker's location-access flag. */
module Server {
  import opened PyValue
  import opened Session

  /** `check_device_location` (main.py:41-52): only the literal string
      "None" means the device location was withheld. The argument comes from
      `request.args.get`, so it is a string or, when absent, Python's None. */
  function CheckDeviceLocation(location: Value): (available: bool)
    ensures available <==> location != Str("None")
  {
    !PyEq(location, Str("None"))
  }

  /** An absent `location` argument, an empty one or a differently spelt
      "none" all count as an available device location. */
  lemma OnlyLiteralNoneWithholds()
    ensures CheckDeviceLocation(None) && CheckDeviceLocation(Str(""))
    ensures CheckDeviceLocation(Str("none")) && !CheckDeviceLocation(Str("None"))
  {
  }

  /** main.py:23-24: the route stores the check's answer on the shared speaker. */
  method UpdateLocationAccess(speaker: Speaker, location: Value)
    modifies speaker`locationAccess
    ensures speaker.locationAccess == CheckDeviceLocation(location)
  {
    speaker.locationAccess := CheckDeviceLocation(location);
  }
}
