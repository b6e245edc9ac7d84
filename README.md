# Weather speaker: request handling

This is a Dafny model of the request-handling core of the weather-chat web
server. The core is `webserver/modules/Speaker.py` and the location check of
`webserver/main.py`. It covers the following steps:

- **Cleaning** the language model's reply (`format_lm_json`): remove every
  backtick, then every "python" if the text starts with "python", otherwise
  every "json". Then parse the text and hand back the fixed string
  "Unable to process that request." if parsing raises.
- **Correcting** the intent record (`json_check`). A named location turns
  off conversation mode and the device location. An empty day list becomes
  `["today"]`. Line 389 compares the device flag with the server's
  knowledge, and the comparison has no effect.
- **Routing** the corrected record (`fulfil_request`). The possible ends are:
  the fixed reply for `None`, a chat reply, a forecast at the device's
  coordinates (Open-Meteo), or a forecast for a named place (geocoder, then
  Open-Meteo and Visual Crossing). There is also the location-services
  reply, the "didn't understand" reply, and falling off the end. The list of
  wanted fields is every truthy key of the record, in record order.
- **Cross-checking** the two providers' hourly reports (`compare_reports`).
  For every non-`time` field and every hour, it keeps an entry whenever the
  values differ and the secondary lookup did not answer `False`.
- **Conversation state** `Speaker` keeps: the message history, the "spoken
  to before" flag (`add_to_context`, `context_message`), and the
  location-access flag that `check_device_location` sets.

Python values are the `PyValue.Value` datatype:

- None, bools, numbers as reals, strings, lists, and dicts as ordered
  entries;
- Python's truth test and `==` (where `True == 1`);
- subscripting, assignment and `len`;
- exceptions, as the result type `Py<T> = Ok(value) | Raise(error)`.

The four operations that compute a value step by step appear twice. Each
method updates variables step by step as the source does, and its `ensures`
ties its result to a specification function about which the properties are
proved as lemmas: `JsonCheck` to `Correct`, `FormatLmJson` to `Formatted`,
`CollectWants` to `TruthyKeys`, and `CompareReports` to `Differences` (its
inner loop `CompareHours` to `Row`, one pass `CompareHour` to `Cell`). The
state changes of `add_to_context` and of main.py:24 are methods of, or on,
the `Speaker` class, whose `ensures` state the new state directly.

The collaborators are parameters of the model:

- the language model's reply string;
- the JSON parser (`Api.string_to_json`);
- the day resolver (`get_specific_days`);
- the geocoder (`Geocoding.default`);
- the device coordinates (`format_user_location`);
- the timestamp conversion (`date_time_conversion`);
- the secondary lookup (`search_report`);
- the two providers' reports.

Some behaviour of the code differs from what its template (Speaker.py:64-98)
and docstrings suggest; the model follows the code:

- `json_check` never overwrites `device_location_available` (line 389
  compares instead of assigning), so the flag keeps the language model's
  value.
- `json_check` has no rule for `weather_report_requested`, so a record with
  both `general_conversation` and `weather_report_requested` true stays that
  way unless it names a location (`Intent.Repaired` leaves the key
  untouched).
- A weather request for an unavailable device location whose
  `from_device_location` and `user_has_made_mistake` are falsy passes every
  branch, and
  `fulfil_request` returns None (`Fulfilment.WeatherRequestUnanswered`).
- A blank location string counts as a named location.
- A reply that cannot be parsed becomes the string
  "Unable to process that request.". `json_check` then subscripts that
  string and raises TypeError (`Session.UnparsableReplyRaises`). That reply
  never reaches the `None` branch of `fulfil_request`.
- A secondary lookup that answers `None` where the primary value is not
  `None` produces an entry. Only `False` is skipped.
- `check_device_location` treats an absent `location` argument (Python's
  None) as an available location.

## Model

| member | source | states |
|---|---|---|
| Intent.RepairRules | webserver/modules/Speaker.py:382-387 | Succeeds exactly when the record has `asked_location` and `specific_days`. A named location sets `general_conversation` and `use_device_location` to False; otherwise both keep their values. An empty day list becomes `["today"]`. Every other key reads as before, and keys keep their positions. |
| Intent.Correct | webserver/modules/Speaker.py:369-394 | `json_check` as written. None gives None. Otherwise it succeeds exactly when `weather_report` is a dict with the three keys it reads. It then returns that inner record with both repair rules applied and the device flag as the model gave it. |
| Intent.JsonCheck | webserver/modules/Speaker.py:369-394 | The step-by-step pass with in-place assignments returns or raises exactly what `Correct` does. |
| Intent.CorrectIgnoresAccess | webserver/modules/Speaker.py:389 | The location-access flag does not affect the result of the pass as written. |
| Intent.CorrectIntended | webserver/modules/Speaker.py:389 | The pass with line 389 as an assignment. Same repair rules; the device flag equals the server's location-access flag; a missing device flag no longer raises. |
| Intent.DeviceFlagNotOverwritten | webserver/modules/Speaker.py:389 | A concrete record whose device flag is False while access is known: as written the result keeps False; the intended pass gives True. |
| LmFormat.RemoveAllChar | webserver/modules/Speaker.py:237 | Removing a character leaves no copy of it. Every other character keeps its number of occurrences. |
| LmFormat.RemoveAllChars | webserver/modules/Speaker.py:240-243 | `replace(p, "")` only removes characters; no new character appears. |
| LmFormat.RemoveAllAbsent | webserver/modules/Speaker.py:240-243 | `replace(p, "")` leaves a string that does not contain `p` unchanged. |
| LmFormat.Strip | webserver/modules/Speaker.py:237-244 | The text handed to the parser contains no backtick. |
| LmFormat.FormatLmJson | webserver/modules/Speaker.py:226-251 | Returns the parsed value when parsing succeeds, and the fixed "Unable to process that request." string when it raises. |
| LmFormat.JsonFenceRoundTrip | webserver/modules/Speaker.py:237-244 | A body fenced as json, with no backtick and no "json" of its own, comes out as exactly that body. |
| LmFormat.PythonFenceRoundTrip | webserver/modules/Speaker.py:237-244 | A body fenced as python, with no backtick and no "python" of its own, comes out as exactly that body. |
| Fulfilment.TruthyKeysMembers | webserver/modules/Speaker.py:148-150 | A key is in the wants list exactly when some entry with that key has a truthy value. |
| Fulfilment.TruthyKeysAppend | webserver/modules/Speaker.py:148-150 | The wants list of a concatenation is the concatenation of the wants lists, so record order is kept. |
| Fulfilment.CollectWants | webserver/modules/Speaker.py:148-150 | The loop over the record's items yields the truthy keys in record order. |
| Fulfilment.Fulfil | webserver/modules/Speaker.py:106-224 | None gives the fixed reply. The dead `else` is never reached. A chat reply comes exactly when `general_conversation` is truthy and `weather_report_requested` is False. A device forecast needs: a weather request, `use_device_location` and `device_location_available` truthy, no named location, and the device coordinates; it asks for every truthy key over the resolved date range. A named forecast needs a weather request and `use_device_location` falsy; its place is the asked location and its longitude and latitude are `[0]` and `[1]` of the geocoder's answer for that place. The location-services reply needs `from_device_location` truthy and the device flag falsy. The "didn't understand" reply needs `user_has_made_mistake` truthy; no reply at all needs it falsy. A value that is neither None nor a dict raises TypeError. |
| Fulfilment.ForecastWantsWeatherFlag | webserver/modules/Speaker.py:146-150 | Every forecast's wants list contains `weather_report_requested` itself. |
| Fulfilment.WeatherRequestUnanswered | webserver/modules/Speaker.py:184-222 | A weather request for an unavailable device location, with `from_device_location` and `user_has_made_mistake` falsy, ends with no reply (the method returns None). |
| Fulfilment.UnansweredExample | webserver/modules/Speaker.py:184-222 | A concrete such record, with the template's keys, gets no reply. |
| Fulfilment.DevicePathTaken | webserver/modules/Speaker.py:156-183 | When the device-forecast conditions hold, the device forecast is the outcome, and it consults Open-Meteo only. |
| Fulfilment.NamedPathTaken | webserver/modules/Speaker.py:189-220 | When the named-forecast conditions hold and the geocoder answers, the outcome is the forecast for that place, and it consults both providers. |
| Fulfilment.ProvidersOnlyForForecasts | webserver/modules/Speaker.py:106-224 | A provider is consulted exactly for the two forecast outcomes. Open-Meteo is asked only for a weather request. A device forecast is at the device's coordinates. Visual Crossing is asked only for the named forecast, whose coordinates are the geocoder's answer for the asked location, and only when the device location is not used. |
| Fulfilment.NamedLocationIsLookedUp | webserver/modules/Speaker.py:382-384 | After `json_check`, a record that names a location never gets a chat reply, the device forecast or the location-services reply. Any forecast it gets is for the named place. |
| Fulfilment.DeviceUnavailableRaises | webserver/modules/Speaker.py:184-188 | As written, a template record asking for an unavailable device location raises KeyError on `from_device_location`. |
| Fulfilment.FulfilIntended | webserver/modules/Speaker.py:184-188 | With the intended test, a device location asked for and unavailable gets the location-services reply and consults no provider. |
| Reconcile.CompareHour | webserver/modules/Speaker.py:269-287 | One pass of the inner loop, with its lookups in the source's order, yields or raises exactly what `Cell` does. |
| Reconcile.CompareHours | webserver/modules/Speaker.py:268-287 | The inner loop extends the running `difference` list by exactly the entries `Row` gives, or raises its exception. |
| Reconcile.CompareReports | webserver/modules/Speaker.py:253-288 | The outer loop over the hourly fields, running the inner loop for each non-`time` field, returns or raises exactly what `Differences` does. |
| Reconcile.RowSound | webserver/modules/Speaker.py:268-287 | Every entry of the inner loop is for the current field and records values that disagree. |
| Reconcile.FieldsSound | webserver/modules/Speaker.py:264-287 | Every entry of the outer loop is for a non-`time` key of the hourly dict and records values that disagree. |
| Reconcile.DifferencesSound | webserver/modules/Speaker.py:253-288 | Without both reports the result is empty. Every reported entry is for a field of the primary report's hourly dict other than `time`, its values differ, and its secondary value is not False. |
| Reconcile.RowPrefix | webserver/modules/Speaker.py:268-287 | The inner loop only appends: the entries for the first hours come first, in order. |
| Reconcile.FieldsPrefix | webserver/modules/Speaker.py:264-287 | The outer loop only appends: the entries for earlier fields come first, in order. |
| Reconcile.RowComplete | webserver/modules/Speaker.py:268-287 | Every disagreement found at an hour appears in the inner loop's result. |
| Reconcile.FieldsComplete | webserver/modules/Speaker.py:264-287 | Every entry found for a field appears in the outer loop's result. |
| Reconcile.DifferencesComplete | webserver/modules/Speaker.py:263-287 | Given both reports, every disagreement at any hour of any non-`time` field is reported. |
| Reconcile.CellOrigin | webserver/modules/Speaker.py:269-287 | An entry of one hour is made from that hour's data: its time is the converted timestamp, its field the key, its primary value `value[i]` and its secondary value what the lookup answered for that hour; the two disagree, and the time is hashable. |
| Reconcile.RowOrigin | webserver/modules/Speaker.py:268-287 | Every entry of the inner loop is what one of its hours yields. |
| Reconcile.FieldsOrigin | webserver/modules/Speaker.py:264-287 | Every entry of the outer loop is what some hour of some non-`time` field yields. |
| Reconcile.DifferencesExactly | webserver/modules/Speaker.py:263-287 | Given both reports, an entry is reported if and only if some hour of some non-`time` field of the primary hourly data yields it. |
| Reconcile.CellMeaning | webserver/modules/Speaker.py:269-287 | One hour of one field yields an entry exactly when the values differ and the secondary one is not False; building the entry's time set raises TypeError when the converted time is a list or dict. |
| Reconcile.RowRaises | webserver/modules/Speaker.py:268-287 | An exception in the inner loop ends it with that exception. |
| Reconcile.FieldsRaises | webserver/modules/Speaker.py:264-287 | An exception in the outer loop ends it with that exception. |
| Reconcile.CellRaises | webserver/modules/Speaker.py:269-276 | An exception at any hour of any field is what the whole comparison raises. |
| Session.Speaker.constructor | webserver/modules/Speaker.py:20-22 | Empty history, not spoken to before, no location access. The state invariant holds. |
| Session.Speaker.AddToContext | webserver/modules/Speaker.py:342-361 | The status "true" clears the history and the flag. Any other status sets the flag and appends exactly one entry for a "user" or "speaker" message and none otherwise. The location flag is unchanged. The invariant is kept: no history before the user has been spoken to, and only user and speaker entries. |
| Session.Speaker.ContextMessage | webserver/modules/Speaker.py:363-367 | As written, always the "spoken to this user before" note. |
| Session.Speaker.ContextMessageIntended | webserver/modules/Speaker.py:363-367 | Intended: the no-greeting note exactly when the user has been spoken to before, and the greeting note otherwise; in a valid state the greeting note comes only with an empty history. |
| Session.NewChatNotGreeted | webserver/modules/Speaker.py:363-367 | In a new chat, the note as written differs from the intended one. |
| Session.Speaker.WhatDoesUserWant | webserver/modules/Speaker.py:100-104 | The model's reply is cleaned, parsed and corrected with the speaker's own location-access flag. |
| Session.UnparsableReplyRaises | webserver/modules/Speaker.py:100-104 | A reply the parser rejects makes `what_does_user_want` raise TypeError. |
| Session.FencedReplyCorrected | webserver/modules/Speaker.py:100-104 | A json-fenced reply whose body parses to a checkable record comes through the correction pass. |
| Server.CheckDeviceLocation | webserver/main.py:41-52 | The device location counts as available exactly when the argument is not the literal string "None". |
| Server.OnlyLiteralNoneWithholds | webserver/main.py:49-52 | An absent argument, the empty string and "none" all count as available; only "None" does not. |
| Server.UpdateLocationAccess | webserver/main.py:23-24 | The speaker's location-access flag becomes the check's answer, and nothing else changes. |

## Left out

- The language model call (`send_to_lm`) and the prompt texts are left out. The replies are outcome tags, and the model's reply is a parameter.
- The geocoder, `get_specific_days`, `format_user_location`, `date_time_conversion`, `search_report` and `Api.string_to_json` are not part of this model; their results, and their exceptions, are parameters.
- The weather providers (`Open_Metro.request_forecast`, `Visual_Crossing.request_forecast`) are not part of this model. A forecast outcome records the request made (wanted fields, dates, place or coordinates), not the provider's answer: a provider that raises, which in the source propagates out of `fulfil_request` and on the named path stops the Visual Crossing call (Speaker.py:196-208), is not modelled.
- `datetime.now()` and `date.today()` are left out because they are clock reads. They only feed prompt text.
- The `round(..., 2)` of the device coordinates is left out, because it is floating point. `Coords` carries the coordinates as given.
- `Speaker.error_message`, `confuse_message` and `no_location_message` are left out because they only produce language-model prompts. They appear as the outcomes `ErrorReply`, `Confused` and `NoLocation`.
- `Speaker.user_location_name` (Speaker.py:325-330) is left out: it is a reverse-geocoding call into the geocoder, which is not part of this model, and nothing in the modelled code calls it.
- The `/communicate` route is left out apart from lines 23-24. It calls `speaker.check_chat_status`, which none of the shown code defines (`Speaker` inherits from `Api`, Speaker.py:9, which is not part of this model). It also passes `name=` to `add_to_context`, which has no such parameter and requires `chatStatus`. As written, the route raises before it replies.
- Line 217 puts the bound method `self.compare_reports` into the prompt instead of calling it, so `compare_reports` is never run by the server. It is modelled on its own.
- The `print` calls are left out because they produce diagnostic output only.
- The `try`/`except` of `add_to_context` is left out, because nothing inside it can raise.
- Reconcile.Disagreement: the `time` entry of a difference is the one-element set `{date_time["time"]}`; the model carries the time value itself. Building that set raises TypeError for an unhashable time (a list or dict), and `Cell` models that raise.
- PyValue.PyEq: dicts are compared entry by entry in order, which is stricter than Python's order-insensitive dict equality.

## Findings

| source | as written | input that shows it | evidently intended | confidence | as-written member | corrected member |
|---|---|---|---|---|---|---|
| webserver/modules/Speaker.py:389 | `==` compares the device flag with `location_access` and discards the result | a record with `device_location_available: false` while `location_access` is True | `=`: the flag takes the server's knowledge of the device location | high, not executed | Intent.DeviceFlagNotOverwritten | Intent.CorrectIntended |
| webserver/modules/Speaker.py:184-188 | tests `weather_wants["from_device_location"]`, a key the record template does not have | a template record with `use_device_location` true and `device_location_available` false raises KeyError | test only `not device_location_available` and give the location-services reply | high, not executed | Fulfilment.DeviceUnavailableRaises | Fulfilment.FulfilIntended |
| webserver/modules/Speaker.py:364 | tests the bound method `self.get_specific_days`, which is always truthy | a new chat (`spoken_to_before` False) still gets the "spoken to before" note | test `self.spoken_to_before` | high, not executed | Session.NewChatNotGreeted | Session.Speaker.ContextMessageIntended |
