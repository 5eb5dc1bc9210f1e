# Postown SmartWeb integration — a Dafny model

This project models the Home Assistant integration for the Postown SmartWeb home
automation site, an ASP.NET WebForms application. It covers:

- **The hub** (`hub.py`). It runs the two-phase login: GET the login page, POST the JSON
  pre-login, then POST the login form. It fetches pages, and when a fetch lands on the
  login page it logs in once and fetches once more. It posts button clicks, and on a
  sign of expiry it logs in once and posts once more.
- **The heater and light entities** (`climate.py`, `switch.py`). They read their state
  from status markers on the device page and send each request as one button postback.
- **The configuration wizard** (`config_flow.py`). It runs the connection test, adds
  devices, removes devices by label and edits credentials.

The HTTP session is replaced by a *script* of responses. A `SmartWebHub` holds
`responses`, the answers the server will give, and `sent`, every request issued so far.
Each request consumes the next scripted `Exchange`: either `Answer(Response(…))`, a
response with status, final URL, parsed page and JSON view of the body, or `Raised`, which stands for a network error
or timeout. An exhausted script answers `Raised`. HTML parsing is abstracted as a
`Document`: the page text, which is what the substring checks look at, plus a map from
element id to the element's optional `value` attribute.

Each hub operation has a specification function over a script: `LoginRun`, `GetSoupRun`
and `SendCommandRun`. Each returns the result, the requests issued and the unanswered
rest of the script. The imperative hub methods are proved equal to these functions, and
the protocol properties are proved as lemmas about them. The entities follow the same
pattern with `UpdateRun`, `CommandRun` and `OperateRun`.

Files: `wrappers.dfy` (Option), `const.dfy` (shared constants), `text.dfy` (substring test, `rstrip`, `capitalize`,
number conversions), `web.dfy` (pages, WebForms tokens, click postbacks, exchanges),
`hub.dfy`, `climate.dfy`, `switch.dfy`, `config_flow.dfy`.

The code tests for exactly 200 (`hub.py:53`, `hub.py:89`, `hub.py:143`), and the model
does the same.

## Model

| member | source | states |
|---|---|---|
| Text.ContainsIff | custom_components/postown_smartweb/hub.py:89 | Python's `p in s` is true exactly when `p` occurs in `s` at some index |
| Text.RStrip | custom_components/postown_smartweb/hub.py:14 | `rstrip("/")` leaves no trailing `/`, and the input is the result followed only by `/` characters |
| Text.RStripIdempotent | custom_components/postown_smartweb/hub.py:14 | stripping an already stripped host changes nothing |
| Text.Capitalize | custom_components/postown_smartweb/switch.py:102-104 | `capitalize()` upper-cases the first character and lower-cases the rest |
| Text.Trunc | custom_components/postown_smartweb/climate.py:162 | `int(x)` truncates toward zero: same sign, magnitude below `abs(x)` by less than 1 |
| Text.ParseIntToDecimal | custom_components/postown_smartweb/climate.py:110 | with exact reals, `str(n)` parses back to `n`, so the setpoint field written in a postback reads back as the integer written; Python's `float` agrees for \|n\| ≤ 2^53, which covers every setpoint |
| Text.TruncParseIntToDecimal | custom_components/postown_smartweb/climate.py:162 | with exact reals, `int(float(str(n))) == n`; Python agrees for \|n\| ≤ 2^53 |
| Web.ValueOrEmpty | custom_components/postown_smartweb/hub.py:76-77 | a missing generator or validation element reads as `""`; an element without a value attribute is a KeyError |
| Web.ReadTokensSpec | custom_components/postown_smartweb/climate.py:147-159 | tokens are read exactly when the viewstate is present and every present token element has a value; they are the page's values, with `""` for absent optional ones |
| Web.ButtonPostbackSpec | custom_components/postown_smartweb/switch.py:97-105 | the click postback holds exactly the three tokens, `__ASYNCPOST=true`, `ScriptManager1=UpdatePanel1\|btn` and coordinates `btn.x=30`, `btn.y=10` |
| Hub.LoginFormSpec | custom_components/postown_smartweb/hub.py:71-83 | the login form exists exactly when the page tokens are readable; it carries `Hidden1` = token, the viewstate, `txtID`/`txtPW`, and `__EVENTTARGET=btnLogin`, `Hidden2=1`, `__ASYNCPOST=true` |
| Hub.LoginTrueIff | custom_components/postown_smartweb/hub.py:27-101 | login succeeds iff the page has readable tokens, the pre-login answers exactly 200 with a non-empty token without `>`, and the form answers 200 with `pageRedirect` in the body; a raised exchange at any step gives false |
| Hub.LoginConsumes | custom_components/postown_smartweb/hub.py:31-87 | each request of the login consumes exactly one scripted response |
| Hub.LoginRequests | custom_components/postown_smartweb/hub.py:31-87 | the login issues, in order, the login-page GET, the JSON pre-login and the form POST to the login page, stopping early on failure; success means all three were sent |
| Hub.LoginNeedsViewstate | custom_components/postown_smartweb/hub.py:35-41 | with no `__VIEWSTATE` on the login page, or a failed GET, the login is false and posts nothing |
| Hub.LoginNeedsToken | custom_components/postown_smartweb/hub.py:53-62 | a pre-login status other than 200, or a missing, empty or `>`-containing token, gives false and no form POST |
| Hub.LoginPostsForm | custom_components/postown_smartweb/hub.py:71-87 | the posted form carries the token the pre-login returned, the page's viewstate and the credentials |
| Hub.LoginTwice | custom_components/postown_smartweb/hub.py:27-101 | two logins against a server accepting both succeed twice; the first consumes exactly its three responses |
| Hub.GetSoupConsumes | custom_components/postown_smartweb/hub.py:107-125 | page retrieval consumes one scripted response per request |
| Hub.GetSoupRetriesOnce | custom_components/postown_smartweb/hub.py:110-120 | retrieval sends the GET, at most one login sequence, and at most one repeated GET (only after a successful login); at most five requests |
| Hub.GetSoupReloginTrigger | custom_components/postown_smartweb/hub.py:112 | a login is attempted iff the final URL contains `Default.aspx` and the requested URL does not |
| Hub.GetSoupResult | custom_components/postown_smartweb/hub.py:110-125 | the page is returned unless the GET raised, or the session expired and the login failed, the retry raised, or the retry landed on `Default.aspx` again |
| Hub.GetSoupGivesUp | custom_components/postown_smartweb/hub.py:114-118 | a retry that lands on the login page again yields None after exactly five requests, with no further loop |
| Hub.SendCommandConsumes | custom_components/postown_smartweb/hub.py:127-146 | command submission consumes one scripted response per request |
| Hub.SendCommandRetriesOnce | custom_components/postown_smartweb/hub.py:136-143 | the command is posted once or twice; twice iff the first answer showed expiry and the login succeeded; the result is status 200 of the last answer, or of the original when there was no retry |
| Hub.SendCommandDirect | custom_components/postown_smartweb/hub.py:136-143 | a 200 answer without `pageRedirect` or `Default.aspx` is success with no login |
| Hub.SendCommandLoginFails | custom_components/postown_smartweb/hub.py:138-143 | if the re-login fails, no second POST is sent and the result is the original status == 200 |
| Hub.SmartWebHub.constructor | custom_components/postown_smartweb/hub.py:12-20 | the stored host is the input with trailing slashes removed; the session starts with no requests |
| Hub.SmartWebHub.Transact | custom_components/postown_smartweb/hub.py:31 | one HTTP exchange: logs the request and takes the next scripted response |
| Hub.SmartWebHub.Login | custom_components/postown_smartweb/hub.py:27-101 | the imperative login with early returns behaves as `LoginRun` on the session's script |
| Hub.SmartWebHub.TestConnection | custom_components/postown_smartweb/hub.py:103-105 | exactly one login: same result, same requests, same script consumed |
| Hub.SmartWebHub.GetSoup | custom_components/postown_smartweb/hub.py:107-125 | behaves as `GetSoupRun` on the session's script |
| Hub.SmartWebHub.SendCommand | custom_components/postown_smartweb/hub.py:127-146 | behaves as `SendCommandRun` on the session's script |
| Climate.ObservePrecedence | custom_components/postown_smartweb/climate.py:97-105 | `icon_b_boiler_away` gives HEAT/away, otherwise `icon_b_boiler_on` gives HEAT/home, otherwise OFF/home |
| Climate.ObserveSetpoint | custom_components/postown_smartweb/climate.py:107-113 | a readable setpoint becomes both target and current temperature, and an input without a value reads as 20; no input or an unparsable value leaves both unchanged |
| Climate.UpdateWithoutPage | custom_components/postown_smartweb/climate.py:91-93 | with no page, `update` leaves mode, preset and temperatures unchanged |
| Climate.ObserveHeatingAt22 | custom_components/postown_smartweb/climate.py:95-111 | a page with `icon_b_boiler_on` and setpoint "22" reads as heating, home preset, 22 |
| Climate.HomeRequestAfterObserve | custom_components/postown_smartweb/climate.py:123-131 | after a page is read, asking for the home preset clicks `btnOn` unless the page showed the heater on at home |
| Climate.HvacButtons | custom_components/postown_smartweb/climate.py:115-121 | HEAT clicks `btnOn`, OFF clicks `btnOff`, every other mode clicks nothing |
| Climate.CommandFormSpec | custom_components/postown_smartweb/climate.py:156-165 | the heater postback exists exactly for pages with readable tokens; it holds the button's envelope (`ScriptManager1`, coordinates, `__ASYNCPOST`), the viewstate, the generator and validation values with `""` for absent elements, plus `txtboxSetTemp`, which reads back as exactly the integer part of the target |
| Climate.CommandNeedsPage | custom_components/postown_smartweb/climate.py:143-154 | with no page or no `__VIEWSTATE`, nothing is submitted beyond the page fetch and the state is unchanged |
| Climate.CommandRefreshesOnSuccess | custom_components/postown_smartweb/climate.py:166-167 | a rejected postback leaves the state; an accepted one is followed by a re-`update` whose result is the new state |
| Climate.SmartWebHeater.constructor | custom_components/postown_smartweb/climate.py:71-87 | the heater starts OFF, home preset, target 20, no current temperature, with the device URL and unique id |
| Climate.SmartWebHeater.Update | custom_components/postown_smartweb/climate.py:89-113 | behaves as `UpdateRun`: the page markers and setpoint as observed, nothing changed without a page |
| Climate.SmartWebHeater.SetHvacMode | custom_components/postown_smartweb/climate.py:115-121 | HEAT sends `btnOn` and then sets the preset to home; OFF sends `btnOff`; other modes change nothing and send nothing |
| Climate.SmartWebHeater.SetPresetMode | custom_components/postown_smartweb/climate.py:123-131 | away sends `btnAway`; home sends `btnOn` only when OFF or away; otherwise nothing is sent |
| Climate.SmartWebHeater.SetTemperature | custom_components/postown_smartweb/climate.py:133-139 | no temperature changes nothing; otherwise the target is stored first and then `btnTmpSet` is sent with it |
| Climate.SmartWebHeater.SendCommand | custom_components/postown_smartweb/climate.py:141-169 | behaves as `CommandRun`: fetch, build the postback, submit, re-update on success |
| Switch.UpdateIff | custom_components/postown_smartweb/switch.py:68-72 | the light is on iff a page was fetched and contains `icon_b_light_on`; no page forces off |
| Switch.ActionButtons | custom_components/postown_smartweb/switch.py:74-80 | turn on clicks `btnOn`, turn off clicks `btnOff` |
| Switch.OperateFormSpec | custom_components/postown_smartweb/switch.py:97-105 | the light postback exists exactly for pages with readable tokens; it has exactly the seven envelope keys for the action's button, the page's viewstate, the generator and validation values with `""` for absent elements, `ScriptManager1`, coordinates and `__ASYNCPOST` |
| Switch.OperateNeedsPage | custom_components/postown_smartweb/switch.py:84-95 | with no page or no `__VIEWSTATE`, nothing is submitted and `is_on` is unchanged |
| Switch.OperateOutcome | custom_components/postown_smartweb/switch.py:106-107 | `is_on` becomes `action == "on"` only when the hub reports success; otherwise it is unchanged |
| Switch.OperateNeverInverts | custom_components/postown_smartweb/switch.py:106-107 | turning on never switches the light off, and turning off never switches it on |
| Switch.SmartWebLight.constructor | custom_components/postown_smartweb/switch.py:51-64 | the light starts off, with the device URL and unique id |
| Switch.SmartWebLight.Update | custom_components/postown_smartweb/switch.py:66-72 | behaves as `UpdateRun` on the hub's script |
| Switch.SmartWebLight.TurnOn | custom_components/postown_smartweb/switch.py:74-76 | operates with action "on" |
| Switch.SmartWebLight.TurnOff | custom_components/postown_smartweb/switch.py:78-80 | operates with action "off" |
| Switch.SmartWebLight.Operate | custom_components/postown_smartweb/switch.py:82-109 | behaves as `OperateRun`: fetch, build the postback, submit, adopt the new state on success |
| ConfigFlow.TestErrors | custom_components/postown_smartweb/config_flow.py:58-68 | a passing test gives no error, false gives `invalid_auth`, an exception gives `cannot_connect` |
| ConfigFlow.UserStep | custom_components/postown_smartweb/config_flow.py:58-68 | after the test: an already configured host aborts, a new host proceeds to the device step, a failure shows the user form with its error |
| ConfigFlow.UserStepAgrees | custom_components/postown_smartweb/config_flow.py:58-68 | outside the already-configured case, the corrected user step equals the code as written |
| ConfigFlow.AlreadyConfiguredMisreported | custom_components/postown_smartweb/config_flow.py:61-68 | as written, an already configured host that passes the test is shown `cannot_connect` |
| ConfigFlow.NewEntryData | custom_components/postown_smartweb/config_flow.py:100-108 | the created entry has exactly the keys host, username, password and devices, holding the given credentials and the device list |
| ConfigFlow.RemoveLabelled | custom_components/postown_smartweb/config_flow.py:188-192 | removal keeps exactly the devices whose label `name (id)` differs from the selection |
| ConfigFlow.RemoveConcat | custom_components/postown_smartweb/config_flow.py:189-192 | removal preserves the original order of the kept devices |
| ConfigFlow.RemoveAbsent | custom_components/postown_smartweb/config_flow.py:189-192 | removing a label no device has leaves the list unchanged |
| ConfigFlow.RemoveIdempotent | custom_components/postown_smartweb/config_flow.py:189-192 | removing the same selection twice removes nothing more |
| ConfigFlow.RemovalOptions | custom_components/postown_smartweb/config_flow.py:203-206 | the removal options are exactly the labels of the current devices, each mapped to itself |
| ConfigFlow.OfferedRemovalShrinks | custom_components/postown_smartweb/config_flow.py:184-206 | selecting any offered option removes at least one device |
| ConfigFlow.EditCredentials | custom_components/postown_smartweb/config_flow.py:231-234 | the edit replaces host, username and password and keeps every other key of the entry data |
| ConfigFlow.PostownSmartWebConfigFlow.constructor | custom_components/postown_smartweb/config_flow.py:38-43 | the flow starts with empty credentials and no devices |
| ConfigFlow.PostownSmartWebConfigFlow.StepUser | custom_components/postown_smartweb/config_flow.py:45-81 | stores the input, runs one login on a fresh hub, and on success sets the unique id `postown_smartweb_<host>`; the result is the corrected `UserStep` (an already configured host aborts), not the code's `cannot_connect` |
| ConfigFlow.PostownSmartWebConfigFlow.StepAddDevice | custom_components/postown_smartweb/config_flow.py:83-122 | appends exactly one device at the end; either asks for another or creates the entry with all devices |
| ConfigFlow.PostownSmartWebOptionsFlow.constructor | custom_components/postown_smartweb/config_flow.py:136-139 | the options flow starts from the entry's device list, or none |
| ConfigFlow.PostownSmartWebOptionsFlow.StepInit | custom_components/postown_smartweb/config_flow.py:141-148 | offers the add, remove and edit-credentials steps |
| ConfigFlow.PostownSmartWebOptionsFlow.StepAddDevice | custom_components/postown_smartweb/config_flow.py:150-178 | appends exactly one device at the end and stores the new list in the entry data |
| ConfigFlow.PostownSmartWebOptionsFlow.StepRemoveDevice | custom_components/postown_smartweb/config_flow.py:180-213 | an empty list aborts with `no_devices` first; a selection removes every match and updates the entry; otherwise the labels are offered |
| ConfigFlow.PostownSmartWebOptionsFlow.StepEditCredentials | custom_components/postown_smartweb/config_flow.py:215-257 | a passing test overwrites only host, username and password in the entry data; a failing one shows its error and changes nothing |

## Left out

- The HTTP transport. Cookies, request headers (User-Agent, AJAX headers), timeouts and
  the order of fields in a form-encoded body are not modelled. Responses come from a
  script, and an exception is the `Raised` exchange.
- HTML parsing. The model does not relate a page's text to its id lookup, and does not
  model which of several elements with the same id is found. `str(soup)` is taken to be
  the page text.
- JSON decoding. A body that is not a JSON object, or whose decoding raises, is
  `NotObject`. A `d` value that is not a string is not modelled.
- Text.ParseUnsigned: accepts only `[sign] digits [. digits]`. Python's `float` also
  accepts surrounding whitespace, exponents, underscores, `inf` and `nan`, and it rounds
  to binary floating point. The model's reals are exact.
- Text.Capitalize: only ASCII letters change case. Python applies Unicode case rules.
- Text.ParseIntToDecimal: proved with exact reals. Python's `float(str(n))` rounds once
  |n| > 2^53 (2^53 + 1 reads back as 2^53). Setpoints (10 to 40, `climate.py:68-69`)
  lie far below that bound.
- Text.TruncParseIntToDecimal: the same bound applies, for the same reason.
- Temperatures are exact reals. Any exception `int()` could raise on a non-finite float
  is not modelled.
- ConfigFlow.PostownSmartWebConfigFlow.StepUser: returns the corrected result `UserStep`. When
  the test passes and the unique id is already taken, it aborts with
  `already_configured`. The code as written catches that abort in its
  `except Exception` and shows the user form with `cannot_connect`
  (`config_flow.py:61-68`). `UserStepAsWritten` models that behaviour, and
  `UserStepAgrees` shows the two differ only in this case (see Findings). Apart from
  that, the connection test runs on the hub model, whose login never raises. So an
  exception escaping the executor job cannot arise here; `TestErrors` still maps that
  outcome to `cannot_connect`.
- ConfigFlow.PostownSmartWebOptionsFlow.StepEditCredentials: the same applies to its
  `cannot_connect` branch.
- The `already_in_progress` abort of `async_set_unique_id` is not modelled separately;
  `configured` stands for every unique id already taken.
- List aliasing. The source stores `self._devices` itself in the entry data, so later
  in-place appends would show through. The model stores a copy of the list value.
- Home Assistant plumbing is not modelled: async steps, the executor, form schemas (the
  device-type choice), description placeholders, menus and entity registration in
  `async_setup_entry`.
- `__init__.py`, `const.py` (only its constants are used) and `sensor.py` are not part
  of this model.
- Logging is not modelled.
- Concurrency is not modelled. The hub is used by one caller at a time.

## Findings

| source | as written | input that shows it | evidently intended | confidence | as-written member | corrected member |
|---|---|---|---|---|---|---|
| custom_components/postown_smartweb/config_flow.py:58-68 | `_abort_if_unique_id_configured()` runs inside `try ... except Exception`. Home Assistant's abort is an `Exception` subclass, so it is caught and the form shows `cannot_connect`. | Set up a host that already has an entry, with valid credentials: the test passes and the unique id `postown_smartweb_<host>` is already taken. | Abort the flow with `already_configured`. | medium; not executed; depends on Home Assistant's abort class, which is not part of this model | ConfigFlow.AlreadyConfiguredMisreported | ConfigFlow.UserStep |
