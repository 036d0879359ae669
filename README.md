# grape_mobile client logic, in Dafny

This project models the logic of the grape_mobile React Native client, a mobile
front end for a plant-disease service. The user logs in or registers, photographs
plants, sends the photos to the server, and browses their requests, event
details and statistics. The model covers the following:

- the **session gate** of the application root: a startup check of the stored
  `user_id`, then the spinner, the drawer shell or the auth flow;
- the **auth screen**'s submit table, and the **logout** button;
- the **profile screen**: identity lookup, load defaults, save checks, the save
  body and the `hasExperience` flag;
- the **statistics screen**: the query built from the filters, the class-map
  formatting, clearing the filters, the chart projection and the date setters;
- the **home screen**'s list refresh, the **event detail** screen's image, class
  list and class submission, and the **camera** screen's upload guard.

Each React component is a Dafny `class` whose fields are its `useState` cells.
Each handler is a `method` that updates those fields, and the ensures clauses
give the whole new state (`State() == old(State()).(…)`). A handler also returns
the observable effects it had, in program order, as a `seq<Effect>`. The effect
kinds are: a request sent, an alert shown, a storage write or removal, a write to
the session flag, and a busy indicator turned on or off. Ordering properties are
stated on that list, for example "the key is stored before the session is
authenticated".

What the outside world answers is an input, not something the model computes:

- a `fetch` result is `Fetched`: a response with its `ok` flag and a body that
  parsed as JSON or did not, or a network failure;
- an `axios` result is `AxiosResult`;
- whether a storage read rejects is a `readFails` flag;
- a camera capture is a `Shot`.

AsyncStorage is the class `Storage.KeyValueStore` over a `map<string, string>`.

JavaScript values are the datatype `Js.JsValue`, defined in `js.dfy`, together
with the semantics the screens rely on:

- truthiness and `||`;
- `typeof v === "object"`;
- property access that throws on `null` and `undefined`;
- `Object.entries`;
- `String(v)` and `v.toString()` for integers of magnitude below 10^21, proved
  to round-trip through decimal digits;
- the `/^\d+$/` test.

Logout clears the session flag first and only then removes the stored identity
(`navigation/drawer.js:15-16`); the effects of `Drawer.HandleLogout` state that
order. Should the removal fail, a token would stay stored, and a cold start
would accept it.

## Model

| member | source | states |
|---|---|---|
| Js.DigitsRoundTrip | screen/AuthScreen.js:29 | the decimal form of a natural number is all digits and reads back as the number |
| Js.DecimalStringShape | screen/ProfileScreen.js:85 | a number's decimal form is never empty, passes `/^\d+$/` iff the number is not negative, and reads back as the number |
| Js.DecimalStringInjective | screen/AuthScreen.js:29 | distinct numeric ids are stored as distinct strings |
| Js.ArrayEntryKeys | screen/StatsScreen.js:64-67 | when the class payload is an array, the ids `Object.entries` gives are runs of digits, pairwise distinct, each reading back as its element's index |
| Storage.KeyValueStore.GetItem | App.js:18 | a read yields the stored value, null for a missing key, or a rejection |
| Storage.KeyValueStore.SetItem | screen/AuthScreen.js:29 | a write sets one key and keeps every other |
| Storage.KeyValueStore.RemoveItem | navigation/drawer.js:16 | a removal drops one key and keeps every other entry unchanged |
| App.Render | App.js:30-49 | the spinner iff loading; once loaded, the drawer shell iff authenticated, else the auth flow |
| App.Session.constructor | App.js:12-13 | the session starts loading and unauthenticated |
| App.Session.CheckAuth | App.js:15-28 | loading ends, whether the read succeeds or throws; the flag becomes "a non-empty `user_id` is stored"; a failed read keeps it false |
| App.Session.SetAuthenticated | App.js:43 | the setter handed to the drawer and the auth screen sets the flag and keeps loading off |
| App.ColdStart | App.js:12-49 | a fresh start shows the drawer shell iff the read succeeds and a non-empty id is stored, else the auth flow |
| Drawer.HandleLogout | navigation/drawer.js:14-18 | afterwards the session is unauthenticated and no `user_id` is stored, whatever held before; the flag is cleared before the key is removed; other entries stay |
| Drawer.LogoutTwice | navigation/drawer.js:14-18 | two logouts leave the same session and store as one |
| Drawer.LogoutThenColdStart | navigation/drawer.js:14-18 | after a logout, a restart shows the auth flow |
| AuthScreen.Decide | screen/AuthScreen.js:19-40 | each outcome happens exactly when the source's conditions hold: an OK login with a `user_id` logs in with its string form, an OK registration registers, a refusal shows `data.error` or the generic text, and anything thrown fails |
| AuthScreen.AuthForm.constructor | screen/AuthScreen.js:8-10 | the form starts empty, in login mode |
| AuthScreen.AuthForm.EditUsername | screen/AuthScreen.js:8 | the login input sets only the user name |
| AuthScreen.AuthForm.EditPassword | screen/AuthScreen.js:9 | the password input sets only the password |
| AuthScreen.AuthForm.Toggle | screen/AuthScreen.js:68 | the switch link flips the mode and keeps the typed fields |
| AuthScreen.AuthForm.HandleAuth | screen/AuthScreen.js:12-41 | posts to `/login` or `/register` by mode. An OK login stores the token and only then authenticates. An OK registration switches to login and touches neither store nor flag. A refusal or a thrown error alerts and changes nothing |
| AuthScreen.LoginSurvivesRestart | screen/AuthScreen.js:29-30 | a stored token keeps the session across a restart iff it is non-empty, which holds for every numeric `user_id` |
| AuthScreen.LoginScenario | screen/AuthScreen.js:27-30 | from an empty store, a login answered with `user_id` 7 moves the root from the auth flow to the drawer shell, stores "7", and a restart still shows the drawer shell |
| ProfileScreen.SaveCheck | screen/ProfileScreen.js:79-89 | a password mismatch is rejected first; a set experience that is not all digits is rejected next; an empty experience passes |
| ProfileScreen.LoadedNumberPassesCheck | screen/ProfileScreen.js:62-66 | an experience loaded as a number passes the save check iff it is not negative |
| ProfileScreen.LoadFields | screen/ProfileScreen.js:62-66 | each field is the server's value when truthy and '' when missing or falsy; `hasExperience` is "`experience_year` truthy"; a null body throws |
| ProfileScreen.ReadProfile | screen/ProfileScreen.js:50-69 | a load succeeds exactly on an OK, parsed, non-null body; a non-OK status alerts the load-failure text; exactly a missing response, an unparsable or a null body alerts the runtime error |
| ProfileScreen.SaveAlert | screen/ProfileScreen.js:112-126 | the success alert carries `result.message` and appears exactly on an OK, parsed, non-null body; a non-OK status alerts the update-failure text; exactly a missing response, an unparsable or a null body alerts the runtime error |
| ProfileScreen.Profile.constructor | screen/ProfileScreen.js:15-24 | the form starts empty and loading, with no experience recorded |
| ProfileScreen.Profile.Edit | screen/ProfileScreen.js:145-186 | an input sets its own field only; the experience input exists only while no experience is recorded |
| ProfileScreen.Profile.FetchUserId | screen/ProfileScreen.js:27-40 | a non-empty stored id becomes `userId`; a missing or empty one alerts; a failed read changes nothing |
| ProfileScreen.Profile.FetchProfile | screen/ProfileScreen.js:44-76 | nothing happens without an id; otherwise the profile is requested, loaded fields replace the form's or the failure is alerted, and loading ends either way |
| ProfileScreen.Profile.HandleSave | screen/ProfileScreen.js:78-127 | a failed check alerts and sends nothing. A valid save sends exactly the five fields from the current state. An OK parsed answer sets `hasExperience` when an experience is entered, and the flag never goes back to false |
| StatsScreen.KeptAllStrings | screen/StatsScreen.js:88-90 | every string filter value, the empty one included, is appended |
| StatsScreen.BuildParams | screen/StatsScreen.js:85-90 | the query is `id_user` first, then each appendable filter, as a string, in key order |
| StatsScreen.StringFiltersQuery | screen/StatsScreen.js:85-90 | with string filters the query is exactly `id_user`, `diagnosis`, `start_date`, `end_date` |
| StatsScreen.StartDateOnlyQuery | screen/StatsScreen.js:85-90 | only a start date set: all four keys are sent, the unset ones empty |
| StatsScreen.FormatDiagnoses | screen/StatsScreen.js:64-67 | one `{id, name}` per entry, in entry order |
| StatsScreen.Series | screen/StatsScreen.js:112-113 | labels and counts match the points in length; each label is `date` if truthy, else `diagnosis`; a null point throws |
| StatsScreen.ChartOf | screen/StatsScreen.js:109-113 | nothing is drawn exactly when `chartData.length === 0`; otherwise the chart plots the projected series, or the render throws |
| StatsScreen.Stats.constructor | screen/StatsScreen.js:34-43 | empty filters, no diagnoses, no chart, mode `by_diagnosis`, no id |
| StatsScreen.Stats.LoadUserId | screen/StatsScreen.js:49-56 | only a stored, non-empty id is kept |
| StatsScreen.Stats.FetchDiagnoses | screen/StatsScreen.js:58-75 | the class list is requested; a class map replaces the diagnoses; a malformed payload or a failure leaves them unchanged |
| StatsScreen.Stats.FetchStats | screen/StatsScreen.js:81-98 | without an id nothing is sent and nothing changes. Otherwise the query is sent. A response replaces `mode` and `chartData` together, and a failure leaves both unchanged |
| StatsScreen.Stats.HandleClearFilters | screen/StatsScreen.js:100-107 | all filters empty and no chart; mode and diagnoses unchanged |
| StatsScreen.Stats.SelectDiagnosis | screen/StatsScreen.js:150-152 | the diagnosis filter changes, the others stay |
| StatsScreen.Stats.PickStartDate | screen/StatsScreen.js:190-196 | a cancelled picker changes nothing; a date sets only the start filter |
| StatsScreen.Stats.PickEndDate | screen/StatsScreen.js:205-211 | a cancelled picker changes nothing; a date sets only the end filter |
| HomeScreen.Refresh | screen/HomeScreen.js:18-38 | never alerts; requests only when a non-empty id is read; the list is replaced wholesale by an OK parsed answer and kept otherwise |
| HomeScreen.Home.constructor | screen/HomeScreen.js:12-13 | the list starts empty and not refreshing |
| HomeScreen.Home.FetchData | screen/HomeScreen.js:18-38 | a fetch has exactly the effects and the resulting list of `Refresh` |
| HomeScreen.Home.FocusChanged | screen/HomeScreen.js:40-44 | a fetch runs when the screen gains focus, never when it loses it |
| HomeScreen.Home.OnRefresh | screen/HomeScreen.js:46-50 | the indicator is on around the fetch and off afterwards, whatever the fetch did |
| RequestObjectScreen.FormatClasses | screen/RequestObjectScreen.js:40-43 | one `{id_class, name_class}` per entry, in entry order |
| RequestObjectScreen.SendOutcome | screen/RequestObjectScreen.js:53-69 | a send throws exactly on a network failure, an unparsable or null body; otherwise it succeeds iff `result.success` is truthy |
| RequestObjectScreen.EventScreen.constructor | screen/RequestObjectScreen.js:7-14 | the event counts as sent iff it carries a user comment; the image is loading; the send button starts disabled |
| RequestObjectScreen.EventScreen.FetchImageUrl | screen/RequestObjectScreen.js:21-31 | a parsed body's `url` becomes the image; loading ends whether the fetch succeeds or fails |
| RequestObjectScreen.EventScreen.FetchClasses | screen/RequestObjectScreen.js:33-51 | a class map replaces the classes; a malformed payload or a failure leaves them unchanged |
| RequestObjectScreen.EventScreen.SelectClass | screen/RequestObjectScreen.js:94 | the picker sets only the selected class |
| RequestObjectScreen.EventScreen.SendClass | screen/RequestObjectScreen.js:53-69 | posts `code_name` and the selected class. A truthy `success` marks the event sent with the success message, and a falsy one changes nothing. An error sets the retry message and keeps `isSent`. A sent event stays sent |
| CameraScreen.UploadAlert | screen/CameraScreen.js:60-67 | the success alert iff the response is OK, the failure alert otherwise |
| CameraScreen.Camera.constructor | screen/CameraScreen.js:12-13 | no id and not sending |
| CameraScreen.Camera.LoadUserId | screen/CameraScreen.js:15-32 | a non-empty stored id is kept; a missing one and a failed read each alert their own text |
| CameraScreen.Camera.PostToServer | screen/CameraScreen.js:34-71 | without an id it alerts and sends nothing, leaving `isSending`. Otherwise the form holds the `file://` photo and `id_client`. `isSending` is on during the upload and off after it, on success and failure |
| CameraScreen.Camera.CapturePhoto | screen/CameraScreen.js:73-91 | without an id it only alerts; while sending it does nothing; a failed capture alerts; a photo is uploaded |

## Left out

- Numbers are unbounded integers. Floating-point values, such as a fractional
  `experience_year` or `user_id`, are not modelled, and neither is their string
  form.
- A `Num` stands for an integer of magnitude below 10^21 (JavaScript holds it
  exactly only below 2^53). From 10^21 on, JavaScript writes a number in
  exponent form (`"1e+21"`), which `Js.DecimalString` does not produce.
- Js.DecimalStringShape: "all digits iff not negative" holds for JavaScript's
  `String(n)` only below 10^21, the range a `Num` stands for.
- ProfileScreen.LoadedNumberPassesCheck: an `experience_year` of 10^21 or more
  fails the check in JavaScript (its string has `e+`), which the lemma, stated
  over the `Num` range, does not cover.
- `config.API_URL` is not part of this model. Requests carry only their path,
  their query as an ordered list of key/value pairs, and their body.
- The model does not encode anything. It leaves out the percent-encoding done by
  `URLSearchParams.toString`, multipart `FormData` framing and
  `JSON.stringify`. The request path is plain concatenation, as in the template
  literals.
- Storage writes and removals always succeed. A rejected `setItem` or
  `removeItem` is not modelled.
- The handlers run as atomic sequential steps. The model does not capture async
  interleavings, stale closures such as `isSending` read from an earlier render,
  or state updates after unmount.
- Camera hardware is not modelled. A missing camera device, the permission
  check and `takePhoto` itself are inputs or are left out.
- The date pickers' `Date`/`toISOString` conversion is not modelled. A chosen
  date arrives as its `YYYY-MM-DD` string.
- The picker visibility flags are not modelled.
- The chart's width and styling are not modelled.
- `console.log` and `console.error` are not modelled. An alert is modelled by
  its title and text only.
- The text of a runtime error message shown by `Alert.alert(…, error.message)`
  is not modelled. Such a message is the single value `ErrorMessage`.
- The navigation configuration, the list and item components, the theme and all
  `StyleSheet` blocks are presentation, and are not modelled.
- StatsScreen.Stats.LoadUserId: a rejected storage read is treated as changing
  nothing. The source has no `catch` there, so the rejection goes unhandled.
