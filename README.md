# Parada Sigabem boarding app — a verified model

Parada Sigabem is a mobile app that helps a passenger stop the right bus.
The passenger picks an origin point and a bus line (the line is identified
by its headsign). The app then polls the nearby buses, shows the nearest
bus of that line with an arrival estimate, and vibrates once when the bus
is close. The passenger then confirms the boarding. A small service
stores the boarding requests.

This project models that core in Dafny, one module per source file.

- `ConfirmationScreen` (`confirmation_screen.dfy`)
  - How the stop and the line are chosen from the navigation parameters.
  - The arrival estimate.
  - One poll of the nearby buses. The poll filters by line, sorts in place by distance and takes the nearest bus.
  - The near-arrival vibration debounce. It is a class holding the `hasVibratedNear` flag, here called `armed`.
  - The storage effects of confirming the boarding.
- `RegisterScreen` and `LoginScreen` (`register_screen.dfy`, `login_screen.dfy`)
  - The CPF input mask. A CPF is the Brazilian taxpayer number of 11 digits.
  - The partial CPF check.
  - The guards that run before the registration or login request is sent.
- `LocationScreen` (`location_screen.dfy`)
  - The address label built from a reverse-geocoding answer.
  - The address search.
  - The save button and the new-request button.
- `ProfileScreen` (`profile_screen.dfy`)
  - How the stored CPF is displayed.
  - The vibration setting, as a class holding the switch, together with the store it reads and writes.
  - The new-request button, which resumes a pending request.
- `Server` (`server.dfy`)
  - The payload guard of `POST /api/requests`.
  - The insert into the `requests` table. It is a class holding the tables, the rows and the SERIAL counter.
  - `ensureSchema`.

Shared modules:

- `Base` holds optional values, JavaScript truthiness, `||` chains and `filter`.
- `Text` holds `replace(/\D/g, '')`, `trim`, ASCII `toLowerCase`, `split(',')` and `join(',')`.
- `Storage` models the device key/value store as a class over a `map<string, string>`.

Inputs supplied from outside become parameters:

- the HTTP answers (the bus list, the geocoding answers, whether a request succeeded);
- the current position;
- a database failure.

Behaviours of the code worth knowing, each proved below:

- **Debounce readings.** Readings of 25, 15, 10, 18 and 8 seconds vibrate the phone once, at 15 (`ConfirmationScreen.ExampleRun`). After 15 the flag stays set, because no later reading reaches 20.
- **Alert while the estimate shows "Calculando...".** The alert divides by 1 when the speed is missing or not positive, while the estimate gives up. So a bus shown as "Calculando..." can still trigger the vibration (`ConfirmationScreen.AlertWhileCalculating`).
- **Sort order.** The buses are sorted by distance only; buses at the same distance have no further tie-break.
- **Server storage.** `server.js` does a plain insert of every accepted request: there is no upsert and no per-line demand counter.

## Model

| member | source | states |
|---|---|---|
| Base.FirstTruthy | src/screens/LocationScreen.tsx:91-92 | `a \|\| b \|\| c \|\| ''` is `''` exactly when no operand is a non-empty string; otherwise it is the first such operand, and every operand before it is empty or missing |
| Base.FirstTruthyOfThree | src/screens/LocationScreen.tsx:91-92 | a three-operand chain is the expected if/else cascade over the operands |
| Base.Truthy | src/screens/ProfileScreen.tsx:169 | an optional string is falsy exactly when it is `null`/`undefined` or `''` |
| Base.Filter | src/screens/ConfirmationScreen.tsx:213-218 | every kept element passes the test, and the result is no longer than the input |
| Base.FilterCounts | src/screens/ConfirmationScreen.tsx:213-218 | a filter keeps every occurrence of a passing element and no occurrence of any other |
| Base.FilterIsSubsequence | src/screens/ConfirmationScreen.tsx:213-218 | a filter keeps the input order: the result is a subsequence of the input |
| Text.Digits | src/screens/RegisterScreen.tsx:25 | the result holds only ASCII digits and is no longer than the input |
| Text.DigitsCounts | src/screens/RegisterScreen.tsx:25 | each digit occurs in the result as often as in the input; no other character occurs |
| Text.DigitsConcat | src/screens/RegisterScreen.tsx:25 | stripping non-digits distributes over concatenation |
| Text.DigitsOfDigitString | src/screens/RegisterScreen.tsx:25 | a string of digits is left unchanged |
| Text.DigitsIdempotent | src/screens/RegisterScreen.tsx:25 | stripping twice equals stripping once |
| Text.IsJsSpace | src/screens/LocationScreen.tsx:113 | among ASCII characters exactly tab, line feed, vertical tab, form feed, carriage return and space count as white space; the four line terminators do too; no digit and no comma does |
| Text.TrimStart | src/screens/LocationScreen.tsx:113 | the result is a suffix of the input, what was removed is all white space, and the result starts with a non-space |
| Text.TrimEnd | src/screens/LocationScreen.tsx:113 | the result is a prefix of the input, what was removed is all white space, and the result ends with a non-space |
| Text.Trim | src/screens/LocationScreen.tsx:113 | the result is a slice of the input with only white space outside it, and it is empty or starts and ends with a non-space |
| Text.TrimEmptyIffBlank | src/screens/LocationScreen.tsx:113 | a string trims to `''` exactly when it is all white space |
| Text.TrimIdempotent | src/screens/ConfirmationScreen.tsx:215-216 | trimming twice equals trimming once |
| Text.TrimCommaCount | src/screens/LocationScreen.tsx:95 | trimming adds no comma |
| Text.LowerChar | src/screens/ConfirmationScreen.tsx:215-216 | an ASCII capital maps to its own lower-case letter (the same offset in the alphabet); every other character is unchanged |
| Text.Lower | src/screens/ConfirmationScreen.tsx:215-216 | same length as the input, lowered character by character |
| Text.Normalize | src/screens/ConfirmationScreen.tsx:215-216 | `trim().toLowerCase()` is empty exactly for a blank text, is no longer than the text, and holds no ASCII capital |
| Text.CommaCountConcat | src/screens/LocationScreen.tsx:95 | the comma count of a concatenation is the sum of the parts' counts |
| Text.Split | src/screens/LocationScreen.tsx:95 | `split(',')` gives one more piece than there are commas, and no piece holds a comma |
| Text.Join | src/screens/LocationScreen.tsx:95 | `join(',')`; its contract is stated by the two lemmas below: it inverts `split(',')` and puts exactly one comma between neighbouring pieces |
| Text.JoinSplit | src/screens/LocationScreen.tsx:95 | joining the pieces of a split with ',' gives back the string |
| Text.JoinCommaCount | src/screens/LocationScreen.tsx:95 | `join(',')` of pieces without commas holds one comma fewer than there are pieces |
| Text.FirstTwoPieces | src/screens/LocationScreen.tsx:95 | `split(',').slice(0, 2).join(',')` is the prefix that stops just before the second comma, or the whole string when it has at most one comma |
| Storage.Lookup | src/screens/ProfileScreen.tsx:160 | `getItem` on a snapshot: present exactly for a stored key, with the stored value |
| Storage.KeySet | src/screens/ConfirmationScreen.tsx:374-380 | the listed keys as a set, with the same members |
| Storage.AsyncStore.constructor | src/screens/ProfileScreen.tsx:15 | the store starts with the given entries |
| Storage.AsyncStore.GetItem | src/screens/ProfileScreen.tsx:160 | returns the lookup of the key in the current store |
| Storage.AsyncStore.SetItem | src/screens/ProfileScreen.tsx:138 | the key maps to the new value; every other entry is unchanged |
| Storage.AsyncStore.RemoveItem | src/screens/ConfirmationScreen.tsx:381 | the key is removed; every other entry is unchanged |
| Storage.AsyncStore.MultiRemove | src/screens/ConfirmationScreen.tsx:374-380 | after removing the keys one by one, the store is the old store minus exactly the listed keys |
| ConfirmationScreen.SelectRoute | src/screens/ConfirmationScreen.tsx:91-131 | no selection (the screen goes back) exactly when neither parameter flow is complete; the newer flow wins; the line is never empty; the origin text is the stored or given address, falling back to the coordinates |
| ConfirmationScreen.Round | src/screens/ConfirmationScreen.tsx:149-151 | `Math.round`: the result is within half a unit of the argument, halves rounded up |
| ConfirmationScreen.FormatTimeEstimate | src/screens/ConfirmationScreen.tsx:135-153 | "Calculando..." exactly when a value is missing, the speed is at most 0.5, or the quotient is negative; seconds below 60 are shown rounded (0 to 60); from 60 seconds on, rounded minutes (at least 1) |
| ConfirmationScreen.ArrivalSeconds | src/screens/ConfirmationScreen.tsx:242-244 | distance divided by the speed when the speed is positive, otherwise the distance itself |
| ConfirmationScreen.EstimateAgreesWithAlert | src/screens/ConfirmationScreen.tsx:236-246 | above 0.5 m/s at a non-negative distance, the estimate is defined and shows seconds exactly when the alert's seconds are below 60 |
| ConfirmationScreen.AlertWhileCalculating | src/screens/ConfirmationScreen.tsx:236-246 | a near bus with no usable speed shows "Calculando..." while the alert sees fewer than 20 seconds |
| ConfirmationScreen.MatchesLine | src/screens/ConfirmationScreen.tsx:214-217 | a matching bus has a headsign and a distance and agrees with the line in trimmed length; a bus whose headsign is the line itself matches when it has a distance |
| ConfirmationScreen.NormalizeLetter | src/screens/ConfirmationScreen.tsx:215-216 | a single letter normalises to its lower case |
| ConfirmationScreen.MatchIgnoresCase | src/screens/ConfirmationScreen.tsx:214-217 | a bus marked "X" serves the line "x" and not the line "y" |
| ConfirmationScreen.FilterLine | src/screens/ConfirmationScreen.tsx:213-218 | every kept bus has a headsign equal to the line after trim and lower case, and a distance; the result is no longer than the input |
| ConfirmationScreen.FilterLineSpec | src/screens/ConfirmationScreen.tsx:213-218 | every matching bus is kept as often as it occurs, no other bus is kept, and the input order is preserved |
| ConfirmationScreen.Dist | src/screens/ConfirmationScreen.tsx:234 | the sort key `distance!`: the bus's distance whenever it has one, which every bus past the line filter does |
| ConfirmationScreen.SortByDistance | src/screens/ConfirmationScreen.tsx:234 | the array is sorted in place by distance and is a permutation of the old contents |
| ConfirmationScreen.InsertAt | src/screens/ConfirmationScreen.tsx:234 | one insertion step sorts the first i+1 cells, which hold the same buses as before; the cells after them are unchanged |
| ConfirmationScreen.Swap | src/screens/ConfirmationScreen.tsx:234 | exchanges two neighbours and nothing else |
| ConfirmationScreen.NearestOf | src/screens/ConfirmationScreen.tsx:233-235 | the sorted list is a sorted permutation of the filtered buses; its first bus is one of them, and no filtered bus is closer |
| ConfirmationScreen.Advance | src/screens/ConfirmationScreen.tsx:246-261 | vibrates exactly on a reading below 20 with the flag clear; below 20 the flag ends set; at 20 or above, or with no bus of the line, it ends clear; a poll without data leaves it alone |
| ConfirmationScreen.Run | src/screens/ConfirmationScreen.tsx:246-261 | one vibration decision per poll, and the i-th decision is the debounce step on the i-th poll from the flag left by the polls before it |
| ConfirmationScreen.AtMostOncePerRun | src/screens/ConfirmationScreen.tsx:246-254 | over any run of near readings, with polls without data between them, the phone vibrates once if the flag started clear and the run holds a reading, otherwise never; the final flag is set exactly when it started set or a reading came |
| ConfirmationScreen.ExampleRun | src/screens/ConfirmationScreen.tsx:246-254 | readings 25, 15, 10, 18, 8 from a clear flag vibrate only at 15 |
| ConfirmationScreen.ArrivalTracker.constructor | src/screens/ConfirmationScreen.tsx:88 | the flag starts clear |
| ConfirmationScreen.ArrivalTracker.Poll | src/screens/ConfirmationScreen.tsx:156-265 | no line: nothing happens; failed fetch: the flag is kept; no bus of the line: the flag is cleared; otherwise the sorted buses, the nearest bus, its estimate, and the vibration and new flag of a debounce step on its arrival seconds |
| ConfirmationScreen.ConfirmDecision | src/screens/ConfirmationScreen.tsx:336-372 | confirmed exactly when a line is selected, a token is stored and the request succeeded; no line and no token are reported first, in that order |
| ConfirmationScreen.ClearPending | src/screens/ConfirmationScreen.tsx:374-381 | exactly the five pending keys are removed; every other key keeps its value |
| ConfirmationScreen.ConfirmEmbark | src/screens/ConfirmationScreen.tsx:336-381 | the outcome is the decision on the stored token; the store changes only on confirmation, and then to the old store without the pending keys |
| RegisterScreen.Kept | src/screens/RegisterScreen.tsx:35 | all digits are kept when there are at most 11, and exactly 11 when there are more |
| RegisterScreen.FormatCpf | src/screens/RegisterScreen.tsx:23-37 | the length is the kept digits plus 0 to 3 separators (at most 14); '.' at positions 3 and 7, '-' at 11, digits elsewhere |
| RegisterScreen.Mask | src/screens/RegisterScreen.tsx:28-36 | the same layout for a string of digits |
| RegisterScreen.FormatCpfDigits | src/screens/RegisterScreen.tsx:23-37 | the digits of the masked text are the first 11 digits of the input |
| RegisterScreen.MaskDigits | src/screens/RegisterScreen.tsx:28-36 | the digits of the mask of a digit string are its first 11 digits |
| RegisterScreen.MaskDigitsUpTo9 | src/screens/RegisterScreen.tsx:32-33 | the two-separator form keeps its 7 to 9 digits |
| RegisterScreen.MaskDigitsFull | src/screens/RegisterScreen.tsx:34-35 | the full form keeps the first 11 digits |
| RegisterScreen.DigitsAfterSeparator | src/screens/RegisterScreen.tsx:25 | a separator adds no digit |
| RegisterScreen.FormatCpfOnlyDigitsMatter | src/screens/RegisterScreen.tsx:25 | inputs with the same digits get the same mask |
| RegisterScreen.FormatCpfOfDigits | src/screens/RegisterScreen.tsx:25 | masking the digits alone gives the same text as masking the input |
| RegisterScreen.FormatCpfIdempotent | src/screens/RegisterScreen.tsx:23-42 | masking a masked text changes nothing |
| RegisterScreen.MaskOfKeptDigits | src/screens/RegisterScreen.tsx:34-35 | digits after the 11th do not change the mask |
| RegisterScreen.ValidateCpf | src/screens/RegisterScreen.tsx:44-60 | accepted exactly when the text holds 11 digits and some digit differs from the first |
| RegisterScreen.AllSame | src/screens/RegisterScreen.tsx:54 | `/^(\d)\1{10}$/`: no two characters of the text differ |
| RegisterScreen.ValidCpfFillsMask | src/screens/RegisterScreen.tsx:44-60 | an accepted CPF shows the complete 14-character mask |
| RegisterScreen.ValidateCpfIgnoresMask | src/screens/RegisterScreen.tsx:44-60 | up to 11 digits, the check answers the same on the masked text as on the raw text |
| RegisterScreen.HandleRegister | src/screens/RegisterScreen.tsx:62-96 | each refusal happens exactly when the earlier checks pass and its own fails; the request is sent exactly when all pass, and it carries the 11 digits without the mask |
| LoginScreen.FormatCpf | src/screens/LoginScreen.tsx:24-36 | the login mask equals the registration mask on every input |
| LoginScreen.FormatCpfProperties | src/screens/LoginScreen.tsx:24-36 | the login mask keeps the first 11 digits, is at most 14 long, and is idempotent |
| LoginScreen.HandleLogin | src/screens/LoginScreen.tsx:43-56 | nothing is sent exactly when the CPF or the password is empty; otherwise the CPF is sent as the field holds it |
| LoginScreen.LoginSendsMaskedCpf | src/screens/LoginScreen.tsx:38-55 | from 4 typed digits on, the sent CPF holds a '.', so it is not digits only |
| LocationScreen.PartsOf | src/screens/LocationScreen.tsx:90 | `data.address \|\| {}`: the answer's address object, or one with no street and no neighbourhood when it is missing |
| LocationScreen.Street | src/screens/LocationScreen.tsx:91 | road, else pedestrian, else residential, each taken only when non-empty, else `''` |
| LocationScreen.Neighbourhood | src/screens/LocationScreen.tsx:92 | suburb, else neighbourhood, else district, each taken only when non-empty, else `''` |
| LocationScreen.AddressLabel | src/screens/LocationScreen.tsx:90-97 | with a street: the street, followed by ", " and the neighbourhood when there is one; without a street: the trimmed `display_name` up to its second comma; no label (the text is kept) exactly when there is neither a street nor a `display_name` |
| LocationScreen.AfterCurrentPosition | src/screens/LocationScreen.tsx:78-100 | the point is always taken; the address is replaced only by a label that could be built |
| LocationScreen.StreetWinsOverDisplayName | src/screens/LocationScreen.tsx:93-95 | with a street, `display_name` does not matter |
| LocationScreen.DisplayNameLabelHasOneCommaAtMost | src/screens/LocationScreen.tsx:95 | a label from `display_name` holds at most one comma |
| LocationScreen.SearchQuery | src/screens/LocationScreen.tsx:113-122 | no query exactly for a blank text; otherwise the untrimmed text |
| LocationScreen.HandleSearch | src/screens/LocationScreen.tsx:112-136 | refused exactly for a blank text; otherwise the first result, "not found" for an empty list, or a failure when the lookup fails |
| LocationScreen.BlankSearchIgnoresAnswer | src/screens/LocationScreen.tsx:113-116 | for a blank text the outcome does not depend on any lookup |
| LocationScreen.SaveAddress | src/screens/LocationScreen.tsx:246-257 | nothing is passed on exactly while no point is chosen; otherwise the address and the point's own coordinates |
| LocationScreen.SearchThenSave | src/screens/LocationScreen.tsx:125-127 | saving after a successful search passes the first search result |
| LocationScreen.LocationFabAsWritten | src/screens/LocationScreen.tsx:275-285 | the handler always fails before looking at the stored value |
| LocationScreen.LocationFab | src/screens/LocationScreen.tsx:272-285 | blocked exactly when `pendingRequest` is stored as "true"; otherwise the origin screen opens |
| LocationScreen.LocationFabNeverOpens | src/screens/LocationScreen.tsx:275-284 | the handler as written never opens the origin screen, while the intended one does when nothing is pending |
| ProfileScreen.FirstRun | src/screens/ProfileScreen.tsx:96 | the leftmost start of 11 consecutive digits at or after `from`, or none when no such run exists |
| ProfileScreen.Mask11 | src/screens/ProfileScreen.tsx:96 | `$1.$2.$3-$4`: 14 characters, the digit groups in place, '.' at 3 and 7, '-' at 11 |
| ProfileScreen.DisplayCpf | src/screens/ProfileScreen.tsx:96 | a text with no run is unchanged; otherwise the prefix before the first run and the suffix after it are kept, and the run is masked |
| ProfileScreen.DisplayElevenDigits | src/screens/ProfileScreen.tsx:96 | 11 digits are shown as `ddd.ddd.ddd-dd` |
| ProfileScreen.DisplayAgreesWithRegisterMask | src/screens/ProfileScreen.tsx:96 | on 11 digits, the display equals the registration mask |
| ProfileScreen.DisplayWithoutRun | src/screens/ProfileScreen.tsx:96 | a text without 11 consecutive digits is shown unchanged |
| ProfileScreen.DisplayKeepsDigits | src/screens/ProfileScreen.tsx:96 | the display has the same digits as the stored text, in order |
| ProfileScreen.MaskKeepsDigits | src/screens/ProfileScreen.tsx:96 | the digits of the masked run are the run itself |
| ProfileScreen.BoolText | src/screens/ProfileScreen.tsx:138 | the text is "true" exactly for `true` |
| ProfileScreen.ParseVibration | src/screens/ProfileScreen.tsx:59-62 | a missing key keeps the current value; a stored value enables vibration exactly when it is "true" |
| ProfileScreen.VibrationRoundTrip | src/screens/ProfileScreen.tsx:136-139 | a stored switch value reads back as that value |
| ProfileScreen.VibrationSetting.constructor | src/screens/ProfileScreen.tsx:30 | vibration starts enabled |
| ProfileScreen.VibrationSetting.LoadVibrationSetting | src/screens/ProfileScreen.tsx:59-62 | the switch becomes the parse of the stored value, or keeps its value when none is stored |
| ProfileScreen.VibrationSetting.Toggle | src/screens/ProfileScreen.tsx:136-139 | the switch takes the value, and the store holds its text under the one key and is otherwise unchanged |
| ProfileScreen.ProfileFabDecision | src/screens/ProfileScreen.tsx:159-181 | the origin screen opens exactly when no request is pending; the request is resumed exactly when one is pending and all six fields are non-empty, with the stored values; otherwise an error is shown |
| ProfileScreen.PressFab | src/screens/ProfileScreen.tsx:159-181 | the handler, reading the keys one by one, decides as the decision on the store |
| Server.JsTruthy | server/server.js:43 | a body value is falsy exactly when it is `undefined`, `null`, `false`, `0` or `''` |
| Server.ValidPayload | server/server.js:43-45 | accepted exactly when neither origin nor destination is `undefined`, `null`, `false`, `0` or `''`, and `requested` is the boolean `true` |
| Server.GuardRejects | server/server.js:43 | "true", 1 and objects as `requested`, and an empty or missing origin or destination, are refused |
| Server.GuardIgnoresTimestamp | server/server.js:40-45 | the timestamp does not affect the guard |
| Server.WithRequestsTable | server/server.js:25-35 | the table is present afterwards; an existing one (whatever its columns) is kept, and a missing one gets the declared columns |
| Server.EnsureSchemaIdempotent | server/server.js:25-35 | applying the statement twice equals applying it once, and other tables are untouched |
| Server.InsertValues | server/server.js:49-52 | the four parameters are origin, destination, requested and timestamp, in the order of the insert's column list |
| Server.ColumnNamed | server/server.js:49 | the lookup of a column by name: a found column belongs to the table and has the name; none is found exactly when no column has the name |
| Server.InsertFails | server/server.js:25-59 | looked up by name in the `requests` table as it stands: a missing table, a missing `created_at` column or a database failure fails the insert; on the declared table, an accepted payload fails exactly when its timestamp is `undefined` or `null` |
| Server.DeclaredShape | server/server.js:27-33 | on a table laid out as the statement declares, each of the five names is found at its own place, and the only NOT NULL column left out of the insert is the SERIAL `id` |
| Server.DeclaredTable | server/server.js:27-33 | the declared table accepts an insert exactly when none of its four values is `undefined` or `null` |
| Server.NullableTimestampAccepted | server/server.js:26-27 | a `requests` table that existed before with a nullable `created_at` (which `IF NOT EXISTS` keeps) accepts a payload without a timestamp |
| Server.MissingColumnsRefused | server/server.js:26-27 | a `requests` table that existed before with only an `id` column refuses every insert |
| Server.MissingTimestampIsServerError | server/server.js:32-59 | a payload without a timestamp passes the guard, but its insert into the declared table fails on NOT NULL |
| Server.Database.constructor | server/server.js:28 | empty tables and rows; the SERIAL counter starts at 1 |
| Server.Database.EnsureSchema | server/server.js:25-35 | the tables become those of the statement above; the rows and the counter are unchanged |
| Server.Database.PostRequest | server/server.js:38-59 | 400 with nothing changed when the guard refuses; 500 with no row when the insert fails; otherwise 201 with the new id and exactly one row `(id, origin, destination, requested, timestamp)` appended; the new id is larger than every earlier id |
| Server.TwoRequests | server/server.js:28 | of two accepted requests in a row, the later gets the larger id |

## Left out

- Network calls are not modelled: the API, Nominatim, login and registration. Their answers are parameters; outcomes inside the answers (such as `data.message`) are not modelled.
- Timers and the polling lifecycle of the confirmation screen are not modelled: interval, fallback timeout, `isMounted` and the `pendingRequest` check before polling starts. They are scheduling; the model covers one poll at a time.
- UI effects become outcome values: alerts, navigation, `Vibration.vibrate`, the WebView map HTML and `postMessage`.
- `toFixed(4)` coordinate text and `toLocaleDateString` are not modelled. The origin text falls back to `Coordinates(at)` instead of the formatted numbers.
- `Number(...)` and `parseFloat(...)` are not modelled. Search results arrive as parsed locations. The profile screen passes the stored coordinate strings on unconverted.
- Floating point is not modelled. Distances, speeds and seconds are mathematical reals, and NaN and infinities are ignored.
- Geolocation permissions and `getCurrentPosition` are platform calls. The position is a parameter.
- 401/403 handling and sign-out in the poll are not modelled; they appear as a failed fetch.
- The login success path (storing a dummy token and the returned user id) is not modelled.
- Text.Lower: `toLowerCase` is modelled on ASCII letters only. Other letters are left unchanged.
- RegisterScreen.HandleRegister: strings are sequences of Unicode scalar values, not UTF-16 code units, so the 6-character password minimum counts code points.
- Server.ColumnName: column names are a datatype; the five names the insert and the schema use are its own constructors and `OtherColumn` stands for every other name, so a table is meant never to hold `OtherColumn` of one of the five.
- ConfirmationScreen.SortByDistance: the sort is not stated to be stable. The order of buses at equal distance is left open.
- ConfirmationScreen.ConfirmEmbark: a storage failure during the removals is not modelled.
- Server.Database.PostRequest: these details of PostgreSQL are not modelled:
  - the sequence values used up by failed inserts (so the model's ids have no gaps);
  - text conversion of non-string origins;
  - timestamp parsing errors beyond a missing or null value;
  - column types, `DEFAULT` clauses other than SERIAL's, and `CHECK`, `UNIQUE` and foreign-key constraints of a `requests` table that existed before.

  Every other database failure is the `storeFails` parameter.
- The process start-up (`ensureSchema().then(listen)`), CORS middleware and logging are Express plumbing. They are not modelled.
- A demand counter, an upsert keeping one active request per user, a nearest-vehicle query and a retry helper do not appear in the code, so they are not modelled.

## Findings

| source | as written | input that shows it | evidently intended | confidence | as-written member | corrected member |
|---|---|---|---|---|---|---|
| src/screens/LocationScreen.tsx:276 | the new-request button calls `AsyncStorage.getItem`, but the screen never imports `AsyncStorage`, so the handler throws a ReferenceError | any press, e.g. with no pending request stored | block a second request while `pendingRequest` is "true", otherwise open the origin screen (as the comment at line 272 says) | not executed; high, unless `AsyncStorage` were installed as a global elsewhere | LocationScreen.LocationFabAsWritten | LocationScreen.LocationFab |
