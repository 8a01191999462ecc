# Veterinary clinic front end: realtime client and page logic

This project models the logic at the core of a veterinary clinic's web front end:

- **The realtime client** (`signalRClient.js`). It resolves the hub URL from two build settings. Before it connects, a health probe gates the connection. It subscribes three server events and turns each inbound event into one notification. It computes the reconnect back-off. It tears the connection down again on stop.
- **The account page** (`Account.jsx`). It covers the pet list and each pet's nested illness and visit records. It also covers the per-pet details toggle, the age text, the visit-type caption and the three-prompt password check.
- **The disease catalogue page** (`Diseases.jsx`). It covers the search and category filter, the category and severity captions, and the admin's save and delete.
- **The veterinarian administration page** (`AdminVets.jsx`). It covers load with a fixed fallback list, save as update or create, and removal.
- **The navigation bar** (`Navbar.jsx`). It covers the menu items, the admin entry and the `active` marker.

Where the source holds state and changes it, so does the model. The client and each page are classes whose fields are the source's fields or React state variables. Their handlers are methods, and every handler states the whole new state. The list transforms the handlers build that state with are pure functions, and the properties are proved about those functions. The notification service is represented by a `NotificationSink` that only records the entries it is handed, oldest first.

Everything the code learns from outside becomes a parameter. This covers:

- backend replies, modelled as `Reply`: a reply with a `success` flag and optional data, or a thrown error;
- the health probe;
- whether opening or stopping the hub connection fails;
- `window.confirm` and `prompt` answers;
- `Date.now()` ids;
- today's date and the parsed birth date;
- `parseFloat` results.

JavaScript values that reach the code untyped are modelled as `JsValue`, with JavaScript truthiness. This covers event payloads, severity and `role`. `if (id)` is therefore false for id `0`, and `x || d` replaces every falsy `x`.

Where the code departs from the documented design of the system, the model follows the code:

- The client's state is exactly two fields, `connection` and `connected`. There is no separate connecting or reconnecting state.
- When the hub connection fails to open, the built connection is kept while `connected` stays false. A later `stop()` then does nothing.
- `registerHandlers` is not idempotent. Calling it again subscribes every handler a second time, so each event is reported twice.
- Deleting a disease or a veterinarian removes the entry whatever the backend answers (`res.success || true`). Only a thrown error prevents it.

## Model

| member | source | states |
|---|---|---|
| `SignalR.ApiBase` | src/services/signalRClient.js:7 | an unset or empty `VITE_API_URL` falls back to `http://localhost:3001/api`, otherwise the setting is used |
| `SignalR.StripApi` | src/services/signalRClient.js:9 | exactly one trailing `/api` is removed (result + `/api` is the input); any other string is unchanged |
| `SignalR.DefaultHub` | src/services/signalRClient.js:9 | the default hub ends in `/chathub` and what precedes it is the API base without its trailing `/api` |
| `SignalR.HubUrl` | src/services/signalRClient.js:10 | a non-empty `VITE_SIGNALR_URL` wins; otherwise the default hub derived from the API base |
| `SignalR.DefaultHubReplacesApi` | src/services/signalRClient.js:9 | for every prefix `b`, `b/api` becomes `b/chathub` |
| `SignalR.DefaultSettingsHub` | src/services/signalRClient.js:7-10 | with no settings the hub is `http://localhost:3001/chathub` |
| `SignalR.Pow2` | src/services/signalRClient.js:37 | powers of two are at least 1 |
| `SignalR.Pow2Monotone` | src/services/signalRClient.js:37 | powers of two grow with the exponent |
| `SignalR.RetryDelay` | src/services/signalRClient.js:35-39 | every retry delay lies between 1000 and 10000 ms and is either the cap or 1000·2^count |
| `SignalR.RetryDelayFirstValues` | src/services/signalRClient.js:37 | the first four retries wait 1, 2, 4 and 8 seconds |
| `SignalR.RetryDelayCapped` | src/services/signalRClient.js:37 | from the fifth retry on the delay is the 10-second ceiling |
| `SignalR.RetryDelayMonotone` | src/services/signalRClient.js:37 | a later retry never waits less than an earlier one |
| `SignalR.Field` | src/services/signalRClient.js:63 | a non-object payload reads every property as `undefined` |
| `SignalR.SeverityOfType` | src/services/signalRClient.js:64-76 | success, error and warning are chosen exactly for those three type strings; anything else is info |
| `SignalR.OnNotificationReceived` | src/services/signalRClient.js:62-77 | `duration` passes through; `message` defaults to "Naujas pranešimas" only when undefined; each severity exactly for its type string, default info |
| `SignalR.OnVisitUpdated` | src/services/signalRClient.js:80-82 | one info entry: the doctor's name after the prefix when truthy (strings, numbers, `true` as their text), "gydytojas" when falsy |
| `SignalR.OnPetRecordChanged` | src/services/signalRClient.js:84-86 | one info entry: the pet's name after the prefix when truthy, "augintinis" when falsy |
| `SignalR.Dispatch` | src/services/signalRClient.js:58-87 | a pushed event yields one entry from its handler per registration under its name, and nothing for an unsubscribed name |
| `SignalR.DispatchOnce` | src/services/signalRClient.js:62-86 | with the handlers registered once, each of the three events yields exactly one entry and any other event none |
| `SignalR.DoubleRegistrationDoubles` | src/services/signalRClient.js:58-87 | registering the handlers twice on one connection reports each event twice |
| `SignalR.NonObjectNotification` | src/services/signalRClient.js:63 | a `null` or non-object payload gives an info entry with the default message and no duration |
| `SignalR.AccessToken` | src/services/signalRClient.js:33 | the access token is used exactly when it is present and non-empty |
| `SignalR.SignalRClient.constructor` | src/services/signalRClient.js:13-16 | a new client has no connection and is not connected; its hub URL is the resolved one |
| `SignalR.SignalRClient.RegisterHandlers` | src/services/signalRClient.js:58-87 | without a connection nothing happens; otherwise the three handlers are added to the connection's registrations |
| `SignalR.SignalRClient.Start` | src/services/signalRClient.js:18-56 | a connected client is left alone; a failed probe adds one warning and changes nothing else; a passed probe builds a connection for the hub with the token and the three handlers, and `connected` is the open's outcome |
| `SignalR.SignalRClient.Stop` | src/services/signalRClient.js:89-98 | a live connection is cleared and `connected` reset even when the stop fails, and the failure is reported; otherwise nothing changes |
| `SignalR.SignalRClient.Receive` | src/services/signalRClient.js:62-86 | on a connected client a subscribed event appends exactly its handler's entry; otherwise the sink is unchanged |
| `SignalR.ErrorPushScenario` | src/services/signalRClient.js:62-77 | after a successful start, a pushed error notification leaves exactly one error entry with its message |
| `SignalR.FailedProbeScenario` | src/services/signalRClient.js:21-30 | a failed probe leaves no connection, not connected, and exactly one warning "API nepasiekiama, SignalR išjungtas" |
| `SignalR.RestartScenario` | src/services/signalRClient.js:18-19 | starting again while connected keeps the first connection; after a failed open `stop()` leaves the connection in place |
| `Notifications.NotificationSink.Add` | src/services/signalRClient.js:66-75 | each `add*` call appends exactly one entry |
| `Js.Or` | src/pages/Account.jsx:383 | JavaScript's `or` operator yields its left operand when truthy and its right one otherwise |
| `Js.DigitChar` | src/pages/Account.jsx:356 | a digit's character lies in `'0'..'9'` and encodes that digit |
| `Js.NatToString` | src/pages/Account.jsx:356 | a number's decimal text is non-empty, all digits, without a leading zero |
| `Js.ParseNatToString` | src/pages/Account.jsx:356 | the decimal text of a natural number reads back as that number |
| `Js.IntToStringRoundTrip` | src/pages/Account.jsx:359 | the decimal text of any integer is a well-formed signed numeral that reads back as that integer |
| `Js.ToText` | src/services/signalRClient.js:81 | a template literal inserts a string value unchanged |
| `Js.TextOr` | src/services/signalRClient.js:85 | the text of a value-or-fallback is the fallback for a falsy `v` and the string itself for a non-empty string |
| `Lists.Map` | src/pages/Account.jsx:287-289 | `map` keeps the length and applies the function at every position |
| `Lists.Filter` | src/pages/Diseases.jsx:175-182 | `filter` keeps exactly the passing elements, never lengthening the list |
| `Lists.FilterIsSubsequence` | src/pages/Diseases.jsx:175 | filtering keeps the surviving elements in their original order |
| `Lists.FilterCounts` | src/pages/Account.jsx:331 | filtering keeps every copy of a passing value and no copy of a failing one |
| `Lists.FilterKeepsAll` | src/pages/Account.jsx:331 | when every element passes, filtering returns the list itself |
| `Lists.FilterDropsFailing` | src/pages/Account.jsx:331 | when an element fails, the filtered list is strictly shorter |
| `Lists.FilterSameTests` | src/pages/Diseases.jsx:175-182 | two tests that agree on every element filter alike |
| `Lists.ReplaceKey` | src/pages/Account.jsx:287-289 | the map-by-id rewrites exactly the records with that id, in place, and keeps every other record |
| `Lists.WithoutKey` | src/pages/Account.jsx:331 | the filter-by-id removes every record with that id and keeps every other record in order, each as often as it occurred; with no such record the list is unchanged |
| `Lists.NextId` | src/pages/Diseases.jsx:109 | the fallback id is 1 for an empty list and one more than the last record's id otherwise |
| `Lists.NextIdFresh` | src/pages/AdminVets.jsx:45 | on a list with increasing ids the fallback id is larger than every id, hence unused |
| `Lists.NextIdKeepsIncreasing` | src/pages/AdminVets.jsx:45-46 | appending a record with the fallback id keeps the ids increasing |
| `Text.LowerChar` | src/pages/Diseases.jsx:177 | ASCII and Latin-1 capitals become the letter 32 code points further, the Lithuanian capitals the next code point; any other character is unchanged; the result is never a capital |
| `Text.Lower` | src/pages/Diseases.jsx:177-178 | `toLowerCase` keeps the length and lower-cases every character |
| `Text.LowerIdempotent` | src/pages/Diseases.jsx:177-178 | lower-casing twice is lower-casing once |
| `Text.IncludesIffOccurs` | src/pages/Diseases.jsx:177-178 | `includes` holds exactly when the term occurs at some position |
| `Text.TrimStart` | src/pages/Diseases.jsx:92 | the result is a suffix, everything removed is white space, and it does not start with white space |
| `Text.TrimEnd` | src/pages/Diseases.jsx:92 | the result is a prefix, everything removed is white space, and it does not end with white space |
| `Text.Trim` | src/pages/Diseases.jsx:92 | `trim` returns a piece of the string with white space only around it and none at its ends |
| `Text.TrimKeepsCharsOut` | src/pages/Diseases.jsx:92 | trimming never introduces a character |
| `Text.Split` | src/pages/Diseases.jsx:91 | `split(",")` yields at least one piece and no piece holds a comma |
| `Text.JoinSplit` | src/pages/Diseases.jsx:91 | joining the pieces with commas gives the original text |
| `Text.SplitNoComma` | src/pages/Diseases.jsx:91 | a comma-free text splits into itself |
| `Text.SplitAfterPiece` | src/pages/Diseases.jsx:91 | splitting a comma-free piece followed by a comma and a rest gives the piece then the rest's pieces |
| `Text.SplitJoin` | src/pages/Diseases.jsx:91 | comma-free pieces joined with commas split back into those pieces |
| `Account.EditedPets` | src/pages/Account.jsx:286-290 | after an edit the pets with that id hold the form, without illness or visit lists; all other pets are unchanged; order and ids kept |
| `Account.AddedPet` | src/pages/Account.jsx:298 | the new pet is the backend's record when it sent one, else the form with id `length + 1` |
| `Account.AddedPetIdFresh` | src/pages/Account.jsx:298 | the `length + 1` id is fresh while ids fill `1..length` |
| `Account.AddedPetIdCanRepeat` | src/pages/Account.jsx:298 | after a removal the `length + 1` id can repeat an existing id |
| `Account.SavedIllnesses` | src/pages/Account.jsx:415-430 | editing merges the form into the illness with the edited id and keeps the rest; adding appends one record with the fresh id |
| `Account.SavedVisits` | src/pages/Account.jsx:447-471 | editing merges the form and parsed price into the visit with the edited id; adding appends one record with the fresh id and parsed price |
| `Account.UpdateSelected` | src/pages/Account.jsx:413-433 | only the pets whose id is the selected one are rewritten; with no selection nothing changes |
| `Account.PetsWithIllnessSaved` | src/pages/Account.jsx:410-434 | only the selected pet's illness list changes, to the saved list |
| `Account.PetsWithVisitSaved` | src/pages/Account.jsx:442-475 | only the selected pet's visit list changes, to the saved list |
| `Account.PetsWithoutIllness` | src/pages/Account.jsx:498-510 | only pet `petId` changes: its illness list is filtered by the illness id |
| `Account.PetsWithoutVisit` | src/pages/Account.jsx:536-546 | only pet `petId` changes: its visit list is filtered by the visit id |
| `Account.IllnessDeleted` | src/pages/Account.jsx:503-505 | after deletion the pet holds no illness with that id and keeps every other illness in order |
| `Account.Toggled` | src/pages/Account.jsx:362-367 | the toggled pet's flag is negated (a missing flag becomes true); every other entry is unchanged |
| `Account.ToggleTwice` | src/pages/Account.jsx:362-367 | toggling a pet twice restores every pet's shown state |
| `Account.CompletedYears` | src/pages/Account.jsx:344-352 | the age in years is the number of birthdays reached by today |
| `Account.MonthsShown` | src/pages/Account.jsx:355 | the months shown lie in 0..11 and are the month difference modulo 12 |
| `Account.AgeOf` | src/pages/Account.jsx:340-359 | unknown exactly for an empty date; otherwise the completed years when non-zero, else the month count shown (in 0..11) |
| `Account.CalculateAge` | src/pages/Account.jsx:340-359 | "Nežinomas" for an empty date, "N m." for N completed years, "M mėn." with the months shown under one year |
| `Account.MonthAnniversaryIndex` | src/pages/Account.jsx:345 | the k-th monthly anniversary is k months after birth in month-index terms |
| `Account.OnOrBeforeByIndex` | src/pages/Account.jsx:347-350 | calendar order is month-index order, then day |
| `Account.FullMonths` | src/pages/Account.jsx:340-359 | the whole months of age are the monthly anniversaries reached by today |
| `Account.MonthsShownVersusFullMonths` | src/pages/Account.jsx:355 | under one year the months shown equal the whole months when today's day is not before the birth day, and are one more (mod 12) otherwise |
| `Account.ElevenMonthOldShownAsZero` | src/pages/Account.jsx:340-357 | a pet eleven whole months old is shown as "0 mėn." |
| `Account.AgeOfCorrected` | src/pages/Account.jsx:340-359 | as `AgeOf`, with the month count equal to the whole months of age |
| `Account.CalculateAgeCorrected` | src/pages/Account.jsx:340-359 | as `CalculateAge`, showing the whole months of age under one year |
| `Account.VisitTypeName` | src/pages/Account.jsx:375-384 | the five types 0..4 have their captions; every other value, and only those, is "Nežinomas" |
| `Account.PasswordDecision` | src/pages/Account.jsx:202-218 | cancelled exactly when the current or new password is missing or empty; a mismatch exactly when the confirmation differs; otherwise both passwords are submitted |
| `Account.AccountPage.constructor` | src/pages/Account.jsx:13-61 | the page starts with no pets, the three forms empty and hidden, nothing edited or selected, no details expanded, and loading |
| `Account.AccountPage.SavePet` | src/pages/Account.jsx:277-319 | a throw changes only `loading`; a successful edit rewrites the edited pet and closes the form; a successful add appends the new pet; any reply resets the form; `loading` ends false; the details, selection and record forms are unchanged |
| `Account.AccountPage.DeletePet` | src/pages/Account.jsx:321-338 | after confirmation and a successful reply every pet with that id is removed; otherwise the list is unchanged; only `loading` changes besides |
| `Account.AccountPage.TogglePetDetails` | src/pages/Account.jsx:362-367 | the details map becomes the toggled map and nothing else changes |
| `Account.AccountPage.SaveIllness` | src/pages/Account.jsx:410-440 | the pets become the list with the illness saved; the illness form closes, keeping its fields; exactly one success entry, "Liga atnaujinta" or "Liga sėkmingai pridėta"; nothing else changes |
| `Account.AccountPage.SaveVisit` | src/pages/Account.jsx:442-481 | the pets become the list with the visit saved; the visit form closes, keeping its fields; exactly one success entry, "Vizitas atnaujintas" or "Vizitas sėkmingai pridėtas"; nothing else changes |
| `Account.AccountPage.DeleteIllness` | src/pages/Account.jsx:494-512 | after confirmation the illness is removed from that pet and one success entry is added; otherwise nothing changes; no other field changes in either case |
| `Account.AccountPage.DeleteVisit` | src/pages/Account.jsx:532-548 | after confirmation the visit is removed from that pet and one success entry is added; otherwise nothing changes; no other field changes in either case |
| `Account.AccountPage.ChangePassword` | src/pages/Account.jsx:202-221 | the step is the password decision; a mismatch adds exactly one error "Slaptažodžiai nesutampa", any other step none |
| `Diseases.FilteredDiseases` | src/pages/Diseases.jsx:175-182 | exactly the diseases matching both the case-insensitive search and the category are shown, in catalogue order |
| `Diseases.EmptySearchShowsAll` | src/pages/Diseases.jsx:175-182 | an empty search with all categories shows the whole catalogue |
| `Diseases.SearchIgnoresTermCase` | src/pages/Diseases.jsx:177-178 | the result does not depend on the case of the search term |
| `Diseases.CategoryNarrows` | src/pages/Diseases.jsx:179-180 | one category never shows more than all categories |
| `Diseases.FilterSubset` | src/pages/Diseases.jsx:175-182 | a stricter test never keeps more diseases |
| `Diseases.FindCategory` | src/pages/Diseases.jsx:199 | `find` returns the first table entry with the value, or none when no entry has it |
| `Diseases.CategoryLabel` | src/pages/Diseases.jsx:198-201 | each of the six table values has its caption; any other category is "Nežinoma" |
| `Diseases.SeverityColor` | src/pages/Diseases.jsx:203-214 | low, moderate and high have their colours; the grey default is used exactly for every other value |
| `Diseases.SeverityLabel` | src/pages/Diseases.jsx:216-227 | low, moderate and high have their captions; "Nežinoma" is used exactly for every other value |
| `Diseases.SymptomList` | src/pages/Diseases.jsx:90-93 | every symptom is non-empty, holds no comma and neither starts nor ends with white space |
| `Diseases.SymptomListCounts` | src/pages/Diseases.jsx:90-93 | the symptoms are exactly the non-empty trimmed pieces between commas, each as often as it occurs |
| `Diseases.SymptomListInOrder` | src/pages/Diseases.jsx:90-93 | the symptoms keep the order of their pieces in the text |
| `Diseases.SavedDiseases` | src/pages/Diseases.jsx:95-113 | an edit rewrites every entry with the edited id whatever the reply; a create appends one entry, the backend's record on success when sent, else the form with the next id |
| `Diseases.DiseasesPage.constructor` | src/pages/Diseases.jsx:9-22 | the page starts with no diseases, no selection, the form hidden and empty |
| `Diseases.DiseasesPage.StartCreate` | src/pages/Diseases.jsx:62-71 | no entry is edited, the form is empty and shown |
| `Diseases.DiseasesPage.StartEdit` | src/pages/Diseases.jsx:73-83 | the entry's id is edited, the form holds its fields and no symptoms, and the detail view closes |
| `Diseases.DiseasesPage.SaveDisease` | src/pages/Diseases.jsx:85-124 | as written: with no symptom text, or when the call throws, nothing changes; otherwise the catalogue becomes the saved list and the form closes and resets |
| `Diseases.DiseasesPage.SaveDiseaseCorrected` | src/pages/Diseases.jsx:85-124 | a missing symptom text reads as empty; unless the call throws, the catalogue becomes the saved list and the form closes and resets |
| `Diseases.DiseasesPage.DeleteDisease` | src/pages/Diseases.jsx:126-135 | after confirmation and a returned call every entry with that id is removed and the detail view closes; otherwise nothing changes |
| `Diseases.CreateScenario` | src/pages/Diseases.jsx:62-124 | creating an entry through the page as written saves nothing and leaves the form open |
| `Diseases.CreateScenarioCorrected` | src/pages/Diseases.jsx:62-124 | the same creation through the corrected save appends the entry with id 1 and closes the form |
| `AdminVets.LoadedVets` | src/pages/AdminVets.jsx:15-30 | a successful reply gives its list (`[]` when none is sent); a failure or throw gives the fixed two-entry list |
| `AdminVets.UpdatedVets` | src/pages/AdminVets.jsx:41 | every entry with the edited id becomes the form with that id; others are unchanged |
| `AdminVets.CreatedVet` | src/pages/AdminVets.jsx:45 | the created entry is the backend's record on success when sent, else the form with the next id |
| `AdminVets.CreatedVetKeepsIdsIncreasing` | src/pages/AdminVets.jsx:45-46 | a create with the fallback id keeps increasing ids increasing |
| `AdminVets.AdminVetsPage.constructor` | src/pages/AdminVets.jsx:5-11 | the page starts with no veterinarians, loading, the form hidden and empty |
| `AdminVets.AdminVetsPage.Load` | src/pages/AdminVets.jsx:15-25 | the list becomes the loaded list and loading ends |
| `AdminVets.AdminVetsPage.Save` | src/pages/AdminVets.jsx:35-52 | a throw changes nothing; an update changes the list only on success; a create always appends; after any reply the form closes and resets |
| `AdminVets.AdminVetsPage.RemoveVet` | src/pages/AdminVets.jsx:54-60 | after confirmation and a returned call every entry with that id is removed whatever the reply; otherwise nothing changes; no other field changes in either case |
| `Navbar.MenuItems` | src/components/Navbar.jsx:7-23 | the three base items come first, then account and visits when signed in, or auth when not |
| `Navbar.MenuItemsShape` | src/components/Navbar.jsx:7-23 | menu ids never repeat, signed-out visitors get no account or visits item, signed-in users get no auth item, and the menu never holds admin |
| `Navbar.Buttons` | src/components/Navbar.jsx:30-53 | one button per menu item in order, plus admin exactly when signed in with role 0; a button is active exactly when its id is the current page |
| `Navbar.OneActiveButton` | src/components/Navbar.jsx:33-47 | at most one button carries the `active` class |

## Left out

- The notification service itself (`notificationService.js`) is not part of this model. Its ids, timers and dismissal are left out, and an `add*` call is one appended entry. Whether an options object `{ duration }` was passed is not distinguished from passing none when `duration` is `undefined`.
- The `@microsoft/signalr` library is not part of this model. Its automatic reconnect loop, transport negotiation, logging, and the case-insensitive matching of event names are left out. The connection is a value with its URL, token and registered handler names, so update in place and aliasing of the connection object are not captured.
- `apiClient.healthCheck` is not part of this model. Its outcome is the `probe` parameter of `Start`.
- The asynchronous interleaving of the handlers is not modelled. Each handler runs to completion against the state it started from, and the awaited results are parameters.
- The build settings are read once, by the client's constructor, as the module-level constants are evaluated once at load.
- `Account.AccountPage.SaveVisit` and `Account.MergeVisit`: `parseFloat` is not modelled. The parsed price is a `real` parameter, so `NaN` is not represented. The pet weight is kept as its text.
- `Account.CalculateAge`: `new Date(...)` parsing and time zones are not modelled. The birth date and today's date are given as calendar fields. Only an empty date of birth is treated as missing; a `null` or `undefined` date is not represented.
- `Text.Lower`: `toLowerCase` is modelled for ASCII, Latin-1 and the Lithuanian capitals only. Other scripts and multi-character mappings are left out.
- The Account page's loading of profile and pets, the profile save, account deletion, data export, `formatDate` and `handleEditVisit`'s date formatting are not modelled: they load or send data and format dates, and hold no list or state logic of their own.
- The Account page's form-opening handlers (`handleAddPet`, `handleEditPet`, `handleAddIllness`, `handleAddVisit`, `handleEditIllness`, `handleEditVisit`) only set form state and are not modelled. The save handlers read that state from the page's fields.
- The Diseases page's `loadDiseases`, `loadUserDiseases`, `addToUserDiseases` and mock catalogue are not modelled: they only load or send data. The AdminVets `startCreate`/`startEdit` handlers only set form state and are not modelled.
- JSX rendering is left out. Only the Navbar's item list, admin condition and `active` marker are modelled.
- Numbers in `JsValue` are integers. Floating-point values and `NaN` in payloads are outside the model.

## Findings

| source | as written | input that shows it | evidently intended | confidence | as-written member | corrected member |
|---|---|---|---|---|---|---|
| src/pages/Diseases.jsx:85-124 | `saveDisease` reads `form.symptoms.split(",")`, but no form state (lines 17-22, 62-71, 73-83, 115-120) and no input ever sets `symptoms`, so the read throws and the catch swallows it | open the create form, enter a name, submit: the catalogue is unchanged and the form stays open | a missing symptom text reads as empty and the entry is saved | high (not executed) | `Diseases.CreateScenario` | `Diseases.CreateScenarioCorrected` |
| src/pages/Account.jsx:340-359 | under one year the month count is `monthDiff` (plus 12 when negative), which ignores the day of the month | born 20 March 2023, today 10 March 2024: eleven whole months, shown as "0 mėn." | the whole months of age, 11 here | high (not executed) | `Account.ElevenMonthOldShownAsZero` | `Account.CalculateAgeCorrected` |
