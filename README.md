# takip-uygulamasi in Dafny

A model of the core of a small appointment and task tracker for a salon
or shop, together with proofs about it. The tracker has an Express server
and React pages.

- **The record store** (`JsonDbService`) keeps named collections:
  `contacts`, `appointments`, `tasks` and `users`. Each collection is a JSON
  array in its own file. The store offers read-all, add, update-by-id and
  delete-by-id. Each operation reads the whole array, changes it in memory
  and writes it back.
- **The server routes** answer login, register, user fetch and user update
  over the `users` collection. They also answer the create, list, update and
  delete routes of the other collections. A new appointment with a phone
  number triggers a WhatsApp message.
- **The pages** of the client hold the rules that are not display:
  - the Contacts page: the name and phone input filters, the submit
    checks and the contact search;
  - the Calendar page: the customer search box, the new-customer checks,
    the duplicate-contact check and the `yyyy-MM-ddTHH:mm:00` date of an
    appointment;
  - the Tasks page: the two-column board with its drag-and-drop move and
    the add-task form;
  - the Settings page: the password form and the profile form.

How the model is built:

- **JavaScript values.** A value is written out as `undefined`, `null`, a
  boolean, an integer or a string, and a record is a map from field name
  to value. This covers reading a missing field, truthiness, object spread
  `{...a, ...b}`, rest-destructuring, and the JSON round trip, which drops
  `undefined` fields. These live in module `JsValues`.
- **The store** is a class. Its field `files` maps each collection name to
  what its file holds. Its field `writable` says whether writes to disk
  succeed.
  - Every method says, in terms of a pure effect function, what it returns
    and what the files hold afterwards.
  - Lemmas over those effect functions prove what the store promises:
    append, merge into the first match, filter-out and idempotence.
- **The route handlers** are methods over the store.
- **The page handlers.** Each one that only replaces state is a function
  from the old form state to the new one. The two handlers that work step
  by step are methods: the Calendar submit and the Tasks drag-end.
- **Shared rules.**
  - The regular expression `^[+]?\d*$` is modelled as a three-state
    automaton, and a lemma proves what it means.
  - `.length` counts UTF-16 code units.
  - `toLowerCase` lowers ASCII letters only.
  - `trim` strips JavaScript white space.

The model follows the code where the code and its documentation disagree.
A failed `writeFile` is logged and ignored: `write` returns `false`, and
`add`, `update` and `delete` still return their usual result. It is not
reported as a storage failure.

## Model

| member | source | states |
|---|---|---|
| JsValues.Normalize | server/services/JsonDbService.js:31 | the JSON round trip keeps every field except those holding `undefined`; every property read is unchanged |
| JsValues.Spread | server/services/JsonDbService.js:51 | `{...a, ...b}`: the fields of `b` win, including those holding `undefined`; the other fields of `a` are kept |
| JsValues.Rest | server/index.js:91 | `const {password, ...rest}`: the field is gone and every other field reads as before |
| JsValues.RestNormalize | server/index.js:145-146 | stripping a field and then serialising gives the same record as serialising and then stripping |
| JsArrays.Filter | server/services/JsonDbService.js:60 | `filter` keeps exactly the elements that satisfy the predicate, and is never longer than its input |
| JsArrays.FilterPartition | client/src/pages/Tasks.jsx:252-253 | a filter and its complement together hold every element as often as the input does |
| JsArrays.FindIndex | server/services/JsonDbService.js:49 | `findIndex` returns -1 exactly when no element matches; otherwise it returns the first matching index |
| JsArrays.Find | server/index.js:87 | `find` returns nothing exactly when no element matches; otherwise it returns the element at the first matching index |
| TextRules.ContainsDigit | client/src/pages/Contacts.jsx:80 | `/\d/.test(s)` holds exactly when some character is an ASCII digit |
| TextRules.PhonePatternMeaning | client/src/pages/Contacts.jsx:95 | `^[+]?\d*$` matches exactly the strings of digits with at most one leading `+` |
| TextRules.Utf16Length | client/src/pages/Contacts.jsx:27 | `.length` is at least the number of characters and at most twice it |
| TextRules.AcceptsPhoneInputMeaning | client/src/pages/Contacts.jsx:95 | the phone filter accepts exactly the strings of at most 13 characters made of digits with an optional leading `+` |
| TextRules.ToLower | client/src/pages/Contacts.jsx:52 | `toLowerCase` keeps the length, lowers each ASCII capital and leaves no ASCII capital |
| TextRules.ToLowerKeepsDigits | client/src/pages/Contacts.jsx:52-53 | lowering never changes whether a string holds a digit, for any string |
| TextRules.Includes | client/src/pages/Contacts.jsx:52-53 | `s.includes(t)` holds exactly when `t` starts at some position of `s` |
| TextRules.IncludesEmpty | client/src/pages/Contacts.jsx:52-53 | every string includes the empty string |
| TextRules.Trim | client/src/pages/Tasks.jsx:172 | `trim()` is a slice of the string with only white space cut off before and after it, and keeps no white space at either end |
| TextRules.TrimEmptyIffBlank | client/src/pages/Tasks.jsx:172 | `!title.trim()` holds exactly when the title is empty or all white space |
| TextRules.Digits | client/src/pages/Calendar.jsx:165 | a number's decimal digits form a non-empty string of digits with no leading zero |
| TextRules.DigitsRoundTrip | client/src/pages/Calendar.jsx:165 | reading back a number's digits gives the number |
| TextRules.PadDigits | client/src/pages/Calendar.jsx:165 | a zero-padded number is all digits and at least as long as the width |
| TextRules.PadRoundTrip | client/src/pages/Calendar.jsx:165 | reading back a zero-padded number gives the number |
| TextRules.PadWidth | client/src/pages/Calendar.jsx:165 | a number below 10^width takes exactly `width` characters once padded |
| JsonDb.ToJson | server/services/JsonDbService.js:31 | a written array keeps its length, and each record loses only its `undefined` fields |
| JsonDb.ToJsonOfJson | server/services/JsonDbService.js:31 | records that came from disk are written back unchanged |
| JsonDb.NewItem | server/services/JsonDbService.js:41 | the new record has the item's fields plus `id`; the generated id is used only when the item has no `id` |
| JsonDb.WithoutId | server/services/JsonDbService.js:60 | the kept records are exactly those without the id |
| JsonDb.JsonDbService.constructor | server/services/JsonDbService.js:5-7 | the store starts over the given data directory and disk |
| JsonDb.JsonDbService.Write | server/services/JsonDbService.js:28-37 | a write replaces the whole file and returns `true`; on a failing disk it returns `false` and changes nothing |
| JsonDb.JsonDbService.Read | server/services/JsonDbService.js:13-26 | a missing collection is created empty and reads as `[]`; an unreadable one reads as `[]`; otherwise the stored records are returned |
| JsonDb.JsonDbService.Add | server/services/JsonDbService.js:39-45 | the returned item is the new record, and the file gains it at the end |
| JsonDb.JsonDbService.Update | server/services/JsonDbService.js:47-56 | the merged first match is returned and written, or `null` is returned with no write |
| JsonDb.JsonDbService.Delete | server/services/JsonDbService.js:58-63 | the file keeps the records without the id, and the call returns `true` |
| JsonDb.AddAppends | server/services/JsonDbService.js:40-43 | the collection grows by one record at the end, earlier records and other collections are unchanged, and the new record's id follows the spread rule |
| JsonDb.AddKeepsIdsUnique | server/services/JsonDbService.js:41-42 | a fresh generated id and an item with no id keep the collection's ids distinct |
| JsonDb.UpdateChangesFirstMatch | server/services/JsonDbService.js:49-53 | only the first record with the id changes: update fields win, its other fields and all other records stay, and the merged record is returned |
| JsonDb.UpdateKeepsOtherCollections | server/services/JsonDbService.js:47-56 | an update leaves every other collection's records as they were |
| JsonDb.UpdateAbsent | server/services/JsonDbService.js:49-55 | an absent id returns `null` and leaves every collection's records as they were |
| JsonDb.DeleteKeepsOrder | server/services/JsonDbService.js:60 | deleting from a concatenation deletes from each part, so the kept records keep their order |
| JsonDb.DeleteIdempotent | server/services/JsonDbService.js:58-62 | a second identical delete leaves the files as the first left them |
| JsonDb.DeleteAbsent | server/services/JsonDbService.js:60-61 | deleting an id no record has leaves the records as they were |
| ApiServer.LoginOutcome | server/index.js:87-95 | login succeeds iff some user has exactly that username and password; the reply is the first such user without `password`; every failure is the same 401 message |
| ApiServer.UsernameInUse | server/index.js:103-104 | the conflict check holds iff some stored user has that username |
| ApiServer.RegisterItem | server/index.js:108-115 | the registered record has exactly username, password, name, email, phone from the body and createdAt |
| ApiServer.GetUserOutcome | server/index.js:122-130 | a user is found iff some record has the id; the first such record is returned without `password`; otherwise the reply is 404 |
| ApiServer.UserUpdateData | server/index.js:134-140 | the update always has `name`, `email` and `phone`, holding `undefined` when absent, and has `password` only when it is truthy |
| ApiServer.NotificationFor | server/index.js:49-52 | the hook is called iff the stored appointment's `contactPhone` is truthy, with that phone and the message naming the contact and date |
| ApiServer.List | server/index.js:25-28 | the list routes reply with the stored collection, as `read` leaves it |
| ApiServer.Create | server/index.js:30-33 | the create routes store the body with its id and echo that record |
| ApiServer.Remove | server/index.js:35-38 | the delete routes delete by id and reply `{ success: true }` |
| ApiServer.PutTask | server/index.js:72-75 | the task update replies with the merged task, or `null` for an unknown id |
| ApiServer.PostAppointment | server/index.js:45-55 | the appointment is added and echoed, and the notification is exactly `NotificationFor` the stored record |
| ApiServer.Login | server/index.js:83-96 | the login handler replies `LoginOutcome` over the stored users |
| ApiServer.Register | server/index.js:98-119 | a username in use gets 400 and adds nothing; otherwise one user is added and returned without its password |
| ApiServer.GetUser | server/index.js:121-131 | the fetch handler replies `GetUserOutcome` over the stored users |
| ApiServer.PutUser | server/index.js:133-150 | the user update merges `UserUpdateData`; it replies with the merged user without `password`, or 404 |
| ApiServer.RepliesOmitPassword | server/index.js:87-130 | no reply to login, register or user fetch carries a `password` field |
| ApiServer.RegisterAddsOneUser | server/index.js:108-118 | a registration adds exactly one user at the end, with the body's fields, the creation time and the generated id |
| ApiServer.PutUserFields | server/index.js:134-142 | after a user update, name/email/phone are the body's (erased when absent); the password changes only when a truthy one is given; other fields stay |
| ApiServer.PutUserUnknownId | server/index.js:142-149 | an update on an unknown id changes no record and replies 404 |
| ApiServer.PasswordOnlyUpdateErasesProfile | server/index.js:134-140 | a body holding only a password leaves the stored user without name, email and phone |
| ApiServer.CorrectedUserUpdateData | server/index.js:134-140 | the corrected update holds only the profile fields the body gives, plus a truthy password |
| ApiServer.CorrectedUpdateKeepsProfile | server/index.js:134-142 | under the corrected update, a password-only body changes the password and nothing else; a body with all three profile fields behaves as written |
| ContactSearch.FilterContacts | client/src/pages/Contacts.jsx:51-54 | a contact is kept iff its lower-cased name includes the lower-cased term or its phone includes the term |
| ContactSearch.EmptyTermKeepsAll | client/src/pages/Contacts.jsx:51-54 | an empty term keeps every contact, in order |
| ContactSearch.FilterKeepsOrder | client/src/pages/Contacts.jsx:51-54 | the results keep the list's order |
| ContactSearch.NameMatchIgnoresCase | client/src/pages/Contacts.jsx:52 | names that differ only in ASCII case match the same terms |
| ContactSearch.SearchTwice | client/src/pages/Contacts.jsx:51-54 | searching the results again by the same term changes nothing |
| ContactsPage.EditName | client/src/pages/Contacts.jsx:77-83 | a name edit with a digit is ignored; any other edit becomes the name; the phone is untouched |
| ContactsPage.EditPhone | client/src/pages/Contacts.jsx:93-98 | a phone edit is taken iff the phone filter accepts it; the name is untouched |
| ContactsPage.Submit | client/src/pages/Contacts.jsx:25-33 | an empty name or phone is ignored; a phone shorter than 10 gets the alert; otherwise the form is sent as it is |
| ContactsPage.AfterCreate | client/src/pages/Contacts.jsx:32-38 | the form is cleared after a successful create and kept after a failed one |
| ContactsPage.EditsKeepFormFiltered | client/src/pages/Contacts.jsx:77-98 | from the empty form, every edit leaves a digit-free name and a filtered phone |
| ContactsPage.SentContactIsWellFormed | client/src/pages/Contacts.jsx:25-30 | a sent contact has a digit-free name and a phone of 10 to 13 characters, digits with an optional leading `+` |
| ContactsPage.ShownContacts | client/src/pages/Contacts.jsx:51-54 | the list shows the matching contacts, and all of them for an empty term |
| SettingsPage.EditPhone | client/src/pages/Settings.jsx:153-158 | the phone edit is taken iff the same filter as on the Contacts page accepts it; a rejected edit leaves the form unchanged and nothing else ever changes |
| SettingsPage.ProfilePayload | client/src/pages/Settings.jsx:27-31 | the profile request has exactly `name`, `email` and `phone` |
| SettingsPage.PasswordChange | client/src/pages/Settings.jsx:54-69 | differing passwords are refused first, then passwords shorter than 6; otherwise the body holds only `password` |
| SettingsPage.AfterRejection | client/src/pages/Settings.jsx:51-61 | a refused password form shows the message, hides the banner and keeps the form |
| SettingsPage.FailureText | client/src/pages/Settings.jsx:81 | the error text is the reply's message when it has one, otherwise the fallback |
| SettingsPage.AfterPasswordReply | client/src/pages/Settings.jsx:71-85 | success clears the three password fields and keeps name, email and phone; a failure reply keeps the form and shows its message or the fallback; a thrown request keeps the form and shows `Bir hata oluştu` |
| SettingsPage.AfterProfileReply | client/src/pages/Settings.jsx:35-44 | the banner shows iff the reply is a success; a failure reply shows its message or the fallback, a thrown request `Bir hata oluştu`; the form is never changed |
| SettingsPage.MismatchReportedFirst | client/src/pages/Settings.jsx:54-57 | a mismatch is reported whatever the length |
| SettingsPage.SentPasswordIsTruthy | client/src/pages/Settings.jsx:59-69 | a sent password is non-empty, so the server writes it |
| SettingsPage.ProfileUpdateKeepsPassword | client/src/pages/Settings.jsx:27-33 | the profile request, as the server merges it, sets name/email/phone as typed and keeps everything else, including the password |
| SettingsPage.PasswordChangeErasesProfile | client/src/pages/Settings.jsx:67-69 | every accepted password change, as the server handles it, removes name, email and phone from the stored user |
| SettingsPage.CorrectedPasswordChangeKeepsProfile | client/src/pages/Settings.jsx:67-69 | under the corrected update, a password change changes the password and nothing else |
| SettingsPage.CorrectedProfileUpdateAgrees | client/src/pages/Settings.jsx:27-33 | the corrected update treats the profile request exactly as the code does |
| CalendarPage.DateClick | client/src/pages/Calendar.jsx:67-81 | a click on a day resets the form and empties the search box |
| CalendarPage.SearchChange | client/src/pages/Calendar.jsx:83-91 | text with a digit changes nothing; other text becomes the term and the new customer's name, clears `contactId`, sets `isNewContact` and opens the list |
| CalendarPage.PhoneChange | client/src/pages/Calendar.jsx:93-99 | a phone edit is taken iff the phone filter accepts it; a rejected edit leaves the state unchanged and nothing else ever changes |
| CalendarPage.SelectContact | client/src/pages/Calendar.jsx:101-111 | picking a contact copies its id, name and phone, clears `isNewContact`, shows its name and closes the list |
| CalendarPage.SetResultsOpen | client/src/pages/Calendar.jsx:36-40 | focus and outside clicks only open or close the list |
| CalendarPage.ContactResults | client/src/pages/Calendar.jsx:325-328 | the list appears iff it is open and the term is not empty, and shows exactly the matching contacts |
| CalendarPage.HandlersKeepConsistent | client/src/pages/Calendar.jsx:83-111 | every handler keeps "new customer implies no selected contact" |
| CalendarPage.FormatDayLayout | client/src/pages/Calendar.jsx:165 | for a four-digit year the day string has ten characters, with dashes at 4 and 7, and reads back as the day |
| CalendarPage.DateTimeRoundTrip | client/src/pages/Calendar.jsx:165-166 | the appointment date is the day, `T`, the time and `:00`; day and time can be read back, so different inputs give different dates |
| CalendarPage.AppointmentRecord | client/src/pages/Calendar.jsx:168-177 | the request body is JSON and holds exactly the eight fields `contactId`, `contactName`, `contactPhone`, `time`, `service`, `amount`, `paymentType` and `date`, each as the appointment has it; no `id` |
| CalendarPage.Booking | client/src/pages/Calendar.jsx:168-177 | the appointment carries the final contact id, the form's fields and the date built from the day and time |
| CalendarPage.AlertText | client/src/pages/Calendar.jsx:115-161 | every refusal has its alert, except an empty amount, which stops silently |
| CalendarPage.FindDuplicate | client/src/pages/Calendar.jsx:134-137 | a clash is found iff some contact has the name (ignoring case) or the phone; it is the first such contact |
| CalendarPage.ClashError | client/src/pages/Calendar.jsx:139-144 | the clashing contact is reported by name iff its name matches, by phone otherwise |
| CalendarPage.HandleSubmit | client/src/pages/Calendar.jsx:113-186 | amount, then name/phone, then length, then duplicates, then the contact request are checked in order; a booked appointment has the built date, and the contact list gains only the new customer |
| CalendarPage.NewCustomerIsNoDuplicate | client/src/pages/Calendar.jsx:122-146 | a new customer passes the duplicate check iff no contact has its name (ignoring case) or its phone |
| CalendarPage.NamePreferred | client/src/pages/Calendar.jsx:139-141 | a first clashing contact whose name matches is reported by name, whatever its phone |
| CalendarPage.PhoneClashHidesLaterNameClash | client/src/pages/Calendar.jsx:134-144 | when an earlier contact clashes by phone, the phone message is shown even though a later contact has the name |
| CalendarPage.BookingIsNotified | client/src/pages/Calendar.jsx:168-180 | the server notifies a booked customer iff the phone is not empty, addressed to that phone, naming the customer and the date |
| TasksPage.FindTask | client/src/pages/Tasks.jsx:218 | a task is found iff some task has the id, and the one found is at the first index holding that id |
| TasksPage.FindTaskFirst | client/src/pages/Tasks.jsx:218 | the first task holding the id is the one found, which decides the dragged task when ids repeat |
| TasksPage.TodoTasks | client/src/pages/Tasks.jsx:252 | the todo column holds exactly the tasks that are not completed |
| TasksPage.DoneTasks | client/src/pages/Tasks.jsx:253 | the done column holds exactly the completed tasks |
| TasksPage.ColumnsPartition | client/src/pages/Tasks.jsx:252-253 | the columns are disjoint, hold every task as often as the list does, and keep the list's order |
| TasksPage.TargetColumn | client/src/pages/Tasks.jsx:222-232 | the target is `over.id` when it is `todo` or `done`, else the column of the task dropped onto, else nothing |
| TasksPage.SetCompleted | client/src/pages/Tasks.jsx:239-241 | the move sets `completed` on every task with the id; all other tasks and the order stay |
| TasksPage.HandleDragEnd | client/src/pages/Tasks.jsx:212-250 | an update is sent iff there is a target, the dragged task exists and its column changes; then the list is the move's result, otherwise it is unchanged |
| TasksPage.DropInOwnColumnIsNoop | client/src/pages/Tasks.jsx:225-237 | dropping a card onto its own column, onto itself or onto another card of its column targets its own column, so no update is sent |
| TasksPage.MoveChangesOnlyDragged | client/src/pages/Tasks.jsx:239-241 | with unique ids, only the dragged task changes, keeping its place, and it lands in the target column |
| TasksPage.MoveShiftsOneTask | client/src/pages/Tasks.jsx:239-253 | a move to the other column takes exactly one task out of one column and puts it in the other |
| TasksPage.OrNull | client/src/pages/Tasks.jsx:180-181 | `value \|\| null` is `null` exactly for an empty field |
| TasksPage.NewTaskBody | client/src/pages/Tasks.jsx:172-183 | no task is created for a blank title; otherwise the body is the task built from the form |
| TasksPage.TaskBody | client/src/pages/Tasks.jsx:175-183 | the body has the seven fields: completed is false, and empty due date, customer id and customer name become `null` |
| TasksPage.NewTaskIsTodo | client/src/pages/Tasks.jsx:175-183 | a created task is stored under the generated id and is not completed |
| TasksPage.CustomerSearchChange | client/src/pages/Tasks.jsx:333-336 | typing sets the search text and opens the list |
| TasksPage.SelectCustomer | client/src/pages/Tasks.jsx:350-357 | picking a customer sets its id and name, empties the search text and closes the list |
| TasksPage.CustomerBoxText | client/src/pages/Tasks.jsx:332 | the box shows the search text, or the chosen name when the search text is empty |
| TasksPage.CustomerDropdown | client/src/pages/Tasks.jsx:340-346 | the list appears iff it is open and the search text is not empty, and shows exactly the matching contacts |
| TasksPage.AfterAdd | client/src/pages/Tasks.jsx:184-185 | after a create the form is blank and the search text empty |
| TasksPage.Cancel | client/src/pages/Tasks.jsx:403-406 | cancelling empties the search text and closes the list, but keeps the form |
| TasksPage.PickedCustomerIsSent | client/src/pages/Tasks.jsx:350-357 | after a pick the box shows the customer and the task body names that customer |

## Left out

- File system and JSON text. `existsSync`, `readFile`, `writeFile`, `JSON.parse` and `JSON.stringify` are modelled by the `files` map. A file that cannot be read or parsed is modelled as `Unreadable`, and a failing disk as `writable == false`.
- Express, CORS, body parsing, `/health`, HTTP status plumbing and `listen` are not modelled. A reply's status is kept only where the handler sets one (400, 401, 404).
- Concurrent requests and async interleaving are not modelled. Each request is one atomic read-modify-write.
- `Date.now()` ids, `new Date().toISOString()` timestamps and the browser's ISO conversion of a due date are not computed. They are parameters (`freshId`, `now`, `dueIso`). A due date that cannot be converted, which would throw, is not modelled.
- WhatsappService is not modelled. The hook is modelled as the notification the handler would send.
- The Dashboard page, the Calendar month grid, the `tr` locale and every date-fns display format are not modelled. They are calendar arithmetic and formatting in a foreign library. Only the submitted `yyyy-MM-dd` string is modelled, as padded decimal digits.
- api.js, App.jsx, MainLayout.jsx, Login.jsx and the tailwind configuration are not modelled. They contain routing and display only.
- React rendering, modals, drag sensors and timers are not modelled. `window.confirm`, `alert` and the reloads after each request are not modelled either; alerts appear as the `SubmitError` or `Alert` outcome.
- The delete handlers of the pages are not modelled. They only confirm, then call the delete route.
- The Calendar setters for time, service, amount and payment type each replace one field and are not modelled separately.
- Numbers are integers. The amount is a string field, as the form holds it.
- `toLowerCase` is modelled for ASCII letters only. The source also lowers non-ASCII letters, such as Turkish `İ`.
- Key order in records and the shape of non-object request bodies are not modelled.
- The Settings form's initial values from the signed-in user are not modelled. The `updateProfile` call into the auth context is not modelled either.
- Records from the server are modelled with the fields the pages read. A contact without a `name` or `phone` string, on which the search would throw, is not modelled.
- TasksPage.Task: `completed` is modelled as a boolean. A task whose `completed` is missing would compare `undefined !== false` and send an update from the todo column; that case is not modelled.
- CalendarPage.HandleSubmit: a contact-create request that throws and one that succeeds without an id are not told apart. `created` is either the new id or nothing.

## Findings

| source | as written | input that shows it | evidently intended | confidence | as-written member | corrected member |
|---|---|---|---|---|---|---|
| server/index.js:134-140 | `updateData` always holds `name`, `email` and `phone`; a field absent from the body holds `undefined`, overwrites the stored value in the merge and is dropped when the file is written | the Settings password change sends `{ password: "new123" }` for a user with a name, email and phone; afterwards the stored user has a password and no name, email or phone | a password-only update changes the password and keeps the profile | not executed | ApiServer.PasswordOnlyUpdateErasesProfile | ApiServer.CorrectedUpdateKeepsProfile |
