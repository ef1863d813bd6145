# Record adapters of the recruiting service layer

This project models the five record adapters of the recruiting application's
service layer: applications, candidates, jobs, notes and clients. Each adapter
translates between the domain shape the UI uses and the storage shape of a
hosted record store (`*_c` columns). It also interprets the store's responses.
The model covers, per entity:

- the row mapping from storage to domain shape, with its defaults (`applicants || 0`,
  `notes || ''`, `Owner?.Name || 'Unknown'`), the comma-separated skills codec and
  the JSON-or-plain-text interview codec;
- `getAll`, `getById`, `getByEntity` and `checkApplication`;
- the create payload and its defaults, and the partial-update payload, where only
  the fields the caller defined are sent;
- the reconciliation of a create or update response: the first failed record that
  carries an error decides the thrown error, otherwise the first successful record
  is returned;
- `delete`, `scheduleInterview`, `getUpcomingInterviews` (filter, then a stable sort
  by time) and the 24-hour `canEdit` window of a note.

The modules are:

- `Js` (js.dfy): JavaScript values, truthiness, `String()` coercion and property reads.
- `Text` (text.dfy): `split`, `join` and `trim`.
- `Adapter` (adapter.dfy): the shared code, namely list and lookup, reconciliation,
  the rule tables of the partial update and the store's `where` filter.
- One module per entity: `Applications`, `Candidates`, `Jobs`, `Notes` and `Clients`.

How the model is built:

- Store responses, `parseInt`, `JSON.parse`, `JSON.stringify`, date parsing and the
  clock are inputs: a `Host` value and a `Clock` value.
- An update builder is a method. Its sequence of conditional assignments is
  proved equal to `Patch`, a fold of the entity's rule table. `PatchSendsOnly`
  then shows that the payload holds `Id` and exactly the defined fields, each
  encoded.
- The reconciliation loop is one generic method, `Adapter.Reconcile`. It is
  proved equal to `Adapter.Verdict`, and `FirstFailureWins` characterises that
  function.

## Model

| member | source | states |
|---|---|---|
| Js.NatToDecimal | src/services/api/applicationService.js:132 | the decimal text of `Date.now()` in a generated name is non-empty and made of digits |
| Js.DateOf | src/services/api/noteService.js:316 | `new Date(null)` is the epoch and `new Date(undefined)` or `new Date(NaN)` an invalid date; a boolean is 0 or 1 ms; a number is its own time value when within ±8.64e15 ms and invalid otherwise; text is parsed by the host (arrays and objects through their string form) |
| Text.Split | src/services/api/candidateService.js:54 | `split(',')` yields at least one part and no part contains the separator |
| Text.SplitJoin | src/services/api/candidateService.js:54 | splitting a joined non-empty list of separator-free parts gives the list back |
| Text.JoinSplit | src/services/api/candidateService.js:54 | joining the parts of a split gives the original text back |
| Text.JoinValuesOfTexts | src/services/api/candidateService.js:135 | `Array.prototype.join` on an array of strings is the plain join of those strings |
| Text.TrimStart | src/services/api/noteService.js:176 | removes exactly the leading whitespace: the result is a suffix, starts with a non-space, and everything cut is whitespace |
| Text.TrimEnd | src/services/api/noteService.js:176 | removes exactly the trailing whitespace, symmetrically |
| Text.TrimSlice | src/services/api/noteService.js:176 | `trim()` returns one contiguous slice of the text, and everything outside it is whitespace |
| Text.TrimEdges | src/services/api/noteService.js:176 | a non-empty trimmed text begins and ends with a non-space |
| Text.TrimIdempotent | src/services/api/noteService.js:239 | trimming twice equals trimming once |
| Adapter.DecodeAll | src/services/api/candidateService.js:43-57 | mapping the rows decodes each row at its own index, or throws exactly when some row's decoding throws, with that row's fault |
| Adapter.ListAll | src/services/api/candidateService.js:11-66 | `getAll` returns `[]` when the call failed, the data is missing or a row throws (the catch); otherwise one decoded entity per row, in order |
| Adapter.Select | src/services/api/applicationService.js:347-358 | the store's `where` list of `EqualTo` conditions keeps exactly the rows that satisfy every condition |
| Adapter.FindOne | src/services/api/candidateService.js:68-119 | `getById` is null exactly when the response or its data is missing or the mapping throws; otherwise it is the mapped row |
| Adapter.Delete | src/services/api/candidateService.js:266-288 | `delete` returns true exactly when the store reports success, and otherwise throws an Error carrying the store's message |
| Adapter.WholeErrorHidesMessage | src/services/api/candidateService.js:157 | as written, interpolating a field-error object yields `<fieldLabel>: [object Object]` whatever its message |
| Adapter.RequiredEmailAsWritten | src/services/api/candidateService.js:157 | on the field error `{fieldLabel: "Email", message: "is required"}` the as-written text is `Email: [object Object]`; the intended text is `Email: is required` |
| Adapter.FieldErrorShowsMessage | src/services/api/clientService.js:135 | the corrected form `${error.fieldLabel}: ${error.message}` yields `<fieldLabel>: <message>` |
| Adapter.Reconcile | src/services/api/candidateService.js:144-161 | the response-checking code (unsuccessful call, filters, `forEach` throws, first success) computes `Verdict` |
| Adapter.Settle | src/services/api/candidateService.js:163-181 | a thrown verdict is rethrown unchanged; with no chosen record nothing (`undefined`) is returned; a chosen record without data throws a TypeError (reading a field of undefined); otherwise the mapping of its data is returned, or its fault rethrown |
| Adapter.FailedMembers | src/services/api/candidateService.js:150-151 | the failed-records filter keeps exactly the unsuccessful records |
| Adapter.FirstFaultOfFailed | src/services/api/candidateService.js:153-160 | the loop over failed records throws iff some failed record carries an error or a message, and then it throws the first such record's fault |
| Adapter.FirstSucceeded | src/services/api/candidateService.js:163-164 | there is a first success exactly when some record succeeded, and it is the earliest such record |
| Adapter.FirstFailureWins | src/services/api/candidateService.js:149-164 | the first failed record that carries an error or message decides the thrown error. Otherwise the first successful record is returned, or nothing when none succeeded |
| Adapter.IntOrNull | src/services/api/jobService.js:135 | a falsy value becomes null and a truthy one its `parseInt` |
| Adapter.Encode | src/services/api/noteService.js:239 | encoding fails only for `content?.trim()` on a value that is neither a string nor nullish |
| Adapter.AssignIf | src/services/api/candidateService.js:199 | one `if (x !== undefined) payload.col = enc(x)` statement extends the payload of the first n rules to that of the first n+1 |
| Adapter.PatchSendsOnly | src/services/api/candidateService.js:194-210 | a payload built from a table that names each column once holds the fixed part and exactly the defined fields, each encoded; nothing else is sent |
| Adapter.PatchOmits | src/services/api/jobService.js:203-219 | a column neither fixed nor named by any rule is never sent |
| Adapter.PatchSetsColumn | src/services/api/jobService.js:210 | the column of a defined field holds that field's encoding |
| Adapter.PartialUpdateIsolation | src/services/api/candidateService.js:194-216 | after the store applies the update, every unsent column keeps its stored value, and every sent column holds the encoded input |
| Candidates.DecodeSkills | src/services/api/candidateService.js:54 | falsy skills read as `[]`; the read throws exactly when the value is truthy but not a string; otherwise the parts are comma-free and join back to the stored text |
| Candidates.SkillsRoundTrip | src/services/api/candidateService.js:135 | a skills array joined on create reads back as the same array when no skill contains a comma and the array is not `[""]` |
| Candidates.LoneEmptySkillIsLost | src/services/api/candidateService.js:135 | the one exception: `[""]` is stored as `""` and read back as `[]` |
| Candidates.FromRow | src/services/api/candidateService.js:43-57 | mapping a row throws exactly when its skills column does, and otherwise the candidate's skills are that column decoded (`[]` when falsy, else its comma-separated parts) |
| Candidates.CreateThenRead | src/services/api/candidateService.js:121-140 | the stored create payload reads back as the caller's fields with status "new", level "entry", availability "available" and the call time |
| Candidates.CreateDefaults | src/services/api/candidateService.js:131-136 | a truthy status, experience level or availability is stored as given and a falsy one as "new", "entry" or "available"; the application time is the call time; an array of skills is stored as its comma-joined text, anything else as given |
| Candidates.Create | src/services/api/candidateService.js:121-190 | `create` sends the create payload and returns the reconciled response |
| Candidates.UpdateRulesDistinct | src/services/api/candidateService.js:194-210 | no two rules write the same column, and none writes `Id` |
| Candidates.UpdateRulesEncodable | src/services/api/candidateService.js:199-210 | every defined field of the table can be encoded |
| Candidates.UpdatePayload | src/services/api/candidateService.js:194-210 | the twelve conditional assignments build `Patch` of the table |
| Candidates.AssignContact | src/services/api/candidateService.js:199-204 | the first six assignments build the payload of the first six rules |
| Candidates.Update | src/services/api/candidateService.js:192-264 | `update` sends the partial payload and returns the reconciled response |
| Candidates.UpdateSendsOnly | src/services/api/candidateService.js:194-210 | a candidate update sends `Id` and exactly the defined fields, encoded |
| Applications.DecodeInterview | src/services/api/applicationService.js:39-49 | a falsy column gives `(null, '')`. Plain text (a `JSON.parse` failure) goes to `interviewNotes` with no interview. Otherwise the parsed JSON is the interview |
| Applications.InterviewRoundTrip | src/services/api/applicationService.js:251 | an interview object stored through `JSON.stringify` on update reads back as the same interview with empty notes |
| Applications.PlainTextRoundTrip | src/services/api/applicationService.js:251 | a string interview that is not JSON is stored as is and read back as plain-text notes |
| Applications.FromRow | src/services/api/applicationService.js:38-61 | notes are the stored `notes_c` when truthy and `''` otherwise; `interviewNotes` is `''` or the raw column; interview fields follow the codec |
| Applications.GetAll | src/services/api/applicationService.js:11-70 | `[]` on failure or missing data, otherwise one mapped application per row in order |
| Applications.GetById | src/services/api/applicationService.js:72-125 | null exactly when the response or its data is missing, otherwise the mapped row |
| Applications.SummaryOf | src/services/api/applicationService.js:163-172 | the summary returned by create and status update has the stored `notes_c` when truthy and `''` otherwise |
| Applications.CreateIgnoresOtherFields | src/services/api/applicationService.js:129-140 | create reads only `Name`, `jobId`, `candidateId` and `notes` from its input |
| Applications.CreateAlwaysNamed | src/services/api/applicationService.js:132 | the created record always has a truthy name |
| Applications.CreateThenRead | src/services/api/applicationService.js:127-172 | the stored create payload reads back with parsed ids, the call time, status "applied" and notes defaulted to `''` |
| Applications.Create | src/services/api/applicationService.js:127-183 | `create` sends the create payload and returns the reconciled summary |
| Applications.UpdateStatus | src/services/api/applicationService.js:185-237 | `updateStatus` sends `{Id, status_c}` and returns the reconciled summary |
| Applications.StatusUpdateIsUpdate | src/services/api/applicationService.js:187-194 | a status update sends exactly what `update` sends for an input holding only that status |
| Applications.UpdateRulesDistinct | src/services/api/applicationService.js:241-251 | no two rules write the same column, and none writes `Id` |
| Applications.UpdateRulesEncodable | src/services/api/applicationService.js:246-251 | every defined field can be encoded |
| Applications.UpdatePayload | src/services/api/applicationService.js:241-251 | the six conditional assignments build `Patch` of the table |
| Applications.Update | src/services/api/applicationService.js:239-313 | `update` sends the partial payload and returns the reconciled, fully mapped application |
| Applications.UpdateSendsOnly | src/services/api/applicationService.js:241-251 | an application update sends `Id` and exactly the defined fields, encoded |
| Applications.UpdatedInterviewReadsBack | src/services/api/applicationService.js:251 | after an update with an interview object, the stored record reads back with that interview and empty notes |
| Applications.CheckApplication | src/services/api/applicationService.js:363-372 | a match exists exactly when the call succeeded with non-empty data, and it carries the first row's `Id`, `jobId_c` and `candidateId_c` |
| Applications.CheckFindsPair | src/services/api/applicationService.js:339-372 | against a store that honours the `where` list, a match is found iff some stored row has the parsed job and candidate ids, and the match carries them |
| Applications.ScheduleThenRead | src/services/api/applicationService.js:385-395 | after scheduling, the stored record reads back as "interview_scheduled" with that interview and empty notes |
| Applications.ScheduleAsWritten | src/services/api/applicationService.js:399-429 | as written: an unsuccessful call throws the store's message; absent or empty results return nothing; a first record without data throws a TypeError; whenever the first record has data it is returned, successful or not |
| Applications.ScheduleIgnoresRejection | src/services/api/applicationService.js:404-405 | as written, a rejected first record yields a TypeError, or is returned as scheduled when it echoes data; the corrected path throws the record's message |
| Applications.ScheduleInterview | src/services/api/applicationService.js:383-438 | corrected `scheduleInterview`: sends the schedule payload and reconciles like the other mutations |
| Applications.SlotOf | src/services/api/applicationService.js:467-481 | a row is a slot exactly when its interview column is truthy, parses to a non-null interview, and that interview's date "T" time parses to a valid date, which is the slot's time |
| Applications.PendingMembers | src/services/api/applicationService.js:466-482 | the filter keeps exactly the parsable interviews at or after now |
| Applications.InsertKeeps | src/services/api/applicationService.js:483 | inserting adds exactly the one slot |
| Applications.InsertAscending | src/services/api/applicationService.js:483 | inserting into an ascending list keeps it ascending |
| Applications.SortAscending | src/services/api/applicationService.js:483 | the sort is ascending by time and a permutation of its input |
| Applications.InsertAtTime | src/services/api/applicationService.js:483 | inserting keeps the order among slots of equal time |
| Applications.SortStable | src/services/api/applicationService.js:483 | the sort is stable: slots of equal time keep their input order |
| Applications.UpcomingInterviews | src/services/api/applicationService.js:485-491 | one projected result per sorted slot, in order |
| Applications.UpcomingInterviewsSpec | src/services/api/applicationService.js:440-500 | `[]` on failure. Otherwise the result is ascending by time, a permutation of the pending slots, stable for equal times, and holds exactly the parsable interviews not in the past |
| Jobs.FromRow | src/services/api/jobService.js:45-60 | `applicants` is the stored count when truthy and 0 otherwise |
| Jobs.GetAll | src/services/api/jobService.js:11-69 | `[]` on failure or missing data, otherwise one mapped job per row in order |
| Jobs.GetById | src/services/api/jobService.js:71-125 | null exactly when the response or its data is missing, otherwise the mapped row |
| Jobs.CreateNamed | src/services/api/jobService.js:132 | the created job is named after its title, or gets a generated truthy name |
| Jobs.CreateDefaults | src/services/api/jobService.js:142-144 | a truthy status is stored as given and a falsy one as "active"; the creation time is the call time; applicants start at 0 |
| Jobs.CreateCoerces | src/services/api/jobService.js:135-138 | a falsy client reference or salary bound is stored as null, a truthy one as its parsed integer |
| Jobs.CreateThenRead | src/services/api/jobService.js:127-188 | the stored create payload reads back as the caller's fields with these coercions and defaults |
| Jobs.Create | src/services/api/jobService.js:127-199 | `create` sends the create payload and returns the reconciled response |
| Jobs.UpdateRulesDistinct | src/services/api/jobService.js:203-219 | no two rules write the same column, and none writes `Id` |
| Jobs.UpdateRulesEncodable | src/services/api/jobService.js:208-219 | every defined field can be encoded |
| Jobs.UpdatePayload | src/services/api/jobService.js:203-219 | the twelve conditional assignments build `Patch` of the table |
| Jobs.AssignPosting | src/services/api/jobService.js:208-213 | the first six assignments build the payload of the first six rules |
| Jobs.Update | src/services/api/jobService.js:201-274 | `update` sends the partial payload and returns the reconciled response |
| Jobs.UpdateSendsOnly | src/services/api/jobService.js:203-219 | a job update sends `Id` and exactly the defined fields, encoded |
| Jobs.UpdateRulesSkipName | src/services/api/jobService.js:208-219 | no update rule writes `Name` |
| Jobs.NameNeverSent | src/services/api/jobService.js:203-219 | an update never sends `Name`, whatever the input holds |
| Jobs.UpdateCoercesClientId | src/services/api/jobService.js:210 | a defined `clientId` is sent coerced exactly as create coerces it |
| Jobs.UpdateCoercesSalaryMin | src/services/api/jobService.js:213 | a defined `salaryMin` is sent coerced exactly as create coerces it |
| Jobs.UpdateCoercesSalaryMax | src/services/api/jobService.js:214 | a defined `salaryMax` is sent coerced exactly as create coerces it |
| Notes.FromRow | src/services/api/noteService.js:44-53 | `createdBy` is always truthy: the owner's name when truthy, else "Unknown" |
| Notes.GetAll | src/services/api/noteService.js:11-62 | `[]` on failure or missing data, otherwise one mapped note per row in order |
| Notes.GetById | src/services/api/noteService.js:64-105 | null exactly when the response or its data is missing, otherwise the mapped row |
| Notes.GetByEntity | src/services/api/noteService.js:107-166 | `[]` on failure or missing data, otherwise one mapped note per row in order |
| Notes.GetByEntityBelongs | src/services/api/noteService.js:121-132 | against a store that honours the `where` list, every returned note belongs to the entity, and every stored note of the entity is returned |
| Notes.CreatePayload | src/services/api/noteService.js:169-181 | building the create payload throws exactly when the content is neither a string nor nullish |
| Notes.CreateStampsAndTrims | src/services/api/noteService.js:172-178 | a created note is stamped with the call time as both creation and modification time, and its text content is trimmed |
| Notes.Create | src/services/api/noteService.js:167-227 | `create` throws a TypeError before sending anything when the content cannot be trimmed; otherwise it sends the payload and reconciles |
| Notes.UpdateRulesDistinct | src/services/api/noteService.js:230-239 | no rule writes `Id`, `updatedAt_c` or a column another rule writes |
| Notes.UpdateRulesEncodable | src/services/api/noteService.js:236-239 | the table can encode every defined field exactly when the content can be trimmed |
| Notes.UpdatePayload | src/services/api/noteService.js:230-239 | the payload throws a TypeError exactly when the content cannot be trimmed, and is otherwise `Patch` of the table |
| Notes.Update | src/services/api/noteService.js:228-289 | `update` throws before sending when the content cannot be trimmed, otherwise it sends the payload and reconciles |
| Notes.UpdateSendsOnly | src/services/api/noteService.js:230-239 | a note update sends `Id`, `updatedAt_c` and exactly the defined fields, encoded |
| Notes.UpdateStamps | src/services/api/noteService.js:230-233 | every update carries the id and the call time as the modification time |
| Notes.UpdateTrimsContent | src/services/api/noteService.js:239 | text content is sent trimmed |
| Notes.CanEdit | src/services/api/noteService.js:315-320 | a note is editable exactly when its creation date is valid and at most 24 hours have passed, measured in real-valued hours |
| Notes.HoursWithin | src/services/api/noteService.js:318-319 | "at most 24 hours" is the same as "at most 86,400,000 milliseconds" |
| Notes.EditWindowBoundary | src/services/api/noteService.js:315-320 | a note is editable at exactly 24 hours and not one millisecond later. A note dated in the future is editable |
| Notes.EditWindowCloses | src/services/api/noteService.js:315-320 | once a note is no longer editable, it never becomes editable again |
| Clients.ToRow | src/services/api/clientService.js:39-48 | the inverse renaming writes exactly the mapped columns |
| Clients.ClientRoundTrip | src/services/api/clientService.js:39-48 | the mapping loses nothing: a client written in storage shape reads back unchanged |
| Clients.SameClient | src/services/api/clientService.js:39-48 | two rows map to the same client exactly when they agree on every mapped column |
| Clients.GetAll | src/services/api/clientService.js:11-57 | `[]` on failure or missing data, otherwise one mapped client per row in order |
| Clients.GetById | src/services/api/clientService.js:59-101 | null exactly when the response or its data is missing, otherwise the mapped row |
| Clients.CreateNamed | src/services/api/clientService.js:108 | the created client is named after its company, or gets a generated truthy name |
| Clients.CreateThenRead | src/services/api/clientService.js:103-152 | the stored create payload reads back as the caller's fields with relationship "prospect" by default and the call time |
| Clients.Create | src/services/api/clientService.js:103-163 | `create` sends the create payload and returns the reconciled response |
| Clients.UpdateRulesDistinct | src/services/api/clientService.js:167-177 | no two rules write the same column, and none writes `Id` |
| Clients.UpdateRulesEncodable | src/services/api/clientService.js:172-177 | every defined field can be encoded |
| Clients.UpdatePayload | src/services/api/clientService.js:167-177 | the six conditional assignments build `Patch` of the table |
| Clients.Update | src/services/api/clientService.js:165-226 | `update` sends the partial payload and returns the reconciled response |
| Clients.UpdateSendsOnly | src/services/api/clientService.js:167-177 | a client update sends `Id` and exactly the defined fields |
| Clients.UpdateKeepsCreation | src/services/api/clientService.js:167-177 | an update never sends the creation time or the name |

## Left out

- The record store's client library, the network and `async`/`await` are not modelled. Each response is an input of the operation that reads it.
- The request's field lists are not modelled.
- Logging through `console.error` is not modelled.
- `parseInt`, `JSON.parse`, `JSON.stringify` and date parsing are left abstract, as functions of a `Host` value. Only the facts the code relies on are stated: `JSON.parse` either fails or yields a value.
- `Date.now()` and `new Date()` become one `Clock` instant per call. Where the source reads the clock twice (note create: `createdAt_c` and `updatedAt_c`), the model uses the same instant. The two stamps can in fact differ by a millisecond.
- Numbers are integers (plus `NaN`); fractional numbers and floating-point rounding are not modelled.
- Notes.CanEdit: compares real-valued hours exactly, without the rounding of floating-point division.
- Payload keys whose value is `undefined` stay in the modelled payload. JSON serialisation drops them on the way to the store, and that step is not modelled.
- Adapter.Select: the store is taken to honour a `where` list of `EqualTo` conditions exactly.
- Notes.GetByEntity: the order the store applies (`orderBy createdAt_c DESC`) is not modelled; the notes come back in the order of the response.
- Applications.UpcomingInterviewsSpec: the store-side `status_c = 'interview_scheduled'` condition is not modelled; the rows are taken as the store returned them.
- Adapter.Reconcile: the application, candidate and job services render a field error through `${error}`. Every module here uses the corrected form `${error.message}`, which the note and client services already use (see Findings).
- Applications.ScheduleInterview: this models the corrected reconciliation. The code as written is `Applications.ScheduleAsWritten` (see Findings).
- Candidates.GetAll and Candidates.GetById are `Adapter.ListAll` and `Adapter.FindOne` applied to `Candidates.FromRow`; their contracts are those members' contracts.
- The five `delete` operations are one generic member, `Adapter.Delete`, because their code is the same.

## Findings

| source | as written | input that shows it | evidently intended | confidence | as-written member | corrected member |
|---|---|---|---|---|---|---|
| src/services/api/candidateService.js:157 | a field error is interpolated whole, so the message reads `Email: [object Object]`. The same text is at candidateService.js:231, applicationService.js:157, 211 and 272, and jobService.js:165 and 240 | a rejected record whose `errors` holds `{fieldLabel: "Email", message: "is required"}` (Adapter.RequiredEmailAsWritten) | `Email: is required`, as the note and client services write it | not executed | Adapter.WholeErrorHidesMessage | Adapter.FieldErrorShowsMessage |
| src/services/api/applicationService.js:404-405 | the first record's `data` is read without checking that the record succeeded | a successful call whose only record failed with message "Record not found" and no data gives a TypeError. One that failed with "Invalid interview" but echoes its data is returned as scheduled (Applications.ScheduleIgnoresRejection) | throw the failed record's message, as every other mutation does | not executed | Applications.ScheduleAsWritten | Applications.ScheduleInterview |
