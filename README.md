# IntraLab core, modelled in Dafny

IntraLab connects wet-lab and dry-lab researchers. This project models the parts of it
that make decisions:

- **LabBridge** (the `ANGUS` Next.js app). It covers:
  - the zod schemas that gate every request and the AI output;
  - `POST /api/updates`, which inserts an update row as "processing" and then moves it
    to "ready" or "error";
  - the project timeline, with its search filter, its viewer mode and the mode's
    `localStorage` mirror;
  - the new-update form, with its attachment editors and the submission.
- **The two Flask back ends.** `src/user` is the "BioLab Portal", whose registry refuses
  duplicate ids. `hack_3` is the second back end, whose registry overwrites silently.
  Both keep per-user JSON files: a project description, wet and dry summaries, and an
  append-only update log.
- **The batch summariser** (`api_call/generate_wet_dry_json.py`). It validates a list
  of dated updates and sorts it by date. It asks Gemini for a wet and a dry summary of
  each update. Then it writes, for each audience, the latest summary that is not the
  "nothing reported" sentinel.
- **The member card** of the lab-connect front end: the avatar initials and the
  wet/dry badge.

Each source file has its own module. Shared pieces live in modules of their own:

| Module | What it holds |
|---|---|
| `Wrappers` | `Option` and `Result` |
| `Text` | Python `strip()` and JavaScript `trim()`, each with its own whitespace set; ASCII lower-casing; `includes` |
| `Seqs` | filter, subsequence, removal by index, last match |
| `Json` | parsed JSON values |
| `Store` | the files the Python code reads and writes, as a `FileSystem` object holding a map from path to JSON value |
| `Flask` | responses and the "non-blank string field" check |
| `Domain` | the wet/dry mode and the update status |

The rest of the model takes the source's own shape:

- **Mutable objects become classes with `modifies` clauses.** These are the Flask
  `User` and `Lab` classes, the `updates` table, the timeline's state cells and the
  form's state. Their methods state the whole new state.
- **The pure parts become functions**, such as validators, schemas, filters and
  selection. Lemmas state:
  - round trips for every schema;
  - the first-failing-check rule of the validation chains;
  - sortedness, permutation and stability of the date sort;
  - what the latest-relevant pick returns and the record built from it;
  - the characterisation of the search filter and of the initials.
- **The batch script's summary loop is a method.** Its loop invariants tie it to a
  specification function.

Everything outside the code is a parameter or an abstract outcome: Gemini, the
database, the caller's identity, date parsing, the URL/UUID grammars, and Python's
text rendering of non-strings.

The model follows the code where it behaves in ways a reader might not expect:

- The timeline search matches the untrimmed, lower-cased query. The query is trimmed
  only to decide whether it is blank (`ProjectTimeline.UntrimmedQueryMatters`).
- `create_user` answers with `user_id` as sent, before stripping, while it stores the
  stripped id.
- The submit button checks only that the text is non-empty. A text shorter than 10
  characters is therefore sent and refused by the API schema
  (`NewUpdateForm.EnabledSubmitCanBeRefused`).
- File names are built by concatenation and do not keep users apart. The update log of
  user `a_wet` is the wet summary file of user `a`
  (`Hack3User.UpdateLogAliasesWetFile`, `SrcUser.UpdateLogAliasesSummary`).

## Model

A definition that only computes, such as a request body, a submit condition or an output record, has no row of its own. The rows of the lemmas and methods that state its properties cover it: `NewUpdateForm.RequestBody` and `NewUpdateForm.Complete` under `RequestBodyAccepted` and `SubmittedAttachments`, `NewUpdateForm.SubmitEnabled` under `EnabledSubmitCanBeRefused`, `BatchSummariser.BuildOutput` under `OutputReportsPick`, and `BatchSummariser.Pipeline` under `Run`.

| member | source | states |
|---|---|---|
| Text.TrimStartSpec | api_call/generate_wet_dry_json.py:177 | Dropping leading whitespace leaves the longest suffix that does not start with whitespace; only whitespace is dropped |
| Text.TrimEndSpec | api_call/generate_wet_dry_json.py:177 | Dropping trailing whitespace leaves the longest prefix that does not end with whitespace; only whitespace is dropped |
| Text.TrimEmptyIff | src/user/routes.py:44-54 | `not s.strip()` / `!s.trim()` holds exactly when every character is whitespace |
| Text.TrimIsInnerSlice | src/user/routes.py:56 | The stripped string is a contiguous slice of the input with only whitespace cut on either side, and it neither starts nor ends with whitespace |
| Text.TrimIdempotent | src/user/routes.py:56 | Stripping twice equals stripping once |
| Text.Lower | ANGUS/components/project-timeline.tsx:47 | Lower-casing keeps the length and maps each character independently |
| Text.ContainsIff | ANGUS/components/project-timeline.tsx:56 | `includes(q)` holds exactly when some slice of the text equals `q` |
| Seqs.Filter | ANGUS/components/new-update-form.tsx:54 | `filter(p)` keeps exactly the entries satisfying `p`, as an order-preserving sub-list, each as many times as it occurs in the input |
| Seqs.FilterAgree | ANGUS/components/project-timeline.tsx:48-57 | Two tests that agree on every entry filter the list the same way |
| Seqs.FilterKeepsAll | ANGUS/components/project-timeline.tsx:48 | Filtering with a test every entry passes returns the list unchanged |
| Seqs.WithoutPositionSpec | ANGUS/components/new-update-form.tsx:37-39 | Filtering out one position removes exactly that entry, or nothing when the position is out of range |
| Seqs.LastWhere | api_call/generate_wet_dry_json.py:155-157 | The highest position satisfying the test, with no later one satisfying it; `None` exactly when no entry does |
| Json.Get | src/user/routes.py:44 | `d.get(key)` / `obj[key]` is the value when the key is present and `None` (`undefined`) exactly when it is absent |
| Json.Show | api_call/generate_wet_dry_json.py:177 | `str(v)` / `String(v)` of a string is the string itself |
| Domain.ModeFromString | ANGUS/components/project-timeline.tsx:36 | Only exactly `"wet"` or `"dry"` name a mode |
| Domain.ModeRoundTrip | ANGUS/components/project-timeline.tsx:42 | A mode written out by name reads back as the same mode |
| Flask.NonBlankField | src/user/routes.py:44-54 | A field passes exactly when it is a string with non-whitespace content; the value passed on is its stripped form, non-empty and already stripped |
| Flask.CheckFields | src/user/routes.py:106-119 | An early-return chain of field checks: all stripped values when every check passes, else the message of the first failing check |
| Flask.FirstFailingUnique | src/user/routes.py:106-119 | The first failing check is unique, so the error message is determined |
| Store.ReadObject | src/user/user_class.py:26-31 | The stored object, or `None` exactly when the file is missing or not an object |
| Store.ReadObjectOrEmpty | src/user/user_class.py:41-46 | The stored object, or `{}` when the file is missing or not an object |
| Store.ReadList | src/user/user_class.py:57-62 | The stored list, or `[]` when the file is missing or not a list |
| Store.FileSystem.Write | src/user/user_class.py:75-77 | Writing a file replaces its content and leaves every other file as it was |
| SrcUser.PathsInjective | src/user/user_class.py:27-58 | Different users have different project files and different update logs |
| SrcUser.ProjectPathIsNotUpdatePath | src/user/user_class.py:27-42 | A project file is never an update log or a summary file |
| SrcUser.UpdateLogAliasesSummary | src/user/user_class.py:42-58 | The update log of user `a_t` is the `t` summary file of user `a` |
| SrcUser.User.constructor | src/user/user_class.py:9-12 | A user keeps the id, name and role it was created with |
| SrcUser.User.LoadProjectDescription | src/user/user_class.py:17-31 | The stored object, or `None` exactly when the file is missing or not an object |
| SrcUser.User.LoadUpdate | src/user/user_class.py:33-46 | The stored object, or `{}` when the file is missing or not an object |
| SrcUser.User.LoadPastUpdates | src/user/user_class.py:48-62 | The stored list, or `[]` when the file is missing or not a list |
| SrcUser.User.AddProject | src/user/user_class.py:67-77 | Overwrites only the project file, and the description then reads back as exactly the written project |
| SrcUser.User.AddUpdate | src/user/user_class.py:79-102 | Appends the record after all earlier ones (`[update]` for a missing or non-list file) and changes no other file |
| SrcUser.AddUpdateIsolated | src/user/user_class.py:79-102 | Appending to one user's log leaves every other user's log and project file as they were |
| SrcUser.Lab.constructor | src/user/user_class.py:110-111 | The registry starts empty |
| SrcUser.Lab.GetUser | src/user/user_class.py:113-114 | The registered user, or `None` exactly when the id is unknown |
| SrcUser.Lab.CreateUser | src/user/user_class.py:116-121 | A taken id fails and changes nothing; a fresh id stores a new user with the given fields and leaves every other entry unchanged |
| SrcRoutes.ValidateBody | src/user/routes.py:44-54 | A non-object body gives 400 "JSON body required"; otherwise the field chain's first failure gives 400 with its message |
| SrcRoutes.ValidateProject | src/user/routes.py:44-57 | `Name` is checked before `Description`, each with its own 400; success exactly when both pass, giving `{Name, Description}` stripped |
| SrcRoutes.ValidateUserUpdate | src/user/routes.py:69-80 | `date` is checked before `Description`, each with its own 400; success exactly when both pass, giving both stripped |
| SrcRoutes.ValidateNewUser | src/user/routes.py:106-119 | `user_id`, `name`, `role` are checked in that order, each with its own 400; success exactly when all pass, giving the three stripped values |
| SrcRoutes.GetUserDashboard | src/user/routes.py:16-32 | 404 for an unknown user; otherwise 200 with the id, the project (null when absent) and the wet and dry summaries |
| SrcRoutes.GetUserUpdates | src/user/routes.py:89-95 | 404 for an unknown user; otherwise 200 with the whole update log |
| SrcRoutes.PostProject | src/user/routes.py:39-57 | 404 and then 400 write nothing; success overwrites the project file with the stripped record and answers 201 |
| SrcRoutes.PostUserUpdate | src/user/routes.py:64-82 | 404 and then 400 write nothing; success appends the stripped record to the log and answers 201 |
| SrcRoutes.CreateUser | src/user/routes.py:97-130 | 400 for a bad body and 409 for a taken stripped id, both leaving the registry unchanged; else 201 echoing the id as sent, with the user stored under stripped fields |
| Hack3User.UpdateLogIsNotOwnSummary | hack_3/user_class.py:30-82 | A user's update log is never that user's own wet or dry file |
| Hack3User.UpdateLogAliasesWetFile | hack_3/user_class.py:30-82 | The update log of user `a_wet` is the wet file of user `a` |
| Hack3User.User.constructor | hack_3/user_class.py:8-11 | A user keeps the id, name and role it was created with |
| Hack3User.User.LoadProject | hack_3/user_class.py:16-28 | The stored object, or `None` exactly when the file is missing or not an object |
| Hack3User.User.LoadWet | hack_3/user_class.py:30-43 | The wet summary object, or `{}` when it is missing or not an object |
| Hack3User.User.LoadDry | hack_3/user_class.py:45-58 | The dry summary object, or `{}` when it is missing or not an object |
| Hack3User.User.StoredUpdates | hack_3/user_class.py:70-78 | The stored log, or `[]` when the file is missing or not a list |
| Hack3User.User.AddUpdate | hack_3/user_class.py:63-82 | Appends the record after all earlier ones (`[update]` for a missing or non-list file) and changes no other file |
| Hack3User.User.ComputeWetAndDry | hack_3/user_class.py:84-93 | Always raises `NotImplementedError` |
| Hack3User.AddUpdateKeepsSummaries | hack_3/user_class.py:63-82 | Appending to the log leaves the user's wet and dry summaries as they were |
| Hack3User.Lab.constructor | hack_3/user_class.py:96-98 | The registry starts empty |
| Hack3User.Lab.GetUser | hack_3/user_class.py:100-101 | The stored user, or `None` exactly when the id is unknown |
| Hack3User.Lab.AddUser | hack_3/user_class.py:103-104 | Stores the user under its own id, silently replacing any user already there; every other entry is unchanged |
| Hack3Routes.RequireJsonObject | hack_3/routes.py:11-14 | Accepts exactly object payloads; anything else gives the 400 "JSON body must be an object" |
| Hack3Routes.ValidateUpdateObj | hack_3/routes.py:17-25 | `Data` is checked before `Text_Update`, each with its own 400; the ok flag holds exactly when both pass, and the result is then exactly those two keys, stripped |
| Hack3Routes.GetProject | hack_3/routes.py:33-40 | 404 for an unknown user, 404 "Project not found" when no project object is stored, else 200 with it |
| Hack3Routes.GetWet | hack_3/routes.py:46-51 | 404 for an unknown user; otherwise 200 with the wet summary (`{}` when none) |
| Hack3Routes.GetDry | hack_3/routes.py:57-62 | 404 for an unknown user; otherwise 200 with the dry summary (`{}` when none) |
| Hack3Routes.GetDashboard | hack_3/routes.py:68-82 | 404 for an unknown user; otherwise 200 with the project (null when absent) and the wet and dry values |
| Hack3Routes.PostUpdate | hack_3/routes.py:89-113 | 404 and 400 never touch the log; success appends the cleaned record, swallows the `NotImplementedError`, and answers 201 echoing the same record |
| Schemas.AsString | ANGUS/lib/schemas.ts:4 | `z.string()` accepts exactly strings, unchanged |
| Schemas.AsNumber | ANGUS/lib/schemas.ts:57 | `z.number()` accepts exactly numbers, unchanged |
| Schemas.AsMode | ANGUS/lib/schemas.ts:15 | `z.enum(["wet","dry"])` accepts exactly those two strings |
| Schemas.ParseList | ANGUS/lib/schemas.ts:18 | `z.array` succeeds exactly when every element parses, keeping the length and the order |
| Schemas.ListRoundTrip | ANGUS/lib/schemas.ts:18 | A list of elements that round-trip itself round-trips |
| Schemas.ParseStrings | ANGUS/lib/schemas.ts:31-33 | A parsed string list is exactly the array's strings |
| Schemas.StringsRoundTrip | ANGUS/lib/schemas.ts:31-33 | A string list reads back as itself |
| Schemas.ParseAttachment | ANGUS/lib/schemas.ts:3-6 | Accepts exactly objects whose `type` is a string of at least 1 character and whose `url` is a string the URL check accepts |
| Schemas.AttachmentRoundTrip | ANGUS/lib/schemas.ts:3-6 | A valid attachment reads back as itself |
| Schemas.ParseAttachments | ANGUS/lib/schemas.ts:18 | An attachment array parses exactly when every entry does, keeping the order |
| Schemas.AttachmentsRoundTrip | ANGUS/lib/schemas.ts:18 | A list of valid attachments reads back as itself |
| Schemas.StringAtLeast | ANGUS/lib/schemas.ts:9-10 | `z.string().min(n)` accepts exactly strings of at least `n` characters |
| Schemas.ParseCreateProject | ANGUS/lib/schemas.ts:8-11 | An object is accepted exactly when its `name` is a string of at least 2 and its `description` a string of at least 4 characters, other keys ignored; success gives those values; a refused object lists exactly the failing keys among the two |
| Schemas.ProjectRoundTrip | ANGUS/lib/schemas.ts:8-11 | A valid project reads back as itself |
| Schemas.ParseAttachmentsField | ANGUS/lib/schemas.ts:18 | A missing `attachments` key defaults to `[]`; a present one must be an array of valid attachments |
| Schemas.ProjectIdField | ANGUS/lib/schemas.ts:14 | `project_id` is accepted exactly when it is a string the UUID check accepts |
| Schemas.ModeField | ANGUS/lib/schemas.ts:15 | `author_mode` passes exactly when present and "wet" or "dry", giving that mode |
| Schemas.FailedKey | ANGUS/lib/schemas.ts:8-19 | A key is listed exactly when its check failed |
| Schemas.FailedUpdateKeys | ANGUS/lib/schemas.ts:13-19 | Each of the five keys is listed exactly when its check failed, and no other key is |
| Schemas.FailingUpdateKeys | ANGUS/lib/schemas.ts:13-19 | The keys of an object that fail `createUpdateSchema`: each of the five keys exactly when its own check fails, and no other key |
| Schemas.ParseCreateUpdate | ANGUS/lib/schemas.ts:13-19 | Success gives a UUID project id, a wet/dry mode, a description of at least 4 and a text of at least 10 characters, all taken from the input; the attachments are the parsed `attachments` array, or `[]` when the key is absent; an object is accepted exactly when no key fails, and a refused one lists exactly the failing keys |
| Schemas.CreateUpdateAcceptsValid | ANGUS/lib/schemas.ts:13-19 | An object is accepted exactly when all five checks pass, whatever other keys it has |
| Schemas.UpdateInputRoundTrip | ANGUS/lib/schemas.ts:13-19 | A valid update input reads back as itself |
| Schemas.ParseStringRecord | ANGUS/lib/schemas.ts:38 | `z.record(z.string(), z.string())` accepts exactly objects with only string values, keeping every key |
| Schemas.ParseNumberRecord | ANGUS/lib/schemas.ts:42 | `z.record(z.string(), z.number())` accepts exactly objects with only number values, keeping every key |
| Schemas.RecordsRoundTrip | ANGUS/lib/schemas.ts:38-42 | String and number records read back as themselves |
| Schemas.ParseAction | ANGUS/lib/schemas.ts:46-52 | An accepted action has an `owner_role` of exactly "wet" or "dry" and a `due` that is a string or null |
| Schemas.MethodsRoundTrip | ANGUS/lib/schemas.ts:35-40 | A list of method steps reads back as itself |
| Schemas.ActionsRoundTrip | ANGUS/lib/schemas.ts:46-52 | A list of requested actions reads back as itself |
| Schemas.InputsRoundTrip | ANGUS/lib/schemas.ts:30-34 | The `inputs` object reads back as itself |
| Schemas.ResultsRoundTrip | ANGUS/lib/schemas.ts:41-44 | The `results` object reads back as itself |
| Schemas.HandoffRoundTrip | ANGUS/lib/schemas.ts:45-54 | The `handoff` object reads back as itself |
| Schemas.StructuredRoundTrip | ANGUS/lib/schemas.ts:28-56 | The `structured` record reads back as itself |
| Schemas.ParseGeminiOutput | ANGUS/lib/schemas.ts:21-59 | A parsed output has a confidence in [0, 1], bounds included, taken from the input; an out-of-range number is rejected |
| Schemas.GeminiOutputRoundTrip | ANGUS/lib/schemas.ts:21-59 | An output whose confidence lies in [0, 1] reads back as itself |
| UpdateRoute.InitialRow | ANGUS/app/api/updates/route.ts:22-34 | The inserted row is "processing", authored by the caller, with the validated input fields and no AI output |
| UpdateRoute.ReadyRow | ANGUS/app/api/updates/route.ts:48-58 | The ready row copies title, structured record, both translations, confidence and follow-ups from the AI output, and keeps the submitted columns |
| UpdateRoute.ErrorRow | ANGUS/app/api/updates/route.ts:68-71 | The error row sets the status and the message; the submitted columns, title, structured record, translations, confidence and follow-ups are as before |
| UpdateRoute.StatusCode | ANGUS/app/api/updates/route.ts:6-74 | Each outcome has its status: 401, 400, 500 or 201 |
| UpdateRoute.InsertErrorMessage | ANGUS/app/api/updates/route.ts:36-38 | The database's message when it is non-empty; "Insert failed" for an empty message or a missing row |
| UpdateRoute.FailureMessage | ANGUS/app/api/updates/route.ts:40-73 | No failure exactly when both the translation and the write succeed; otherwise the message of what failed, or "Gemini processing failed" for a non-Error throw |
| UpdateRoute.UpdatesTable.constructor | ANGUS/app/api/updates/route.ts:22-34 | The table starts empty |
| UpdateRoute.UpdatesTable.Insert | ANGUS/app/api/updates/route.ts:22-34 | Adds the row under its id, keeping every row well-formed for its status |
| UpdateRoute.UpdatesTable.SetReady | ANGUS/app/api/updates/route.ts:48-61 | Applies the ready update only when the database reports no error; otherwise changes nothing and returns the message |
| UpdateRoute.UpdatesTable.SetError | ANGUS/app/api/updates/route.ts:68-71 | Moves the row to "error" with the message |
| UpdateRoute.Post | ANGUS/app/api/updates/route.ts:6-74 | 401 without a caller, 400 with the schema error, 500 on a failed insert, all writing nothing; else the new row ends "ready" with the AI output or "error" with the failure message, answered 201 |
| UpdateRoute.Finalise | ANGUS/app/api/updates/route.ts:40-73 | After the insert, the row becomes "ready" when translation and write succeed and "error" with the message otherwise; always 201 |
| UpdateRoute.PostLeavesFinalState | ANGUS/app/api/updates/route.ts:40-73 | With the "error" update taken to succeed, no row is left "processing" after a successful insert; the final row is well-formed and keeps text, project, author and mode |
| ProjectTimeline.Truthy | ANGUS/components/project-timeline.tsx:55 | `filter(Boolean)` returns only present, non-empty field values, and every such value |
| ProjectTimeline.TruthyKeepsOrder | ANGUS/components/project-timeline.tsx:55 | The kept values appear in the fields' order |
| ProjectTimeline.TruthyCounts | ANGUS/components/project-timeline.tsx:55 | Each non-empty value is kept as many times as it occurs among the fields; the empty string never is |
| ProjectTimeline.AnyContainsIff | ANGUS/components/project-timeline.tsx:56 | `some(includes)` holds exactly when one value, lower-cased, contains the query |
| ProjectTimeline.KeptMatches | ANGUS/components/project-timeline.tsx:48-57 | A kept update has a title, text or translation that is present, non-empty and contains the query once lower-cased |
| ProjectTimeline.MatchingKept | ANGUS/components/project-timeline.tsx:48-57 | An update with such a field is kept |
| ProjectTimeline.KeepIff | ANGUS/components/project-timeline.tsx:48-57 | An update is kept exactly when its title, text or one of its translations is present, non-empty and contains the query once lower-cased |
| ProjectTimeline.Filtered | ANGUS/components/project-timeline.tsx:45-58 | A blank query returns the list unchanged; otherwise the result is the input filtered by the field-by-field match on the lower-cased query, so order and repetitions are kept |
| ProjectTimeline.UntrimmedQueryMatters | ANGUS/components/project-timeline.tsx:46-47 | The query is trimmed only for the blank test: a title "ax" matches "ax" but not "ax " |
| ProjectTimeline.Translation | ANGUS/components/project-timeline.tsx:94-97 | The wet translation for wet viewers and the dry one for dry viewers |
| ProjectTimeline.FollowupsCount | ANGUS/components/project-timeline.tsx:98 | The number of follow-ups, or 0 when there is no list |
| ProjectTimeline.StoredMode | ANGUS/components/project-timeline.tsx:35-36 | A stored mode counts only when it is exactly "wet" or "dry" |
| ProjectTimeline.PersistedModeReadsBack | ANGUS/components/project-timeline.tsx:41-43 | The persisted mode reads back as the same mode |
| ProjectTimeline.TimelineView.constructor | ANGUS/components/project-timeline.tsx:31-32 | The view starts in wet mode with an empty query |
| ProjectTimeline.TimelineView.RestoreViewerMode | ANGUS/components/project-timeline.tsx:34-39 | The mode changes only to a stored "wet" or "dry" |
| ProjectTimeline.TimelineView.OnValueChange | ANGUS/components/project-timeline.tsx:66-70 | The mode changes only to exactly "wet" or "dry"; any other value leaves it as it was |
| ProjectTimeline.TimelineView.PersistViewerMode | ANGUS/components/project-timeline.tsx:41-43 | Stores the mode under the viewer key, where it reads back as the current mode |
| ProjectTimeline.TimelineView.SetQuery | ANGUS/components/project-timeline.tsx:79 | Sets the query and nothing else |
| NewUpdateForm.SetKey | ANGUS/components/new-update-form.tsx:29 | Spreading with one key changes that field only |
| NewUpdateForm.UpdateAttachment | ANGUS/components/new-update-form.tsx:27-31 | Only field `key` of entry `index` changes; the length and all other entries stay the same |
| NewUpdateForm.AddAttachment | ANGUS/components/new-update-form.tsx:33-35 | One more entry, `{type: "", url: ""}`, at the end; the earlier entries are unchanged |
| NewUpdateForm.RemoveAttachment | ANGUS/components/new-update-form.tsx:37-39 | Removes exactly entry `index` and keeps the order of the rest; an out-of-range index changes nothing |
| NewUpdateForm.SubmittedAttachments | ANGUS/components/new-update-form.tsx:54 | The order-preserving sub-list of exactly the entries whose type and URL are both non-empty, each as many times as it was entered |
| NewUpdateForm.RequestBodyAccepted | ANGUS/components/new-update-form.tsx:49-55 | A body with a UUID project id, long enough description and text, and valid complete attachments passes the API schema with exactly those values |
| NewUpdateForm.EnabledSubmitCanBeRefused | ANGUS/components/new-update-form.tsx:144 | For every text of 1 to 9 characters, submit is enabled and the API schema refuses the body |
| NewUpdateForm.ErrorMessage | ANGUS/components/new-update-form.tsx:58-60 | The payload's non-empty `error` string, or "Failed to create update." when it has no truthy `error`; no message exactly when the payload is `null`, where reading `error` throws |
| NewUpdateForm.UpdatePage | ANGUS/components/new-update-form.tsx:61 | `/app/updates/` followed by the returned id, or `undefined` when there is none; no page exactly when the payload is `null`, where reading `id` throws |
| NewUpdateForm.Form.constructor | ANGUS/components/new-update-form.tsx:21-25 | The form starts in wet mode with empty text, no attachments, no status and not loading |
| NewUpdateForm.Form.EditAttachment | ANGUS/components/new-update-form.tsx:27-31 | The attachments become `UpdateAttachment` of the old ones; nothing else changes |
| NewUpdateForm.Form.AppendAttachment | ANGUS/components/new-update-form.tsx:33-35 | The attachments become `AddAttachment` of the old ones; nothing else changes |
| NewUpdateForm.Form.DropAttachment | ANGUS/components/new-update-form.tsx:37-39 | The attachments become `RemoveAttachment` of the old ones; nothing else changes |
| NewUpdateForm.Form.Submit | ANGUS/components/new-update-form.tsx:41-68 | Posts the form's body with only the complete attachments. Success navigates to the new update's page; a failure records its message; a `null` payload records the `TypeError`'s message and does not navigate. Loading ends false |
| MemberCard.Split | Andrew/lab-connect-main/src/components/MemberCard.tsx:13 | `split(' ')` gives at least one part, none containing a space, and joining the parts restores the name |
| MemberCard.Take2 | Andrew/lab-connect-main/src/components/MemberCard.tsx:16 | `slice(0, 2)` is the prefix of length at most 2 |
| MemberCard.Initials | Andrew/lab-connect-main/src/components/MemberCard.tsx:12-16 | The initials have at most 2 characters |
| MemberCard.FirstCharsSplit | Andrew/lab-connect-main/src/components/MemberCard.tsx:13-15 | The first characters of the split parts are the word-initial characters of the name; empty parts add nothing |
| MemberCard.InitialsAreWordStarts | Andrew/lab-connect-main/src/components/MemberCard.tsx:12-16 | The initials are the first two word-initial characters of the name, in order |
| MemberCard.InitialsShape | Andrew/lab-connect-main/src/components/MemberCard.tsx:12-16 | No initial is a space, and an empty or all-space name has no initials |
| MemberCard.BadgeLabel | Andrew/lab-connect-main/src/components/MemberCard.tsx:18 | "Wet Lab" exactly when `labType === 'wet'`, "Dry Lab" otherwise |
| BatchSummariser.FindMissing | api_call/generate_wet_dry_json.py:111-114 | The scan finds the first element, in index order, that lacks a required key, or none exactly when all have them |
| BatchSummariser.RequireUpdates | api_call/generate_wet_dry_json.py:108-114 | Fails unless the payload is a list of objects; then fails on the first element missing `date`, `text` or `project_id`; otherwise returns the elements unchanged |
| BatchSummariser.KeyAll | api_call/generate_wet_dry_json.py:171 | Every update gets its parsed date, in order, or the first position whose date does not parse |
| BatchSummariser.Insert | api_call/generate_wet_dry_json.py:171 | Insertion adds exactly one element to the multiset |
| BatchSummariser.InsertSorted | api_call/generate_wet_dry_json.py:171 | Inserting into a date-sorted list keeps it sorted |
| BatchSummariser.SortByDate | api_call/generate_wet_dry_json.py:171 | The result is in ascending calendar order and is a permutation of the input |
| BatchSummariser.SortStable | api_call/generate_wet_dry_json.py:171 | Updates sharing a date keep their input order |
| BatchSummariser.UpdatesOf | api_call/generate_wet_dry_json.py:171 | Dropping the sort keys keeps the updates in order |
| BatchSummariser.SortedKeysKept | api_call/generate_wet_dry_json.py:171 | Every sorted update is one of the validated ones, so it still has its required keys |
| BatchSummariser.Texts | api_call/generate_wet_dry_json.py:177 | One text per update, in order: its `text` value rendered and stripped, the stripped string itself for a string, `""` when the key is absent |
| BatchSummariser.Summaries | api_call/generate_wet_dry_json.py:176-188 | One summary per text, aligned by position, each the answer of the call for that text |
| BatchSummariser.Summary | api_call/generate_wet_dry_json.py:179-183 | The answer of the call for this text and audience |
| BatchSummariser.FirstFailedCall | api_call/generate_wet_dry_json.py:176-188 | The first call that fails, the wet call of an update before its dry call; none exactly when every call succeeds |
| BatchSummariser.SummariseAll | api_call/generate_wet_dry_json.py:176-188 | The loop ends with exactly one wet and one dry summary per update, aligned by position, or stops at the first failing call |
| BatchSummariser.LastRelevant | api_call/generate_wet_dry_json.py:155-157 | The highest position whose stripped summary is not the sentinel; `None` exactly when every summary is the sentinel once stripped |
| BatchSummariser.PickLatestRelevant | api_call/generate_wet_dry_json.py:150-158 | The reverse scan returns the update at the last relevant position with its stripped summary, never the sentinel; `None` when none is relevant, including the empty list |
| BatchSummariser.PickedIsStripped | api_call/generate_wet_dry_json.py:156 | The picked summary is already stripped |
| BatchSummariser.OutputReportsPick | api_call/generate_wet_dry_json.py:195-204 | The record says the sentinel and names no project exactly when nothing is relevant; otherwise it carries the picked update's date, its stripped summary and its `project_id` as the only project |
| BatchSummariser.ExitCode | api_call/generate_wet_dry_json.py:163-166 | Exit 2 exactly for a missing API key; every error exits non-zero |
| BatchSummariser.Run | api_call/generate_wet_dry_json.py:160-211 | A missing key or any error leaves the files unchanged with a non-zero exit; success writes the wet and the dry record and exits 0 |

## Left out

- Gemini calls are not modelled: `gemini_text`'s retries and sleeps, `translateUpdate` and the prompts. The batch script receives `translate` as a parameter (`None` where the call raises). The route receives the AI outcome as `AiOutcome`.
- Real file and JSON I/O is not modelled: `open`, `json.load`/`json.dump`, `os.makedirs`, argparse and decode errors. Files are a map from path to parsed JSON value. A missing updates file maps to exit 1.
- UpdateRoute.PostLeavesFinalState: holds only in the model. The route does not check the result of the "error" update (route.ts:68-71); if that update fails, the row stays "processing", and the model does not represent that failure.
- Supabase is not modelled, neither auth nor the database internals. The caller's identity and the answers of the insert and the "ready" update are inputs. The database chooses the row id. A failure of the "error" update itself is not modelled.
- Flask and Next.js wiring is not modelled: blueprints, CORS, `jsonify`/`NextResponse`, and request JSON that fails to parse.
- Schemas.Grammar: the URL and UUID grammars behind `.url()` and `.uuid()` are parameters.
- Text.Lower: only ASCII letters are lower-cased. Lengths count code points, not UTF-16 code units.
- BatchSummariser.DateOf: `strptime` is a parameter; dates are (year, month, day) triples in calendar order.
- Json.Show: Python's `str()` and JavaScript's `String()` of a non-string value are a parameter `render`.
- Schemas.ParseCreateUpdate: the error reports only the failing top-level keys, not zod's message texts or issue paths inside `attachments`.
- BatchSummariser.SummariseAll: receives the stripped texts computed up front. The script strips each text inside the loop; the values are the same.
- BatchSummariser.SummariseAll: `translate` is a function, so two updates with the same text and audience get the same summary. Gemini does not promise that; the model does not capture differing answers to the same prompt.
- Progress output (`print`) of the batch script is not modelled.
- `src/user/user_class.py` `generate_update` is not modelled: it only prints.
- ProjectTimeline.TimelineView: the order in which React runs the two `localStorage` effects is not modelled. Restoring and persisting are separate methods.
- ProjectTimeline.TimelineView.Shown: only names the filtered list the component renders; rendering is not modelled.
- NewUpdateForm.Form.Submit: the network request and React's re-render timing are not modelled. The request's outcome is an input; a network failure or an unreadable body arrives as a thrown `Error`. The `TypeError` message for a `null` payload is a parameter.
- Presentation components and fetch glue are not modelled: the update detail page, the navigation and insight cards, and the lab-connect API client.
- Python list objects are not shared between callers. The model does not capture mutation of a list returned by a loader.
