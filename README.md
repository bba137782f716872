# Program management system — a Dafny model of the server core and the risk board

This project models the back end of a program/project management web
application:

- the five Mongoose schemas (Risk, Task, Project, Program, Document);
- the Express routes over them and over users;
- the risk scoring, level and filtering logic of the Risks page.

Each schema is a module with:

- a datatype for the document, where `None` marks a path that is absent;
- the `trim` setters and defaults applied when a document is built;
- whole-document validation as `save()` runs it;
- the `pre('save')` date-order hook, for Task, Project and Program;
- update-time validation as `findByIdAndUpdate(..., { runValidators: true })`
  runs it: only present paths are checked, with no defaults and no hook.

A collection is the class `Store.Collection<T>`. Its map field `docs` is updated
in place by `save()`, `findByIdAndUpdate`, `findByIdAndDelete` and by saving a
loaded document. Its listing method is proved to return every matching
document once, sorted by `createdAt` descending.

The routes are methods over a collection. Each one states its full outcome:

- a 403 for roles outside the route's `authorize(...)` list, whose message
  `Common.RoleDenied` is assumed (see the section on what is left out);
- a crash (Express answers 500) for a malformed id, a failed validation or a
  rejected hook;
- a 404 for a missing document;
- otherwise the reply, together with the new state of the collection.

Each route over a schema also keeps the invariant that every stored document is valid.

The document upload route models multer's file filter, which applies a regular
expression to the lower-cased extension and to the MIME type. It also models
the 10 MiB limit, the "file-" + suffix + extension stored name, Node's
`path.extname`, and the comma-separated tag list.

## Model

| member | source | states |
|---|---|---|
| Text.TrimSlice | server/models/Risk.js:7 | `trim` yields a trimmed, contiguous slice of the value, and everything it cuts off at either end is blank |
| Text.TrimIdempotent | server/models/Task.js:13 | trimming a trimmed value changes nothing |
| Text.TrimEmpty | server/models/Document.js:4-9 | a value trims to the empty string exactly when it is made only of blanks, so `required` rejects such a value |
| Text.TrimAll | server/models/Task.js:63-66 | every element of an array of trimmed strings is the trim of the element at the same position |
| Text.ToLower | server/routes/documents.js:27 | lower-casing keeps the length and maps each character through the ASCII lower-case mapping |
| Text.Split | server/routes/documents.js:88 | splitting gives at least one piece, and no piece contains the separator |
| Text.JoinSplit | server/routes/documents.js:88 | joining the pieces of `split(',')` with ',' gives back the original string |
| Fields.CheckRequiredString | server/models/Risk.js:4-9 | a required string fails exactly when a whole-document check finds it absent, or when it is present but empty |
| Fields.CheckRequired | server/models/Risk.js:55-58 | a required non-string path fails exactly when a whole-document check finds it absent |
| Fields.CheckMaxLength | server/models/Task.js:4-9 | `maxlength` fails exactly when a present string is longer than the bound |
| Fields.CheckEnum | server/models/Task.js:16-20 | `enum` fails exactly when a present value is not one of the listed values |
| Fields.CheckMin | server/models/Task.js:49-53 | `min` fails exactly when a present number is below the bound |
| Fields.CheckMax | server/models/Project.js:44-49 | `max` fails exactly when a present number is above the bound |
| Fields.CheckRef | server/models/Risk.js:36-40 | an `ObjectId` reference fails its cast exactly when it is not 24 hexadecimal digits |
| Fields.CheckRefs | server/models/Task.js:59-62 | an array of references fails exactly when one of its elements is not an ObjectId |
| RiskModel.Violations | server/models/Risk.js:3-63 | validation reports nothing exactly when every rule holds on every present path and, for a whole-document check, every required path is present |
| RiskModel.Save | server/models/Risk.js:3-66 | a risk saves exactly when its trimmed, defaulted form is valid, and the stored document is that form; otherwise the error is a non-empty list of validation failures |
| RiskModel.CastUpdate | server/routes/risks.js:71-75 | an update passes exactly when its trimmed present paths satisfy their rules; missing required paths are not reported |
| RiskModel.SavedRisk | server/models/Risk.js:4-58 | the payload carried every required path, and a saved risk has trimmed, non-empty title, description and mitigation within their lengths, category/probability/impact/status from their lists, status "identified" when none was sent, and owner, due date, project, program and creator as sent, with owner, due date and creator present |
| RiskModel.UpdateKeepsValid | server/routes/risks.js:71-77 | merging an update that passes its validators into a valid risk gives a valid risk |
| RiskModel.NormalizeIdempotent | server/models/Risk.js:31-35 | building a document from a stored risk again changes nothing |
| RiskModel.RiskScore | server/models/Risk.js:69-73 | the `riskScore` virtual is between 1 and 9 and is always one of 1, 2, 3, 4, 6 and 9 |
| RiskModel.ScoreValuesReached | server/models/Risk.js:72 | each of 1, 2, 3, 4, 6 and 9 is the score of some probability and impact |
| RiskModel.ScoreSymmetric | server/models/Risk.js:70-71 | swapping probability and impact leaves the score unchanged |
| RiskModel.ScoreMonotone | server/models/Risk.js:70 | a higher probability level never lowers the score, and a strictly higher one strictly raises it |
| RiskModel.ScoreMonotoneInImpact | server/models/Risk.js:71 | a higher impact level never lowers the score, and a strictly higher one strictly raises it |
| TaskModel.BuildComments | server/models/Task.js:67-82 | building the comments keeps their number and builds each entry in place, trimming its text and stamping `createdAt` |
| TaskModel.CommentReasons | server/models/Task.js:68-81 | a comment fails exactly when it lacks a user id or a non-empty text |
| TaskModel.FirstBadComment | server/models/Task.js:67-82 | the comments report nothing exactly when every comment is well formed |
| TaskModel.CheckComments | server/models/Task.js:67-82 | the comments path reports nothing exactly when every comment has a user id and a non-empty text |
| TaskModel.Violations | server/models/Task.js:3-87 | task validation reports nothing exactly when every present path, and each comment, satisfies its rules and, for a whole-document check, every required path is present |
| TaskModel.DateHook | server/models/Task.js:92-98 | the hook rejects with "Due date must be after start date" exactly when both dates are given and the due date is not after the start date |
| TaskModel.CastUpdate | server/routes/tasks.js:73-77 | an update passes exactly when its trimmed present paths satisfy their rules, and the update carries that trimmed form |
| TaskModel.SaveDecision | server/models/Task.js:92-98 | a task saves exactly when it is valid and its start date is before its due date; it fails with the date message exactly when it is valid and its dates are out of order |
| TaskModel.SavedTask | server/models/Task.js:4-87 | the payload carried every required path, and a saved task has a trimmed title and description within their lengths, status and priority from their lists ("todo"/"medium" when absent), non-negative hours, all required references, and a start date before its due date |
| TaskModel.SavedTags | server/models/Task.js:63-66 | each saved tag is the trim of the tag sent, and absent tags become an empty list |
| TaskModel.DependenciesUnchecked | server/models/Task.js:59-62 | any list of ObjectIds, including the task's own id, is accepted as its dependencies |
| TaskModel.SavedComments | server/models/Task.js:67-82 | each saved comment has a user, a non-empty trimmed text and a creation time |
| TaskModel.UpdateKeepsValid | server/routes/tasks.js:73-80 | merging an update that passes its validators into a valid task gives a valid task |
| TaskModel.UpdateSkipsDateOrder | server/routes/tasks.js:73-77 | for every valid stored task, the update that only sets the due date to or before the start date passes its validators, and the merged task stays valid although the date hook would refuse it; updates do not run the hook |
| TaskModel.NormalizeFixes | server/models/Task.js:63-82 | building a document from a stored task changes nothing, whatever the time |
| TaskModel.NormalizeNormalizes | server/models/Task.js:4-87 | every document `save()` builds is trimmed, with every default and every comment stamp present |
| TaskModel.MergeNormalized | server/routes/tasks.js:73-80 | an update that passes its validators keeps a stored task trimmed and stamped |
| ProjectModel.Violations | server/models/Project.js:3-79 | project validation reports nothing exactly when the present paths satisfy their rules and, for a whole-document check, every required path is present |
| ProjectModel.DateHook | server/models/Project.js:84-90 | the hook rejects with "End date must be after start date" exactly when both dates are given and the end date is not after the start date |
| ProjectModel.CastUpdate | server/routes/projects.js:72-76 | an update passes exactly when its trimmed present paths satisfy their rules |
| ProjectModel.SaveDecision | server/models/Project.js:84-90 | a project saves exactly when it is valid and its start date is before its end date; it fails with the date message exactly when it is valid and its dates are out of order |
| ProjectModel.SavedProject | server/models/Project.js:4-79 | the payload carried every required path, and a saved project has a trimmed, non-empty name and description within their lengths, status and priority from their lists ("not-started"/"medium" when absent), the manager, creator and program as sent, and a start date before its end date |
| ProjectModel.SavedProjectAmounts | server/models/Project.js:34-49 | a saved project keeps the budget sent, which is not negative; spent is not negative and 0 when absent; progress is between 0 and 100 and 0 when absent |
| ProjectModel.UpdateKeepsValid | server/routes/projects.js:72-79 | merging an update that passes its validators into a valid project gives a valid project |
| ProjectModel.UpdateSkipsDateOrder | server/routes/projects.js:72-76 | for every valid stored project, the update that only sets the end date to or before the start date passes its validators, and the merged project stays valid although the date hook would refuse it; updates do not run the hook |
| ProjectModel.NormalizeIdempotent | server/models/Project.js:4-25 | building a document from a stored project again changes nothing |
| ProgramModel.Violations | server/models/Program.js:3-56 | program validation reports nothing exactly when the present paths satisfy their rules and, for a whole-document check, every required path is present |
| ProgramModel.DateHook | server/models/Program.js:61-67 | the hook rejects with "End date must be after start date" exactly when both dates are given and the end date is not after the start date |
| ProgramModel.CastUpdate | server/routes/programs.js:69-73 | an update passes exactly when its trimmed present paths satisfy their rules |
| ProgramModel.SaveDecision | server/models/Program.js:61-67 | a program saves exactly when it is valid and its dates are in order; it fails with the date message exactly when it is valid and its dates are out of order |
| ProgramModel.SavedProgram | server/models/Program.js:4-56 | the payload carried every required path, and a saved program has a trimmed, non-empty name and description within their lengths, status "planning" by default, the manager and creator as sent, and a start date before its end date |
| ProgramModel.SavedProgramAmounts | server/models/Program.js:29-38 | a saved program keeps the budget sent, which is not negative; spent is not negative and 0 when absent |
| ProgramModel.UpdateKeepsValid | server/routes/programs.js:69-76 | merging an update that passes its validators into a valid program gives a valid program |
| ProgramModel.UpdateSkipsDateOrder | server/routes/programs.js:69-73 | for every valid stored program, the update that only sets the end date to or before the start date passes its validators, and the merged program stays valid although the date hook would refuse it; updates do not run the hook |
| ProgramModel.NormalizeIdempotent | server/models/Program.js:4-20 | building a document from a stored program again changes nothing |
| DocumentModel.Violations | server/models/Document.js:3-56 | document validation reports nothing exactly when the present paths satisfy their rules and, for a whole-document check, every required path is present |
| DocumentModel.Save | server/models/Document.js:3-59 | a document saves exactly when its trimmed, defaulted form is valid, and the stored document is that form; otherwise the error lists the failures |
| DocumentModel.CastUpdate | server/routes/documents.js:111-115 | an update passes exactly when its trimmed present paths satisfy their rules |
| DocumentModel.SavedDocument | server/models/Document.js:4-52 | the payload carried every required path, and a saved document has a trimmed, non-empty name of at most 200 characters, a type from its list, a trimmed non-empty version, a trimmed description of at most 500 characters when one was sent, status "draft" by default, a non-negative size, and the uploader, project, URL and MIME type as sent |
| DocumentModel.SavedDocumentTags | server/models/Document.js:53-56 | each saved tag is the trim of the tag sent, and absent tags become an empty list |
| DocumentModel.UpdateKeepsValid | server/routes/documents.js:111-118 | merging an update that passes its validators into a valid document gives a valid document |
| DocumentModel.NormalizeIdempotent | server/models/Document.js:4-56 | building a document from a stored one again changes nothing |
| Store.InsertByDate | server/routes/tasks.js:10-14 | inserting an id into a newest-first list gives a newest-first list holding the old ids and the new one |
| Store.SortNewestFirst | server/routes/tasks.js:10-14 | `sort({ createdAt: -1 })` gives every id exactly once, with non-increasing creation times |
| Store.Collection.FindById | server/routes/tasks.js:26-35 | `findById` fails with a cast error exactly when the id is malformed; otherwise it returns the stored document, or none when the id is absent |
| Store.Collection.Insert | server/routes/tasks.js:52-53 | `save()` of a new document stores it under the id it is given, with both timestamps set to now; an id already taken is a duplicate-key error and leaves the collection unchanged |
| Store.Collection.FindByIdAndUpdate | server/routes/tasks.js:73-77 | the id is cast first, then the update is validated, then looked up; only a found document changes, keeping `createdAt` and moving `updatedAt` to now |
| Store.Collection.SaveExisting | server/routes/tasks.js:105-110 | saving a loaded document replaces the stored contents, keeps `createdAt` and moves `updatedAt` to now |
| Store.Collection.FindByIdAndDelete | server/routes/tasks.js:128-133 | a found document is removed and returned; otherwise nothing changes |
| Store.Collection.List | server/routes/risks.js:10-14 | the listing holds exactly the stored documents that pass the filter, each once, newest first |
| Handlers.List | server/routes/projects.js:10-14 | a 200 reply that lists every stored document once, newest first |
| Handlers.Get | server/routes/projects.js:26-35 | a malformed id crashes (500), an absent one is a 404 with the route's message, and a present one is a 200 with the stored document |
| Handlers.Create | server/routes/risks.js:45-60 | a forbidden role is a 403 with `Common.RoleDenied`; a failed save crashes; otherwise the saved document is stored under the new id and returned with 201 |
| Handlers.Update | server/routes/programs.js:67-87 | a forbidden role is a 403; then the id cast, the validators and the lookup decide between a crash, a 404 and a 200 with the merged document |
| Handlers.Delete | server/routes/programs.js:90-103 | a forbidden role is a 403; a malformed id crashes; an absent id is a 404; otherwise the document is removed and the success message is returned |
| ProjectRoutes.Create | server/routes/projects.js:45-67 | only admins and managers may create; the project is stamped with the caller as creator and is stored exactly when it is valid with ordered dates; the date hook's rejection is a 500 |
| ProjectRoutes.Update | server/routes/projects.js:70-91 | only admins and managers may update; a 404 exactly when the id is well formed, the update passes and the project is missing; on success the stored project is the old one merged with the trimmed update |
| ProjectRoutes.Delete | server/routes/projects.js:94-107 | only admins may delete; a 404 exactly for a missing well-formed id; on success the project is gone |
| ProgramRoutes.Create | server/routes/programs.js:43-64 | only admins and managers may create; the program is stamped with its creator and stored exactly when valid with ordered dates |
| ProgramRoutes.Update | server/routes/programs.js:67-87 | only admins and managers may update; on success the stored program is the old one merged with the trimmed update |
| ProgramRoutes.Delete | server/routes/programs.js:90-103 | only admins may delete; a 404 exactly for a missing well-formed id |
| RiskRoutes.Create | server/routes/risks.js:43-66 | every signed-in role may create; never a refusal; the risk is stored exactly when the new id is fresh and the stamped risk is valid |
| RiskRoutes.Update | server/routes/risks.js:69-91 | every role may update; on success the stored risk is the old one merged with the trimmed update |
| RiskRoutes.Delete | server/routes/risks.js:94-107 | only admins and managers may delete; a 404 exactly for a missing well-formed id |
| TaskRoutes.CommentAppended | server/routes/tasks.js:105-110 | pushing a comment and saving a stored task adds exactly one entry with the caller as user, the trimmed text and the current time, and changes nothing else |
| TaskRoutes.CommentValid | server/routes/tasks.js:105-110 | after the push, the stored task passes validation exactly when the comment's trimmed text is non-empty |
| TaskRoutes.CommentDecision | server/routes/tasks.js:105-110 | the comment is saved exactly when its text is non-empty after trimming and the task's dates are in order; it fails with the date message exactly when the text is good and the dates are out of order |
| TaskRoutes.Create | server/routes/tasks.js:45-68 | every role may create; the task is stamped with its creator and stored exactly when it is valid with ordered dates |
| TaskRoutes.Update | server/routes/tasks.js:71-93 | every role may update; a 404 exactly for a missing well-formed id whose update passes; on success the stored task is the old one merged with the trimmed update |
| TaskRoutes.AddComment | server/routes/tasks.js:96-123 | a malformed id crashes; a missing task is a 404; the reply comes exactly when the text is non-empty after trimming and the dates are in order, and then the stored comments are the old ones plus the new one |
| TaskRoutes.Delete | server/routes/tasks.js:126-139 | only admins and managers may delete; a 404 exactly for a missing well-formed id |
| UserRoutes.WithoutPassword | server/routes/users.js:45 | the password is dropped from the body, and putting it back gives the body that was sent |
| UserRoutes.ApplyWithoutPassword | server/routes/users.js:45-51 | an update built from a body without a password keeps the stored password |
| UserRoutes.List | server/routes/users.js:8-19 | exactly the active users, each once, newest first, shown without passwords |
| UserRoutes.Get | server/routes/users.js:22-35 | a stored user is returned whether or not they are active, in a view without the password; the answer is a crash exactly when the id is malformed and a 404 "User not found" exactly when a well-formed id is missing |
| UserRoutes.Update | server/routes/users.js:38-65 | a 403 "Access denied", from the route's own check, exactly when the caller is neither the user nor an admin; on success every field sent except the password is applied, including the role |
| UserRoutes.Deactivate | server/routes/users.js:68-85 | only admins may deactivate; the user stays stored with `isActive` false, so a later GET still finds them |
| DocumentRoutes.TrimTrailingSlashes | server/routes/documents.js:16 | trailing slashes are removed, and only those |
| DocumentRoutes.LastIndexOf | server/routes/documents.js:16 | the last position of a character, or none exactly when it does not occur |
| DocumentRoutes.BaseName | server/routes/documents.js:16 | the last path component: the suffix of the path with its trailing slashes removed that follows its last slash (the whole of it when it has none), and it holds no slash |
| DocumentRoutes.ExtName | server/routes/documents.js:16 | `path.extname` is empty exactly when the last component has no dot, its only dot is the first character, or it is ".."; otherwise it is the part from the last dot |
| DocumentRoutes.MatchesCore | server/routes/documents.js:26 | the twelve alternatives of the regular expression match exactly when one of jpeg, jpg, png, gif, pdf, doc, xls, ppt or txt occurs |
| DocumentRoutes.NoMatch | server/routes/documents.js:26-30 | a string holding none of the nine core tokens fails the expression |
| DocumentRoutes.PlainTextRefused | server/routes/documents.js:28-34 | a file sent as text/plain is refused whatever its name |
| DocumentRoutes.WordRefused | server/routes/documents.js:28-34 | a file sent as application/msword is refused whatever its name |
| DocumentRoutes.JpegAccepted | server/routes/documents.js:27-31 | "photo.JPG" sent as image/jpeg is accepted, because the extension is lower-cased |
| DocumentRoutes.RecordFields | server/routes/documents.js:78-89 | the uploaded record takes its URL from the stored filename, its size and MIME type from the file, the caller as uploader, the name from the body or else the original name, and the tags split on commas |
| DocumentRoutes.Upload | server/routes/documents.js:72-106 | a refused file type and a file over 10 MiB crash (500); no file is a 400 "No file uploaded"; otherwise the record is stored exactly when it is valid under a fresh id |
| DocumentRoutes.Update | server/routes/documents.js:109-130 | every role may update; on success the stored document is the old one merged with the trimmed update |
| DocumentRoutes.Delete | server/routes/documents.js:133-146 | only admins and managers may delete; a 404 exactly for a missing well-formed id |
| RiskBoard.ScoresAgree | src/pages/Risks.tsx:110-114 | the page's score equals the server's `riskScore` virtual for the same probability and impact |
| RiskBoard.LevelBands | src/pages/Risks.tsx:118 | a score of 6 or more is Critical, 4-5 High, 2-3 Medium, and below 2 Low |
| RiskBoard.ColourFollowsLevel | src/pages/Risks.tsx:119 | Critical shows as destructive, High as warning, and Medium and Low both as secondary |
| RiskBoard.LevelOfLevels | src/pages/Risks.tsx:117-118 | a risk is Critical exactly when one level is high and the other is high or medium, and Low exactly when neither level is high or medium |
| RiskBoard.Filter | src/pages/Risks.tsx:205-207 | `filter` keeps exactly the elements that pass, each as many times as in the input, and drops the others; so the result is never longer |
| RiskBoard.FilterAppend | src/pages/Risks.tsx:205-207 | `filter` keeps the order: filtering a list made of a front and a back part gives the filtered front followed by the filtered back |
| RiskBoard.FilterSingle | src/pages/Risks.tsx:205-207 | a one-element list keeps its element exactly when it passes |
| RiskBoard.ActiveRisks | src/pages/Risks.tsx:205 | a risk is active exactly when its status is not "closed", and each active risk is listed as many times as it occurs, so the card count is the number of such risks |
| RiskBoard.CriticalRisks | src/pages/Risks.tsx:206 | a risk is critical exactly when its score is at least 6, and each one is listed as many times as it occurs |
| RiskBoard.MitigatedRisks | src/pages/Risks.tsx:207 | a risk is mitigated exactly when its status is "mitigated", and each one is listed as many times as it occurs |
| RiskBoard.ListsAgree | src/pages/Risks.tsx:205-207 | every mitigated risk is also in the active list, and every risk in the critical list shows the Critical level in the destructive colour |

## Left out

- JavaScript strings are UTF-16 sequences; `maxlength` counts code units, and the model counts characters.
- Numbers are Dafny `real`s: NaN, the infinities, and casts of non-numeric values to Number are not modelled.
- Dates are whole milliseconds; the cast of a malformed date string is not modelled.
- `populate(...)` is left out. Listings and lookups return stored documents, with references as id strings.
- An ObjectId is modelled as a 24-character hexadecimal string. The 12-byte binary form is left out. Two spellings that differ only in letter case are distinct keys here.
- Body fields outside the schema are left out: Mongoose's strict mode drops them.
- The `_id` Mongoose gives each comment sub-document is left out.
- server/models/User.js is not part of this model. Users are a record with the fields the routes use, with no validators of their own, and the role is one of the three role values.
- The authentication middleware is left out. The caller is a parameter.
- Multer's disk storage is left out: no file is written, and files left behind by a failed save are not tracked. The time and the random part of the stored filename are a parameter.
- The body of Express's default error handler is left out. A crash is the 500 outcome together with its fault.
- Concurrent requests are left out. Each route runs alone against the collection.
- The Budget, Timeline, Dashboard and other pages, the API client and the types file are not part of this model.
- Store.Collection.List: sorts by `createdAt` only. Documents created at the same instant may come in any order, and the tie-break of the database is not modelled.
- Store.Collection.Insert, Handlers.Create, ProjectRoutes.Create, ProgramRoutes.Create, RiskRoutes.Create, TaskRoutes.Create: the body is spread into the new document, so a client may send the schema's own `_id` and `createdAt`. A sent `_id` is covered, because the new id is a parameter and a taken one is a duplicate-key error. A sent `createdAt` is not: Mongoose keeps it, so a client can back-date a document in the newest-first listings, while the model always stamps the current time.
- Text.ToLower lower-cases ASCII letters only. That is exact for the file-type expression: the only non-ASCII characters that lower-case to ASCII letters (U+0130 and U+212A) never complete one of its tokens.
- Common.RoleDenied: server/middleware/auth.js is not part of this model, so the message of the 403 that `authorize(...)` answers a role outside its list with is assumed. It is taken to be "Access denied", the text server/routes/users.js:42 sends from the users route's own check (UserRoutes.AccessDenied). The status, 403, and when it is sent are modelled.
- RiskModel.CastUpdate, TaskModel.CastUpdate, ProjectModel.CastUpdate, ProgramModel.CastUpdate, DocumentModel.CastUpdate, RiskModel.Merge, TaskModel.Merge, ProjectModel.Merge, ProgramModel.Merge, DocumentModel.Merge, Fields.Override: a path in an update is either absent or a value. A JSON `null`, which clears an optional path such as a document's description or fails `required` on a required one, is not modelled, so no update in the model clears a path. Mongoose's cast of a number or a boolean sent to a String path into its text is not modelled either.
