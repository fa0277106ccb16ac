# Photo editor back end: projects, plan entitlements, upload naming

A Dafny model of three self-contained parts of a browser-based photo-editing
service:

- **The project store** (`convex/projects.js`, with the record shapes of
  `convex/schema.js`). There are two tables. `users` holds each user's plan
  (`free` or `pro`) and a `projectsUsed` counter. `projects` holds records,
  each owned by one user. The five handlers are modelled as methods of the
  class `Projects.Store`: `create`, `deleteProject`, `getProject`,
  `updateProject` and `getUserProjects`. The store's fields are the two
  tables as maps, plus the next free document id. Each method takes the
  signed-in user (`caller`, absent when nobody is signed in) and the clock
  reading (`now`) as parameters. Thrown errors are `Failure` results, and
  every failure leaves the store as it was.
- **Plan entitlements** (`hooks/use-plan-access.js`), in module `Plans`.
  These are pure functions of the one flag `isPro`: the tool-access table,
  `hasAccess`, `getRestrictedTools`, `canCreateProject`, `canExport`,
  `isFree` and `userPlan`. For one plan and the owner's stored project
  count, the client's project limit gives the same answer as the server's
  limit in `convex/projects.js` (`Projects.ClientLimitAgreesWithServer`).
  The assumptions behind that agreement are listed under "Left out".
- **The upload endpoint** (`app/api/imagekit/upload/route.js`), in module
  `Upload`. It covers the file-name sanitiser, the storage name
  `userId/timestamp_name`, and the endpoint's decision: 401 without a user,
  then 400 without a file, then the upload.

Files: `wrappers.dfy` (Option, Result), `plans.dfy`, `upload.dfy`,
`projects.dfy`.

## Model

| member | source | states |
|---|---|---|
| `Plans.IsPro` | hooks/use-plan-access.js:7 | the user is pro exactly when the plan check is available and answers yes; otherwise the user counts as free |
| `Plans.IsFree` | hooks/use-plan-access.js:8 | `isFree` is the negation of `isPro` |
| `Plans.UserPlan` | hooks/use-plan-access.js:49 | the reported plan is `"pro"` exactly when the user is pro, and `"free_user"` otherwise |
| `Plans.PlanAccess` | hooks/use-plan-access.js:11-22 | the table lists the seven tool ids in declaration order; the four basic tools are always allowed and the three AI tools are allowed exactly for pro users |
| `Plans.Lookup` | hooks/use-plan-access.js:26 | a property lookup finds no value exactly when no entry has that key, and any value it finds belongs to an entry with that key |
| `Plans.HasAccess` | hooks/use-plan-access.js:25-27 | a tool is open exactly when it is one of resize/crop/adjust/text, or the user is pro and it is one of background/ai_extender/ai_edit; any other id is refused |
| `Plans.FreeToolsAlwaysAllowed` | hooks/use-plan-access.js:12-16 | resize, crop, adjust and text are open on every plan |
| `Plans.ProToolsIffPro` | hooks/use-plan-access.js:19-21 | background, ai_extender and ai_edit are open if and only if the user is pro |
| `Plans.UnknownToolDenied` | hooks/use-plan-access.js:26 | a tool id that is not in the table is never open |
| `Plans.Denied` | hooks/use-plan-access.js:31-33 | the filter-then-map over the entries yields no more keys than there are entries |
| `Plans.DeniedSound` | hooks/use-plan-access.js:31-33 | every key the filter-then-map yields comes from an entry that maps it to false |
| `Plans.DeniedIffLookupFalse` | hooks/use-plan-access.js:31-33 | in a table without repeated keys, a key is among the denied keys exactly when the table maps it to false |
| `Plans.RestrictedTools` | hooks/use-plan-access.js:30-34 | the restricted list is empty for pro users, and is exactly `[background, ai_extender, ai_edit]` in that order for free users |
| `Plans.PlanAccessDistinctKeys` | hooks/use-plan-access.js:11-22 | the access table never lists a tool id twice |
| `Plans.RestrictedIffDenied` | hooks/use-plan-access.js:11-34 | for every known tool, `hasAccess` refuses it exactly when it appears in the restricted list |
| `Plans.CanCreateProject` | hooks/use-plan-access.js:37-40 | pro users may always create; free users may create exactly when their current count is below 3 |
| `Plans.CanExport` | hooks/use-plan-access.js:43-46 | pro users may always export; free users may export exactly when this month's count is below 20 |
| `Plans.LimitsMonotone` | hooks/use-plan-access.js:37-46 | once a limit refuses a count, it refuses every larger count |
| `Upload.SanitizedChar` | app/api/imagekit/upload/route.js:36 | a character in `[a-zA-Z0-9.-]` is kept, and any other character becomes `_` |
| `Upload.ReplaceDisallowed` | app/api/imagekit/upload/route.js:36 | the global replace keeps the length, keeps every allowed character in place, and puts `_` at every other position |
| `Upload.SanitizeFileName` | app/api/imagekit/upload/route.js:35-36 | a missing or empty name gives `"upload"`; a non-empty name gives a string of the same length, changed position by position; the result is never empty and holds only allowed characters or `_` |
| `Upload.SanitizeIdempotent` | app/api/imagekit/upload/route.js:35-36 | sanitising an already sanitised name gives back the same name |
| `Upload.Decimal` | app/api/imagekit/upload/route.js:34-37 | a timestamp is written as a non-empty string of decimal digits with no leading zero |
| `Upload.ParseDecimalOfDecimal` | app/api/imagekit/upload/route.js:37 | the decimal text of a timestamp reads back as the same number |
| `Upload.DecimalInjective` | app/api/imagekit/upload/route.js:37 | two different timestamps are written differently |
| `Upload.UniqueFileName` | app/api/imagekit/upload/route.js:37 | the storage name starts with the user id followed by `/`, ends with `_` followed by the sanitised name, and its length is the sum of its parts |
| `Upload.UniqueFileNameDetermines` | app/api/imagekit/upload/route.js:34-37 | for a fixed user, two equal storage names come from the same timestamp and the same sanitised name |
| `Upload.Status` | app/api/imagekit/upload/route.js:16-26 | each early answer has its own status: 401 for no user, 400 for no file, 500 for a server error; a stored file answers 200 |
| `Upload.Post` | app/api/imagekit/upload/route.js:12-37 | the answer is 401 exactly when there is no user (absent or empty id). It is 400 exactly when there is a user but no file (absent or empty text). The upload goes ahead exactly when there is a user, the file field holds a file, and the name field is absent or text. It then stores the file's bytes under the unique name built from the user id, the timestamp and the sanitised name |
| `Upload.UnauthorizedIgnoresForm` | app/api/imagekit/upload/route.js:15-23 | without a user the answer is 401 whatever the form and clock hold, so the form decides nothing |
| `Upload.MissingFileRejected` | app/api/imagekit/upload/route.js:25-27 | with a user but no file the answer is 400 and nothing is stored |
| `Upload.StoredNameIsUnique` | app/api/imagekit/upload/route.js:34-44 | when the upload goes ahead, it stores the file's bytes under `userId + "/" + decimal(timestamp) + "_" + sanitised name` |
| `Projects.Owned` | convex/projects.js:37-40 | the projects counted for a user are exactly the stored records whose owner is that user |
| `Projects.ExceedsProjectLimit` | convex/projects.js:36-47 | the server refuses only free users, and only when they already own 3 or more projects |
| `Projects.OwnedAfterInsert` | convex/projects.js:50-61 | inserting a record under a fresh id adds exactly that id to the owner's projects, so their count goes up by one |
| `Projects.NewRecord` | convex/projects.js:50-61 | the inserted record is owned by the caller, has `createdAt` and `updatedAt` equal to the current time, copies the supplied fields, and leaves transformations, background flag and folder unset |
| `Projects.Decremented` | convex/projects.js:93 | the counter drops by one, and is clamped at 0 so it is never negative |
| `Projects.Override` | convex/projects.js:150-161 | a supplied field replaces the stored value, and an omitted field keeps it |
| `Projects.ApplyPatch` | convex/projects.js:145-163 | an update sets `updatedAt` to now and writes each supplied field; every omitted field, and the title, owner, original image URL, creation time and folder, keep their values |
| `Projects.ApplyPatchIdempotent` | convex/projects.js:150-163 | applying the same patch twice gives the record that one application gives, except for `updatedAt` |
| `Projects.InsertNewestFirst` | convex/projects.js:11-15 | inserting an entry with a new id into a newest-first list gives a newest-first list with exactly one more element |
| `Projects.CheckAccess` | convex/projects.js:79-86 | a missing id gives "Project not found"; a missing caller or a caller who is not the owner gives "Access denied"; existence is checked first |
| `Projects.ClientLimitAgreesWithServer` | convex/projects.js:36-47 | for every store, user and plan, `canCreateProject` in hooks/use-plan-access.js, applied to the user's stored project count, allows creation exactly when the server's free-plan check would not reject it |
| `Projects.Store.Create` | convex/projects.js:22-71 | with no caller: an error. Otherwise the call succeeds exactly when the caller is pro, or is free and owns fewer than 3 stored projects. The count is of stored records, whatever the counter says, and a refused call fails with the plan-limit error. On success exactly one record is inserted under a fresh id, the owner's `projectsUsed` goes up by 1 and `lastActiveAt` is set, and a free owner has at most 3 projects afterwards. On failure nothing changes |
| `Projects.Store.DeleteProject` | convex/projects.js:74-99 | "Project not found" for an absent id; "Access denied" when there is no caller or the caller is not the owner. On success only that record is removed and the owner's `projectsUsed` becomes max(0, old − 1), never negative. On failure nothing changes |
| `Projects.Store.GetProject` | convex/projects.js:102-118 | "Project not found" for an absent id; "Access denied" when there is no caller or the caller is not the owner; otherwise the stored record |
| `Projects.Store.UpdateProject` | convex/projects.js:121-172 | the same errors in the same order, and on failure nothing changes. On success the record becomes the patched record, no other project changes, and only the caller's `lastActiveAt` is set |
| `Projects.Store.GetUserProjects` | convex/projects.js:6-19 | with no caller: an error. Otherwise the result holds exactly the caller's stored projects, each with its id, once each, ordered by `updatedAt` with the newest first (ties: newer record first); its length is the caller's project count |

## Left out

- The editor session lives in files that are not part of this model: the live canvas, undo/redo history, crop, resize, filters and the merging of image-transformation directives.
- `convex/users.js` is not part of this model. `getCurrentUser` is replaced by the `caller` parameter. When present, `caller` must name a stored user, because that function returns a row of the users table.
- When there is no signed-in user, `create` and `getUserProjects` read fields of `null` in the source. That throws, and the model reports it as the error `NoCurrentUser`. The exact message is not modelled.
- `Date.now()` is the `now` parameter, read once per handler. The source reads the clock separately for `createdAt`, `updatedAt` and `lastActiveAt`, so those can differ by a millisecond there.
- Convex document ids are natural numbers handed out in increasing order. The index's `_creationTime` tie-break in `getUserProjects` becomes a tie-break on the id. Both are newest first.
- Numeric fields (`width`, `height`, timestamps, counters) are unbounded integers. JavaScript's floating-point numbers are not modelled.
- `canvasState` is stored and returned unchanged as an opaque value.
- The argument validators Convex applies before a handler runs are expressed through the Dafny types. A request those validators reject is not modelled.
- Convex runs each mutation as a transaction. The model's methods are atomic, and concurrent sessions are not modelled.
- Projects.ClientLimitAgreesWithServer: the lemma gives both sides the same plan and the same count. In the source, the client's pro flag comes from the authentication provider's plan check (hooks/use-plan-access.js:7), while the server reads the stored `plan` field (convex/projects.js:36). Nothing in the modelled code keeps the two equal. The client's count is the length of the `getUserProjects` list (`Projects.Store.GetUserProjects` proves it equals the stored count), but while that query is still loading the client uses 0.
- `exportsThisMonth` is stored but never updated by these handlers, so the model only stores it too.
- Upload.ReplaceDisallowed: strings are sequences of Unicode characters. The JavaScript regular expression has no `u` flag, so it replaces UTF-16 code units. A character outside the Basic Multilingual Plane becomes two `_` in the source but one `_` here.
- Upload.Decimal: timestamps are natural numbers written in plain decimal. JavaScript's exponent notation for numbers of 10^21 and above is not modelled.
- The ImageKit upload, the thumbnail URL it generates, and the 500 answer when the upload fails are foreign I/O and are not modelled. `Upload.Post` stops at the decision to store the file under its name.
- Reading the multipart form and the file's bytes is I/O. The form is a value whose fields are absent, text or a file.
- Rendering-only code is not modelled: the UI components, the landing-page hooks, the React context accessor and the upgrade modal's tool-name lookup.
