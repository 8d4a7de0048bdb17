# Hackathon backend: request handling as pure transitions

This project models the request-handling core of the "Coding Ka Big Boss"
hackathon backend (a FastAPI service over a relational database):
Google sign-in with session-token issuance, resolution of a bearer token to
the calling user, the patch-style profile update, the dashboard's stage-1 and
stage-2 status derivation with its unread-notification count, the
notification listing and mark-read rules, and the request/response shapes
those handlers rely on.

Each handler is a pure Dafny function from a `Store` (and the request) to
`Result<(Store, Response), Error>`. An `Err` carries no store, so a handler
that fails has written nothing. The read-only handlers (`GetDashboard`,
`GetNotifications`) return no store at all, so they write nothing. The store holds the tables as
sequences of rows in primary-key order, and the model reads SQLAlchemy's
`.first()` as "the first matching row" (`Base.FirstIndex`). Two counters stand in for autoincrement ids.
`Models.Valid` is the integrity the modelled handlers preserve (the three
`*PreservesValid` lemmas):

- ids and emails are unique;
- every id already issued is below its counter;
- notifications and stage rows refer to issued user ids.

Emails stay unique because sign-in looks an email up before it inserts one.
The schema is not visible here, so it is not known whether the database also
enforces unique emails or the user references. Stage rows are written by
routes outside this model, and for them the reference clause is an
assumption.

Library calls are oracles whose outcome is passed in:

- `jwt.decode` yields a claims map or a `JWTError` (`Auth.DecodeOutcome`).
- Google's `verify_oauth2_token` yields the claims, a `ValueError`, or some
  other exception (`Auth.GoogleOutcome`).

The clock is a `nat` (seconds). A `timedelta` is an `int` number of seconds.

Files:

- `base.dfy`: `Option`, `Result`, the HTTP error, dictionary values, and the
  first-row and filter queries.
- `models.dfy`: the entities, the store, and its integrity predicate.
- `auth.dfy`: token claims and expiry, `verify_token`, and
  `verify_google_token`.
- `schemas.dfy`: the profile patch, the MCQ option validator, the stage-2
  submission body, and the token and dashboard responses.
- `feed.dfy`: the newest-first ordering of notifications.
- `handlers.dfy`: the handlers in `backend/main.py`.
- `properties.dfy`: properties that span several calls.

Four behaviours of the code are worth stating:

- Stage 2 becomes `available` as soon as the stage-1 row has `is_qualified`
  set. The code does not also require stage 1 to be completed
  (`Properties.QualifiedBeforeCompletion`).
- A first sign-in commits the user, the welcome notification and the login
  activity in three separate commits, not in one transaction.
- A failure to write the activity log is not swallowed.
- There is no create-then-refetch retry on a duplicate email.

The first is stated by `Properties.QualifiedBeforeCompletion`. The last three
concern database failures, which the model does not include, so they affect no
stated property.

## Model

| member | source | states |
|---|---|---|
| Base.FirstIndex | backend/main.py:51 | `.first()` returns the earliest row satisfying the filter. It returns nothing exactly when no row satisfies it. |
| Base.Filter | backend/main.py:188-191 | A filtered query returns only matching rows, every matching row, and no row more often than the table holds it. |
| Base.FilterUpdateCount | backend/main.py:188-191 | Replacing one row changes a count query by exactly what the old and new rows contribute. |
| Auth.CreateAccessToken | backend/auth.py:22-32 | The token carries every input claim unchanged, plus `exp`, which overrides any `exp` the caller passed. `exp` is `now + delta` for a truthy delta. For a missing or zero delta it is `now + 30` minutes. |
| Auth.VerifyToken | backend/auth.py:35-41 | A decode error becomes `None`, never an exception. A decoded token yields exactly its claims. |
| Auth.VerifyGoogleToken | backend/auth.py:44-63 | An identity comes back iff the token verified, its `iss` is one of the two Google issuers, and it has an email. A `ValueError` or an untrusted issuer gives `None`. `name` and `picture` default to `''`. A missing `iss` or `email` claim (`KeyError`) or any other library exception escapes as a 500. |
| Schemas.PatchDetails | backend/main.py:141-148 | The logged details have one key per field the client sent, including explicit nulls. No key lies outside the six patchable fields. |
| Schemas.PatchDetailsRoundTrip | backend/main.py:148 | The details logged for a profile update record the patch without loss. |
| Schemas.SelectedOptionValid | backend/schemas.py:62 | `selected_option` is accepted iff it is exactly one of `A`, `B`, `C`, `D`. |
| Schemas.StringList | backend/schemas.py:111 | A JSON array is a `List[str]` iff every item is a string, and then the strings are read in order. |
| Schemas.ParseStage2Submit | backend/schemas.py:106-111 | A submission body is accepted iff title, description and repo URL are strings, `tech_stack` is an array of strings, and `live_demo_url` is absent, null or a string. Accepted values are carried over exactly, the demo link included. Otherwise the answer is 422. |
| Schemas.SubmitRoundTrip | backend/schemas.py:106-111 | Every submission survives being sent as JSON and validated. |
| Schemas.MandatoryFields | backend/schemas.py:106-111 | Dropping any of the four mandatory keys is rejected. Dropping `live_demo_url` yields `None`. |
| Schemas.StatusNamesDocumented | backend/schemas.py:145-151 | Each stage status is reported by a word of the documented vocabularies `not_started/in_progress/completed` and `locked/available/submitted`. |
| Schemas.StatusNamesDistinct | backend/schemas.py:145-151 | No two statuses of a stage are reported by the same word. |
| Feed.Insert | backend/main.py:213 | Inserting a notification into a list adds exactly that notification, as a multiset. |
| Feed.InsertKeepsOrder | backend/main.py:213 | Insertion keeps a newest-first list newest first. |
| Feed.SortNewestFirst | backend/main.py:213 | Ordering by `created_at` permutes the notifications. |
| Feed.SortIsNewestFirst | backend/main.py:213 | Ordering by `created_at` puts them newest first. |
| Feed.PrefixIsNewest | backend/main.py:213 | Taking the first entries of a newest-first list leaves out nothing newer than what is kept. |
| Handlers.Authenticate | backend/main.py:31-58 | A decode failure, a missing or null `user_id`, and an id no row carries each give a 401 with the source's detail. Success holds iff some user row has the claimed id. The caller is then a row with exactly that id. |
| Handlers.GetCurrentUser | backend/main.py:127-130 | `/api/auth/me` answers with a stored user whose id is the token's `user_id`. It fails exactly when authentication fails, and then with the same 401 and detail that `get_current_user` raises. |
| Handlers.LogActivity | backend/main.py:62-71 | Logging appends one record with the user, type, details, client host, user agent and time, and changes nothing else. |
| Handlers.ResolveUser | backend/main.py:91-113 | A known email leaves the store alone and answers with that user. An unseen email appends one user with the next id, the Google name and picture, and one `welcome` notification for it, unread under the assumed column default. |
| Handlers.GoogleAuth | backend/main.py:76-124 | An invalid Google token is a 401 and a library fault is a 500, both before any write. On success, exactly one `login` activity with `{"method": "google"}` is appended for the resolved user, and the token type is `bearer`. The token claims are that user's id and email and the default expiry. A known email changes no user or notification. An unseen email adds exactly one user and one welcome notification. |
| Handlers.ApplyPatch | backend/main.py:141-142 | A profile patch never touches id, email, full name, picture or creation time. The empty patch changes nothing. |
| Handlers.UpdateProfile | backend/main.py:133-150 | An authentication failure is passed through with no write. Otherwise only the caller's row changes, by the patch, and every other row is unchanged. One `profile_update` activity is logged whose details are the sent fields. Nothing else in the store changes. |
| Handlers.Stage1StatusOf | backend/main.py:168-173 | `not_started` iff there is no stage-1 row, `completed` iff its `completed_at` is set, `in_progress` otherwise. |
| Handlers.Stage2StatusOf | backend/main.py:180-185 | `locked` iff no stage-1 row has `is_qualified` set, even when a project exists. Otherwise `submitted` iff the project has `submitted_at` set, and `available` if not. |
| Handlers.UnreadCount | backend/main.py:187-191 | The unread count never exceeds the number of the user's notifications. |
| Handlers.GetDashboard | backend/main.py:155-200 | Authentication errors pass through. The dashboard shows the caller's first stage rows in table order, or none exactly when the caller has none. The statuses are the ones `Stage1StatusOf` and `Stage2StatusOf` derive from those rows, so they come from the documented vocabularies. `not_started` holds iff there is no stage-1 row. Any status other than `locked` implies a qualified stage-1 row. The count is the number of the caller's unread notifications. |
| Handlers.GetNotifications | backend/main.py:205-215 | Only the caller's notifications are listed, newest first, `min(20, n)` of them, each at most once. All are listed when there are at most 20. None left out is newer than one listed. |
| Handlers.PageContents | backend/main.py:213 | The first page of the ordered notifications holds only the caller's, and all of them when there are at most 20. |
| Handlers.PageOrder | backend/main.py:213 | The first page is newest first and no notification left out is newer than one shown. |
| Handlers.MarkNotificationRead | backend/main.py:218-236 | A 404 is returned iff the caller owns no notification with that id. Otherwise exactly one such notification gets `is_read` set, nothing else in the store changes, and the reply is `{"status": "success"}`. An authenticated call ends either in success or in that 404. |
| Properties.NewUserKeepsValid | backend/main.py:94-112 | Adding a user with a fresh id and an unused email, together with a notification for it under a fresh id, keeps the store's integrity. |
| Properties.GoogleAuthPreservesValid | backend/main.py:91-113 | Sign-in keeps ids and emails unique, so there is never a second user per email. |
| Properties.UpdateProfilePreservesValid | backend/main.py:141-145 | A profile update keeps the store's integrity. |
| Properties.MarkReadPreservesValid | backend/main.py:225-234 | Marking read keeps the store's integrity. |
| Properties.IssuedTokenAuthenticates | backend/main.py:116-119 | The claims of the token issued at sign-in resolve to exactly the signed-in user. |
| Properties.RepeatedSignIn | backend/main.py:92-116 | Two sequential sign-ins with a new email give one user with that email and one notification for it, the welcome. They log two activities. |
| Properties.FirstSignIn | backend/main.py:94-119 | After a first sign-in the new row is last, the issued token resolves to it, and its only notification is the welcome, unread under the assumed column default. |
| Properties.FirstSignInDashboard | backend/main.py:163-199 | Right after a first sign-in the dashboard is the default one (`not_started`, `locked`, no results), except that the welcome makes the count 1 under the assumed `is_read` default. |
| Properties.FirstSignInNotifications | backend/main.py:205-215 | Right after a first sign-in the listing shows the welcome alone. |
| Properties.PatchAgreesWithDetails | backend/main.py:141-148 | For each patchable field, it changes only when it appears in the logged details, and then to the logged value. |
| Properties.ProfileUpdateVisible | backend/main.py:141-150 | After a successful profile update, the same token resolves to the updated user. |
| Properties.ApplyPatchIdempotent | backend/main.py:141-142 | Applying the same patch again changes nothing more. |
| Properties.PhoneOnlyPatch | backend/main.py:141-142 | A patch that sends only `phone` changes only the phone. |
| Properties.Stage1IgnoresQualification | backend/main.py:168-173 | The stage-1 status does not depend on `is_qualified`. |
| Properties.QualifiedBeforeCompletion | backend/main.py:180-185 | A qualified but uncompleted stage 1 already makes stage 2 `available`. |
| Properties.MarkReadTarget | backend/main.py:225-234 | In a valid store, marking the caller's notification `nid` flips exactly that row. |
| Properties.MarkReadCounts | backend/main.py:225-234 | Marking read lowers the owner's unread count by one if the notification was unread, else by nothing. Every other user's count is unchanged. |
| Properties.MarkReadIdempotent | backend/main.py:225-236 | Marking the same notification read twice is marking it once. |
| Properties.MarkOthersNotification | backend/main.py:225-231 | Another user's notification id gives 404, and no write. |

## Left out

- JWT signing and decoding, and their signature and `exp` checks inside
  `jose`, are oracles. So is Google's signature, audience and expiry check.
  The secret key, the algorithm and the Google client id are not modelled,
  and neither is the `print` of a failed Google verification.
- Auth.CreateAccessToken: the token lifetime is the constant 30 minutes.
  Overriding `ACCESS_TOKEN_EXPIRE_MINUTES` from the environment is not
  modelled. Times are whole seconds, not microseconds.
- Handlers.Authenticate: a non-integer `user_id` claim matches no user. The
  database's coercion of such a value in the id comparison is not modelled.
  Tokens this service issues always carry an integer.
- Handlers.ResolveUser: the column defaults of a new row are assumptions. The
  model classes that define them are not part of this model, and the sign-in
  code sets none of these columns itself. The model assumes that the welcome
  notification starts with `is_read` false, that the new user's other profile
  columns start empty, and that `created_at` is the request time for the new
  user, its notification and every activity record. The unread welcome in
  `Properties.FirstSignIn` and the count of 1 in
  `Properties.FirstSignInDashboard` rest on these assumptions.
- Handlers.GetDashboard: `.first()` sends `LIMIT 1` without `ORDER BY`, so
  when a user has several stage rows the database does not promise which one
  comes back. Taking the lowest-index row is a choice the model makes.
- Handlers.ResolveUser: emails are compared by exact string equality. A
  case-insensitive database collation is not modelled.
- Database failures and transactions are not modelled: every write
  succeeds. So are the concurrent duplicate-first-login race and
  cross-request concurrency; only sequential calls are modelled.
- A request without a `Bearer` `Authorization` header is rejected by
  FastAPI's `HTTPBearer` (backend/main.py:27,32) before `get_current_user`
  runs. The model has no such request: the credentials always arrive as a
  decode outcome.
- Response models are not projected. The dashboard and the notification
  listing carry whole rows, whereas `Stage1ResultResponse` omits
  `completed_at` and `NotificationResponse` omits `user_id`
  (backend/schemas.py:93-141). Pydantic drops those fields on output, which
  changes no stated property.
- The HTTP layer (routing, dependency injection, CORS), the health checks,
  `uvicorn` startup, `pwd_context`, and `backend/database.py` are left out.
  None of them holds handler logic.
- `backend/api/v1/auth/google_auth.py` (an OAuth redirect and callback
  flow over the network that writes no store) is not part of this model.
- Request parsing of `UserProfileUpdate` is left out: the patch arrives
  already parsed as `Schemas.ProfilePatch`, and unknown keys have already
  been dropped by the schema. Pydantic's coercions (a numeric string for
  `year_of_study`, say) are not modelled.
- Schemas.ParseStage2Submit: JSON floats and objects are not modelled. A
  validation failure carries a fixed detail instead of pydantic's error list.
- The stage-2 submission transition, stage-1 scoring, and how
  `is_qualified` is set live in route modules that are not part of this
  model. Stage rows are inputs.
- Float scores (`mcq_score`, `total_score`, the project score) are not
  carried.
- Request headers are keyed by lower-case name. Case-insensitive header
  lookup is assumed to have happened already.
- The order of notifications with equal `created_at` is left open by the
  database. The model keeps table order among them, and no stated property
  depends on it.
