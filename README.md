# Lead intake and admin API — a Dafny model

This project models the four request handlers of a small Astro site backed by Supabase:

- the public contact form, `POST /api/lead`;
- the two admin mutations `POST /api/leads/contacted` and `POST /api/leads/notes`;
- the admin login, `POST /api/login`.

Each handler is modelled twice:

- **A specification function** (`Intake`, `ContactedRun`, `NotesRun`, `LoginRun`). It maps the request and the backend's answers to an `Http.Run`: the response, the log of backend round trips in order, and the cookies set.
- **An imperative method** (`PostLead`, `PostContacted`, `PostNotes`, `PostLogin`). It performs the same steps against a `Store.Backend` object, whose `leads` map is the table and whose `calls` log is the call counter. The method is proved to produce the specification's response and log. It is also proved to leave the table as `Replay` of that log, and to keep the table invariant.

The backend's answers are parameters that the handlers cannot choose:

- which tokens resolve to which user, and which profile a user-scoped read sees (`Store.Directory`);
- whether an update reports an error;
- the id the store assigns to a new row, or none on an insert error;
- the sign-in result.

The two admin handlers share one gate, `AdminGate.AdminRun` and `AdminGate.AuthorizeAndMutate`, modelled once. Its steps, in order:

1. token present;
2. form well formed;
3. identity resolves (user-scoped client);
4. profile says admin (user-scoped client);
5. one update through the service-role client.

The two handlers differ only in how they turn the form into an `AdminRequest`.

What is proved:

- **Honeypot:** what the honeypot discards.
- **Validation:** the exact validation outcome, both directions.
- **Inserted row:** the contents of the inserted row, including the first-hop client address.
- **Status mapping:** every status as an if-and-only-if over the inputs.
- **Gate ordering:** the gate's short-circuit order, as call counters per call kind.
- **Privilege separation:** every call before the update runs under the caller's bearer token.
- **What an update changes:** only the requested columns of the requested row. When the backend reports an error, the model takes it that nothing was written (see "## Left out"), so the table changes only on the redirect.
- **Table invariant:** `contacted_at` is set iff `contacted`, notes are at most 2000 characters, and the intake rules hold for every row.
- **Notes truncation:** the bound, the prefix, and equality when short.
- **Session cookie:** its exact attributes.
- **Worked scenarios:** concrete requests and their outcomes.

## Model

| member | source | states |
|---|---|---|
| Text.Trim | src/pages/api/lead.ts:13-15 | the trimmed value is no longer than the input and has no white space (the ECMAScript set) at either end |
| Text.TrimEmptyIffBlank | src/pages/api/lead.ts:9 | trimming yields the empty string iff every character is white space |
| Text.TrimIsMiddle | src/pages/api/lead.ts:13-15 | the trimmed value is a contiguous slice of the input, with a blank prefix and a blank suffix cut off |
| Text.TrimOfPadded | src/pages/api/lead.ts:13-15 | a trimmed middle surrounded by blank padding trims back to exactly the middle |
| Text.TrimOfTrimmed | src/pages/api/lead.ts:13-15 | a value with no white space at its ends trims to itself |
| Text.TrimIdempotent | src/pages/api/lead.ts:13-15 | trimming is a normalisation: trimming a value the handler already trimmed changes nothing |
| Text.TrimKeeps | src/pages/api/lead.ts:24 | trimming never introduces a character absent from the input |
| Text.BeforeComma | src/pages/api/lead.ts:24 | `split(",")[0]` is a comma-free prefix that ends at the first comma or at the end |
| Text.BeforeCommaUnique | src/pages/api/lead.ts:24 | any comma-free prefix ending at a comma or the end is that first segment |
| Text.Take | src/pages/api/leads/notes.ts:14 | `slice(0, n)` is a prefix of at most n characters: the whole input when it is short, exactly n otherwise |
| Http.CookieJar.Set | src/pages/api/login.ts:19-25 | `cookies.set` appends exactly the given cookie to those the response carries |
| Http.FormValue | src/pages/api/lead.ts:8 | a missing form field reads as the empty string, a present one as its value |
| Store.Created | src/pages/api/lead.ts:26-28 | a stored row keeps the inserted columns, with `contacted` false, `contacted_at` null and empty notes |
| Store.ApplyPatch | src/pages/api/leads/contacted.ts:43-49 | a patch writes only its own columns: the contacted pair, or the notes; all intake columns keep their values |
| Store.UpdateRows | src/pages/api/leads/contacted.ts:43-49 | `update(...).eq("id", id)` keeps the key set, patches only the row with that id (if any) and leaves every other row unchanged |
| Store.Effect | src/pages/api/leads/contacted.ts:43-49 | one logged call never removes a row; a read or sign-in leaves the table as it was; an update keeps the key set |
| Store.Replay | src/pages/api/lead.ts:26-28 | replaying a request's log never removes a row |
| Store.CountZeroIff | src/pages/api/leads/contacted.ts:27-43 | a call counter is zero exactly when the log holds no call of that kind |
| Store.AdminFlagTruthiness | src/pages/api/leads/contacted.ts:37 | `prof?.is_admin` is truthy only for a found row whose flag is `true`; a missing row, a null flag and `false` are all refused |
| Store.ReplayReadOnly | src/pages/api/leads/contacted.ts:27-37 | a log without updates or inserts leaves the table unchanged |
| Store.ReplayKeepsValid | src/pages/api/leads/contacted.ts:42-48 | valid inserts and pair-consistent or bounded patches keep every row valid |
| Store.Backend.GetUser | src/pages/api/leads/contacted.ts:27 | the identity lookup answers the directory's user for the bearer and logs one user-scoped call |
| Store.Backend.SelectProfile | src/pages/api/leads/contacted.ts:31-35 | the profile read answers the directory's row and logs one call under the given scope |
| Store.Backend.Update | src/pages/api/leads/notes.ts:37 | one update logs its call and, when no error is reported, sets the table to `UpdateRows` of the old table |
| Store.Backend.Insert | src/pages/api/lead.ts:26-28 | one insert logs its call and, when the store assigns an id, adds exactly the created row under it |
| Store.Backend.SignIn | src/pages/api/login.ts:16 | one sign-in logs one anon-key call carrying the given credentials, and changes nothing else |
| LeadIntake.BotIffNotBlank | src/pages/api/lead.ts:8-11 | the honeypot fires iff `company` holds a character other than white space |
| LeadIntake.ClientIp | src/pages/api/lead.ts:24 | `ip` is null iff the `x-forwarded-for` header is absent; otherwise it is comma-free and trimmed |
| LeadIntake.ClientIpIsFirstHop | src/pages/api/lead.ts:24 | for a header "pad hop pad' ,rest" the address is exactly the trimmed first hop |
| LeadIntake.Row | src/pages/api/lead.ts:27 | the inserted object has trimmed name, email and message, source "landing", the client address and the raw user agent |
| LeadIntake.InsertedRow | src/pages/api/lead.ts:13-27 | the inserted row carries the trimmed name, email and message, source "landing", the client address and the raw user agent |
| LeadIntake.Intake | src/pages/api/lead.ts:4-35 | 204 iff honeypot, with no call, even for invalid fields; 400 iff honeypot blank and a validation rule fails, with no call; otherwise exactly one service-role insert of the row; 500 iff that insert fails; 303 to "/gracias" iff it succeeds; no cookies |
| LeadIntake.IntakeEffect | src/pages/api/lead.ts:26-34 | the table gains the created row under the new id exactly when the response is the redirect, and is unchanged otherwise |
| LeadIntake.PostLead | src/pages/api/lead.ts:4-35 | the handler yields `Intake`'s response and log, leaves the table as the log's replay, adds one insert to the counter iff the submission is admissible and no update, and keeps the table valid |
| AdminGate.TokenTruthiness | src/pages/api/leads/contacted.ts:9-10 | `!token` holds for a missing cookie and an empty value, and for nothing else |
| AdminGate.AdminRun | src/pages/api/leads/contacted.ts:9-56 | 401 on a missing or empty token and 400 on a malformed form, both before any call; the identity, profile and update counters are 1 exactly when the preceding checks pass; no insert or sign-in; 401/403/500/303 each iff its condition; 303 goes to the requested target; every call but the update is user-scoped; the only update is service-role, last, and carries the requested id and patch |
| AdminGate.AdminEffect | src/pages/api/leads/contacted.ts:37-56 | the table is `UpdateRows` of the old table when the response is the redirect, and unchanged on every other outcome |
| AdminGate.AdminCallsValid | src/pages/api/leads/contacted.ts:42-49 | a gate run whose patch is valid makes only valid calls |
| AdminGate.AuthorizeAndMutate | src/pages/api/leads/contacted.ts:21-56 | the step-by-step gate yields `AdminRun`'s response and log, leaves the table as its replay, raises the identity, profile and update counters by exactly what the checks allow, and keeps the table valid |
| Contacted.ParseContacted | src/pages/api/leads/contacted.ts:13-19 | the form is accepted iff the trimmed id is non-empty and the trimmed `next` is "true" or "false"; `redirectTo` defaults to "/admin"; the patch sets `contacted` to (`next` == "true") and `contacted_at` to the timestamp exactly then |
| Contacted.ContactedRun | src/pages/api/leads/contacted.ts:8-57 | 401 with no call when the token is missing; 400 with no call on a malformed form; exactly one update iff the caller is an admin and the form is well formed; the redirect goes to `redirectTo` or "/admin" |
| Contacted.ToggleEffect | src/pages/api/leads/contacted.ts:42-56 | after a redirect the named lead has the requested flag, a consistent timestamp, its notes and intake columns unchanged; every other row is unchanged; non-redirect outcomes change nothing |
| Contacted.PostContacted | src/pages/api/leads/contacted.ts:8-57 | the handler yields `ContactedRun`'s response and log, leaves the table as its replay and keeps it valid |
| Notes.NotesText | src/pages/api/leads/notes.ts:14 | the stored notes are at most 2000 characters and a prefix of the trimmed input; they equal it when it fits and are exactly 2000 characters long otherwise |
| Notes.ParseNotes | src/pages/api/leads/notes.ts:13-17 | the form is accepted iff the trimmed id is non-empty; the patch writes only the prepared notes; `redirectTo` defaults to "/admin" |
| Notes.BlankNotesClear | src/pages/api/leads/notes.ts:14-17 | blank or missing notes are accepted and clear the column |
| Notes.NotesRun | src/pages/api/leads/notes.ts:8-44 | 401 with no call when the token is missing; 400 with no call on a blank id; exactly one update iff the caller is an admin and the id is non-blank; the redirect goes to `redirectTo` or "/admin" |
| Notes.NotesEffect | src/pages/api/leads/notes.ts:35-43 | after a redirect the named lead's notes are the prepared text and its other columns are unchanged; every other row is unchanged; non-redirect outcomes change nothing |
| Notes.PostNotes | src/pages/api/leads/notes.ts:8-44 | the handler yields `NotesRun`'s response and log, leaves the table as its replay and keeps it valid |
| Login.ConfigurationTruthiness | src/pages/api/login.ts:12 | a missing or empty URL or anon key leaves the handler unconfigured; two non-empty values configure it |
| Login.SessionCookie | src/pages/api/login.ts:19-25 | the cookie is `sb_access_token` holding the token, with maxAge 604800, httpOnly, secure, sameSite lax, path "/" |
| Login.LoginRun | src/pages/api/login.ts:7-28 | missing configuration gives 500 with no call and no cookie; otherwise exactly one anon-key sign-in with the trimmed credentials, and never an update or insert; 401 iff the sign-in fails or has no session; 303 to "/admin" iff it succeeds, and then exactly one session cookie, otherwise none |
| Login.PostLogin | src/pages/api/login.ts:7-28 | the handler yields `LoginRun`'s response and log, sends exactly its cookies and leaves the table unchanged |
| Scenarios.GenuineSubmission | src/pages/api/lead.ts:8-34 | the form {company "", name "Jo", email "a@b.com", message "hello there!"} redirects to "/gracias" and stores one row tagged "landing", not contacted |
| Scenarios.BotSubmission | src/pages/api/lead.ts:8-11 | the same form with company "acme corp" gets 204 and stores nothing |
| Scenarios.NonAdminToggle | src/pages/api/leads/contacted.ts:31-37 | a valid session whose profile has `is_admin` false gets 403 and no update |
| Scenarios.SuccessfulLogin | src/pages/api/login.ts:16-27 | a successful sign-in sets one seven-day cookie holding the token and redirects to "/admin" |
| Scenarios.FailedLogin | src/pages/api/login.ts:17 | a sign-in error gives 401 "Invalid login" and sets no cookie |

## Left out

- src/pages/api/logout.ts and src/lib/supabaseServer.ts are not part of this model. They hold cookie deletion and client construction, with no decision logic.
- `request.formData()` multipart parsing is not modelled. A field that holds a `File`, which `String(...)` turns into "[object File]", is not distinguished from text.
- `new URL(redirectTo, request.url)` resolution is not modelled. The redirect location is the raw string. An unparsable target, which makes `new URL` throw, is not modelled either.
- String lengths and `slice` count Unicode scalar values here, while JavaScript counts UTF-16 code units. A name or notes text with characters outside the Basic Multilingual Plane can therefore measure differently.
- Supabase internals are out of scope: row-level security, `maybeSingle` errors, and the error value of `getUser`. The directory gives what a user-scoped read returns. An error on the identity or profile read gives null data in the source, which is the same as an absent user or profile here.
- Module-level environment variables of the admin handlers (`SUPABASE_URL!` and the keys) are assumed present. Exceptions thrown by `createClient` are not modelled.
- The clock is a parameter, `now`.
- `console.error` logging and `async` scheduling are left out. Every handler is sequential.
- A reported update or insert error is taken to have written nothing (`Store.Effect`, `Store.Backend.Update`, `Store.Backend.Insert`). supabase-js also reports a client-side transport failure as `error`, after which the statement may have committed; a 500 response with the row written is therefore not modelled, and `AdminGate.AdminEffect` and `LeadIntake.IntakeEffect` promise "unchanged" off the redirect only under this reading.
- The redirect of the admin handlers (`new URL(redirectTo, request.url)`) is built after the update. A target that makes it throw fails the request with the write already done; that outcome is not modelled.
- Store-assigned ids come from the backend. `Store.Backend.Insert` requires the id to be fresh, which is what the store guarantees.
- The intake insert uses the service-role client (`supabaseServer`), and the model records it under that scope.
- The intake name rule follows the code: at least two characters after trimming. It is not merely non-empty.

