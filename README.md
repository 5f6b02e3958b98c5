# insigne-engine handlers in Dafny

insigne-engine is a set of serverless HTTP handlers over a Supabase database:

- A questionnaire intake (`api/tally.js`) and a Tally webhook (`api/tally.ts`)
  create draft insignes.
- A generation step (`api/generate.ts`) asks a language model for a report and a
  Latin motto. It moves the record through `generating` to
  `awaiting_approval`.
- An administrator lists the queue (`api/admin-queue.ts`) and approves
  (`api/admin-approve.ts`).
- Delivery (`api/send-email.ts`) mails the owner a private link and marks the
  record `delivered`.
- Read endpoints serve a record:
  - by id with signed asset URLs (`api/insigne.ts`);
  - by access token (`api/by-token.ts`);
  - the newest one (`api/latest.ts`);
  - a submission-to-insigne mapping (`api/lookup.ts`).
- `api/_utils.ts` renders random tokens in hexadecimal.

## How the model is built

- **Database.** The database is the class `Db.Store`. Each table is a `seq` of
  rows in storage order. `Store.Valid()` states that `insignes.id` is a key.
  `Store.Snapshot()` is the whole database as a value, so "nothing else
  changes" is stated as an equation between snapshots.
- **Handlers that write** (generate, send-email, admin-approve, tally.ts,
  tally.js) are methods with `modifies db`. Each branch of the source is one
  `ensures` giving the response and the complete new snapshot.
- **Handlers that only read** (insigne, by-token, admin-queue, latest, lookup)
  are functions of the tables they query. Their signatures show which tables
  they can see.
- **Outside effects are parameters.** This covers:
  - the language-model call (`llm`);
  - `JSON.stringify` and `JSON.parse` (`stringify`, and a `parse` that returns
    `None` when parsing throws);
  - the mail provider (`send`) and the storage signer (`sign`);
  - the results and errors of database calls;
  - the ids the database assigns, and insert times;
  - the random bytes of a token.
- **JavaScript semantics are written out** in module `Js`: truthiness, `||`,
  optional property reads `v?.key` and index reads `v?.[i]` (an array's
  element, an object's key `"i"`, a string's character), `String(...)`,
  `.trim()` with JavaScript's whitespace set, and `.slice(0, n)`.
- **Responses.** `Http.Response` is either a status code with a body, or an
  exception a handler lets escape.

Inconsistencies in the source are modelled as written:

- `api/tally.ts:34` writes `submission_lookup`, but `api/lookup.ts:21` reads
  `tally_submissions`. `Lookup.Handle` takes only the latter table.
- `api/tally.js:56` stores `email`, but `api/send-email.ts:19-23` needs
  `client_email`. A record created by the intake therefore cannot be
  delivered until something else sets `client_email`.
- Neither webhook deduplicates (`TallyTs.PostTwice`).
- No status update checks the current status (`AdminApprove.ApprovedReadsBack`,
  `SendEmail.DeliveredAfterSend`).
- `api/generate.ts:69` calls the model with no `try`/`catch`. A failure
  escapes as `Thrown`, and the record stays `generating`.

## Model

| member | source | states |
|---|---|---|
| Js.NatToString | api/generate.ts:20 | `String(n)` of a non-negative integer is a non-empty string of decimal digits, without a leading zero, whose decimal value is `n` |
| Js.Trim | api/generate.ts:78-79 | the result has no leading or trailing JavaScript whitespace; it is the slice of the input between its leading and trailing whitespace runs |
| Js.TrimOfTrimmed | api/generate.ts:78-79 | a string without outer whitespace is its own trim |
| Js.TrimIdempotent | api/generate.ts:78-79 | trimming twice is trimming once |
| Js.Truncate | api/generate.ts:63 | `.slice(0, limit)` is a prefix of the input of length `min(limit, length)` |
| Query.Filter | api/admin-queue.ts:20 | `.eq(...)` keeps exactly the rows satisfying the predicate, each as often as it occurs |
| Query.InsertBy | api/admin-queue.ts:21 | inserting into a sorted sequence keeps it sorted and adds exactly that element |
| Query.SortBy | api/admin-queue.ts:21 | `.order(key, ascending)` gives a sorted permutation of its input |
| Query.FilterAlike | api/by-token.ts:21-25 | filtering two tables that agree row by row on the filter and on an observation gives equally long results with the same observations |
| Query.Newest | api/latest.ts:14-16 | `.order(key, descending).limit(1)` is `None` on an empty input, otherwise a member with the greatest key |
| Db.FindById | api/send-email.ts:17-21 | `.eq("id", id).maybeSingle()` is `None` exactly when no row has the id, otherwise the row with that id |
| Db.WithStatusFrame | api/admin-approve.ts:17 | a status update changes only the status of the rows with that id; all other rows and columns and the set of ids stay as they were |
| Db.WithStatusSingleRow | api/send-email.ts:57 | with `id` a key, a status update changes the status of the one row carrying that id and leaves every other row as it was |
| Db.WithStatusIdempotent | api/admin-approve.ts:17 | issuing the same status update twice equals issuing it once |
| Db.WithStatusUnknownId | api/admin-approve.ts:17-18 | an update whose id matches no row leaves the table unchanged |
| Db.FindAfterWithStatus | api/send-email.ts:57 | reading a record back after a status update gives its old columns with the new status, whatever the old status was |
| Db.WithContentFrame | api/generate.ts:81-88 | the final update writes `report_text`, `motto_latin` and status `awaiting_approval` for that id; `motto_english`, every other column and every other record are untouched |
| Db.WithContentAfterStatus | api/generate.ts:67-88 | the final update overrides the earlier `generating` update entirely |
| Db.Store.SetStatus | api/admin-approve.ts:17 | the store after `.update({ status }).eq("id", id)`: only the `insignes` table changes, as the status update says; the id key is kept |
| Db.Store.SetContent | api/generate.ts:81-88 | the store after the content update: only `insignes` changes |
| Db.Store.AddInsigne | api/tally.ts:23-27 | an insert appends one row with a fresh id to `insignes` and keeps the key |
| Db.Store.AddAnswer | api/tally.js:73-78 | an insert appends one row to `answers` and changes nothing else |
| Db.Store.AddSubmissionLookup | api/tally.ts:34-37 | an insert appends one row to `submission_lookup` and changes nothing else |
| Http.AdminGate | api/admin-approve.ts:5-6 | with `ADMIN_KEY` unset or empty no request passes; otherwise a request passes exactly when its `x-admin-key` header equals the key |
| Tokens.HexDigit | api/_utils.ts:4 | a nibble is spelt as a lower-case hexadecimal digit |
| Tokens.Hex | api/_utils.ts:4 | hex encoding yields two characters per byte, all in `0-9a-f` |
| Tokens.MakeToken | api/_utils.ts:3-4 | a token of `bytes` random bytes has `2 * bytes` lower-case hexadecimal digits |
| Tokens.DefaultLength | api/_utils.ts:3-4 | the default token has 48 characters |
| Tokens.HexAt | api/_utils.ts:4 | byte `i` is spelt by characters `2i` (high nibble) and `2i+1` (low nibble) |
| Tokens.DigitValue | api/_utils.ts:4 | the value of a hexadecimal digit, whose encoding is that digit |
| Tokens.Unhex | api/_utils.ts:4 | decoding halves the length |
| Tokens.DigitRoundTrip | api/_utils.ts:4 | decoding an encoded nibble gives the nibble back |
| Tokens.Nibbles | api/_utils.ts:4 | a byte is rebuilt from its two encoded nibbles |
| Tokens.UnhexCons | api/_utils.ts:4 | decoding a two-digit prefix gives one byte followed by the decoding of the rest |
| Tokens.UnhexHex | api/_utils.ts:4 | decoding inverts the encoding |
| Tokens.HexInjective | api/_utils.ts:4 | the encoding is injective, so only the random source makes tokens differ |
| Signing.FromResult | api/insigne.ts:100-109 | an entry copies the asset's type and path; a signed URL gives the URL and no error, a failure gives no URL and the failure's message |
| Signing.SignAll | api/by-token.ts:38-49 | the `Promise.all` fan-out has one entry per asset, in order, each computed from its own asset only |
| Generate.ExtractText | api/generate.ts:19-20 | for a body that is not null: `output[0].content[0].text` if truthy, else `output_text` if truthy, else `""`, always as a string; a null body throws; index reads follow JavaScript on arrays, objects (key `"0"`) and strings |
| Generate.ExtractFromIndexedOutput | api/generate.ts:19 | an `output` object keyed `"0"` is read like an array, so its first content text is the answer |
| Generate.ExtractFromOutput | api/generate.ts:19 | the usual body shape yields its first content text |
| Generate.ExtractFromOutputText | api/generate.ts:19 | a body with only `output_text` yields it |
| Generate.LatestAnswer | api/generate.ts:37-45 | `None` exactly when the insigne has no answers row; otherwise one of its rows with the greatest `created_at` |
| Generate.EmbeddedPayload | api/generate.ts:63 | the prompt carries a prefix of the serialised payload of at most 12000 characters: all of it when short, exactly 12000 when long |
| Generate.TextField | api/generate.ts:78-79 | a stored text field has no outer whitespace; a string value is trimmed; a falsy value becomes `""` |
| Generate.ContentOf | api/generate.ts:71-79 | unparsable output is stored as its trim with an empty motto; parsed `null` throws; stored texts never have outer whitespace |
| Generate.ContentOfStructured | api/generate.ts:71-79 | strict JSON with string fields stores the trimmed `report_text` and `motto_latin`; `motto_english` is dropped |
| Generate.Handle | api/generate.ts:25-90 | non-POST gives 405, no id gives 400, and a missing answers row gives 500, all with the store unchanged and no model call; otherwise the status is `generating` before the call on the newest payload; a model failure or a null parse throws with the store left at `generating`; a rejected `fetch` throws as well; success writes only the content and `awaiting_approval` for that id |
| SendEmail.ResultsLink | api/send-email.ts:27 | the link is the results base, then `?token=`, then the access token |
| SendEmail.MessageFor | api/send-email.ts:29-41 | the message goes to `client_email`, from `FROM_EMAIL`, with the fixed subject, and embeds the link |
| SendEmail.Handle | api/send-email.ts:5-59 | admin gate 401, no id 400, a missing record, client email or token 400, all with nothing sent and the store unchanged; a refused send gives 500 with the provider text and no change; a rejected `fetch` throws with no change; an accepted send gives 200 and sets only that record's status to `delivered` |
| SendEmail.DeliveredAfterSend | api/send-email.ts:57 | after delivery the record reads back `delivered` with its other columns, whatever its status was before |
| AdminApprove.Handle | api/admin-approve.ts:5-18 | admin gate 401 and no id 400, with the store unchanged; otherwise 200 and only that id's status becomes `approved`, unconditionally |
| AdminApprove.ApproveIdempotent | api/admin-approve.ts:17 | approving twice gives the table approving once gives |
| AdminApprove.ApproveUnknown | api/admin-approve.ts:17-18 | approving an unknown id leaves every row unchanged |
| AdminApprove.ApprovedReadsBack | api/admin-approve.ts:17 | an approved record reads back `approved` with all other columns kept |
| AdminApprove.ApproveTwice | api/admin-approve.ts:17-18 | two authorised approvals both answer ok and leave the store a single approval leaves |
| TallyTs.Handle | api/tally.ts:5-39 | non-POST 405 and a falsy `submission.id` 400, with nothing inserted; a failed insigne insert gives 500 with its message and no lookup row; otherwise exactly one draft insigne is appended, plus the `(submission_id, insigne id)` row in `submission_lookup` when that unchecked insert takes effect, and the answer is 200 either way |
| TallyTs.PostTwice | api/tally.ts:23-37 | the same submission posted twice creates two distinct drafts and two lookup rows with the same submission id |
| TallyJs.NewInsigne | api/tally.js:51-58 | the new row has `user_id = owner_memberstack_id`, the posted email and status draft; `client_email` and `access_token` are null |
| TallyJs.Handle | api/tally.js:9-103 | OPTIONS 200 and other non-POST 405; a null body gives the catch-all 500; missing fields 400 and missing configuration 500; a failed insigne insert gives 500 with no answers row; a failed answers insert gives 500 with the new insigne kept; success appends one answers row linking the payload to the new id and answers with that id; every failure before the insigne insert leaves the store unchanged |
| InsigneById.OwnAssets | api/insigne.ts:74-78 | the insigne's assets, each as often as stored, in ascending `created_at` |
| InsigneById.Entries | api/insigne.ts:87-111 | one entry per asset, in order, copying type and path; a missing `storage_path` gives a null URL and "Missing storage_path"; any other asset gets the result of signing its own path for 900 seconds |
| InsigneById.MissingPathNotSigned | api/insigne.ts:89-95 | an asset without a path gets the same entry under every signer, so it is never signed |
| InsigneById.Handle | api/insigne.ts:24-119 | non-GET 405; no id 400; missing connection or bucket configuration 500 before any read; load errors 500; unknown id 404; otherwise 200 with the record's id, status and Latin motto and the entries for its ordered assets |
| InsigneById.SigningNeverFails | api/insigne.ts:100-119 | once the reads succeed the answer is 200 with one entry per asset, whatever the signer does |
| ByToken.WithToken | api/by-token.ts:21-25 | exactly the rows whose `access_token` equals the token, each as often as stored |
| ByToken.AssetsOf | api/by-token.ts:30-38 | the insigne's assets, each as often as stored; a failed read counts as no assets |
| ByToken.Entries | api/by-token.ts:36-49 | one entry per asset, in order, each the result of signing its own path for 900 seconds |
| ByToken.Handle | api/by-token.ts:9-60 | OPTIONS 204, non-GET 405, no token 400; a read error 500; no matching record 404; more than one 500; otherwise 200 with only id, status, Latin motto and report text of the matching record, plus its asset entries |
| ByToken.WithTokenReemail | api/by-token.ts:21-25 | changing client emails changes neither which rows match the token nor their public fields |
| ByToken.HidesClientEmail | api/by-token.ts:51-60 | the response does not depend on any record's `client_email` |
| AdminQueue.Awaiting | api/admin-queue.ts:17-21 | exactly the records with status `awaiting_approval`, each as often as stored, in ascending `created_at` |
| AdminQueue.Project | api/admin-queue.ts:19 | one selected-columns item per record, in order |
| AdminQueue.ProjectAwaiting | api/admin-queue.ts:19-21 | the items of a sorted run of awaiting records are sorted, all awaiting, miss none, and each is the item of the record at its position |
| AdminQueue.Items | api/admin-queue.ts:17-24 | the `items` are sorted by ascending `created_at`, as many as the awaiting records, each the item of an awaiting record of the table, and include every awaiting record |
| AdminQueue.Handle | api/admin-queue.ts:6-24 | admin gate 401; a query error 500 with its message; otherwise 200 with the awaiting items |
| Latest.Newest | api/latest.ts:11-16 | `None` exactly for an empty table, otherwise a record with the greatest `created_at` |
| Latest.Handle | api/latest.ts:11-28 | an error or an empty table gives 404; otherwise 200 with id, status, Latin motto and report text of a record with the greatest `created_at`; no request field or credential is consulted |
| Lookup.Matching | api/lookup.ts:20-23 | exactly the `tally_submissions` rows with that submission id, each as often as stored |
| Lookup.Handle | api/lookup.ts:8-33 | no `submission_id` gives 400; exactly one matching row in `tally_submissions` gives 200 with its `insigne_id`; no match, several matches or a query error give 404; `submission_lookup` is never read |

## Left out

- HTTP plumbing: CORS and cache headers, `Content-Type`, and `res.end()`.
  Only the status code and a body datatype are kept.
- `createClient` and the query-builder mechanics. The query results are
  parameters, and their filter and order semantics are functions over the tables.
- The handlers that never check `SUPABASE_URL` or `SUPABASE_SERVICE_ROLE_KEY`
  (all but `api/tally.js` and `api/insigne.ts`) are modelled as if the client
  were configured.
- Results of status updates are not modelled: `api/generate.ts:67, 81-88`,
  `api/send-email.ts:57` and `api/admin-approve.ts:17` ignore them. Each
  update is taken to succeed.
- The network calls to OpenAI, Resend and the storage signer are oracles.
  - The prompt wording and the email's HTML template are left out.
  - The prompt is reduced to the payload text it embeds (`Generate.Handle`'s
    `prompt` output).
  - The email is reduced to sender, recipient, subject and link.
- `JSON.stringify` and `JSON.parse` internals: both are function parameters.
  The prompt uses a prefix of `stringify`'s result, and `Db.AsText` stores all
  of it when a non-string JSON value lands in a text column.
- `Generate.EmbeddedPayload`: `.slice` counts UTF-16 code units, while the
  model counts Dafny characters. The two differ for characters outside the
  Basic Multilingual Plane.
- `crypto.randomBytes` is a parameter (`random`). The model covers the hex
  encoding only.
- Reading environment variables: `Http.Env` holds their values.
- `Promise.all` concurrency. The fan-out is a sequential map joined by
  position, which is what the handlers observe.
- Js.NatToString: prints every integer in full. JavaScript prints numbers of
  magnitude 10^21 or more in exponent form (`"1e+21"`), and it loses precision
  above 2^53. The model's numbers are unbounded integers.
- Query parameters or headers that arrive as arrays, and JSON numbers that are
  not integers (`Js.JsValue` has integer numbers only).
- Status values other than the five the handlers write, and a null status.
- When the same column value occurs more than once, the order of the tied rows
  is whatever `Query.SortBy` and `Query.Newest` produce. The database does not
  specify it.
- Column defaults are taken to be null, except `created_at`, which is the
  insert time passed as `now`. The insert in `api/tally.ts:23-27`
  may be refused by a `NOT NULL` constraint on `user_id`, which
  `api/tally.js:48-54` mentions. The `insert` oracle covers that outcome.
- A JSON value that is not a string, stored in a text column, is modelled as
  its JSON text (`Db.AsText`).
- `api/insigne.ts:120-122` has a catch-all for exceptions. In the model no step
  of that handler throws, so that branch is not reachable there.
- `Generate.OpenaiText` has no contract of its own. Its three outcomes are
  stated by `Generate.Handle` and `Generate.ExtractText`.
- The handlers do not deduplicate submissions, guard transitions on the current
  status, or trigger generation, so the model does none of these.
