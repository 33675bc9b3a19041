# Device registry of the APConsult Manager backend, in Dafny

Remote agents report telemetry to the backend, and operators manage the reporting devices
(clients) from a web console. This project models the backend's device registry:

- the `clients` table, which holds one `Client` row per `client_id`;
- the append-only table of metric samples;
- the append-only audit log;
- the endpoints that change or query these tables: ingest a report, rename, soft-delete, list,
  get one client, and get a client's samples over a time window.

The store lives in memory. The current time `now`, in milliseconds, is a parameter of every
operation that reads the clock.

Modules, one per concern:

- `ClientModel` (`client.dfy`) models `backend/src/models/client.js`.
  - `Client` is a datatype with the columns the code uses. A missing or NULL column is an `Option`.
  - `ClientTable` is a class whose `rows: seq<Client>` field holds the table in insertion
    (primary-key) order.
  - Its invariant `Valid()` says that every `client_id` is unique and is a version-4 UUID. The
    unique constraint and the `isUUID: 4` validator are what keep this true.
  - `Create` models `Client.create`. It refuses a non-UUID or duplicate identifier.
  - The instance methods (`rename`, `deactivate`, `activate`, `updateLastSeen`) take the fetched
    instance, change one field, save it and return the changed instance.
  - The finders (`findByClientId`, `findActive`, `findInactive`) are functions over the rows.
- `ClientController` (`controller.dfy`) models `backend/src/controllers/clientController.js`.
  - The `Backend` class holds the table (a `const` reference), `samples: seq<Sample>` and
    `audit: seq<AuditEntry>`. It has one method per endpoint.
  - Each method's result is a `Response`: `Ok(data)`, `BadRequest` (400), `NotFound` (404) or
    `ServerError` (500).
  - Ingestion receives the report already decrypted and parsed, as a `Payload` with optional
    `client_id`, `custom_name` and `system_info`. A report that could not be decrypted or parsed,
    or that parsed to `null`, arrives as `None` and answers 500. A JSON value other than an
    object or null reads as a payload with no fields and answers 400.
  - JavaScript truthiness is explicit:
    - `Truthy` means present and non-empty;
    - `OrNull` is `x || null`;
    - `NameField` tells `undefined` apart from `null` and from a string in a rename body.
- `Query` (`query.dfy`) states what a `findAll` computes. A WHERE clause is `Filter` and an ORDER
  BY is a stable insertion sort, `SortBy`. Both are specified by multiplicities, so each query
  result is pinned down as a permutation of the accepted rows.
- `Like` (`like.dfy`) models PostgreSQL `LIKE`/`ILIKE` as the device search uses it:
  - `%` matches any run of characters, `_` matches one character, and `\` escapes the next one;
  - for a search term with none of these characters, `ILIKE '%q%'` is proved to be
    case-insensitive substring search.
- `Uuid` (`uuid.dfy`) models the `isUUID: 4` check. It accepts the 8-4-4-4-12 string form of
  section 3 of RFC 4122 with version nibble 4 (section 4.1.3) and variant bits `10`
  (section 4.1.1). The position-based check is proved equivalent to the five-field form.

The model follows the code, including where its behaviour is easy to misread:

- A new client with no reported name stores `null`, not an empty name.
- A rename stores whatever name the body carries, so the stored name may be `null` or `""`.
- The metrics endpoint does not look the client up: an unknown id gets an empty list, not a 404.
- Decryption failures, parse failures and a parsed `null` answer 500. A client id that fails
  UUID validation on create also answers 500, and nothing is stored.

## Model

| member | source | states |
|---|---|---|
| `ClientModel.FindByClientId` | backend/src/models/client.js:91-97 | the finder returns a row exactly when the identifier is stored, and the row it returns is in the table and carries that identifier |
| `ClientModel.FindUnique` | backend/src/models/client.js:10-17 | because client_id is unique, the finder returns the one row that carries the identifier |
| `ClientModel.SaveWritesOneRow` | backend/src/controllers/clientController.js:216 | a save keeps every identifier in place and unique, makes the finder return the saved instance, and leaves what the finder returns for every other identifier unchanged |
| `ClientModel.SaveUnchanged` | backend/src/models/client.js:79-88 | saving an instance equal to its stored row leaves the table unchanged, which makes deactivate and activate idempotent |
| `ClientModel.SearchIsSubstring` | backend/src/controllers/clientController.js:29-36 | for a search term without LIKE wildcards, the search filter holds exactly when custom_name or hostname contains the term case-insensitively; NULL columns never match |
| `ClientModel.FindAll` | backend/src/controllers/clientController.js:40-43 | findAll returns each row the where clause accepts exactly as often as the table holds it, and no other row, in last_seen descending order |
| `ClientModel.FindActive` | backend/src/models/client.js:100-107 | returns exactly the active rows, each as often as stored, in last_seen descending order |
| `ClientModel.FindInactive` | backend/src/models/client.js:110-117 | returns exactly the inactive rows, each as often as stored, in last_seen descending order |
| `ClientModel.ActiveInactivePartition` | backend/src/models/client.js:100-117 | the active and inactive finders together return every row of the table exactly once and share none |
| `ClientModel.ClientTable.Create` | backend/src/models/client.js:10-17 | create inserts the row exactly when its client_id is a version-4 UUID not yet stored, and otherwise changes nothing; the table invariant is kept |
| `ClientModel.ClientTable.Save` | backend/src/controllers/clientController.js:216 | save writes the instance over the row with its client_id, keeping the set of identifiers |
| `ClientModel.ClientTable.Rename` | backend/src/models/client.js:73-76 | rename sets custom_name to the new name and changes no other field of the row and no other row |
| `ClientModel.ClientTable.Deactivate` | backend/src/models/client.js:79-82 | deactivate sets is_active to false, changes nothing else, and on an already inactive row leaves the table unchanged |
| `ClientModel.ClientTable.Activate` | backend/src/models/client.js:85-88 | activate sets is_active to true, changes nothing else, and on an already active row leaves the table unchanged |
| `ClientModel.ClientTable.UpdateLastSeen` | backend/src/models/client.js:67-70 | updateLastSeen sets last_seen to now and changes nothing else |
| `ClientController.OrNull` | backend/src/controllers/clientController.js:196 | `x \|\| null` keeps a non-empty name and turns a missing or empty name into null |
| `ClientController.NewRecord` | backend/src/controllers/clientController.js:194-203 | the row created for a first report is active with first_seen = last_seen = now, carries the report's client_id, takes the reported name or null when it is missing or empty, and takes hostname/os/platform from system_info |
| `ClientController.Refreshed` | backend/src/controllers/clientController.js:205-214 | a later report overwrites hostname/os/platform and last_seen, adopts the reported name only if the stored one is empty, and never changes client_id, first_seen or is_active |
| `ClientController.ReplayKeepsIdentity` | backend/src/controllers/clientController.js:204-217 | no number of reports for a client changes its client_id, first_seen or is_active, so ingestion never reactivates a deleted client |
| `ClientController.ReplayStickyName` | backend/src/controllers/clientController.js:211-214 | across any number of reports a non-empty stored name is kept, and an empty one becomes the first non-empty reported name |
| `ClientController.ReplayLastReportWins` | backend/src/controllers/clientController.js:206-209 | after a series of reports, hostname/os/platform and last_seen are those of the last report |
| `ClientController.Cutoff` | backend/src/controllers/clientController.js:249-266 | the window starts a day, seven days or a calendar month before now for day/week/month, and an hour before now for hour or any other period |
| `ClientController.MetricsWindow` | backend/src/controllers/clientController.js:268-277 | the metrics query returns exactly the one client's samples collected at or after the start, each as often as stored, in collected_at ascending order |
| `ClientController.LatestSample` | backend/src/controllers/clientController.js:71-75 | the latest-sample query is empty exactly when the client has no sample; otherwise it returns one of the client's samples with the greatest collected_at |
| `ClientController.ListAsWritten` | backend/src/controllers/clientController.js:29-49 | as written, the list answers 500 exactly when a search term is given, because `Op` is undefined; without one it answers Ok with exactly the stored clients the status and os filters accept, each as often as stored, sorted by last_seen descending |
| `ClientController.MetricsAsWritten` | backend/src/controllers/clientController.js:268-277 | as written, every metrics request answers 500, for every client, period and sample log, because `Op` is undefined |
| `ClientController.SearchFailsAsWritten` | backend/src/controllers/clientController.js:29-37 | a search for "pc" answers 500 as written, although the intended query returns the client with hostname "pc1" |
| `ClientController.MetricsFailAsWritten` | backend/src/controllers/clientController.js:268-277 | a sample inside the default window is returned by the intended query, but the query as written fails |
| `ClientController.WindowDropsOldest` | backend/src/controllers/clientController.js:268-277 | of three samples, one before the window start and two inside it, the window returns the two inside, oldest first |
| `ClientController.WeekWindowExample` | backend/src/controllers/clientController.js:258-260 | with period=week, samples from 10 days, 3 days and 1 hour ago give the latter two, in ascending order |
| `ClientController.Backend.ReceiveClientData` | backend/src/controllers/clientController.js:170-240 | an undecodable report, a non-UUID new client, or a missing client_id/system_info (400) leaves every table unchanged; otherwise an unknown client is created or a known one is refreshed, and exactly one sample with the agent's collected_at is appended; the audit log is never written |
| `ClientController.Backend.UpdateClient` | backend/src/controllers/clientController.js:91-129 | an unknown id gives 404 with no change and no audit entry; without custom_name nothing changes; otherwise the name is set unconditionally, the renamed client is returned and later found, and exactly one UPDATE/CLIENT entry with the new name is appended |
| `ClientController.Backend.DeleteClient` | backend/src/controllers/clientController.js:132-167 | an unknown id gives 404 with no change and no audit entry; otherwise the row stays with is_active false, samples are untouched, and exactly one DELETE/CLIENT entry with details is_active false is appended |
| `ClientController.Backend.BuildWhere` | backend/src/controllers/clientController.js:13-37 | the where clause built from the query accepts a client exactly when status active/inactive restricts is_active (any other status means no restriction), a non-empty os matches exactly, and a non-empty search hits custom_name or hostname |
| `ClientController.Backend.GetAllClients` | backend/src/controllers/clientController.js:8-54 | the list holds each stored client that satisfies all filters together, exactly as often as stored, and nothing else, sorted by last_seen descending |
| `ClientController.Backend.GetClientById` | backend/src/controllers/clientController.js:57-88 | an unknown id gives 404; otherwise the stored client is returned with a sample of greatest collected_at, or with null exactly when the client has no sample |
| `ClientController.Backend.GetClientMetrics` | backend/src/controllers/clientController.js:243-288 | returns exactly the client's samples with collected_at at or after the period's cutoff, each as often as stored, in ascending collected_at order |
| `ClientController.NonObjectReport` | backend/src/controllers/clientController.js:179-187 | a parsed report that is a JSON value other than an object or null has neither field and answers 400, leaving the clients, samples and audit log unchanged |
| `ClientController.ReportTwice` | backend/src/controllers/clientController.js:220-230 | ingestion is not idempotent: once a report is accepted, sending it again is accepted too and appends a second, equal sample |
| `ClientController.DeleteThenGet` | backend/src/controllers/clientController.js:137-161 | after a successful delete the client is still found, unchanged except that is_active is false, and no sample is removed |
| `ClientController.ExampleReport` | backend/src/controllers/clientController.js:190-230 | the first report for id 11111111-1111-4111-8111-111111111111 creates an active client with first_seen = last_seen = now, and its latest sample has cpu_usage 12.5 |
| `Query.Filter` | backend/src/controllers/clientController.js:40-41 | a WHERE clause keeps each row the predicate accepts exactly as often as the table holds it, and drops every other row |
| `Query.Insert` | backend/src/controllers/clientController.js:42 | inserting into a sorted sequence keeps it sorted and adds exactly the one element |
| `Query.SortBy` | backend/src/controllers/clientController.js:42 | an ORDER BY yields a sorted permutation of its input |
| `Like.PercentMatchesAll` | backend/src/controllers/clientController.js:33-34 | a pattern of one `%` matches every string |
| `Like.PrefixPattern` | backend/src/controllers/clientController.js:33-34 | a literal term followed by `%` matches exactly the strings that start with the term |
| `Like.LeadingPercent` | backend/src/controllers/clientController.js:33-34 | `%` followed by a pattern matches exactly when the pattern matches some suffix |
| `Like.SubstringPattern` | backend/src/controllers/clientController.js:33-34 | for a literal term q, `LIKE '%q%'` is substring containment |
| `Like.SubstringPatternIgnoringCase` | backend/src/controllers/clientController.js:33-34 | for a literal term q, `ILIKE '%q%'` is case-insensitive substring containment |
| `Like.UnderscoreFindsAnyNonEmpty` | backend/src/controllers/clientController.js:33-34 | the search term is not escaped: a term "_" matches every non-empty name or hostname |
| `Uuid.VariantDigit` | backend/src/models/client.js:14-16 | the allowed digits 8, 9, a, b at the variant position are exactly the hex digits whose high two bits are 10 |
| `Uuid.FieldsOfV4` | backend/src/models/client.js:14-16 | an accepted identifier is the five hex fields of widths 8, 4, 4, 4 and 12 joined by '-', with version 4 and the RFC 4122 variant |
| `Uuid.V4OfFields` | backend/src/models/client.js:14-16 | five hex fields of those widths, with version 4 and the variant bits, joined by '-' are accepted |
| `Uuid.ExampleIdentifier` | backend/src/models/client.js:14-16 | the identifier 11111111-1111-4111-8111-111111111111 used by the ingestion example is accepted |
| `Uuid.VersionOneRefused` | backend/src/models/client.js:14-16 | an identifier whose version nibble is 1 is refused |

## Left out

- Decryption (`crypto.decrypt`) and `JSON.parse` are not modelled. A decryption failure, a parse
  failure and a parsed `null` (reading a field of `null` throws) are the `None` report, which answers
  500. Any other parsed value that is not an object (a number, a string, a boolean, an array)
  has no `client_id` field, so it reads as `Payload(None, None, None)` and answers 400.
- Logger calls are not modelled.
- Storage failures other than the create-time validation (the `next(error)` 500 path) are not
  modelled.
- The write of the client before the sample is not atomic in the source. A failure between the two
  writes is a storage failure and is left out.
- `req.user.id` and `req.ip` are opaque fields of `Requester`. The external authentication layer
  guarantees that a user is present, so a missing `req.user` is not modelled.
- The `id`, `created_at` and `updated_at` columns are left out. Sequence order stands for the
  auto-increment primary key.
- Column widths (`STRING(100)` and `STRING(50)`) are left out. PostgreSQL would reject an
  over-long value with a storage error.
- JSON values of other types (a number as `custom_name`, say) are left out, and so are repeated
  query parameters that Express turns into arrays.
- The two `new Date()` reads at create time are modelled as one `now`.
- Hour, day and week windows are fixed multiples of 3 600 000 ms, so local-time daylight-saving
  shifts are ignored. The calendar month of `setMonth` is the parameter `monthAgo`.
- ILIKE case folding is ASCII only. Locale and collation rules are not modelled.
- The metric figures are stored as given. The `SystemMetric` and `AuditLog` models are not part of
  this model, so their own validations are not known here; their inserts are taken to succeed.
- backend/src/server.js, backend/src/utils/database.js, the frontend and the agent are not part of
  this model. They hold framework wiring, UI and I/O.
- Concurrent requests are not modelled; each operation runs alone.
- `ClientController.Backend.GetClientById` and `ClientController.LatestSample`: when several of a
  client's samples share the greatest `collected_at`, PostgreSQL may return any of them. The
  contract says only that the result has the greatest time. The function picks the earliest stored
  one.
- `ClientModel.FindAll`, `ClientController.MetricsWindow`, `ClientController.Backend.GetAllClients`
  and `ClientController.Backend.GetClientMetrics`: PostgreSQL leaves the order of rows with equal
  sort keys unspecified. The contracts state only the sort order and the multiplicities. The
  model's stable sort keeps insertion order.

## Findings

| source | as written | input that shows it | evidently intended | confidence | as-written member | corrected member |
|---|---|---|---|---|---|---|
| backend/src/controllers/clientController.js:29-37 | `Op` is used for the search filter but never imported (lines 1-5), so evaluating `Op.or` throws and the list answers 500 | `GET /clients?search=pc` with a client whose hostname is "pc1" | a case-insensitive match on custom_name or hostname, combined with the other filters | high (not executed) | `ClientController.ListAsWritten` | `ClientController.Backend.GetAllClients` |
| backend/src/controllers/clientController.js:268-277 | `Op.gte` is evaluated with `Op` undefined, so every metrics request answers 500 | `GET /clients/:id/metrics` for a client with a sample collected now | the client's samples collected at or after the cutoff, in ascending order | high (not executed) | `ClientController.MetricsAsWritten` | `ClientController.Backend.GetClientMetrics` |
