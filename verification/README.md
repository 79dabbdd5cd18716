# Free-tier quota and premium entitlement of the image converter

This project models the state-changing core of a small Flask image
converter (`app.py`). Three parts are modelled:

- the per-address daily quota gate `check_limit`;
- the entitlement check `is_premium`;
- the grant made by `payment_success`.

The output-name derivation of the `index` route is modelled as well.

The state is a class `Service.App` holding the two SQLite tables as
sequences of rows in insertion order:

- `limit_usage` rows are `(ip, date, count)`, where `ip` may be NULL;
- `premium_users` rows are `(payment_id, expiry)`.

The class also holds the one modelled client's session slot
`payment_id`, as an `Option<string>`.

The SQL statements become functions on those sequences:

- the point select followed by `fetchone()` becomes `Store.FirstMatch`;
- `UPDATE ... SET count=count+1` becomes `Store.IncrementMatching`;
- the existence query of `is_premium` becomes `Entitlement.HasEntitlement`.

`WHERE ip=? AND date=?` follows SQL's NULL semantics (`Store.Selects`).
`request.remote_addr` can be `None`, and it is then bound as NULL. A NULL
address never equals anything, so a non-premium request without an address
selects no row, is always admitted, and inserts another row that no later
query selects. A premium request is admitted before the select and inserts
nothing, with or without an address.

`Store.Tally` is the map view of `limit_usage`: for each (ip, date) key, the
count a point query reads. The quota is proved in terms of it:

- a request is admitted exactly when the session is premium or fewer than
  3 admissions are tallied for (ip, today);
- an admission adds one to that key's tally;
- a denial changes nothing;
- no other key ever changes;
- the invariant "at most one row per (ip, date)" is preserved.

From those, a client with no row is admitted three times and refused the
fourth (`FourthRequestDenied`), and a new day starts a new count
(`QuotaResetsNextDay`).

A payment replaces the identifier the session held before: `payment_success`
overwrites `session["payment_id"]`. So a session that was premium through an
earlier identifier is judged only by the new one afterwards. After a verified
payment with identifier `p` on day `t`, the session is premium on day `d`
exactly when `p` is non-empty and either `d <= t + 30` or `p` already had an
unexpired row on day `d`.

Days are integers. The source stores `str(date.today())`, which is a
zero-padded ISO `YYYY-MM-DD` string. Its comparison `expiry>=?` is string
order, and string order agrees with day order for years 1 to 9999.
Inputs from outside are parameters:

- the day `today`;
- the client address, `None` when the request has none;
- the form fields;
- the payment gateway's verdict, as a `bool`.

`app.py` has no error message for an unknown conversion type. Such a type
leaves `output_path` unbound after the upload was saved (`NoOutputPath`).
File names are saved as given, and no try/except surrounds the image
conversion.

## Model

| member | source | states |
|---|---|---|
| `Store.FirstMatch` | app.py:78-82 | the selected row is the first row whose non-NULL address and date equal the bound ones; none is found exactly when no row is selected, always so for a NULL address |
| `Store.IncrementMatching` | app.py:88-91 | the update keeps the table's length and every row's address and date, adds one to the count of every selected row and leaves every other row as it was |
| `Store.FirstMatchReadsTally` | app.py:78-87 | the select finds a row exactly when the key is in the tally, and then the count it reads is the tallied count |
| `Store.IncrementMatchingTally` | app.py:88-91 | after the update, the key's tallied count is one more than before and every other key's is unchanged |
| `Store.AppendTally` | app.py:92-96 | inserting a row for a key that has none tallies that row's count for the key and changes no other key; inserting a row with a NULL address changes no key |
| `Store.UniqueRowsAreTallied` | app.py:78-100 | while at most one selectable row exists per (ip, date), every row with an address has its count read for its key, so the tally loses nothing |
| `Entitlement.HasEntitlement` | app.py:59-67 | the query finds a row exactly when some row has the payment id and an expiry on or after today |
| `Entitlement.IsPremium` | app.py:53-67 | false for an absent or empty session payment id; otherwise true exactly when some `premium_users` row has that id and has not expired; it changes nothing |
| `Entitlement.GrantEntitles` | app.py:162-173 | after a grant on day t, the granted session is premium on day d exactly when the id is non-empty and either d <= t + 30 or the id already had an unexpired row on day d |
| `Entitlement.GrantLeavesOtherSessions` | app.py:164-168 | appending an entitlement row does not change the status of a session holding a different identifier |
| `Service.App.constructor` | app.py:32-50 | the tables keep whatever rows the database already held and the session starts empty |
| `Service.App.CheckLimit` | app.py:70-100 | premium: admitted, nothing changes; no row for (ip, today): exactly `(ip, today, 1)` is appended, admitted; first row's count >= 3: denied, nothing changes; otherwise every (ip, today) row is incremented, admitted. Without premium, a NULL address selects no row, so it is always admitted and appends `(NULL, today, 1)`. In tally terms: admitted iff premium or used < 3, and only the key's count moves, by one. The one-row-per-key invariant is preserved |
| `Service.App.PaymentSuccess` | app.py:150-175 | verification failure answers "Payment verification failed" and changes nothing; success appends exactly `(payment_id, today + 30)`, sets the session id, replacing any identifier it held, redirects to `/`, and the session is then premium on day d iff the new id is non-empty and either d <= today + 30 or the new id already had an unexpired row on day d |
| `Service.App.Index` | app.py:104-132 | a denied quota check answers the `/premium` redirect before any file name is formed and changes nothing; otherwise the rows become exactly what `check_limit` left (unchanged for premium, one row appended when none was selected, the selected rows incremented otherwise) and the one-row-per-key invariant is kept, a missing form field is a bad request, an unknown type fails with the upload saved, and a known type sends `OutputPath(name, kind)`: `OUTPUT_FOLDER/stem` plus the extension for a relative name, the stem plus the extension for an absolute one (so the output lands beside the upload, outside the output folder), converted to RGB for JPEG and PDF |
| `Service.FourthRequestDenied` | app.py:78-100 | from no row for (ip, today), a non-premium session is admitted three times and denied the fourth; only that key's tally changes, ending at 3 |
| `Service.QuotaResetsNextDay` | app.py:74-100 | on a fresh database, the same address gets admitted, admitted, admitted, denied on one day and is admitted the next day |
| `Service.MissingAddressNeverDenied` | app.py:92-100 | on a fresh database, four requests without a client address on one day are all admitted and leave four rows |
| `Service.PremiumBypassesQuota` | app.py:71-72 | after a verified payment with a non-empty id, a request on any day up to the expiry is admitted whatever the counters hold, and no counter changes |
| `Naming.ParseKind` | app.py:120-130 | the conversion chain recognises exactly the three form values `jpg_to_png`, `png_to_jpg` and `img_to_pdf`; any other value matches no branch |
| `Naming.Extension` | app.py:120-130 | each kind's extension is a dot followed by three characters, none of them a dot |
| `Naming.LastDot` | app.py:118 | finds the position of the last `.`, or reports that there is none |
| `Naming.Stem` | app.py:118 | `rsplit(".", 1)[0]`: a prefix of the name; the whole name exactly when it has no `.`; otherwise it stops at a `.` with no `.` after it |
| `Naming.Join` | app.py:114 | `os.path.join`: the name always ends the path; an absolute name replaces the folder; otherwise the path is the folder and the name, with a `/` between them unless the folder is empty or already ends in `/` |
| `Naming.OutputPath` | app.py:118-130 | for a relative upload name the output is `static/output/` + stem + extension; for an absolute one the folder is dropped and the output is the stem + extension itself |
| `Naming.StemOfDottedName` | app.py:118 | the stem of `base.ext` is `base` when `ext` has no dot |
| `Naming.OutputPathOfDottedName` | app.py:118-130 | uploading a relative `base.ext` yields `static/output/base` with the kind's extension |
| `Naming.OutputKeepsStem` | app.py:118-130 | the stem of the output file name is the stem of the uploaded name |

## Left out

- Flask routing, the `GET` branch of `index` and `render_template` are web plumbing. The session's 30-day lifetime (`session.permanent`) is left out too; only the session's `payment_id` slot is state.
- The `/premium` route creates an order with the Razorpay gateway and keeps no local state, so it is not modelled.
- Signature verification in `payment_success` is a call into the gateway SDK. It is the boolean `verified`, which also covers missing form fields: the `KeyError` is raised inside the same `try`.
- Opening and closing SQLite connections, `commit`, and `CREATE TABLE` are I/O. The tables are sequences, and a `SELECT` without `ORDER BY` is taken to read rows in insertion order.
- A `count` column holding NULL or non-integer text cannot be represented, because rows hold `int`. Dates past year 9999 would make `date.today() + timedelta(days=30)` raise; they are not modelled.
- Image decoding and encoding with PIL are foreign calls. `Index` records only the paths involved and whether the image is converted to RGB. A failure of `Image.open`, of `file.save`, or of an empty file name is not modelled.
- Filesystem writes (`os.makedirs`, `file.save`, the saved output) are I/O. The response carries the paths instead.
- Concurrent `check_limit` calls can race between the select and the insert. Only sequential calls are modelled.
- Names containing `..` are joined like any other relative name, and the resulting path is not normalised. Where such a path leads on disk is not modelled.
- Only one client session is modelled. Other clients appear only through the rows they left in the tables.
