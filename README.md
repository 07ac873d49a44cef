# Yearbook directory: request logic

This project is a Dafny model of the request logic of a Flask yearbook directory. The app
authenticates students and alumni by roll number and password. It serves a four-level listing:
graduating batch, then branch, then section, then student. It shows two honour-roll entries:
the best outgoing student of a batch and the topper of a branch. It lets graduated users edit
four contact fields of their own profile.

Modules:

- `AppModel` models the `User` table as app.py declares it and app.py's `to_dict`. That view
  returns the stored values unchanged.
- `Directory` models the read-only endpoints (`get_batches`, `get_batch_details`,
  `get_branch_details`, `get_section_students`, `get_profile`, `get_all_branches`). Each is a
  pure function over the table kept in insertion order.
- `Seqs` holds the generic query steps the endpoints are built from: filter, `.first()`,
  `SELECT DISTINCT` and `ORDER BY ... DESC`.
- `Server` models the state the app changes, as a class `App`. Its fields are the table, the
  session's user and the session's `show_guide` flag. `Login`, `Logout`, `UpdateProfile` and
  `ClearGuide` are methods that update those fields. `Status` is a function. `Gated` is the
  `@login_required` check placed in front of every data endpoint. The `...Endpoint` functions
  apply it to the `Directory` queries.
- `Models` models the separate `User` class of models.py: its constructor, `check_password`,
  and its `to_dict`, which fills blank fields with placeholder text. app.py never imports
  models.py, so the running app uses app.py's `to_dict`. Both are modelled, separately.

bcrypt is a foreign library, so its two calls are parameters. Hashing is a function
`hash: string -> string`. Verification is a predicate `verifies: (string, string) -> bool`
over the stored hash and the candidate password. The model assumes nothing about how the two
relate. A JSON request body is `Option<map<string, Option<string>>>`: `None` is a body
that parses to JSON `null`, and an inner `None` is a key whose value is JSON `null`.

Three points where one might expect something other than what app.py does; the model
follows app.py:

- One might expect every returned profile to fill blank fields with placeholders. The running
  app returns app.py's `to_dict`, which exposes null fields as null.
- One might expect the first-login flag flip to be atomic. The code has no transaction
  boundary, and the model is sequential.
- One might expect a profile edit whose body is JSON `null` to be rejected as a bad request.
  The code evaluates `'linkedin_url' in None`, which raises, so the model answers 500 and
  changes nothing.

## Model

| member | source | states |
|---|---|---|
| `Seqs.Filter` | app.py:137 | Keeps exactly the rows that satisfy the filter, and never more rows than the table has |
| `Seqs.FilterAppend` | app.py:137 | Filtering keeps table order: filtering `s + t` gives the rows kept from `s`, then those kept from `t` |
| `Seqs.FirstIndex` | app.py:83 | `.first()` gives the position of a matching row with no match before it, or none when no row matches |
| `Seqs.First` | app.py:116 | `.first()` gives no row exactly when none matches; otherwise it gives a matching row with no match before it |
| `Seqs.DistinctWhere` | app.py:117 | `SELECT DISTINCT` has no duplicates and holds exactly the column values of the rows that pass the filter |
| `Seqs.InsertDescending` | app.py:110 | Inserting into a strictly descending list keeps it strictly descending and adds exactly the new value |
| `Seqs.SortDescending` | app.py:110 | `ORDER BY ... DESC` of distinct values is strictly descending and has the same elements |
| `Seqs.DescendingHasNoDup` | app.py:110 | A strictly descending list has no duplicates |
| `AppModel.ToDict` | app.py:46-62 | The view carries every column except the hash and `is_new`, each with its stored value unchanged |
| `AppModel.CheckPassword` | app.py:43-44 | A candidate passes exactly when bcrypt verifies it against the row's stored hash |
| `AppModel.CheckPasswordSeesOnlyHash` | app.py:43-44 | Two rows with the same hash accept the same candidates, whatever their other columns |
| `AppModel.ToDictForgetsExactlySecrets` | app.py:46-62 | Two rows have the same view if and only if they agree on every column except the password hash and `is_new` |
| `Directory.Batches` | app.py:107-111 | The batch list is strictly descending and duplicate-free, and holds exactly the years of graduated users |
| `Directory.BatchDetails` | app.py:113-122 | Returns the requested year. Best outgoing is absent exactly when no user of the year has the flag; otherwise it is the first flagged user in table order. Branches are duplicate-free and are exactly the branches of that year's users, with no `user_type` filter |
| `Directory.BranchDetails` | app.py:124-132 | Topper is absent exactly when no user of (year, branch) has the flag; otherwise it is the first such user in table order. Sections are duplicate-free and are exactly the sections of (year, branch) |
| `Directory.Views` | app.py:138 | The list comprehension of `to_dict` keeps length and position |
| `Directory.SectionStudents` | app.py:134-138 | Lists the view of every user matching (year, branch, section) and nothing else. It is empty exactly when nobody matches, which is not an error |
| `Directory.SectionStudentsAppend` | app.py:137-138 | The listing keeps table order: listing `us + vs` gives the listing of `us` followed by that of `vs` |
| `Directory.SectionStudentsOfOne` | app.py:137-138 | A one-row table lists that row exactly when it is in the section |
| `Directory.ViewsAppend` | app.py:138 | Mapping `to_dict` over `a + b` gives the mapping of `a` followed by that of `b` |
| `Directory.Profile` | app.py:140-144 | 404 exactly when no user has the roll number; otherwise the view of the first user with it |
| `Directory.ProfileOfUniqueRoll` | app.py:140-144 | When roll numbers are unique, the profile of a user's roll number is that user's view |
| `Directory.AllBranches` | app.py:165-169 | Duplicate-free, and holds exactly the branches of all users |
| `Server.Credentials` | app.py:79-81 | No credentials exactly when the body is JSON `null`, or the roll number or password is missing, null or empty; otherwise both are the body's non-empty values |
| `Server.Authenticate` | app.py:83-84 | A login picks the first row with the roll number, and only when the password verifies against that row's hash. It picks none exactly when no row has the roll number or the password fails against the first such row |
| `Server.AuthenticateSucceedsIff` | app.py:83-84 | When roll numbers are unique, a login succeeds if and only if some user has the roll number and the password verifies against that user's hash |
| `Server.Patched` | app.py:152-160 | A profile edit changes no column outside the four editable ones |
| `Server.PatchedWritesPresentKeys` | app.py:153-160 | Each editable key present in the body is written, with null clearing the column. An absent key keeps the stored value |
| `Server.PatchedIgnoresOtherKeys` | app.py:153-160 | Two bodies that agree on the editable keys make the same edit, so any other key is ignored |
| `Server.PatchedIdempotent` | app.py:153-160 | Applying the same edit twice stores the same row as applying it once |
| `Server.UserTypeIsNotEditable` | app.py:149-160 | A body carrying `user_type: "current"` and `phone_number: "123"` changes only the phone number |
| `Server.ReplaceKeepsUnique` | app.py:27-29 | Replacing a row by one with the same roll number and email keeps both columns unique |
| `Server.App.constructor` | app.py:25-41 | The app starts from a table whose roll numbers and emails are unique, with no session and no guide flag |
| `Server.App.Login` | app.py:77-92 | Missing credentials give 400, and an unknown roll number or wrong password gives 401; neither changes anything. A success sets the session to the matched row. If that row was new, `is_new` becomes false and `show_guide` becomes true; otherwise neither changes. No other row or column changes, and no row returns to `is_new` |
| `Server.App.Logout` | app.py:94-98 | Without a session, 401. With one, the session ends. The table and `show_guide` are untouched, and the app's invariant is kept |
| `Server.App.Status` | app.py:100-104 | Reports logged-in exactly when a session exists, and then the session user's view |
| `Server.App.ClearGuide` | app.py:171-174 | Clears `show_guide` with or without a session, answers 204 and changes nothing else |
| `Server.App.UpdateProfile` | app.py:146-163 | Without a session, 401. For a user who is not graduated, 403. For a body that is JSON `null`, 500. None of these changes anything. Otherwise only the session user's row changes, by the whitelisted edit, and the reply is its new view |
| `Server.App.Gated` | app.py:19-22 | A login-required endpoint fails exactly when there is no session, with `LoginRequired` and status 401; otherwise it gives the query's answer |
| `Server.App.BatchesEndpoint` | app.py:107-111 | 401 exactly when there is no session; otherwise the answer of `Directory.Batches` |
| `Server.App.BatchEndpoint` | app.py:113-122 | 401 exactly when there is no session; otherwise the answer of `Directory.BatchDetails` |
| `Server.App.BranchEndpoint` | app.py:124-132 | 401 exactly when there is no session; otherwise the answer of `Directory.BranchDetails` |
| `Server.App.SectionEndpoint` | app.py:134-138 | 401 exactly when there is no session; otherwise the answer of `Directory.SectionStudents` |
| `Server.App.AllBranchesEndpoint` | app.py:165-169 | 401 exactly when there is no session; otherwise the answer of `Directory.AllBranches` |
| `Server.App.ProfileEndpoint` | app.py:140-144 | Without a session, 401. With one, the answer of `Directory.Profile`: 404 exactly when no user has the roll number, otherwise the first match's view |
| `Models.OrPlaceholder` | models.py:58-61 | `value or placeholder` gives the placeholder for null or empty and the stored text otherwise. It gives the placeholder exactly when the stored text is blank or equals the placeholder, and it is never empty when the placeholder is non-empty |
| `Models.User.constructor` | models.py:32-43 | Stores the required columns as given and the password only as its hash. Keyword columns are stored as given; by default the contact fields are null, the honour flags false and `is_new` true |
| `Models.User.ToDict` | models.py:48-63 | Passes roll number, name, email, type, year, branch, section and cgpa through. A blank contact field becomes "Not added yet" and a blank quote becomes the fixed quote; otherwise the stored text is kept. The three contact fields and the quote of the view are never empty |
| `Models.User.CheckPassword` | models.py:45-46 | A candidate passes exactly when bcrypt verifies it against the stored hash; only the hash field is read |
| `Models.CheckPasswordSeesOnlyHash` | models.py:45-46 | Two users with the same hash accept the same candidate passwords |
| `Models.ToDictHidesSecrets` | models.py:48-63 | The view does not depend on the hash, `is_new` or the honour flags |
| `Models.PlaceholderIsAmbiguous` | models.py:58-61 | Each contact field shows "Not added yet", and the quote shows the fixed quote, exactly when the stored value is null, empty or that same text |

## Left out

- HTTP routing, JSON encoding, response messages and `render_template` are not modelled. Outcomes are `Reply`/`Failure` values whose `Status()` gives the HTTP code; `Gated` and `ProfileEndpoint` state the codes they answer with.
- The database (SQLAlchemy/SQLite) and `db.session.commit` are not modelled. The table is a sequence in insertion order, and a change is visible as soon as it is made.
- The database's row order for `DISTINCT` is left out. The model lists values in order of first occurrence, but contracts state only "no duplicates" and which values appear.
- The row that `.first()` (app.py:83, 116, 127) and `first_or_404` (app.py:143) return is unspecified in SQL, since the queries have no `ORDER BY`. The model takes the first matching row in insertion order.
- bcrypt's hashing and salting are left out. Both calls are parameters, and `verifies(hash(p), p)` is not assumed.
- flask_login's session machinery and `load_user` are left out. The session is an optional row index, which is sound because rows are never deleted.
- Concurrent requests are not modelled, including two first logins of one user racing; requests run one at a time.
- `cgpa` is a float column. It is passed through as an opaque `Option<real>`, and no arithmetic is done on it.
- The `is_new` and honour-flag defaults of `Models.User.constructor` are column defaults that the database applies at INSERT. On a freshly constructed, unflushed object those attributes are `None`; the model folds the INSERT defaults into the constructor's default parameter values.
- The `setattr` loop over `**kwargs` in models.py is modelled as named optional constructor parameters. A keyword that names any other attribute (for example `password_hash` or `id`) is not modelled.
- JSON bodies that are not objects, and JSON values that are not strings or null, are not modelled. Flask's rejection of a non-JSON content type is not modelled either.
- The honour-flag columns and `is_new` are nullable in app.py. They are modelled as booleans, taking their defaults (`False` for the flags, `True` for `is_new`). A NULL `is_new`, which would skip the flip and the guide at app.py:86, is not modelled.
- "At most one best outgoing student per batch" and "at most one topper per (batch, branch)" are not modelled. The code never enforces them and just takes the first match.
- The seeding script (populate_db.py), the migration wiring (main.py) and the `/` page are not modelled.
