# krishi_u backend — a Dafny model

krishi_u connects farmers with landlords who have land to lease. Its backend is
a FastAPI service over SQLite. Users register with one of three roles (admin,
farmer, landlord). A farmer or a landlord may then register one profile. An
admin connects a farmer profile with a landlord profile; such a connection is a
*space*. Crops are grown in spaces, and each crop has uploaded proofs of its
steps.

This project models the decision logic of that backend and proves properties
about it:

- `backend/db.py`: the six tables and their constraints and cascades, and the
  `JSONEncodedList` column type. The codec's round trip is proved:
  `json.loads(json.dumps(xs)) == xs` for every list of strings.
- `backend/validators.py`: the user lookups and the field checks.
- `backend/security.py`: token claims and expiry, and the Bearer header check.
- `backend/main.py`: the route handlers. Handlers that change the database
  are methods on the store. Handlers that only read are functions of the
  tables they read.

Modules, one per file:

| module | file | what it holds |
|---|---|---|
| `Wrappers`, `Http` | wrappers.dfy | `Option`, `Result`, and the HTTP error of a failed request (`Crash` is an uncaught exception, answered with 500) |
| `JsonList` | json_list.dfy | `json.dumps` / `json.loads` for lists of strings, and `process_bind_param` / `process_result_value` |
| `Tables` | tables.dfy | a table as a sequence of rows in rowid order: key allocation, `.first()`, `filter`, delete, update |
| `Schema` | schema.dfy | the row types, the table invariants, and lemmas on what each insert, delete and update keeps |
| `Database` | store.dfy | class `Store`: the session, whose tables change in place through add, delete (with cascades) and update |
| `Validators` | validators.dfy | validators.py |
| `Security` | security.dfy | security.py |
| `Api` | api.dfy | the handlers of main.py |

A table is a `seq<Row<T>>` in rowid order. A new row gets the largest key in
use plus one, as SQLite does for an `INTEGER PRIMARY KEY` without
`AUTOINCREMENT`. `.first()` is the first match in that order.

The store carries three invariants:

- `Store.Valid` is what SQLite itself enforces: keys increase and emails are
  unique.
- `Store.Consistent` adds what the handlers keep: one profile of each kind per
  user, every profile owned by a stored user, and every space made by a stored
  admin.
- `Store.ReferencesIntact` says that crops point at stored spaces and proofs at
  stored crops. SQLite does not enforce foreign keys here, so the model proves
  that the deletes keep this invariant when it already held.

Every mutating handler requires `Consistent` and ensures it.

Every route behind `Depends(validate_token_from_header)` is modelled from the
point where that dependency has succeeded: the handler receives the claims the
token carried. The 401 answers for a missing header, a wrong prefix or a token
that does not verify belong to `Security.ValidateTokenFromHeader` and
`Security.VerifyToken` alone. `Api.DashboardStats`, which reads no claim, is
such a route too.

## Model

| member | source | states |
|---|---|---|
| JsonList.QuoteString | backend/db.py:37 | a string item is written as a double-quoted literal made only of printable ASCII characters |
| JsonList.DumpsIsPrintableAscii | backend/db.py:37 | with `ensure_ascii`, the stored text of any list contains printable ASCII only |
| JsonList.EscapeStringRoundTrip | backend/db.py:35-43 | parsing the escaped form of any string, followed by its closing quote and any rest, gives back the string and the rest; this includes characters above U+FFFF, written as surrogate pairs |
| JsonList.QuoteStringReadsBack | backend/db.py:35-43 | every quoted item reads back as itself, whatever follows it |
| JsonList.JoinQuotedRoundTrip | backend/db.py:35-43 | a non-empty `", "`-joined run of item literals, followed by `]`, parses back to exactly those items |
| JsonList.Dumps | backend/db.py:37 | the text is a JSON array, opening with `[` and closing with `]`; its inverse is `Loads`, by DumpsRoundTrip |
| JsonList.Loads | backend/db.py:42 | only a document whose first non-blank character is `[` is accepted; it undoes `Dumps`, by DumpsRoundTrip |
| JsonList.LoadsEmptyList | backend/db.py:67 | the column default `[]` reads back as the empty list |
| JsonList.DumpsRoundTrip | backend/db.py:35-43 | `json.loads(json.dumps(xs)) == xs` for every list of strings, the empty list included |
| JsonList.ProcessBindParam | backend/db.py:35-38 | `None` is stored as `None`, and any list is stored as text |
| JsonList.ProcessResultValue | backend/db.py:40-43 | a stored `None` reads as `None`, and stored text reads as a list or fails |
| JsonList.ColumnRoundTrip | backend/db.py:35-43 | a value bound to the column and read back is the same value, `None` included |
| Tables.NextId | backend/db.py:50 | a new primary key is at least 1 and above every key in use, so it is unused |
| Tables.Insert | backend/main.py:176-178 | `db.add(row); db.commit()` keeps every stored row in place and appends the new row under the next key |
| Tables.First | backend/validators.py:12 | `.first()` gives nothing exactly when no row matches; otherwise a stored matching row with no match before it |
| Tables.FindFirst | backend/validators.py:12 | `.first()` gives the first row in rowid order that matches; it gives nothing exactly when no row matches |
| Tables.Where | backend/main.py:251 | `filter(...).all()` keeps exactly the matching rows, each taken from the table |
| Tables.Delete | backend/main.py:263-264 | deleting a row keeps every row with another key and no row with that key |
| Tables.Update | backend/main.py:311-313 | assigning columns and committing keeps the length and every key; only the row with that key gets the new columns |
| Tables.DeleteStoredRow | backend/main.py:263-264 | when keys increase and the key is stored, a delete removes exactly one row |
| Tables.WhereKeepsPairwise | backend/db.py:50-51 | filtering keeps any relation that holds between every pair of rows (increasing keys, unique emails, one profile per user) |
| Tables.InsertKeepsOrder | backend/db.py:50 | appending under the next key keeps keys increasing |
| Tables.FindFirstSameMatches | backend/main.py:307 | two tables whose rows match at the same positions have the same first match |
| Schema.UserByEmail | backend/validators.py:8 | the user found has that email and is stored; none is found exactly when no user has it |
| Schema.UserByEmailUnique | backend/db.py:51 | under the unique email constraint, the lookup returns the one user with that email |
| Schema.UserById | backend/main.py:164 | the user found has that key; none is found exactly when no user has it |
| Schema.FarmerOfUser | backend/main.py:170 | the farmer profile found belongs to that user; none is found exactly when the user has none |
| Schema.LandlordOfUser | backend/main.py:196 | the landlord profile found belongs to that user; none is found exactly when the user has none |
| Schema.CropsOfSpace | backend/db.py:99 | the crops `Space.crops` loads: exactly the ids of the crops whose `space_id` is the space |
| Schema.CropsWithoutSpace | backend/db.py:99 | the cascade from a deleted space keeps exactly the crops outside that space |
| Schema.ProofsWithoutCrops | backend/db.py:119 | the cascade from deleted crops keeps exactly the proofs of other crops |
| Schema.InsertUserKeepsEmailsUnique | backend/db.py:51 | adding a user whose email is unused keeps emails unique |
| Schema.InsertFarmerKeepsOnePerUser | backend/db.py:55 | adding a farmer profile for a user without one keeps at most one farmer profile per user |
| Schema.InsertLandlordKeepsOnePerUser | backend/db.py:56 | the same for landlord profiles |
| Schema.DeleteFarmerKeepsOnePerUser | backend/db.py:55 | deleting a farmer profile keeps at most one per user |
| Schema.DeleteLandlordKeepsOnePerUser | backend/db.py:56 | deleting a landlord profile keeps at most one per user |
| Schema.DeleteSpaceKeepsReferences | backend/db.py:99-127 | after a space, its crops and their proofs are deleted, every crop still points at a stored space and every proof at a stored crop |
| Schema.DeleteCropKeepsReferences | backend/db.py:119-127 | after a crop and its proofs are deleted, the crops and proofs still point at stored rows |
| Schema.DeleteSpaceKeepsAdmins | backend/db.py:92 | after a space is deleted, every space still has a stored admin |
| Schema.InsertSpaceKeepsAdmins | backend/db.py:92 | a new space whose admin is stored keeps every space's admin stored |
| Schema.InsertSpaceKeepsReferences | backend/db.py:115 | a new space keeps every crop that names a space pointing at a stored one |
| Schema.InsertCropKeepsReferences | backend/db.py:115 | a new crop whose space, if any, is stored keeps every crop pointing at a stored space and every proof at a stored crop |
| Schema.InsertProofKeepsReferences | backend/db.py:127 | a new proof of a stored crop keeps every proof pointing at a stored crop |
| Schema.InsertProfileKeepsUsers | backend/db.py:64-76 | a new profile owned by a stored user keeps every profile's owner stored |
| Schema.InsertUserKeepsReferences | backend/db.py:64-92 | adding a user keeps every profile owner and every space admin stored |
| Schema.DeleteProfileKeepsUsers | backend/db.py:64-76 | deleting a profile keeps every remaining profile's owner stored |
| Schema.UpdateFarmerKeepsLinks | backend/db.py:55 | rewriting one farmer profile without changing its user keeps one profile per user, each owned by a stored user |
| Schema.UpdateLandlordKeepsLinks | backend/db.py:56 | the same for a landlord profile |
| Database.Store.constructor | backend/db.py:136-138 | `create_all` gives empty tables, and the empty store is consistent with intact references |
| Database.Store.AddUser | backend/db.py:51 | a row whose email is already stored is refused and nothing changes; otherwise the user is appended under the next key, and consistency is kept |
| Database.Store.AddFarmer | backend/main.py:176-178 | the profile is appended under the next key; the store stays consistent when the owner is stored and has no farmer profile |
| Database.Store.AddLandlord | backend/main.py:203-205 | the landlord counterpart of AddFarmer |
| Database.Store.AddSpace | backend/main.py:237-239 | the space is appended under the next key; the store stays consistent when its admin is stored, and references stay intact |
| Database.Store.AddCrop | backend/db.py:107-116 | the crop is appended under the next key; references stay intact when its space, if it names one, is stored |
| Database.Store.AddProof | backend/db.py:122-130 | the proof is appended under the next key; references stay intact when its crop is stored |
| Database.Store.DeleteSpace | backend/db.py:99-119 | the space is removed, with every crop in it and every proof of those crops; consistency and reference integrity are kept |
| Database.Store.DeleteCrop | backend/db.py:119 | the crop is removed with its proofs; reference integrity is kept |
| Database.Store.DeleteFarmer | backend/main.py:279-280 | exactly that profile is removed, spaces are untouched, and consistency is kept |
| Database.Store.DeleteLandlord | backend/main.py:294-295 | the landlord counterpart of DeleteFarmer |
| Database.Store.UpdateFarmer | backend/main.py:311-313 | for a rewrite that keeps the profile's owner (the precondition every caller meets), the profile's columns are replaced in place and consistency is kept |
| Database.Store.UpdateLandlord | backend/main.py:330-333 | the landlord counterpart of UpdateFarmer |
| Validators.ValidateUserRegistration | backend/validators.py:6-8 | true exactly when some stored user has the email |
| Validators.ValidateUserLogin | backend/validators.py:10-13 | true only if a user has that email and that password (plain equality); false when no user has the email |
| Validators.ValidateUserLoginExactly | backend/validators.py:10-13 | with unique emails: true exactly when some user has both that email and that password |
| Validators.ValidateFarmerDetails | backend/validators.py:16-20 | fails exactly when acres < 1, with "Acres must be a positive number."; otherwise true |
| Validators.FarmerExperienceIgnored | backend/validators.py:16-20 | the outcome does not depend on `previous_experience` |
| Validators.ValidateLandlordDetails | backend/validators.py:23-29 | fails exactly when acres < 1 or the land type or location is empty; the acres message wins when both apply |
| Validators.IsAdmin | backend/validators.py:32-35 | true only if the user with that email has role "admin"; false when no user has the email |
| Validators.IsAdminExactly | backend/validators.py:32-35 | with unique emails: true exactly when some user with that email has role "admin" |
| Security.Encode | backend/security.py:27-33 | the claims are the input plus "exp", and every other input claim is copied unchanged; "exp" is now plus the delta, or plus the default lifetime when the delta is missing or zero |
| Security.CreateAccessToken | backend/security.py:26-34 | the claims are copied and "exp" is added; it expires 30 minutes after now by default, or after an explicit non-zero delta |
| Security.CreateRefreshToken | backend/security.py:37-45 | the same, with a default of 7 days |
| Security.ZeroDeltaIsDefault | backend/security.py:28 | a zero `expires_delta` is falsy, so it behaves exactly like no delta |
| Security.VerifyToken | backend/security.py:48-54 | a token that does not decode gives 401 "Invalid token or Token Expired"; otherwise the decoded payload |
| Security.ValidateTokenFromHeader | backend/security.py:58-64 | a missing header gives 401 "Authorization header is missing"; a header not starting with "Bearer " gives 401 "Invalid token prefix"; success means the header was "Bearer " plus a token that decodes to the result |
| Security.BearerTokenPassedOn | backend/security.py:64 | the token verified is exactly what follows the seven-character prefix |
| Security.LowerCaseBearerRejected | backend/security.py:61-63 | the prefix match is case-sensitive: "bearer " is refused |
| Api.ClaimedUser | backend/main.py:166 | the user found by the token's email claim is stored and has that email; a registered email is always found |
| Api.CallerIsAdmin | backend/main.py:213 | 500 exactly when the claims carry no email; true only when the user with the claimed email is an admin |
| Api.RegisterUser | backend/main.py:47-58 | a taken email gives 400 before the role check; an unknown role gives 400; a fresh email with a known role always succeeds; on failure nothing changes; on success exactly one user is appended and echoed with its new id |
| Api.SessionClaims | backend/main.py:72-73 | the claims of both session tokens are exactly the user's email and role, so they carry no "sub" |
| Api.LoginUser | backend/main.py:61-85 | 401 "Invalid credentials" exactly when the login check fails; on success the user with that email and password is returned, and both tokens carry its email and role |
| Api.RegisterThenLogin | backend/main.py:47-85 | a user who has just registered can log in with the same email and password and gets the new id |
| Api.LoginUnaffectedByOtherUsers | backend/main.py:54-63 | registering a user changes no login result, except a login with the new user's email when that email was not stored before |
| Api.RefreshTokenAsWritten | backend/main.py:90-108 | the refresh route as written: an undecodable token gives 401, an empty payload gives 401 "Invalid refresh token", a payload whose "sub" names no stored user gives 401 "User not found"; otherwise the new access token carries only the "sub" of that user |
| Api.RefreshAsWrittenRefusesLoginTokens | backend/main.py:72-101 | every refresh token that login issues is refused with 401 "User not found" |
| Api.RefreshToken | backend/main.py:90-108 | the refresh route as intended: an undecodable token gives 401, an empty payload gives 401 "Invalid refresh token", a payload whose "email" names no stored user gives 401 "User not found"; otherwise the new access token carries the email and role of the user that "email" names |
| Api.RefreshAcceptsLoginTokens | backend/main.py:72-108 | a login's refresh token yields the same access token that login would issue now |
| Api.FarmerAcres | backend/main.py:119-122 | the summed farmer capacity is at least the number of farmers when every farmer has at least one acre, as registration demands |
| Api.LandlordAcres | backend/main.py:120-123 | the summed landlord acres are at least the number of landlords when every landlord has at least one acre |
| Api.DashboardStats | backend/main.py:113-136 | the counts of the three tables; connections always equal spaces; total acres is farmer capacity plus landlord acres |
| Api.DashboardAfterNewFarmer | backend/main.py:113-136 | a new farmer profile adds one farmer and its acres, and nothing else |
| Api.DashboardAfterNewLandlord | backend/main.py:113-136 | a new landlord profile adds one landlord and its acres, and nothing else |
| Api.DashboardAfterRemoveSpace | backend/main.py:113-136 | removing a stored space lowers both the space and the connection count by one |
| Api.GetAllFarmers | backend/main.py:141-147 | allowed exactly for the farmer and admin roles, and then returns every farmer profile; other roles get 400; a missing role is 500 |
| Api.GetAllLandlords | backend/main.py:151-156 | allowed exactly for the landlord and admin roles, and then returns every landlord profile; other roles get 400 |
| Api.ProfileOwner | backend/main.py:161-168 | whose profile is registered: an admin names a user by a non-zero id, and a farmer or landlord names themself; a farmer or landlord whose email is found always gets their own id; other roles get 400, an admin without an id gets 400, and a user not found is 500 |
| Api.RegisterFarmer | backend/main.py:160-181 | the owner is resolved, then an existing profile gives 400 "Farmer already exists", then fewer than one acre is a 500 (the validator's error escapes); only on success is one profile appended |
| Api.RegisterLandlord | backend/main.py:185-208 | the same for landlords, with the landlord validator as a 500; the images are stored as JSON |
| Api.RegisteredImagesReadBack | backend/db.py:81 | the image list a landlord registers reads back unchanged from the stored column |
| Api.RegisterAdmin | backend/main.py:212-223 | a non-admin caller gets 403 before the email check; a taken email gives 400; otherwise a user with role "admin" is appended |
| Api.NewConnection | backend/main.py:227-240 | a non-admin gets 403 before any lookup; a missing farmer or landlord profile gives 404; otherwise the space holds the two profile ids found by user id, and the id of the calling admin |
| Api.ConnectFarmerLandlord | backend/main.py:227-242 | the space is appended only on success, under the next key, which is returned; on failure nothing changes; consistency and reference integrity are kept |
| Api.SpacesOf | backend/main.py:251 | exactly the stored spaces whose `admin_id` is the user |
| Api.GetUserSpaces | backend/main.py:246-252 | 404 exactly when no user has the id; otherwise the number of spaces that user created |
| Api.ConnectCountsForItsAdmin | backend/main.py:237-252 | a new connection adds one to its admin's space count and nothing to anyone else's |
| Api.RemoveSpace | backend/main.py:256-267 | a non-admin gets 403; a missing space gives 404; otherwise the space is removed with its crops and proofs, and the space count drops by one |
| Api.DeleteFarmer | backend/main.py:271-282 | a non-admin gets 403; a missing profile key gives 404; otherwise exactly that profile is removed |
| Api.DeleteLandlord | backend/main.py:286-297 | the landlord counterpart of DeleteFarmer |
| Api.ProfileEditDenied | backend/main.py:302-304 | editing is allowed exactly to an admin, or to the user whose profile it is; otherwise 401 |
| Api.UpdateFarmer | backend/main.py:301-317 | a token without an email or role claim is 500; any other refused caller gets 401; a user without a farmer profile gives 404; otherwise that one profile's acres are replaced in place |
| Api.UpdatedFarmerReadsBack | backend/main.py:307-314 | after the update, looking the profile up again finds the new columns under the same key |
| Api.UpdateLandlord | backend/main.py:320-336 | the same for landlords: land type, acres and location are replaced |
| Api.UpdatedLandlordReadsBack | backend/main.py:325-333 | after the update, the landlord profile reads back with the new columns under the same key |
| Api.DeleteCrop | backend/main.py:421-431 | a missing role is 500; roles other than admin and farmer get 401; a missing crop gives 404; otherwise the crop is removed with its proofs, and reference integrity is kept |

## Left out

- The React frontend (`krishi_u/src`): it is user interface and network calls.
- `upload_images`: file I/O, uuid generation and a fixed URL.
- The static mount, CORS middleware, `get_db`, and the startup hook: these are plumbing.
- The Alembic migration: it repeats the schema of db.py.
- `add_crop`, `get_crop` and `update_crop`: `add_crop` and `update_crop` write, and `get_crop` reads, columns that the `crops` table does not have (`images`, `farmer_id`). Crops and proofs enter the model only through `Store.AddCrop` and `Store.AddProof`.
- The JSON columns `Space.progress` and `Crop.steps`: nothing in the core reads or writes them.
- JWT signing and decoding (jose, HS256) and bcrypt: a token is represented by its claims. Reading a client-sent string back into claims is the parameter `decode`, which fails on a bad signature or an expired token. `hash_password` and `verify_password` are never called.
- Integer width: SQLite's driver binds a Python `int` as a signed 64-bit value, and an `INTEGER` column holds no more. A path id or an acres value of magnitude 2^63 or more raises `OverflowError`, which escapes as a 500, and nothing is stored. The model's `int` and `nat` are unbounded, so it answers as if such values fit. This applies to the ids of Api.GetUserSpaces, Api.ConnectFarmerLandlord, Api.RemoveSpace, Api.DeleteFarmer, Api.DeleteLandlord, Api.UpdateFarmer, Api.UpdateLandlord and Api.DeleteCrop, and to the acres of Api.RegisterFarmer, Api.RegisterLandlord, Api.UpdateFarmer and Api.UpdateLandlord.
- Time: the clock is an integer parameter counting whole seconds, and sub-second precision is not modelled.
- JsonList.Loads: it parses only JSON arrays of strings. Other JSON values, and a lone `\uD800`-style surrogate, are refused. The model's strings cannot hold a lone surrogate, so `json.dumps` never writes one.
- Api.ClaimedUser: a claim that is not a string finds no user. SQLite's type affinity for comparing such a claim with the email column is not modelled.
- Schema columns: `users.email`, `role`, `password`, `farmer_details.user_id`, `landlord_details.user_id`, `soil_type`, `location`, `landlord_details.acres` and `land_handling_capacity` are modelled as always set. SQLAlchemy allows them to be NULL.
- Api.UpdateFarmer: `previous_experience` has no column, so it is not stored. The request's acres become `land_handling_capacity`, as in registration.
- Database.Store.DeleteFarmer and Database.Store.DeleteLandlord: spaces that point at a deleted profile keep its id, because nothing cascades from a profile and SQLite does not enforce the foreign key. The model shows that these deletes keep `Consistent`, which does not cover space-to-profile references.
- Lines that fail on every call are modelled with the evidently intended behaviour, not as a 500:
  - `FarmerDetails(acres=..., previous_experience=...)` (main.py:175) and `FarmerDetails.acres` (main.py:119) name columns the table does not have. The model stores and sums `land_handling_capacity`.
  - `LandlordDetails(land_type=...)` (main.py:202) names a column the table does not have; the model stores the land type as `soil_type`. Lines 201-202 also read `landlord_details.images_list`, but the request's field is `images`; the model stores the request's `images` in the `images_list` column. `update_landlord` (main.py:330) does the same for the land type.
  - `validate_landlord_details` is called with four arguments (main.py:201) but takes three (validators.py:23). The model calls it with three.
  - `update_farmer` and `update_landlord` read `.id` off a query, not off its first row (main.py:302, 322). The model looks the caller up by email. A caller found by no user is refused unless they are an admin.
  - Assigning a non-column attribute on a loaded row stores nothing. Taken literally, `update_farmer` would change no column and `update_landlord` would leave the soil type alone. The model replaces the columns those lines evidently mean.
- Validator failures: the `ValueError` a validator raises is not caught by the handlers, so it becomes a 500 (`Crash`). The model follows the code here. The `else` branches answering 400 "Invalid farmer details" and "Invalid landlord details" (main.py:180-181, 207-208) are unreachable, because the validators never return a false value.

## Findings

| source | as written | input that shows it | evidently intended | confidence | as-written member | corrected member |
|---|---|---|---|---|---|---|
| backend/main.py:96 | `refresh_token` looks the user up by the claim `"sub"`, but login (main.py:72-73) issues tokens that carry only `"email"` and `"role"` (plus `"exp"`); the new access token (main.py:103) would carry only `"sub"`, which the other routes cannot use | any refresh token issued by `/login` for a stored user: the payload has no `"sub"`, no user matches, and the route answers 401 "User not found" | look the user up by `"email"` and issue an access token with that user's email and role, as login does | not executed | Api.RefreshAsWrittenRefusesLoginTokens (on Api.RefreshTokenAsWritten) | Api.RefreshAcceptsLoginTokens (on Api.RefreshToken) |
