# User and organisation management API: a Dafny model

The repository is an Express and Sequelize service. Users register and log in
and receive a signed access token. They belong to organisations through a
many-to-many membership relation, and they read users and organisations
subject to membership rules. The repository holds two parallel
implementations of the same API:

- the `src/` tree (spelled "Organisation"): `src/controllers/auth.js`,
  `organisations.js`, `user.js` and the model `src/models/user.js`;
- the root tree (spelled "Organization"): `controllers/authController.js`,
  `organisationController.js`, `userController.js` and the models
  `db/models/user.js` and `db/models/organisation.js`.

This project models the decision logic of both controller sets against an
abstract identity store, together with the field validators of the user and
organisation models. The store is a class with three collections:
`users: map<UserId, User>`, `orgs: map<OrgId, Org>` and
`members: set<(UserId, OrgId)>`.

- Controller actions that write to the store are methods of `Store`: register,
  create an organisation, and add a user to an organisation. Each method's
  `ensures` gives the new value of all three collections in every branch.
- Read-only actions are functions of the store's collections: login, the two
  organisation reads and the user read.
- Each `Store.Valid()` keeps the store's shape. Users are filed under their
  own userId, organisations under their own orgId, emails are unique and every
  membership row names a stored user and a stored organisation. `Valid()` also
  requires every stored user to satisfy its model's field rules. In the root
  tree it requires every organisation name to pass the Organization model's
  notEmpty rule. In the `src/` tree the Organisation model gives `name` no
  validator (src/models/organisation.js:11), so the non-empty name there comes
  from the controller's `!name` check (src/controllers/organisations.js:136).
- Every action returns a tagged `Response`. The tags are `Created`, `Ok`,
  `BadRequest`, `Unauthorized`, `Forbidden`, `NotFound`, `Invalid` (422),
  `ServerError` and `NoResponse`. `StatusCode` maps each tag to its HTTP
  status.

Modules: `Identity` (identity.dfy) holds the shared records, the symbolic
hasher and token, the responses and the store queries. `FieldRules`
(field_rules.dfy) holds the string tests the validators use. `SrcUserModel`
and `RootModels` hold the validators of each tree. `SrcApi` and `RootApi` hold
the controllers of each tree.

Library calls are modelled abstractly:

- bcrypt is an ideal hash. `Secret` is either `Plain(text)` or `Digest(of)`.
  `Hash(v)` is `Digest(v)`, and `Compare(p, s)` holds exactly when `s` is
  `Digest(Plain(p))`. This is stronger than the bare fact "`Compare(p, Hash(p))`
  holds" (`Identity.CompareHash`): the model also assumes no collisions. The
  model uses that to show that a wrong password or a twice-hashed password
  fails. Salting is abstracted away. A digest is 60 characters long, which is
  bcrypt's output format.
- JWT signing is the constructor `Issue(userId)`.
- validator.js `isEmail` is an uninterpreted `string -> bool`. Each store
  takes it as a constant, and the validators take it as a parameter.
- UUID generation is a parameter, `newUserId` or `newOrgId`. Each such method
  requires the value not to be in use already.

A JSON field that is absent or `null` is `None`.

Validator semantics follow Sequelize:

- A null value in a non-null attribute yields only the notNull item, because
  the other validators do not run on null.
- `notEmpty` rejects a string that is all whitespace, using JavaScript's `\s`
  class.
- The `is` patterns are modelled character by character.
- Default messages take the forms `Validation <validator> on <field> failed`
  and `<Model>.<field> cannot be null`.
- A unique-constraint violation yields the item `<field> must be unique`.
- Validation items are listed attribute by attribute in declaration order.

Where code and tests disagree, the model follows the code:

- test/auth.spec.js:75 expects 422 for a duplicate email. src/controllers/auth.js:19
  answers 400 "User already exists".
- test/auth.spec.js:95-96 expects 400 "Wrong password". src/controllers/auth.js:90-95
  answers 401 "Authentication failed".
- test/unit/models/user.spec.js:64 expects "short" to be rejected. The
  `len: [3, 100]` rule at src/models/user.js:60-63 accepts it
  (`SrcUserModel.FiveCharacterPasswordAccepted`).

Observations the model records:

- In the `src/` login, the two failures carry the same message but different
  bodies. An unknown email gets no `statusCode` field. A wrong password gets
  `statusCode: 401`. A client can therefore tell the two cases apart. In the
  root login both failures are identical.
- The root `getUser` query includes `users` with `where: { userId: loggedInUserId }`.
  Read with each organisation's full member set, the check at
  controllers/userController.js:32-34 means "caller and target share an
  organisation" (`RootApi.BelongsIffSharesOrg`). `RootApi.GetUser` uses that
  reading. If Sequelize's include `where` also narrows `org.users` to the
  matching rows, the check can only find the caller. The rule then grants a
  user access to its own record alone (`RootApi.FilteredIncludeFindsOnlyCaller`).
  The query engine's semantics are not part of this model.
- Adding a user to an organisation is idempotent in the model, in both trees
  (`SrcApi.Store.AddUserToOrganisation` and `RootApi.Store.AddUserToOrganization`),
  because memberships form a set. This is a modelling choice. Neither the junction table of the
  migration nor `src/models/userOrganisation.js` has a unique key on
  (userId, orgId).

## Model

| member | source | states |
|---|---|---|
| Identity.CompareHash | src/models/user.js:78-84 | a plaintext matches the digest the hook stores for it |
| Identity.FieldErrors | src/controllers/auth.js:60-65 | the validation response has one `{field, message}` per validator item, with the same length and order, each taken from the item's path and message |
| Identity.FindByEmail | src/controllers/auth.js:81 | the email lookup finds a user exactly when a stored user has that email; the user found is stored and has that email |
| Identity.FindByEmailFinds | db/models/user.js:37-45 | under the unique email constraint, looking up a stored user's email returns that very user |
| Identity.NewEmailKeepsUnique | db/models/user.js:37-45 | filing a user whose email no stored user has keeps the email column unique |
| Identity.SignupKeepsShape | src/controllers/auth.js:26-39 | adding a user whose email is not taken, a fresh organisation and their one membership keeps ids matching keys, emails unique and every membership row pointing at stored records |
| Identity.MemberOrgs | src/controllers/organisations.js:58-64 | the included organisations are exactly the stored ones paired with the user in a membership row, each projected to orgId, name and description |
| Identity.OrgUsers | db/models/organisation.js:6-11 | an organisation's users are exactly those with a membership row for its orgId |
| SrcUserModel.NameItems | src/models/user.js:20-43 | firstName or lastName passes iff it is non-null, not blank and only ASCII letters and whitespace; every item names that field |
| SrcUserModel.EmailItems | src/models/user.js:44-53 | email passes iff it is non-null, not blank and accepted by isEmail |
| SrcUserModel.PasswordItems | src/models/user.js:54-65 | password passes iff it is non-null, not blank and 3 to 100 characters long, despite the six-character message |
| SrcUserModel.PhoneItems | src/models/user.js:66-75 | phone passes iff it is null or only digits, '+', '-' and whitespace |
| SrcUserModel.SignupItems | src/models/user.js:6-76 | a signup yields no validation item iff all five field rules hold |
| SrcUserModel.BeforeCreate | src/models/user.js:78-84 | the hook changes only the password, and Compare(plaintext, stored) holds afterwards |
| SrcUserModel.Stored | src/models/user.js:9-19 | the inserted row has the generated userId and the signup's email, satisfies the stored-user rules and matches the registered password |
| SrcUserModel.FiveCharacterPasswordAccepted | src/models/user.js:60-63 | the password "short" passes validation |
| RootModels.RequiredTextItems | db/models/user.js:23-36 | a non-null notEmpty attribute passes iff present and not blank, with Sequelize's default messages; every item names that field |
| RootModels.EmailItems | db/models/user.js:37-45 | email passes iff non-null, not blank and accepted by isEmail |
| RootModels.PasswordItems | db/models/user.js:46-53 | the value handed to create passes iff it is present, not blank and 8 to 100 characters long; an absent one gets "User.password cannot be null" |
| RootModels.PhoneItems | db/models/user.js:54-59 | phone passes iff absent or one or more digits only |
| RootModels.UserItems | db/models/user.js:16-60 | a draft yields no validation item iff all field rules of the User model hold |
| RootModels.Stored | db/models/user.js:64-69 | the inserted row satisfies the stored-user rules, and its password is a digest of the value received, never that value |
| RootModels.DigestPassesPasswordRules | db/models/user.js:46-53 | any value handed over already hashed passes the password rules, whatever plaintext it came from |
| RootModels.PlainPasswordRules | db/models/user.js:46-53 | on a plaintext the password rules demand a non-blank string of 8 to 100 characters |
| RootModels.OrgItems | db/models/organisation.js:15-32 | an organisation passes iff its name is non-null and not blank; description is unconstrained |
| RootModels.DefaultOrgNameAccepted | controllers/authController.js:22-27 | the default name `firstName + "'s Organization"` always passes the Organization validators |
| SrcApi.Store.Register | src/controllers/auth.js:12-72 | a taken email gives 400 "User already exists" and no change; invalid fields give 422 with the validator items and no change; otherwise one user with the hashed password, one org named `firstName + "'s Organisation"` with description `firstName + "'s default organisation"`, and the one membership are added, and the answer is 201 with Issue(userId) and the public user |
| SrcApi.Login | src/controllers/auth.js:76-115 | success iff a stored user has the email and Compare holds, answering 200 with Issue(userId) and the public user; an unknown email gives 401 "Authentication failed" without a statusCode field; a wrong password gives the same message with statusCode 401 |
| SrcApi.RegisteredUserCanLogIn | src/controllers/auth.js:81-99 | a user stored by register logs in with the registered password and is issued a token for its userId |
| SrcApi.GetAllOrganisations | src/controllers/organisations.js:50-90 | an unknown userId gives 404 "User not found"; otherwise 200 with exactly the views of the organisations that user belongs to |
| SrcApi.CreatedOrganisationNotListed | src/controllers/organisations.js:143-147 | an organisation created by createOrganisation is not among its creator's organisations |
| SrcApi.GetOrganisationById | src/controllers/organisations.js:93-126 | 200 with the organisation's three fields iff the orgId exists, else 404 "Organisation not found"; there is no membership check |
| SrcApi.Store.CreateOrganisation | src/controllers/organisations.js:132-162 | a missing or empty name gives 400 "Name is required" and no change; otherwise exactly one organisation with the given name and description is added, no membership is added, and the answer is 201 with its view |
| SrcApi.Store.AddUserToOrganisation | src/controllers/organisations.js:165-200 | a missing organisation gives 404 "Organisation not found" whatever the user; then a missing user gives 404 "User not found"; otherwise the only change is the membership (userId, orgId), answered 200; the caller is not checked |
| SrcApi.GetUserById | src/controllers/user.js:3-26 | 200 with exactly userId, names, email and phone iff the user exists, else 404 "User not found"; there is no caller check |
| RootApi.RegisterDraft | controllers/authController.js:11-20 | the password handed to User.create is Hash(plaintext), never the plaintext |
| RootApi.Store.CreateAccount | controllers/authController.js:13-32 | invalid fields or a taken email give 400 "Registration unsuccessful" with the items and no change; otherwise the user, the org named `firstName + "'s Organization"` with description `"Organization of " + firstName`, and the membership are added |
| RootApi.Store.Register | controllers/authController.js:8-61 | there is no email pre-check; a duplicate fails only through the unique constraint with 400; a missing password gets no response; success stores Hash(Hash(plaintext)) and answers 201 with Issue(userId) and the public user |
| RootApi.Store.RegisterHashedOnce | controllers/authController.js:12-20 | the corrected register: with the controller's hash gone, a missing password reaches the validators and is answered 400 with "User.password cannot be null"; a plaintext outside 8..100 characters is answered 400 with the len item; otherwise the validators, unique email and success branches are those of register, and the stored password is Hash(plaintext) |
| RootApi.LengthItemReported | db/models/user.js:51 | a plaintext outside 8..100 characters puts the len item in the error list |
| RootApi.MissingPasswordReported | db/models/user.js:46-48 | a password that is absent in the values handed to create puts "User.password cannot be null" in the error list |
| RootApi.Login | controllers/authController.js:63-108 | success iff a stored user has the email and Compare holds, answering 200 with Issue(userId); both failures give the identical 401 body "Login unsuccessful" |
| RootApi.DoubleHashedUserCannotLogIn | controllers/authController.js:75 | a user whose stored password is Hash(Hash(p)) cannot log in with p |
| RootApi.HashedOnceUserCanLogIn | controllers/authController.js:75-85 | a user whose stored password is Hash(p) logs in with p |
| RootApi.GetAllOrganizations | controllers/organisationController.js:4-37 | 200 with exactly the views of the organisations whose members include the caller |
| RootApi.GetOrganization | controllers/organisationController.js:39-80 | 200 iff the organisation exists and the caller is a member, else the same 404 "Organization not found" |
| RootApi.OrganizationExistenceNotLeaked | controllers/organisationController.js:44-62 | for a non-member, an existing orgId and a missing one get the same answer |
| RootApi.Store.CreateOrganization | controllers/organisationController.js:82-113 | a null or blank name gives 400 "Client error" and no change; otherwise an organisation with the fresh orgId is added and (caller, orgId) becomes a membership, answered 201; a caller without a user record leaves the organisation without a member and gets 400 |
| RootApi.CreatedOrganizationListed | controllers/organisationController.js:87-95 | the organisation created for the caller is among the caller's organisations afterwards |
| RootApi.Store.AddUserToOrganization | controllers/organisationController.js:115-151 | a missing organisation gives 404 "Organization not found" before any user lookup; then a missing user gives 404 "User not found"; otherwise the only change is the membership (userId, orgId), answered 200 |
| RootApi.BelongsIffSharesOrg | controllers/userController.js:21-34 | read with full member sets, the `.some` check holds iff caller and target share an organisation |
| RootApi.FilteredIncludeFindsOnlyCaller | controllers/userController.js:21-34 | if the include narrows each org's users to the caller, the check only ever finds the caller |
| RootApi.GetUser | controllers/userController.js:4-62 | a missing target gives 404 "User not found" first; otherwise 200 with the public user iff the target is the caller or shares an organisation with it, else 403 "You do not have access to this user" |
| RootApi.GetUserAsWritten | controllers/userController.js:2-19 | as written, an existing target is answered 500, because the call at line 19 throws; a missing one gets 404 |
| RootApi.OwnRecordRefusedAsWritten | controllers/userController.js:19 | a user reading its own record gets 200 under the stated rule but 500 from the code as written |

## Findings

| source | as written | input that shows it | evidently intended | confidence | as-written member | corrected member |
|---|---|---|---|---|---|---|
| controllers/userController.js:2 | `require("../utils/generateToken")` binds the module object, which exports `{ generateToken }`, and line 19 calls it as a function; the TypeError is caught and answered 500 | any GET /api/users/:id whose user exists, for instance a user reading its own record | look up the target and apply the self-or-shared-organisation rule (the token is unused) | high, not executed | RootApi.GetUserAsWritten (with RootApi.OwnRecordRefusedAsWritten) | RootApi.GetUser |
| controllers/authController.js:12 | the controller hashes the password and the beforeCreate hook at db/models/user.js:65-68 hashes the result again, so the stored value is Hash(Hash(p)) and bcrypt.compare(p, stored) fails | register with password "password1", then log in with the same email and "password1": 401 | hash once, so that the registered password logs in | high, not executed | RootApi.Store.Register (with RootApi.DoubleHashedUserCannotLogIn) | RootApi.Store.RegisterHashedOnce (with RootApi.HashedOnceUserCanLogIn) |
| db/models/user.js:51 | `len: [8, 100]` is checked against the 60-character digest the controller hands over, so the plaintext's length is never checked | register with password "a": the user is created | reject plaintexts shorter than 8 or longer than 100 characters | high, not executed | RootApi.Store.Register (with RootModels.DigestPassesPasswordRules) | RootApi.Store.RegisterHashedOnce (with RootModels.PlainPasswordRules and RootApi.LengthItemReported) |

## Left out

- HTTP routing, request parsing and app bootstrap (app.js, routes/*.js, src/routes/*.js) are not modelled. This is wiring, not decision logic. It includes the undefined `generateTokenT` in routes/organisation.js and the unauthenticated add-user route in src/routes/organisation.js.
- Token signing, verification and the one-hour expiry (utils/generateToken.js) are not modelled. `Issue(userId)` stands for a signed token. The token middleware's source is not part of this model.
- bcrypt is not modelled as a real cryptographic hash. It is an ideal, unsalted, collision-free `Digest` constructor, because the real library is foreign cryptographic code. The model also omits bcrypt's 72-byte input limit: bcrypt reads only the first 72 UTF-8 bytes of a password, and `src/` passwords may have up to 100 characters (src/models/user.js:61). The source therefore accepts a login password that shares the stored one's first 72 bytes. The model's `Compare` rejects it.
- UUID collisions are not modelled. Each generated id is required to be fresh, which is the generator's guarantee.
- Exceptions from the store are not modelled: a failed connection, a failed insert and the 500 branches of the catch blocks. Only the failures the controllers' own logic produces are modelled. Three of those come from the code as written: `NoResponse` for root register without a password (what the client then sees depends on the Express version, which is not part of this model: under Express 4 on Node 15 or later the unhandled rejection ends the process, under Express 5 the answer is a 500), 400 for root createOrganization whose caller has no user record, and the 500 of as-written `getUser`.
- Sequelize may report validation items in a different order: null-value items first, then the asynchronous validators. The model lists items attribute by attribute.
- The `isUUID` validator on the `src/` userId is not modelled. The id is always a generated UUID.
- Non-string JSON values in request fields are not modelled, nor is Sequelize's string type check. Login's email and password are taken as strings.
- Sequelize may throw on an `undefined` value in the `where` of register's email pre-check, depending on its version. The model treats an absent email like `null`, which finds no user.
- validator.js `isLength` ignores the variation selectors U+FE0E and U+FE0F. The model counts every character.
- The `src/` createOrganisation passes `creatorId: req.user.id`, but src/models/organisation.js declares no such attribute. The model therefore stores no creator.
- db/models/user.js and db/models/organisation.js declare no `primaryKey`, so Sequelize would key both tables by its default integer `id`, and `findByPk(uuid)` would consult that column. The model reads `findByPk` as a lookup by userId or orgId, as the controllers intend. The migrations that create these tables are not part of this model.
- The column width of `DataTypes.STRING` is not modelled. The database stores at most 255 characters, and a longer value makes the insert fail with a database error, which is not a validation error. The model has no such bound. An example is a `src/` signup whose firstName has 241 to 255 letters. The user row is inserted, and then `Organisation.create` (src/controllers/auth.js:35-38) fails on the 256-character or longer default name. The client gets 400 "Registration unsuccessful", and the stored user has no organisation. The model answers 201 and adds all three records.
- SrcApi.Store.Register: requests are modelled one at a time, so the model does not capture two registrations that run concurrently. The duplicate pre-check `User.findOne` (src/controllers/auth.js:17) and `User.create` (line 26) are separate awaits. Two concurrent registrations with the same new email can therefore both pass the pre-check. The second insert then violates the unique email column (src/models/user.js:47). Its `UniqueConstraintError` is a `ValidationError`, so lines 60-65 answer 422 with `[{field: "email", message: "email must be unique"}]`. The contract allows only 201, or 422 with the signup's own validation items, for an email not in the store. The root register has no pre-check and always relies on the constraint, so it is not affected.
- Only the `message` field and, for 401 answers, the `statusCode` field of response bodies are modelled. The `status` strings are left out.
- SrcApi.Store.CreateOrganisation: the 201 body is the whole created instance, which also carries the createdAt and updatedAt timestamps Sequelize adds by default. These are clock-driven and are not modelled. The answer carries orgId, name and description only.
- RootModels.Stored: the hook at db/models/user.js:65-68 reassigns `user.password` on the instance in place. The model computes the inserted row as a value. No other reference to the instance exists before the insert.
- SrcUserModel.BeforeCreate: the hook updates the instance in place. The model applies it as a function to the record value. No other reference to the instance exists before the insert.
- SrcApi.GetAllOrganisations: the organisations are returned as a set. The source returns an array in database order, which is not modelled.
- RootApi.GetAllOrganizations: the organisations are returned as a set. The source returns an array in database order, which is not modelled.
