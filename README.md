# Agent and pre-order backend, modelled in Dafny

This project models the decision logic of a small Express/Sequelize backend.
Sales agents register and log in. Customers' pre-orders (leads) are submitted
on an agent's behalf, naming the agent by name. An authenticated agent lists
the pre-orders credited to them. Four parts of the backend are modelled:

- **Registration and login** (`routes/agentRoute.js`), in `agent_route.dfy`.
  - Registration fills an error map one field at a time. It then looks up the
    lower-cased e-mail, stores the agent and answers with the token payload
    `{id, email}`.
  - Login is a chain of early returns: missing input, unknown e-mail, wrong
    password, success.
- **Pre-order submission and listing** (`routes/preOrderRoute.js`), in
  `pre_order_route.dfy`.
  - Submission runs, in order: the error map, the price rule, the duplicate
    e-mail check, resolution of the agent from the first two words of
    `agentName`, and the insert.
  - Listing keeps the caller's leads and deletes five attributes from each.
- **The pre-order table's rules** (`models/preOrderModel.js`), in
  `pre_order_model.dfy`.
  - The attribute validators and the `isValidPackage` validator.
  - The status enumeration and its default.
  - The unique e-mail, the `beforeCreate` hook and the `agentId` foreign key.
- **The authentication middleware** (`middleware/Auth.js`), in `auth.dfy`.
  - Token extraction from the header, verification, the agent lookup, and
    either attaching the agent to the request or a 401.

Supporting files:

- `db.dfy`: the database as a class `Store`. It holds the two tables as
  sequences in insertion order, plus the next auto-increment ids. Its
  invariant `TablesValid` covers increasing ids, unique lower-case agent
  e-mails, unique lead e-mails and every lead's owner existing.
- `records.dfy`: the entities and the response shape. It also holds the
  first-match lookups `findOne` / `findByPk`.
- `text.dfy`: JavaScript's `split(" ")` and `toLowerCase`, plus the routes'
  regular expressions written as predicates.
- `wrappers.dfy`: `Option` and `Result`.

Several things the code calls without showing are parameters, bundled in the
`Collaborators` datatype:

- JWT verification (`verify`).
- The agent model's `comparePassword`.
- validator.js's `isEmail` / `isDate`.

A token is represented by its payload. A missing string in a request body is
the empty string, which JavaScript treats as false. A price is "set" when it
is present and not zero.

Three behaviours of the code worth stating up front:

- `authenticateAgent` answers each of its three rejections (no token, a
  token `verify` refuses, a token naming no agent) with its own message.
- It never reads the first word of the `Authorization` header: any scheme,
  or none followed by a space, is accepted.
- Login looks the address up exactly as typed, while registration stores it
  lower-cased (see Findings).

## Model

| member | source | states |
|---|---|---|
| `Text.ToLower` | routes/agentRoute.js:56 | the result has the input's length and lower-cases each ASCII letter in place |
| `Text.ToLowerIsLower` | routes/agentRoute.js:56 | lower-casing yields a lower-case string, leaves lower-case strings alone (iff) and is idempotent |
| `Text.Split` | routes/preOrderRoute.js:57 | `split` on one character always yields at least one piece, and no piece contains the separator |
| `Text.Piece` | routes/preOrderRoute.js:57 | `split(sep)[k]` is undefined past the last piece and never contains the separator |
| `Text.JoinSplit` | routes/preOrderRoute.js:57 | splitting loses nothing: joining the pieces with the separator gives the string back |
| `Text.SplitWithoutSeparator` | middleware/Auth.js:5 | a string without the separator splits into exactly itself |
| `Text.SplitAfterWord` | middleware/Auth.js:5 | a separator-free word followed by the separator is the first piece, and the rest splits on its own |
| `Text.IndexOf` | routes/agentRoute.js:27 | the first position of a character (or the length): the character is there and not before it |
| `Text.IsEmailShape` | routes/agentRoute.js:27 | the registration e-mail pattern: no white space, one `@` with text before it, and a dot after the `@` with text on both sides |
| `Text.IsGhanaPhone` | routes/agentRoute.js:31 | the routes' phone pattern: `+233` followed by exactly nine digits (the same pattern as routes/preOrderRoute.js:27) |
| `Text.EmptyFailsPatterns` | routes/agentRoute.js:26-32 | the empty string matches neither the e-mail pattern nor the `+233` phone pattern |
| `Records.AddError` | routes/agentRoute.js:24 | `errors.k = msg` adds or replaces exactly key `k` and leaves every other entry unchanged |
| `Records.First` | routes/agentRoute.js:59-61 | `findOne` returns a row that satisfies the condition and comes before every other such row, and finds nothing iff no row satisfies it |
| `Records.FirstAppend` | routes/agentRoute.js:69 | appending rows never changes a lookup that succeeded, and a failed lookup then looks only at the new rows |
| `Records.FindAgentByEmail` | routes/agentRoute.js:135 | the agent found has exactly that e-mail; none is found iff no agent has it |
| `Records.FindAgentById` | middleware/Auth.js:16 | `findByPk`: the agent found has that id; none is found iff no agent has it |
| `Records.FindAgentByName` | routes/preOrderRoute.js:57 | the agent found has both names; an undefined last name matches no agent |
| `Records.FindLeadByEmail` | routes/preOrderRoute.js:51 | the order found has that e-mail; none is found iff no order has it |
| `PreOrderModel.PackageValidatorAcceptsExactlyOne` | models/preOrderModel.js:87-91 | `isValidPackage` accepts a package iff exactly one of its two prices is set, and never throws for an absent value |
| `PreOrderModel.StatusOnCreate` | models/preOrderModel.js:71-75 | the status defaults to `potential` when none is given and keeps a given one |
| `PreOrderModel.StatusNamesAreTheEnum` | models/preOrderModel.js:72 | every status is named `active`, `inactive` or `potential`, and no two statuses share a name |
| `PreOrderModel.PackageValidatorThrows` | models/preOrderModel.js:87-91 | `isValidPackage` throws for a present package whose prices are both set or both unset |
| `PreOrderModel.IsE164Phone` | models/preOrderModel.js:29 | the table's phone pattern: an optional `+`, a non-zero digit, then one to fourteen digits |
| `PreOrderModel.IsGpsAddress` | models/preOrderModel.js:49-50 | the table's GPS pattern: two capital letters, a dash, four digits, a dash, four digits |
| `PreOrderModel.GhanaPhoneIsE164` | models/preOrderModel.js:29 | every number the routes accept (`+233` and nine digits) passes the table's phone pattern |
| `PreOrderModel.E164IsWiderThanGhanaPhone` | models/preOrderModel.js:29 | the table's pattern also accepts foreign numbers and numbers without `+`, which the routes refuse |
| `PreOrderModel.GpsAddressFromParts` | models/preOrderModel.js:49-50 | two capital letters, four digits and four digits joined by dashes always match the GPS pattern |
| `PreOrderModel.GpsAddressParts` | models/preOrderModel.js:49-50 | every string the GPS pattern accepts is exactly two capital letters, a dash, four digits, a dash and four digits |
| `PreOrderModel.GpsAddressExamples` | models/preOrderModel.js:49-50 | `AK-0039-5028` matches the GPS pattern; lower-case letters or a short digit group do not |
| `PreOrderModel.ValidationFailures` | models/preOrderModel.js:14-93 | the attributes whose validators fail, each iff its own rule fails (e-mail, phone, GPS address, date, package), all reported together |
| `PreOrderModel.CheckCreate` | models/preOrderModel.js:63-109 | `create` stores the row iff every validator passes, the owner exists and the e-mail is unused; failed validators are reported first; the hook rejects a non-zero `agentId` that names no agent |
| `PreOrderModel.DuplicateEmailNeverStored` | models/preOrderModel.js:14-17 | a row whose e-mail is already in the table is never stored |
| `Db.TablesValid` | models/preOrderModel.js:14-70 | the table invariant: increasing ids below the next one, unique lower-case agent e-mails, unique lead e-mails (the `unique` column) and every lead's `agentId` naming a stored agent (the foreign key) |
| `Db.Store.CreatePreOrder` | models/preOrderModel.js:63-109 | on a refusal nothing changes; otherwise exactly one lead with the next id, status `potential` and both timestamps at `now` is appended; the table invariant is kept |
| `Db.AddAgentKeepsValid` | routes/agentRoute.js:69-79 | adding an agent with the next id and a new lower-case e-mail keeps the tables valid |
| `Db.AddLeadKeepsValid` | models/preOrderModel.js:14-17 | adding a lead with the next id, an unused e-mail and an existing owner keeps the lead table valid |
| `AgentRoute.RegistrationFieldError` | routes/agentRoute.js:24-47 | each field's verdict with the exact message of its `if` / `else if` chain |
| `AgentRoute.RegistrationErrorsStep` | routes/agentRoute.js:22-47 | checking one more field adds that field's message, if any, and leaves the other entries alone |
| `AgentRoute.CheckRegistrationField` | routes/agentRoute.js:24-47 | one `if (...) errors.k = "..."`: the map grows by exactly that field's verdict |
| `AgentRoute.ValidateRegistration` | routes/agentRoute.js:22-47 | filling the map field by field in form order yields exactly the registration's error map |
| `AgentRoute.RegistrationAccepted` | routes/agentRoute.js:22-52 | the map is empty iff every required field is present, both patterns match, the password has at least six characters and is repeated, and the terms are accepted |
| `AgentRoute.RequiredFieldErrors` | routes/agentRoute.js:24-37 | each missing name, location, region or "heard about us" field has its own entry, whatever the other fields hold |
| `AgentRoute.FormatErrors` | routes/agentRoute.js:26-32 | the e-mail and the phone have an entry iff their pattern does not match |
| `AgentRoute.PasswordAndTermsErrors` | routes/agentRoute.js:39-47 | a password error iff it is shorter than six; a confirmation error iff a password is given and differs; a terms error iff not agreed |
| `AgentRoute.RegistrationMessages` | routes/agentRoute.js:26-41 | a missing e-mail, phone or password gets the "required" message; a present but bad one gets the format or length message |
| `AgentRoute.PasswordErrorsCombine` | routes/agentRoute.js:39-45 | a short password that is not repeated earns both password errors at once |
| `AgentRoute.NewAgent` | routes/agentRoute.js:69-79 | the stored agent has the next id and the lower-cased e-mail, which is lower-case, and every other field (names, phone, location, region, "heard about us", password, terms) as submitted |
| `AgentRoute.Register` | routes/agentRoute.js:22-95 | errors give 400 with the map and no change; a taken lower-cased e-mail gives 400 `errors.email` and no change; otherwise exactly one agent is appended and 201 carries it with payload `{id, email}`; orders and the table invariant are kept |
| `AgentRoute.CaseVariantIsDuplicate` | routes/agentRoute.js:55-66 | once an agent is stored, a registration whose e-mail differs only in letter case finds it |
| `AgentRoute.Login` | routes/agentRoute.js:125-164 | 400 for a missing e-mail or password before any lookup; 404 when no agent has the e-mail as typed; 401 when the password check fails; otherwise 201 with the agent and `{id, email}`; the store is only read |
| `AgentRoute.LoginIsCaseSensitive` | routes/agentRoute.js:135 | against lower-case stored e-mails, an address with an upper-case letter is never found |
| `AgentRoute.MixedCaseRegistrationCannotLogIn` | routes/agentRoute.js:135 | an agent who registered with an upper-case letter is not found by login under the same typed address |
| `AgentRoute.LoginNormalized` | routes/agentRoute.js:125-164 | login with the address lower-cased first: the same outcomes, looked up under `ToLower(email)` |
| `AgentRoute.RegisteredAgentIsFound` | routes/agentRoute.js:56 | with lower-casing at login, a just-registered agent is found under the typed address and any case variant of it |
| `Auth.TokenFromHeader` | middleware/Auth.js:5-9 | a token exists only for a present header whose second space-separated piece is non-empty, and it is that piece |
| `Auth.TokenAfterAnyScheme` | middleware/Auth.js:5 | any first word, a space and a token yield the token: the scheme is not checked |
| `Auth.TokenIgnoresTrailingWords` | middleware/Auth.js:5 | words after the token do not change it |
| `Auth.SingleWordHasNoToken` | middleware/Auth.js:5-9 | a header with no space carries no token |
| `Auth.DoubleSpaceHasNoToken` | middleware/Auth.js:5-9 | two spaces after the scheme leave an empty second piece: no token |
| `Auth.Rejection` | middleware/Auth.js:7-26 | every rejection is a 401 with an `error` text, and each cause has its own text |
| `Auth.AuthDecision` | middleware/Auth.js:5-26 | no token iff `NoToken`; `InvalidToken` iff `verify` refuses the token; success only with a stored agent whose id the verified claims carry |
| `Auth.UnknownIdIsRejected` | middleware/Auth.js:16-19 | a verified token whose id is absent or names no agent is refused as an unknown agent |
| `Auth.TokenLoadsItsAgent` | middleware/Auth.js:16-23 | in a valid table, a token carrying an agent's id loads exactly that agent |
| `Auth.Authenticate` | middleware/Auth.js:4-27 | on success nothing is answered (so `next` runs) and `req.agent` is the decided agent; on every failure the matching 401 is answered and `req.agent` is unchanged |
| `PreOrderRoute.SubmissionFieldError` | routes/preOrderRoute.js:24-35 | each field's verdict with the exact message of its `if` / `else if` chain |
| `PreOrderRoute.SubmissionErrorsStep` | routes/preOrderRoute.js:21-35 | checking one more field adds that field's message, if any, and leaves the other entries alone |
| `PreOrderRoute.CheckSubmissionField` | routes/preOrderRoute.js:24-35 | one `if (...) errors.k = "..."`: the map grows by exactly that field's verdict |
| `PreOrderRoute.ValidateSubmission` | routes/preOrderRoute.js:21-35 | filling the map field by field in form order yields exactly the submission's error map |
| `PreOrderRoute.SubmissionCustomerErrors` | routes/preOrderRoute.js:24-31 | a missing name, e-mail, location or home type has its own entry, whatever the other fields hold |
| `PreOrderRoute.SubmissionOrderErrors` | routes/preOrderRoute.js:32-35 | a missing GPS address, date, agent name or package has its own entry |
| `PreOrderRoute.SubmissionPhoneError` | routes/preOrderRoute.js:26-29 | the phone has an entry iff it is not `+233` and nine digits, with the "required" message when missing and the format message otherwise |
| `PreOrderRoute.SubmissionAccepted` | routes/preOrderRoute.js:20-40 | the map is empty iff every field is present and the phone matches; the e-mail's format is not checked by the route |
| `PreOrderRoute.PackageRuleFails` | routes/preOrderRoute.js:43 | the route's price rule fails when both prices are set or neither is |
| `PreOrderRoute.PackageRuleMatchesModel` | routes/preOrderRoute.js:43-47 | the route's price rule fails iff the table's `isValidPackage` would throw, that is iff not exactly one price is set |
| `PreOrderRoute.ResolveAgent` | routes/preOrderRoute.js:57 | a resolved agent is stored, its first name is the first word and its last name the second word of `agentName` |
| `PreOrderRoute.ResolveFullName` | routes/preOrderRoute.js:57 | "First Last" looks up exactly that first and last name |
| `PreOrderRoute.ResolveIgnoresExtraWords` | routes/preOrderRoute.js:57 | words after the second do not change the agent found |
| `PreOrderRoute.SingleNameNotResolved` | routes/preOrderRoute.js:57-61 | a one-word name never resolves |
| `PreOrderRoute.SubmittedInfo` | routes/preOrderRoute.js:64-74 | the row to create carries every submitted field unchanged: name, e-mail, phone, location, home type, GPS address, date and package |
| `PreOrderRoute.PreCreateChecks` | routes/preOrderRoute.js:20-61 | all five outcomes in the handler's order: field errors give 400 with the map; then a failed price rule gives 400 with its message; then a taken e-mail gives 400 "Order with ... already exists"; then a name that resolves to no agent gives 404 "Agent not found"; otherwise the result is the resolved agent, and it is `Ok` only when every check passes |
| `PreOrderRoute.DuplicateOrderRefused` | routes/preOrderRoute.js:51-54 | a taken e-mail gives 400 "Order with ... already exists" before the agent name is looked at |
| `PreOrderRoute.CreateAfterChecks` | routes/preOrderRoute.js:64-80 | once the route's checks pass, the table refuses the row only for a bad e-mail, GPS address or date, and stores it otherwise |
| `PreOrderRoute.Submit` | routes/preOrderRoute.js:7-82 | each refusal answers as decided and changes nothing; a refused insert answers 500; otherwise exactly one lead with the resolved agent's id and the submitted fields is appended and 201 carries it; agents and the table invariant are kept |
| `PreOrderRoute.OwnedBy` | routes/preOrderRoute.js:92-99 | `findAll({ where: { agentId } })` holds exactly the leads with that owner and no more rows than the table |
| `PreOrderRoute.OwnedByAppend` | routes/preOrderRoute.js:92-99 | a lead added at the end is listed last for its owner and not at all for anyone else |
| `PreOrderRoute.LeadJson` | routes/preOrderRoute.js:103 | `toJSON()` of a lead with its included agent: every attribute, the bookkeeping ones included |
| `PreOrderRoute.PublicRecord` | routes/preOrderRoute.js:103-109 | the plain object with the five attributes deleted |
| `PreOrderRoute.PublicRecordHidesKeys` | routes/preOrderRoute.js:102-110 | a listed record has no `id`, `agentId`, `agent`, `createdAt` or `updatedAt` |
| `PreOrderRoute.PublicRecordFields` | routes/preOrderRoute.js:102-110 | a listed record has exactly the `toJSON` attributes minus the five deleted ones, each with its `toJSON` value |
| `PreOrderRoute.PublicRecordHidesBookkeeping` | routes/preOrderRoute.js:102-110 | two leads with the same submitted fields and status give the same record, whatever their ids, owners and timestamps |
| `PreOrderRoute.VisibleFieldIgnoresBookkeeping` | routes/preOrderRoute.js:102-110 | an attribute that survives the deletes depends only on the submitted fields and the status |
| `PreOrderRoute.PublicRecords` | routes/preOrderRoute.js:102-110 | one record per lead, in the same order |
| `PreOrderRoute.DeleteHidden` | routes/preOrderRoute.js:104-108 | the five `delete`s remove exactly the hidden attributes |
| `PreOrderRoute.ListPreOrders` | routes/preOrderRoute.js:89-115 | 200 with the message naming the agent, and one stripped record per lead the agent owns, in table order; the store is only read |
| `PreOrderRoute.StoredOrderIsListed` | routes/preOrderRoute.js:92-110 | a newly stored order appears last in its agent's listing and leaves every other agent's listing as it was |
| `PreOrderRoute.GetPreOrders` | routes/preOrderRoute.js:87-115 | a rejected request gets the middleware's 401 and `req.agent` stays as it was; an accepted one gets the listing for the agent attached to the request |

## Left out

- JWT signing and verification are not modelled. `verify` is a parameter that returns the claims or refuses the token, and an issued token is shown as its payload `{id, email}`. Expiry ("1day") and the signing key are not modelled, and `middleware/token.js` is not part of this model.
- Password hashing is not modelled. `comparePassword` belongs to the agent model, and `models/agentModel.js` is not part of this model, so the check is a parameter. For the same reason, `Agent.create`'s own validators and constraints are not modelled: registration assumes the insert succeeds once the e-mail is new.
- validator.js `isEmail` and `isDate` are parameters. The route patterns and the table's phone and GPS patterns are written out as predicates.
- The 500 branches caused by the database itself (a failed query or insert in registration, login or listing) are not modelled. A `findByPk` that throws, which the middleware answers with "Invalid token.", is not modelled either. Submission's 500 is modelled for the one cause that depends on the data: the table refusing the row.
- The database compares e-mails and names exactly. A case-insensitive collation would change login and the duplicate checks.
- `findAll` and `findOne` are taken to return rows in insertion order. With several agents of the same name, the first one stored is used.
- A single-word `agentName` gives an undefined `lastName`. The model reads this as a lookup that matches no agent, so the answer is 404. That is the less likely reading: Sequelize v6 refuses an undefined value in a `where` clause and throws, so the handler most likely answers 500.
- `toLowerCase` is modelled for ASCII letters only. The password length counts characters, not UTF-16 code units.
- A `package` is either absent or an object with optional integer prices. A truthy non-object value and non-integer prices are not modelled, and neither is the table's `notEmpty` rule for an empty object.
- `engagement` is a float that nothing in this code sets. It appears as null in a listed record, and no metrics are computed.
- `trim: true` on the string attributes is not a Sequelize validation option. It does nothing and is not modelled.
- `allowNull: false` is not modelled separately: the route already refuses every missing field before the insert.
- Timestamps come from a `now` parameter.
- `GET /agents` is left out: it returns the whole agent table and has no logic.
- Concurrency is not modelled. Each handler runs to completion, so the race between the duplicate-e-mail check and the insert does not arise.
- The request object holds only the `Authorization` header and `req.agent`. Calling `next()` is modelled as `Authenticate` returning no response.

## Findings

| source | as written | input that shows it | evidently intended | confidence | as-written member | corrected member |
|---|---|---|---|---|---|---|
| routes/agentRoute.js:135 | login looks the agent up by the e-mail exactly as typed, while registration (line 56) stores it lower-cased | register with `Ama@Example.com`, then log in with `Ama@Example.com` and the right password: no stored e-mail equals the typed one, so the answer is 404 "Email not Found" | lower-case the address at login as at registration, so the agent is found under the typed address and any case variant | medium, not executed; a case-insensitive database collation (MySQL's default) would hide it | `AgentRoute.MixedCaseRegistrationCannotLogIn` | `AgentRoute.RegisteredAgentIsFound` |
