# Parcel delivery API: user service, parcel validators and parcel controller guards

This project models, in Dafny, the decision logic of a parcel-delivery REST API:

- **User service** (`users.dfy`, module `Users`). Registration (`createUser`) checks that
  email and password are both present, then that no stored user already has the email,
  then stores the payload with its password replaced by its hash (cost 10). The profile
  update (`updateUser`) runs a fixed chain of guards: unknown user (404), then any
  email in the payload (400), then the role change (403 for senders and receivers, 403
  for a promotion to admin by a non-admin), then status, deletion or verification
  flags (403 for non-admins). It then hashes a new password with the configured cost
  and merges the payload into that one user document. `getAllUsers` returns the users
  and their count. The store is a class `UserService` holding a map from id to
  document. Each method is proved equal to a pure specification function
  (`CreateUserOutcome`, `UpdateUserOutcome`), and the lemmas are proved about those
  functions.
- **Parcel request validators** (`parcel_validation.dfy`, module `ParcelValidation`).
  The create-parcel body schema sets minimum lengths: receiver name 2, phone 10,
  address 5, parcel type 2, delivery address 5. The weight must be strictly positive,
  and the receiver's user id is optional. The status-update schema needs only a
  `status` string. Parsing returns the body, or the issues of every failing field in
  schema order.
- **Parcel controller** (`parcel_controller.dfy`, module `ParcelController`). The admin
  listing turns each boolean query parameter into an optional filter: `"true"` gives
  true, any other non-empty value gives false, and an absent or empty value gives no
  filter. `status` is passed through as it is. Each handler either rejects a request
  without an authenticated user (401) or makes exactly one parcel-service call.
  `getAllParcels` and `deleteParcel` do not check for a user themselves.

`common.dfy` (module `Common`) holds `Option`, `Result`, the `AppError(message,
statusCode)` the code throws, the HTTP status codes, and JavaScript truthiness
(`Present` for strings, `IsTrue` for booleans). The guards test truthiness, not mere
presence, so an empty string counts as absent.

Error status codes follow the code. A duplicate email is rejected with 400
(BAD_REQUEST), not a conflict code. The listing handler `getAllParcels` does no
principal check of its own, like `deleteParcel`.

## Model

| member | source | states |
|---|---|---|
| Users.CreateUserOutcome | src/app/modules/user/user.service.ts:13-35 | A missing or empty email or password fails with 400 "Email and password are required". Otherwise an email some user already has fails with 400 "User already exists". Every failure leaves the store unchanged. Success happens exactly when neither applies. It then adds exactly one user under a fresh id. That user's email is the payload email, its password is `hash(password, 10)`, and every other payload field is kept. |
| Users.UpdateCheck | src/app/modules/user/user.service.ts:45-72 | The guard order and which error wins: a missing user gives 404 before any payload check. Then a truthy email gives 400 whatever the actor. Then a truthy role by a sender or receiver gives 403, and a promotion to admin by any other non-admin gives 403. Then a truthy status, isDeleted or isVerified by a non-admin gives 403. The update passes exactly when the user exists, no email is given, the role change obeys `RoleChangePermitted`, and only an admin touches status flags. |
| Users.UpdateUserOutcome | src/app/modules/user/user.service.ts:40-88 | Fails exactly with the error `UpdateCheck` picks, and a failure leaves the store unchanged. On success only the target document changes and no id is added or removed. The email never becomes a different non-empty address. The stored document is the payload, with a truthy password replaced by `hash(password, cost)`, written field by field over the old document: every field the payload carries replaces the old value, every other field is kept, and profile entries are merged key by key. An empty-string or absent password leaves that value or the old password. A non-admin actor can neither make the user an admin nor set a truthy status, isDeleted or isVerified. |
| Users.UserService.FindOneByEmail | src/app/modules/user/user.service.ts:20 | Returns a stored user with exactly that email, and returns nothing exactly when no such user exists. |
| Users.UserService.FindById | src/app/modules/user/user.service.ts:45 | Returns the stored document exactly when the id is in the store. |
| Users.UserService.CreateUser | src/app/modules/user/user.service.ts:13-35 | The step-by-step `createUser` returns the result of `CreateUserOutcome` and leaves the store it gives. It keeps the store invariant. |
| Users.UserService.UpdateUser | src/app/modules/user/user.service.ts:40-88 | The step-by-step `updateUser`, with its early returns and the password rehash before the write, returns the result of `UpdateUserOutcome` and leaves the store it gives. |
| Users.UserService.GetAllUsers | src/app/modules/user/user.service.ts:94-103 | Returns every stored user and a total equal to their number. |
| Users.Replay | src/app/modules/user/user.service.ts:32 | After any sequence of register and update requests, the store invariant still holds and no user has been removed. |
| Users.CreateKeepsEmailsUnique | src/app/modules/user/user.service.ts:20-32 | Registration keeps non-empty emails pairwise distinct. |
| Users.UpdateKeepsEmailsUnique | src/app/modules/user/user.service.ts:52-54 | An update keeps non-empty emails pairwise distinct. |
| Users.ReplayKeepsEmailsUnique | src/app/modules/user/user.service.ts:13-88 | However register and update requests interleave, no two users end up with the same non-empty email. |
| Users.ReplayWithoutAdminsCreatesNoAdmin | src/app/modules/user/user.service.ts:57-65 | If no update actor is an admin and no registration asks for the admin role, no sequence of requests creates a new admin. |
| Users.UpdateStoresEmptyPasswordVerbatim | src/app/modules/user/user.service.ts:75-85 | An empty-string password is falsy, so it is written unhashed and the stored password becomes the empty string. |
| Users.UpdateClearsEmailWithEmptyString | src/app/modules/user/user.service.ts:52-54 | An empty-string email is falsy, so it passes the email guard and the stored email becomes the empty string. |
| Users.Merge | src/app/modules/user/user.service.ts:82-85 | `findByIdAndUpdate` with a partial document: each field the payload carries replaces the stored one, each field it omits is kept, and profile entries are merged key by key. |
| Users.AdminUpdateIsStored | src/app/modules/user/user.service.ts:57-85 | An admin's update of an existing user without an email succeeds, and the role, status, isDeleted and isVerified it carries are what is stored, even falsy ones. |
| Users.RegisterKeepsRequestedRole | src/app/modules/user/user.service.ts:14 | Registration copies the payload role into the stored user, including the admin role. |
| Users.AdminPassesRoleAndStatusGuards | src/app/modules/user/user.service.ts:57-72 | An admin actor updating an existing user without an email in the payload passes every guard. |
| ParcelValidation.StringIssues | src/app/modules/parcel/parcel.validation.ts:6-8 | A minimum-length string field gives no issue exactly when it is present and long enough. An absent field gives "Required", and a short one gives the field's own message. |
| ParcelValidation.WeightIssues | src/app/modules/parcel/parcel.validation.ts:12 | The weight gives no issue exactly when it is present and strictly positive. Otherwise the one issue says "Required" when the weight is absent and "Weight must be positive" when it is not positive. |
| ParcelValidation.ReceiverIssues | src/app/modules/parcel/parcel.validation.ts:5-10 | A missing receiver object is the only receiver issue. Otherwise the issues are those of name (minimum 2), phone (minimum 10) and address (minimum 5). |
| ParcelValidation.CreateParcelIssues | src/app/modules/parcel/parcel.validation.ts:3-15 | The reported fields are exactly the fields whose check fails. |
| ParcelValidation.ReceiverIssuesMessagesInOrder | src/app/modules/parcel/parcel.validation.ts:5-10 | The receiver's issues come in declaration order (object, name, phone, address). Each says "Required" when its value is absent and the field's own message otherwise. |
| ParcelValidation.CreateParcelIssuesMessagesInOrder | src/app/modules/parcel/parcel.validation.ts:3-15 | The issues of a create body come in the order the schema declares the fields. Each says "Required" when its value is absent and the field's own message (for example "Valid phone number required") otherwise. |
| ParcelValidation.ParseCreateParcel | src/app/modules/parcel/parcel.validation.ts:3-15 | A body is accepted exactly when every field predicate holds, as a conjunction, and then it is returned unchanged. A rejection lists every failing field and no other. |
| ParcelValidation.ParseStatusUpdate | src/app/modules/parcel/parcel.validation.ts:17-23 | A status-update body is accepted exactly when `status` is present, whatever string it is. Otherwise the single issue is a required status. |
| ParcelValidation.ShortNameRejected | src/app/modules/parcel/parcel.validation.ts:6 | A receiver name shorter than 2 characters is rejected with "Receiver name must be at least 2 characters". |
| ParcelValidation.PhoneContentUnchecked | src/app/modules/parcel/parcel.validation.ts:7 | Any phone of at least 10 characters passes, digits or not. |
| ParcelValidation.NonPositiveWeightRejected | src/app/modules/parcel/parcel.validation.ts:12 | A zero or negative weight is rejected with "Weight must be positive". |
| ParcelValidation.ReceiverUserIdOptional | src/app/modules/parcel/parcel.validation.ts:9 | The receiver's user id, present or absent, never changes acceptance. |
| ParcelValidation.StatusUpdateAcceptsAnyStatus | src/app/modules/parcel/parcel.validation.ts:19-21 | Any status string is accepted, with or without location and note. |
| ParcelController.QueryFlag | src/app/modules/parcel/parcel.controller.ts:36-38 | The value `"true"` gives true. Any other non-empty value gives false. An absent or empty value gives no filter. |
| ParcelController.BuildFilters | src/app/modules/parcel/parcel.controller.ts:34-39 | `status` is passed through unchanged. Each boolean filter is set exactly when its query value is non-empty, and is true exactly when that value is `"true"`. |
| ParcelController.FiltersRoundTrip | src/app/modules/parcel/parcel.controller.ts:34-39 | Every filter can be requested: parsing the query written for a filter gives that filter back. |
| ParcelController.CreateParcel | src/app/modules/parcel/parcel.controller.ts:13-29 | Fails with 401 exactly when there is no user or the user has no `_id`. Otherwise it creates with that `_id` as the sender and answers 201. |
| ParcelController.GetAllParcels | src/app/modules/parcel/parcel.controller.ts:33-49 | Makes no principal check and always calls the listing with the filter built from the query. |
| ParcelController.GetMyParcels | src/app/modules/parcel/parcel.controller.ts:52-69 | Fails with 401 "Unauthorized: User data not found." exactly when there is no user. Otherwise it passes the user's `id` claim as the sender. |
| ParcelController.GetIncomingParcels | src/app/modules/parcel/parcel.controller.ts:71-87 | Fails with 401 exactly when there is no user. Otherwise it passes the user's `_id` as the receiver. |
| ParcelController.GetSingleParcel | src/app/modules/parcel/parcel.controller.ts:91-105 | Fails with 401 exactly when there is no user. Otherwise it passes the route id and the whole user. |
| ParcelController.CancelParcel | src/app/modules/parcel/parcel.controller.ts:109-123 | Fails with 401 exactly when there is no user. Otherwise it passes the route id and the user's `_id` as the requester. |
| ParcelController.UpdateParcelStatus | src/app/modules/parcel/parcel.controller.ts:127-145 | Fails with 401 exactly when there is no user. Otherwise it passes the route id, the body and the user's `_id`. |
| ParcelController.ConfirmDelivery | src/app/modules/parcel/parcel.controller.ts:160-177 | Fails with 401 exactly when there is no user. Otherwise it passes the route id and the user's `_id` as the receiver. |
| ParcelController.AnonymousRequestRejected | src/app/modules/parcel/parcel.controller.ts:182-193 | Without a user, a handler fails exactly when it is one of the seven that check, and then with status 401. |
| ParcelController.DeleteParcel | src/app/modules/parcel/parcel.controller.ts:149-158 | Always succeeds with 200 and calls the service's delete with the route id and nothing else. |
| ParcelController.UncheckedHandlersIgnorePrincipal | src/app/modules/parcel/parcel.controller.ts:149-158 | `getAllParcels` and `deleteParcel` always reach the service, whatever user is attached. `deleteParcel` delegates with nothing but the route id. |

## Left out

- bcrypt is a parameter of the service (`Hasher`), not an algorithm. The model shows that the stored password is the hash of the given one. It does not show that the hash differs from its input.
- The update cost factor comes from the environment variable `BCRYPT_SALT_ROUND` through `Number(...)`. It is the constructor parameter `saltRounds`, a natural number, so a non-numeric setting is not modelled.
- Mongoose persistence is a map from id to document. Ids are handed out by a counter in place of ObjectIds. `findOne`, `findById`, `create`, `findByIdAndUpdate`, `find` and `countDocuments` are map operations. Schema defaults, schema validators (`runValidators`), casting of malformed ids and the document shape Mongoose returns are not modelled, because the schema is not part of this model.
- `Users.UserService.UpdateUser` rehashes the password into a local copy of the payload. The source overwrites `payload.password` on the caller's object, and that caller-visible mutation is not modelled.
- `getAllUsers` returns the users as a map from id. The order of `find({})` is not modelled.
- The check-then-insert race on duplicate emails and all other concurrency are left out, because each request runs as one step here.
- The parcel lifecycle (status transitions, cancellation, delivery confirmation, status history) is left out. `parcel.service.ts` is not part of this model, so the controller model ends at the service call it makes.
- Express routing, `catchAsync`, `sendResponse`, token decoding and the role checks of the `auth` middleware are left out. The `auth(UserRole.ADMIN)` guard on `PATCH /users/:id` (src/app/modules/user/user.route.ts:21-25) means that over HTTP only admins reach `updateUser`. The model still covers every actor role the service handles.
- Users.UserDoc: status, isDeleted and isVerified are typed values. The `PATCH /users/:id` body is not schema-checked (src/app/modules/user/user.route.ts:21-25), so a `null` or a truthy non-boolean value there is not modelled.
- Users.Role: `Other(name)` is meant to be a string none of the three enum values; the enum's string values are not part of this model, so this is a convention and not a subset type.
- zod internals are left out. The body types have no unknown keys, so zod's stripping of them is not modelled, and wrong JSON types are not modelled because fields are typed. String length counts Dafny characters rather than UTF-16 code units. The weight is a `real`, so floating-point behaviour (NaN, infinities) is not modelled.
- Query values that Express delivers as arrays are not modelled. A query value is an optional string.
- Response formatting (`success`, `message`, `data`) is not modelled. A handler's success is the service call it makes and the status code it answers with.
