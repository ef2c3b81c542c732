# A verified model of the nest_auth_crud services

This project models the decision logic of a small NestJS backend: user
registration, credential checking and login, and a product table with
create, list, read, update and delete. The database (Prisma), the password
hasher (bcrypt) and the token signer (`jwtService.sign`) are foreign. Here
they become an in-memory table per entity and parameters for everything
else.

- `common.dfy` — `Option`, `Result` and `Failure`. A `Failure` is either an
  HTTP exception (status and message) or any other error thrown by a foreign
  library.
- `foreign.dfy` — the foreign calls the user and auth services make: the
  store's lookup and insert, hash, compare and sign. Each call is recorded
  with its arguments.
- `crypto.dfy` — the hasher as a pair of functions, `hash(plaintext, rounds)`
  and `compare(plaintext, hashed)`. `Sound` is the one property assumed of
  it: a password matches its own hash. It is a precondition of the lemmas
  that need it, not an axiom. Both services get the same hasher value.
- `users.dfy` — the user table, a `map<Email, User>`. Keying by email is the
  uniqueness invariant. `CreateUserOutcome` gives the result, the new table
  and the foreign calls made (lookup, hash, insert), in order.
  `UserService.CreateUser` is the imperative method that mutates the table,
  and it is proved equal to that function. `FindUserByEmail` is a pure read.
- `auth.dfy` — `ValidateUser` and `Login`: pure reads of the user table.
  They record the calls to compare and sign.
- `user_controller.dfy` — `register` and its catch block.
- `products.dfy` — the product table, a `map<ProductId, Product>`. Pure
  functions give the outcome of each operation. The class `ProductService`
  mutates the table and is proved equal to those functions.
- `product_controller.dfy` — the guarded handlers, plus a sequence of
  requests from any callers (`Run`). Over such a sequence a product's owner
  is never reassigned, and no handler checks ownership.

The model follows the code as written. In particular:
- `findUserByEmail` fails with BadRequest, not NotFound.
- `validateUser` does no dummy hash comparison for an unknown email.
- `remove` does not check that the id exists before deleting. The store's
  own error escapes instead.
- `register` returns the created record as the store returns it, password
  hash included.

Emails are compared exactly, as sequences of characters. There is no case
folding.

## Model

| member | source | states |
|---|---|---|
| Users.FindUserByEmail | src/user/user.service.ts:35-43 | returns the stored record exactly when the email is present; otherwise BadRequest "User not found." |
| Users.CreateUserOutcome | src/user/user.service.ts:11-33 | lookup by email comes first; hash is called iff the email is new; a duplicate gives Conflict "Email is already in use." with the table unchanged; a hasher failure escapes as a non-HTTP error; a rejected insert gives BadRequest "Failed to create user."; the store receives the hash with 10 rounds, never the plaintext; success iff none of these, and then the table gains exactly the new record and keeps every other one; the table invariant is preserved |
| Users.UserService.CreateUser | src/user/user.service.ts:11-33 | the imperative registration: its result, the new table and the calls made are those of CreateUserOutcome on the old table; the invariant (key = email, unique ids) is kept |
| Users.SecondRegistrationConflicts | src/user/user.service.ts:12-16 | after a successful registration, a second one with the same email gives Conflict and leaves the table unchanged |
| Users.RegisteredUserIsFound | src/user/user.service.ts:11-43 | after a successful registration, findUserByEmail returns the new record |
| Auth.ValidateUser | src/auth/auth.service.ts:16-24 | returns the user iff a record exists and compare(password, stored hash) holds, otherwise null; compare is called only when the record exists |
| Auth.Login | src/auth/auth.service.ts:26-38 | calls validateUser first with the DTO's email and password; succeeds iff the credentials check succeeds; otherwise Unauthorized "Invalid credentials" and nothing is signed; on success the token is sign({email, sub: id}), and in a well-formed table that is the login email and the matching user's id |
| Auth.LoginFailuresIndistinguishable | src/auth/auth.service.ts:19-32 | an unknown email and a wrong password for a known email give the same error |
| Auth.RegisteredUserCanLogIn | src/auth/auth.service.ts:16-38 | with a sound shared hasher, a user who has just registered logs in with the same credentials and gets sign({email, sub: new id}) |
| Auth.WrongPasswordAfterRegistrationFails | src/auth/auth.service.ts:19-32 | after a registration, a password the hasher does not match against the stored hash gives Unauthorized |
| UserController.MapRegisterError | src/user/user.controller.ts:18-25 | success passes through; an HTTP exception is rethrown with the same status and message; any other error becomes 500 "Internal server error"; only HTTP exceptions leave the handler |
| UserController.Register | src/user/user.controller.ts:11-26 | createUser runs on the unchanged DTO; its table and calls are kept; its result goes through the catch block's mapping |
| UserController.RegisterStatuses | src/user/user.controller.ts:13-25 | a client sees 409 for a taken email, 500 when hashing throws and 400 when the store refuses the insert (its own fault or an id it already holds); a returned record holds the password hash |
| Products.CreateOutcome | src/product/product.service.ts:10-17 | the new record has the DTO's fields, the store's id and created_by = userId; it is added and every other record is kept; an id the store already holds is a store error with the table unchanged |
| Products.FindAll | src/product/product.service.ts:19-21 | the result holds every record of the table and nothing else |
| Products.FindOne | src/product/product.service.ts:23-33 | the record with that id exactly when it exists, and in a well-formed table it carries that id; otherwise NotFound "Product with ID {id} not found" |
| Products.ApplyUpdate | src/product/product.service.ts:44-47 | the fields present in the update body replace the stored ones; absent fields, the id and created_by are kept |
| Products.UpdateOutcome | src/product/product.service.ts:35-48 | an absent id gives the same NotFound and leaves the table unchanged; otherwise only that record changes, created_by is kept, the keys stay the same and the invariant is preserved |
| Products.RemoveOutcome | src/product/product.service.ts:50-53 | a present id is deleted and the result is {deleted: true}; an absent id is the store's error with the table unchanged |
| Products.ProductService.Create | src/product/product.service.ts:10-17 | the imperative create: result and new table are those of CreateOutcome; the invariant is kept |
| Products.ProductService.Update | src/product/product.service.ts:35-48 | the imperative update: result and new table are those of UpdateOutcome; the invariant is kept |
| Products.ProductService.Remove | src/product/product.service.ts:50-53 | the imperative delete: result and new table are those of RemoveOutcome; the invariant is kept |
| ProductController.Create | src/product/product.controller.ts:13-17 | for an admitted request: succeeds iff the new id is free; the new record has the body's fields and created_by = req.user.id, and it is added to the table; on failure the table is unchanged |
| ProductController.FindAllProducts | src/product/product.controller.ts:19-22 | for an admitted request: every record of the table is in the result, and nothing else |
| ProductController.FindOneProduct | src/product/product.controller.ts:24-27 | for an admitted request: the record with that id exactly when it exists; otherwise NotFound "Product with ID {id} not found" |
| ProductController.Update | src/product/product.controller.ts:29-32 | for an admitted request: succeeds iff the id exists; then the body is applied to that record alone and its owner is kept, whoever the caller is; otherwise NotFound with the table unchanged |
| ProductController.Remove | src/product/product.controller.ts:34-37 | for an admitted request: succeeds iff the id exists, with {deleted: true} and the record gone; otherwise the store's error with the table unchanged |
| ProductController.AnyCallerMayUpdate | src/product/product.controller.ts:29-32 | no ownership check: a non-owner's update of an existing product succeeds, with the same outcome as the owner's |
| ProductController.AnyCallerMayRemove | src/product/product.controller.ts:34-37 | no ownership check: any admitted caller deletes an existing product |
| ProductController.Run | src/product/product.controller.ts:8-37 | any sequence of admitted create, update and remove requests preserves the table invariant |
| ProductController.OwnerNeverReassigned | src/product/product.controller.ts:13-37 | over any sequence of requests by any callers, a product still present whose id nobody tried to create keeps its original owner (given an update body without created_by) |
| ProductController.CreatorOwnsProduct | src/product/product.controller.ts:13-17 | a product created by a caller and still present after later requests is owned by that caller |

## Left out

- bcrypt internals: salting, the cost of a round and constant-time comparison are not modelled. Collision resistance is probabilistic, so no lemma says a wrong password is rejected. `WrongPasswordAfterRegistrationFails` takes the mismatch as a hypothesis.
- The hasher is deterministic here. A real bcrypt hash differs from call to call because of the salt. No property here depends on the difference.
- The user service imports `bcrypt` and the auth service imports `bcryptjs`. The model assumes one shared hasher that both services use.
- JWT signing, verification and expiry: `sign` is an arbitrary function of the payload. The passport strategy and the guard are not part of this model. A guard-admitted request is one whose `req.user` is present; that is a precondition of each product handler.
- The store generates ids and timestamps. Ids are parameters (`newId`) and timestamps are omitted. The store's refusal of an id it already holds is modelled.
- Users.CreateUserOutcome: a failing store read (the `findUnique` before the duplicate check) is not modelled. Reads are assumed to succeed. Only the hasher's failure and the insert's failure are parameters (`Faults`).
- Products: the store's own failures (lost connection and the like) on create, update and delete are not modelled. Only its refusal of a taken id and of a missing record to delete are.
- Products.FindAll: returns the records as a set, so the order the store lists them in is not modelled.
- Product prices are unbounded integers. Floating point is not modelled.
- The update body has only name, description and price. Request-body validation is not part of this model, so an extra field such as `created_by` in the body is assumed stripped. `OwnerNeverReassigned` and `CreatorOwnsProduct` depend on this, because `update` hands the body to the store as it is.
- Async/await, `console.log`, Nest decorators, dependency injection, HTTP routing and product.module.ts are framework plumbing and are not modelled.
- Two registrations of the same email racing each other are a concurrency issue. It is out of scope; the sequential model cannot show it.
- Timing side channels: the missing-user path does no dummy comparison. The model reproduces the calls made and says nothing about time.
