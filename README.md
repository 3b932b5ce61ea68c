# Notification pipeline of notifications-ms, modelled in Dafny

This project models the core of a notification microservice. The service stores
notifications per user and serves reads and deletes by owner. New notifications
arrive from a message queue. The model covers four pieces:

- validation of a notification record (`model.Notification.Validate` and the
  `NotificationType` constants);
- the two mappers between the payload (DTO) and the entity;
- the repository over the relational store, as a class that owns the table
  rows (a `seq<Notification>`) and the primary-key sequence (`nextId`);
- the service, as a class holding the injected repository and driving it.

Files and modules:

- `wrappers.dfy` (`Wrappers`): `Option` (a nil pointer or nil slice) and
  `Outcome` (a Go `error`, with `Pass` for `nil`).
- `model.dfy` (`Model`): the entity, the enum constants `Message`=0, `Follow`=1,
  `Like`=2, `Comment`=3, and `Validate`.
- `mapper.dfy` (`Dto`, `Mapper`): the payload and the two conversions.
- `repository.dfy` (`Repository`): the owner-matching rules, `Filter`, `Insert`,
  and the class `NotificationRepository`.
- `service.dfy` (`Service`): the class `NotificationService` and the lemmas that
  relate several service calls.
- `service_tests.dfy` (`ServiceTests`): the scenarios of the unit and
  integration tests, as lemmas and a client method that runs the integration
  suite through the class methods.

Modelling choices:

- Go's `int` is 64 bits wide on the platforms the service is built for. It is
  the subset type `GoInt` of Dafny's unbounded `int`, and both the `id` field
  and `NotificationType` (Go's `type NotificationType int`) use it. The entity
  field is `Option<NotificationType>` because Go stores it as a pointer.
  `required` checks only that the pointer is non-nil. `Validate` therefore
  passes `Message` (zero) and every other 64-bit value, including values
  outside the four names.
- `Validate` passes exactly when all three required fields are present.
  Otherwise it fails with the list of failing fields in struct order. This
  matches the validator, which reports every failing field.
- The store's reachability, which the code cannot see, is a `reachable`
  parameter on each repository and service operation. Connection-level driver
  errors are reduced to this flag. Values the store refuses are modelled
  separately: a row that does not fit its columns, and a read whose owner
  argument holds NUL, both fail as Postgres makes them fail.
- The table's column types are those `AutoMigrate` chooses for the struct:
  - `integer` for the type and `serial` for the primary key, both 32 bits wide;
  - `text` for the two strings.
  An insert fails with `ValueRejected` when the id or the type lies outside
  the 32-bit range, or when either text holds a NUL character; `Storable`
  states that rule. Neither failure draws a sequence value.
- An insert follows the blank-primary-key rule of the ORM:
  - an `id` of 0 takes the next value of the sequence;
  - once the sequence has passed the 32-bit maximum, a blank key fails with
    `SequenceExhausted`;
  - otherwise the sequence advances, even if the insert then fails;
  - any other `id` is inserted as given;
  - a taken `id` fails with `DuplicateKey`.
- A read that fails returns `None`, which models the nil slice. The service
  turns it into an empty list. A delete whose statement fails leaves the store
  as it was and reports nothing, as the source discards the `Exec` error.
- Read and delete select rows by different rules. A read keeps the rows whose
  `userAuth0ID` equals the argument (`ExactMatch`). A delete removes the rows
  whose `userAuth0ID` ends with `Split(u, "|")[1]` (`DeleteMatch`, from
  `LIKE '%<segment>'`). Both rules go through the datatype `Keep` and the one
  function `Filter`, so the difference is visible in one place.
  - `ReadRowSurvivesDelete` shows a row that the read returns and the delete
    keeps.
  - `DeleteReachesOtherOwner` shows a delete removing another owner's row.
  - `SingleBarDeleteCoversRead` shows that, for an identity with exactly one
    `|`, every row the read returns is also removed by the delete. The delete
    still reaches other owners, as `DeleteReachesOtherOwner` shows.
- The repository's constructor takes the table's current rows and the value
  the sequence hands out next. The integration suite's setup empties the table
  but does not reset the sequence. Its scenarios therefore take the
  sequence's starting value `start` as a parameter. The seeded rows get ids
  `start` to `start + 2`, and the added row gets `start + 3`.
- The integration suite's delete for `auth0Id2|auth0` has segment `auth0`.
  None of the seeded rows ends with `auth0`, so it removes no `auth0Id2` row.
  It does remove the row that the suite's add test stored for owner `auth0`.
  `SeededDeleteRemovesNothing` and `SuiteDeleteRemovesAddedRow` state this.
- `NotificationService.Sound()` holds that every stored row passed validation
  and every id lies below the sequence. It holds on a store written only through
  the service, and each service method preserves it. Under `Sound()`, adding a
  valid payload to a reachable store succeeds exactly when the row fits its
  columns and the sequence has a value left. `WideTypePassesValidationButNotInsert`
  shows a type beyond 32 bits that validation accepts and the insert refuses.
- The mappers and `Validate` are functions on values and cannot modify their
  inputs. The mappers copy the type pointer, so in Go the payload and the
  entity share one `NotificationType` value. Values have no identity in the
  model, so this sharing is not represented.
- The DTO type is not part of this model's sources. Its three fields follow
  what the mapper copies.

## Model

| member | source | states |
|---|---|---|
| `Model.Message` | src/model/Notification.go:13 | the first enum value, 0 |
| `Model.Follow` | src/model/Notification.go:14 | the second enum value, 1 |
| `Model.Like` | src/model/Notification.go:15 | the third enum value, 2 |
| `Model.Comment` | src/model/Notification.go:16 | the fourth enum value, 3 |
| `Model.EnumValues` | src/model/Notification.go:12-17 | the enum is fixed: `iota` numbers Message, Follow, Like and Comment 0 to 3, distinct and in declaration order |
| `Model.Present` | src/model/Notification.go:21-23 | what `required` demands of each tagged field: a non-empty string, or a non-nil type pointer whatever value it holds |
| `Model.Validate` | src/model/Notification.go:19-29 | passes iff the message is non-empty, the owner id is non-empty and the type is present; on failure it lists exactly the missing fields, each once, in struct order |
| `Model.IdIgnoredByValidate` | src/model/Notification.go:20 | the untagged `id` never changes the verdict |
| `Model.AnyPresentTypePasses` | src/model/Notification.go:12-23 | any present type passes, `Message` = 0 and out-of-range integers included; the enum is not range-checked |
| `Model.AbsentTypeFails` | src/model/Notification.go:23 | a nil type fails on that field alone when the other fields are present |
| `Mapper.ToEntity` | src/mapper/NotificationMapper.go:8-16 | copies message, owner id and type unchanged; the new entity always has `id` 0 |
| `Mapper.ToDto` | src/mapper/NotificationMapper.go:18-26 | copies the same three fields unchanged |
| `Mapper.PayloadRoundTrip` | src/mapper/NotificationMapper.go:8-26 | payload to entity to payload is the identity |
| `Mapper.EntityRoundTrip` | src/mapper/NotificationMapper.go:8-26 | entity to payload to entity keeps the three fields and resets `id` to 0 |
| `Mapper.ToEntityInjective` | src/mapper/NotificationMapper.go:8-16 | distinct payloads map to distinct entities |
| `Repository.ExactMatch` | src/repository/NotificationRepository.go:40 | the read's rule: the row's owner id equals the argument as a whole |
| `Repository.DeleteMatch` | src/repository/NotificationRepository.go:48-49 | the delete's rule: the row's owner id ends with the segment |
| `Repository.DeleteMatchIsLikePattern` | src/repository/NotificationRepository.go:48-49 | a row matches the delete iff its owner id is some text followed by the segment, which is how the pattern with a leading percent reads |
| `Repository.PlainSegment` | src/repository/NotificationRepository.go:48-49 | a segment with no percent, underscore, backslash or quote, which the quoted pattern reads literally |
| `Repository.StorableText` | src/repository/NotificationRepository.go:29-40 | a string Postgres accepts as `text`, as a column value or as a query parameter: no NUL |
| `Repository.Storable` | src/model/Notification.go:19-24 | the columns accept the row: id and type fit a 32-bit `integer` and both texts are storable |
| `Repository.IdsBelow` | src/repository/NotificationRepository.go:28-36 | every stored id lies below the value the sequence hands out next |
| `Repository.AssignedId` | src/repository/NotificationRepository.go:29 | the key of an insert: the sequence value for a blank (zero) id, the given id otherwise |
| `Repository.Drawable` | src/repository/NotificationRepository.go:29 | a blank id needs the 32-bit sequence to have a value left |
| `Repository.BlankKeyInsertSucceeds` | src/repository/NotificationRepository.go:28-36 | on a table whose ids all lie below the sequence, a storable row with a blank id is inserted under the sequence value, which advances by one |
| `Repository.IndexOf` | src/repository/NotificationRepository.go:48 | the index of the first occurrence of the separator |
| `Repository.Segment` | src/repository/NotificationRepository.go:48 | the second piece of splitting at the separator bar: the text after the first bar up to the next bar or the end, itself free of bars; defined only when the argument has a bar |
| `Repository.SegmentOfPair` | src/repository/NotificationRepository.go:48 | for a provider and a local part joined by one bar, neither holding a bar, the segment is the local part |
| `Repository.Filter` | src/repository/NotificationRepository.go:38-49 | keeps every row the rule keeps, as often as it occurs in the table, and no other row |
| `Repository.FilterInOrder` | src/repository/NotificationRepository.go:38-49 | the kept rows stay in store order (a subsequence) |
| `Repository.FilterAppend` | src/repository/NotificationRepository.go:38-49 | filtering a concatenation filters each part in turn |
| `Repository.FilterMember` | src/repository/NotificationRepository.go:38-49 | a row is in the result iff it is in the table and the rule keeps it |
| `Repository.FilterKeepsAll` | src/repository/NotificationRepository.go:38-49 | a rule that keeps every row leaves the table unchanged |
| `Repository.FilterKeepsNone` | src/repository/NotificationRepository.go:38-49 | a rule that keeps no row yields the empty table |
| `Repository.FilterIdempotent` | src/repository/NotificationRepository.go:47-49 | filtering twice by one rule is filtering once |
| `Repository.FilterCommutes` | src/repository/NotificationRepository.go:38-49 | two filters commute |
| `Repository.UniqueIdsCons` | src/repository/NotificationRepository.go:28-36 | a row whose id is new can go in front of a table with distinct ids |
| `Repository.FilterUniqueIds` | src/repository/NotificationRepository.go:47-49 | deleting rows keeps primary keys distinct |
| `Repository.Insert` | src/repository/NotificationRepository.go:28-36 | an unreachable store changes nothing; a row the columns refuse, or a blank key once the sequence is exhausted, fails with nothing changed; otherwise a blank key draws the sequence value, and the insert either adds exactly the given row with a fresh id or fails because the id is taken, table unchanged; ids stay distinct |
| `Repository.SingleBar` | src/repository/NotificationRepository.go:48 | an identity with exactly one bar, whose segment is all of its text after the bar |
| `Repository.SingleBarDeleteCoversRead` | src/repository/NotificationRepository.go:38-49 | for an identity with exactly one bar, every row the read returns is removed by the delete |
| `Repository.ReadRowSurvivesDelete` | src/repository/NotificationRepository.go:38-49 | for the three-part identity p, a, b joined by bars, a row the read returns is kept by the delete, whose segment is a |
| `Repository.DeleteReachesOtherOwner` | src/repository/NotificationRepository.go:38-49 | the delete for p and 7 joined by a bar removes a row owned by q and 7 joined by a bar, which the read for the first identity does not return |
| `Repository.NotificationRepository.Valid` | src/repository/NotificationRepository.go:28-36 | the primary key holds: no two rows share an id |
| `Repository.NotificationRepository.constructor` | src/repository/NotificationRepository.go:18-22 | the repository over the database's current table and sequence value: the rows have distinct ids and fit their columns, and the sequence value lies between 1 and one past the 32-bit maximum |
| `Repository.NotificationRepository.AddNotification` | src/repository/NotificationRepository.go:28-36 | the new table, sequence and returned error are those of one `Insert` of the record; the primary key is kept; the caller's record, into which `Create` reads the key back, holds the assigned key on success (the row just stored) and is unchanged on failure |
| `Repository.NotificationRepository.GetNotificationsByUserAuth0ID` | src/repository/NotificationRepository.go:38-45 | the rows owned by exactly the argument, in store order; nil when the store is unreachable or the argument holds NUL, which Postgres refuses as a parameter; the store is not modified |
| `Repository.NotificationRepository.DeleteNotificationsByUserAuth0ID` | src/repository/NotificationRepository.go:47-50 | requires a bar in the argument; removes exactly the rows ending with its segment, the rest kept in order; the sequence is untouched |
| `Service.NotificationService.Sound` | src/service/NotificationService.go:30-47 | every stored row passed validation and every id lies below the sequence, as on a store written only through the service |
| `Service.NotificationService.constructor` | src/service/NotificationService.go:23-28 | the service over the injected repository |
| `Service.NotificationService.AddNotification` | src/service/NotificationService.go:30-47 | an invalid payload returns the validation failure and leaves the store untouched; a valid one performs exactly one insert of the mapped entity and returns its error unchanged; keeps `Sound()`; under `Sound()` a valid payload on a reachable store returns nil iff the row fits its columns and the sequence has a value left, and then it is stored under the sequence value |
| `Service.NotificationService.GetNotifications` | src/service/NotificationService.go:49-60 | the result has the repository result's length and element i is the mapped row i; a failed query (unreachable store, or an owner holding NUL) yields the empty list; nothing is modified |
| `Service.NotificationService.DeleteNotifications` | src/service/NotificationService.go:62-65 | the store is the one repository delete for the argument; keeps `Sound()` |
| `Service.ReadAfterDelete` | src/service/NotificationService.go:49-65 | a read after a delete returns the earlier read's rows less those the delete removes |
| `Service.ReadAfterOwnDeleteIsEmpty` | src/service/NotificationService.go:49-65 | for an identity with exactly one bar, a read after its own delete is empty |
| `Service.DeleteIdempotent` | src/repository/NotificationRepository.go:47-49 | deleting twice with one argument is deleting once |
| `Service.WideTypePassesValidationButNotInsert` | src/service/NotificationService.go:30-43 | a type beyond the 32-bit column passes validation, and the insert that follows fails with the store unchanged |
| `Service.RejectsZeroPayload` | src/rabbitmq/RMQConsumer.go:80-85 | the zero payload, forwarded when the body is not well-formed JSON, fails validation on all three fields |
| `ServiceTests.RejectsPayloadWithoutMessage` | src/service/NotificationService_test.go:32-42 | a payload with no message fails on the message alone |
| `ServiceTests.RejectsPayloadWithoutOwner` | src/service/NotificationServiceIntegration_test.go:101-111 | a payload with no owner id fails on the owner id alone |
| `ServiceTests.SeededReadOwner` | src/service/NotificationServiceIntegration_test.go:130-137 | on the three seeded rows, the read for `auth0Id1` returns its two rows in order |
| `ServiceTests.SeededReadUnknown` | src/service/NotificationServiceIntegration_test.go:121-128 | the read for an owner with no rows returns the empty list |
| `ServiceTests.SeededDeleteRemovesNothing` | src/service/NotificationServiceIntegration_test.go:113-119 | the suite's delete removes none of the seeded rows |
| `ServiceTests.SuiteDeleteRemovesAddedRow` | src/service/NotificationServiceIntegration_test.go:88-119 | the suite's delete removes exactly the row its add test stored |
| `ServiceTests.IntegrationSuite` | src/service/NotificationServiceIntegration_test.go:88-137 | from any sequence start, the suite's add returns nil, the add without owner fails on that field, the read for the unknown owner is empty and the read for `auth0Id1` returns its two payloads in order |
| `ServiceTests.SeededRows` | src/service/NotificationServiceIntegration_test.go:57-79 | the suite's three seeded rows in creation order, with consecutive ids from the sequence start |
| `ServiceTests.SuiteStart` | src/service/NotificationServiceIntegration_test.go:42-44 | the sequence value at the start of the suite: at least 1, since a serial starts there, with four values left below the 32-bit maximum; the setup's delete empties the table without resetting it |
| `ServiceTests.SuiteAddPayload` | src/service/NotificationServiceIntegration_test.go:89-94 | the add test's payload: message, owner `auth0`, type `Comment` |
| `ServiceTests.SuiteAddedRow` | src/service/NotificationServiceIntegration_test.go:88-99 | the row the add test stores: that payload under key start + 3, the first sequence value after the three seeds |
| `ServiceTests.SuiteAddInserts` | src/service/NotificationServiceIntegration_test.go:88-99 | the valid add's payload passes validation, and on the seeded store it is inserted under key start + 3 |
| `ServiceTests.SuiteAddValid` | src/service/NotificationServiceIntegration_test.go:88-99 | the suite's valid add on the seeded store returns nil, stores the row under the next key and advances the sequence to start + 4 |
| `ServiceTests.SuiteAddWithoutOwner` | src/service/NotificationServiceIntegration_test.go:101-111 | the add without owner returns the validation failure for that field and leaves the rows and the sequence unchanged |
| `ServiceTests.SuiteDelete` | src/service/NotificationServiceIntegration_test.go:113-119 | the suite's delete through the service leaves exactly the seeded rows, keeps the primary key and leaves the sequence unchanged |
| `ServiceTests.SuiteReads` | src/service/NotificationServiceIntegration_test.go:121-137 | after the delete, the read for the unknown owner is empty and the read for `auth0Id1` returns the payloads of its two seeded rows in order |
| `ServiceTests.SeedSuiteStore` | src/service/NotificationServiceIntegration_test.go:42-81 | three creates on the emptied table give the seeded rows with consecutive ids from the sequence start |
| `ServiceTests.SeedRow` | src/service/NotificationServiceIntegration_test.go:77-79 | one create of the setup appends the row under the sequence value and advances the sequence |

## Left out

- src/main.go is not part of this model: configuration from the environment, database and queue connections, tracing, metrics, routing and the HTTP server.
- src/handler/NotificationHandler.go is not part of this model: bearer-token parsing, request and response handling, and the outbound system-event POST. The caller identity is an opaque string argument.
- The queue consumer (src/rabbitmq/RMQConsumer.go) is not part of this model: broker setup, the worker loop and the JSON decode. A body that is not well-formed JSON is forwarded as the zero payload, which `Service.RejectsZeroPayload` covers. A body with a type error in one field is forwarded partly filled, and its decode error is ignored; `Validate` then judges that payload like any other.
- `Notification.FromJSON` and `Notification.ToJSON`: library JSON encoding.
- The `INotificationRepository` interface and its test double: Dafny traits are not used, so the class `NotificationRepository` stands for the interface.
- Logging calls in the service.
- Database errors are reduced to the `reachable` flag, the column checks of `Storable`, sequence exhaustion and the primary-key violation. No other constraint, timeout or partial failure is modelled.
- Repository.Insert: Go strings are bytes and `text` also refuses bytes that are not valid UTF-8. Dafny strings are sequences of characters, so only the NUL check is modelled.
- Service.NotificationService.AddNotification: promises success only under `Sound()`. On a store seeded with explicit ids at or above the sequence, a blank key can collide and fail with `DuplicateKey`, as in the database.
- ServiceTests.IntegrationSuite: assumes that the sequence has four values left and that the setup's creates reach the database.
- Repository.NotificationRepository.GetNotificationsByUserAuth0ID: the query has no `ORDER BY`, so the database guarantees no order. The model fixes insertion order.
- Repository.NotificationRepository.DeleteNotificationsByUserAuth0ID: requires the segment to have no `%`, `_`, backslash or quote. The model does not capture LIKE wildcards or SQL injection through the concatenated statement. An argument with no `|` makes the source panic, so that is a precondition too.
- Concurrency between HTTP requests and the queue worker: the model runs every operation to completion, one at a time.
