# webform_submission_storage — a Dafny model of submission routing

The Drupal module `webform_submission_storage` adds a webform handler. After a submission is saved, the handler:

1. substitutes the submission's tokens into a YAML field mapping;
2. decodes the mapping into a field→value record;
3. writes that record through `StorageService`, either as a new entity of a configured type or as one row of a configured database table.

This project models both halves of that logic:

- the routing and logging decision of `SubmissionStorageHandler::postSave`;
- the two writers, `StorageService::storageSubmitEntity` and `StorageService::storageSubmitTable`.

It also proves what they guarantee.

## Layout

- `php.dfy` (module `Php`) covers the PHP values the code touches:
  - `Value`: null, bool, int, string and arrays keyed by strings;
  - PHP truthiness (`Truthy`; `empty()` is its negation, so `"0"` counts as empty);
  - thrown objects (`Throwable`, given by the set of classes they are instances of);
  - how a call ends (`Completion`: a returned value or a throwable).
- `configuration.dfy` (module `Configuration`) holds the handler's configuration array (`Config`), its default, and `RouteOf`. `RouteOf` is the decision table that `postSave`'s guards encode: `Unconfigured`, `EntityStore`, `TableStore` or `Nowhere`.
- `trace.dfy` (module `Trace`) holds the observable events of one submission, in order:
  - log entries;
  - the handler's calls into the service;
  - the entity saves and row inserts the service issues;
  - the PHP notice for reading an unassigned variable.

  `Count` counts the events of a kind, and `CountAppend` shows that counts add up over concatenated traces.
- `storage_service.dfy` (module `StorageService`):
  - The `Entity` class has its fields assigned in place.
  - The methods `StorageSubmitEntity` and `StorageSubmitTable` follow the PHP code.
  - `StorageSubmitEntity` builds the entity with a loop. The loop invariant says the fields assigned so far are exactly the entries of `data` already visited.
  - Each method is proved equal to a reference function (`EntitySubmission`, `TableSubmission`), and each reference function's contract states the promises of the writer.
  - `StorageSubmitTable` has no loop and no state of its own. It repeats `TableSubmission` step by step so that both writers keep the PHP's imperative form; the promises live on `TableSubmission`.
- `webform_handler.dfy` (module `WebformHandler`):
  - `PostSave` follows `postSave` statement by statement.
  - It is proved equal to `ExpectedPostSave`, a decision table over `RouteOf` and what the mapping decodes to.
  - The class `SubmissionStorageHandler` holds the configuration that `submitConfigurationForm` updates.
- `post_save_properties.dfy` (module `PostSaveProperties`) proves the properties of `postSave` as lemmas about `ExpectedPostSave`.

The collaborators are parameters, so nothing in the model depends on how they work inside. `Host` carries them:

- `replaceTokens`: token substitution for the submission at hand;
- `decode`: `Yaml::decode`, which may throw;
- `submissionData`: `getData()`;
- `save`: how `save()` ends for an entity of a given type and fields, and the id that `id()` then reports;
- `insert`: how `insert()->fields()->execute()` ends.

## Behaviour as written

These points follow the code, including where it differs from what its comments and its configuration form suggest:

- **Empty mapping with a backend selected.** Without a mapping, `$data_replace_decode` is never assigned (:179-192) but is still passed to the backend (:195, :199).
  - Reading the unassigned variable raises a PHP notice (the `UndefinedVariable` event).
  - The resulting null then fails the `array $data` parameter, so the call throws a `TypeError` and no backend is called.
  - The same `TypeError` follows when the mapping decodes to something other than an array.
  - The model never invents an empty record.
- **Decoding errors.** `Yaml::decode` is not guarded (:184). A parse exception escapes `postSave` before anything is logged.
- **No route.** When `storage_type` is set but `storage_key` is empty, or the type is neither `entity` nor `table`, nothing is dispatched and no error is logged. The debug echo of :186-191 is still logged when debugging is on and the mapping decodes.
- **`. info(` on the entity debug path.** At `src/StorageService.php:71` the success message is written `... . info(...)`, which calls an undefined function.
  - On the debug path, a save that yields a truthy id therefore stores the entity and then throws an `Error`.
  - That `Error` is not an `EntityStorageException`, so it escapes `storageSubmitEntity` and `postSave`.
  - The entity success message is never logged (`DebugEntitySuccessThrows`).
- **Namespace-relative `catch (Exception $e)`.** At `src/StorageService.php:112` the unqualified name resolves to `Drupal\webform_submission_storage\Exception`, a class the module never declares.
  - The catch clause matches only throwables of that class.
  - A real database exception escapes `postSave` without a log entry (`DatabaseExceptionEscapes`).
- **Truthiness of ids.** An id of `0`, `"0"`, `""`, null or `FALSE` makes either writer return `FALSE` without a log.
- **Duplicate mapping keys.** Which of several duplicate keys wins is decided by the YAML decoder; the record is whatever array `decode` returns.

## Model

| member | source | states |
|---|---|---|
| `Configuration.DefaultConfiguration` | src/Plugin/WebformHandler/SubmissionStorageHandler.php:85-92 | the defaults route a submission nowhere (`storage_type` empty), configure no mapping, and have debugging off |
| `WebformHandler.PostSave` | src/Plugin/WebformHandler/SubmissionStorageHandler.php:177-206 | the events and outcome of `postSave` are those of the decision table `ExpectedPostSave`: an error log only if unconfigured; the debug echo; the TypeError or decode failure; or one backend call with the decoded record, whose throwable propagates and whose return value is dropped |
| `WebformHandler.SubmissionStorageHandler.SubmitConfigurationForm` | src/Plugin/WebformHandler/SubmissionStorageHandler.php:155-160 | after the submitted settings are applied, `debug` is a boolean with the truthiness of the submitted value; every other entry, and hence the route, is as submitted |
| `PostSaveProperties.NotConfiguredLoggedOnce` | src/Plugin/WebformHandler/SubmissionStorageHandler.php:178-204 | the "storage type is not configured" error is logged exactly once when `storage_type` is empty and never otherwise |
| `PostSaveProperties.AtMostOneDispatch` | src/Plugin/WebformHandler/SubmissionStorageHandler.php:194-200 | at most one backend call per submission; the entity backend is called exactly once iff the type is `entity`, the key is non-empty and the mapping decoded to an array, and likewise for `table` |
| `PostSaveProperties.DispatchCarriesDecodedMapping` | src/Plugin/WebformHandler/SubmissionStorageHandler.php:183-199 | every backend call carries the handler's configuration and the decoded mapping (never the raw submission data), and goes to the backend its route names |
| `PostSaveProperties.DebugEchoLoggedOnce` | src/Plugin/WebformHandler/SubmissionStorageHandler.php:182-191 | the pre-dispatch info log appears once exactly when the type is set, debugging is on and the mapping decodes, and it shows the decoded mapping and `getData()` |
| `PostSaveProperties.EchoedMappingIsDispatched` | src/Plugin/WebformHandler/SubmissionStorageHandler.php:184-199 | the record handed to a backend is the same value logged as `@config_data` |
| `PostSaveProperties.NoRouteNoWrite` | src/Plugin/WebformHandler/SubmissionStorageHandler.php:178-204 | with an empty type, an empty key, or a type other than `entity`/`table`, nothing is dispatched, saved or inserted, and the only error log is the "not configured" one (only when the type is empty) |
| `PostSaveProperties.DebugEntitySuccessThrows` | src/StorageService.php:68-76 | with debugging on, a save with a truthy id stores the entity once and then throws the undefined-function `Error` out of `postSave`; the only info log is the pre-dispatch echo |
| `PostSaveProperties.EntityStorageExceptionContained` | src/StorageService.php:79-83 | an `EntityStorageException` from `save` is logged once with its message and `postSave` completes normally |
| `PostSaveProperties.DatabaseExceptionEscapes` | src/StorageService.php:112-119 | an insert exception that is not of the module-local `Exception` class escapes `postSave` with no error log, after exactly one insert |
| `PostSaveProperties.TableSuccessLogging` | src/StorageService.php:101-110 | a truthy insert id completes `postSave` normally with no error log, and two info logs (echo and success message) with debugging on, none without |
| `StorageService.EntitySubmission` | src/StorageService.php:56-84 | exactly one save, of an entity of type `storage_key` holding exactly `data`; the result is the truthy id, or `FALSE` on a falsy id or a caught `EntityStorageException` (then exactly one error log, carrying the exception's message, and nothing else is logged); the success info log is never emitted; what escapes is the undefined-function `Error` on the debug path or any other exception from `save` |
| `StorageService.TableSubmission` | src/StorageService.php:97-120 | exactly one insert into `storage_key` with `data` as columns; the result is the id if truthy, else `FALSE`; the success info log appears once exactly when debugging and the id is truthy; only a throwable of the module-local `Exception` class is caught (`FALSE` and one error log naming the table and the exception's message), any other escapes; no error is logged in any other case |
| `StorageService.StorageSubmitEntity` | src/StorageService.php:56-84 | after the field-copy loop the entity holds every key of `data` with exactly its value and no other assigned field, so the method's result and events are those of `EntitySubmission` |
| `StorageService.StorageSubmitTable` | src/StorageService.php:97-120 | the method's result and events are those of `TableSubmission` |
| `StorageService.Entity.constructor` | src/StorageService.php:59 | a new entity has the type it was created with and no assigned fields |
| `StorageService.Entity.SetField` | src/StorageService.php:63 | assigning a field sets that one field to the value and leaves every other field unchanged |

## Left out

- `buildConfigurationForm`, `getSummary`, `create` and the two constructors are left out: they are form UI, render arrays, translation and dependency-injection wiring. `create` passes one more logger argument than the constructor takes, and that argument is ignored.
- `submitConfigurationForm` is modelled as the submitted settings replacing all four entries, because the settings form has an element for each. The internals of `applyFormStateToConfiguration` and the parent form handling are host behaviour and are not modelled.
- The internals of token substitution (`replaceTokens`) and of `Yaml::decode` are not modelled, because they are library behaviour. They are the oracles `Host.replaceTokens` and `Host.decode`, and an exception from `replaceTokens` itself is not modelled.
- Entity persistence (`entity_create`, `save`, `id`) and the database insert builder are oracles (`Host.save`, `Host.insert`). `entity_create` and the field assignments are taken to succeed. Field values an entity type fills in by default are not part of `Entity.fields`.
- Log channels, placeholder formatting and the `Json::encode` payload text are not modelled. A log entry is a level and a message with its substituted values.
- Floats and objects as PHP values are not modelled. Integer array keys are held as strings.
- PHP's loose `==` on `storage_type` is modelled as string equality, since the settings form only produces strings.
- The `foreach` assignment order over the record is not modelled. The record is a map and the loop visits its keys in any order, which leaves the same entity.
- The id that `$entity->id()` reports is one value. The PHP code asks for it up to three times (:69, :73, :76) and is assumed to get the same answer each time.
- The unused `$update` parameter of `postSave` is not modelled.
- `src/StorageServiceInterface.php` only declares the two writer signatures and is not part of this model.
