# Secrets registry — a Dafny model

This project models the core of an administrative HTTP API that registers
and rotates secrets. A secret's value goes to a secret vault (AWS Secrets
Manager) under the name `{APP_ENV}/{secret_key}`. Only the ARN the vault
issues is kept, as a `{secret_key, secret_arn}` metadata document in an S3
document store at `{APP_BASE_PATH}/System/Secrets/{secret_key}`.

Each key follows the state machine ABSENT → (create) → REGISTERED →
(update)* → REGISTERED. The handlers read metadata first, then call the
vault, then write metadata. That order keeps the invariant that every key
with a metadata record has a vault secret under its namespaced name, with
the same ARN.

Files, one module each:

- `wrappers.dfy` (`Wrappers`): `Option` and `Result`.
- `domain.dfy` (`Domain`): the metadata record, the outcome of one external call (`Outage`), and the exceptions.
- `responses.dfy` (`Responses`): the `GenericApiResponse` envelope, `success_response`, `failure_response` and the `" | "` join.
- `vault.dfy` (`Vault`): the vault wrapper. The vault is a map from name to `(arn, value)`. `SecretsManagerService` is a class whose methods update that map.
- `store.dfy` (`Store`): the metadata store wrapper. The store is a map from path to record. `SecretsStore` is a class whose `Save` updates that map and whose reads leave it alone.
- `router.dfy` (`Router`): the four handlers as methods of `SecretsRouter`, which holds the two shared clients as fields. Each state-changing handler is proved equal to a pure function of the old stores (`Create`, `Modify`); `View` specifies the read-only handler. `Consistent` is the registry invariant.
- `router_props.dfy` (`RouterProperties`): the state-machine properties, and their extension to any sequence of requests (`Run`).

Outside events are parameters: the ARN the vault issues, and whether each
call to the store or the vault goes through (`Outage`). They are bundled per
request in `Router.Io`. `APP_ENV` and `APP_BASE_PATH` are constants of the
two client objects. Their defaults in app/config/settings.py are `"dev"` and
`"Platform/Admin"`.

The comment at app/services/secrets_manager.py:19 says an existing vault
name surfaces as HTTP 400. The code raises a `ClientError`, and the router
turns every non-HTTP exception into a 500. The model follows the code:
`RouterProperties.CreateOverOrphanIs500` states the 500.

## Model

| member | source | states |
|---|---|---|
| `Responses.Join` | app/models/generic_response_model.py:33-34 | joining no parts gives ""; otherwise the result starts with the first part and its length is the sum of the part lengths plus one separator between each pair |
| `Responses.JoinAppend` | app/models/generic_response_model.py:34 | joining `a + b` (both non-empty) is joining `a`, the separator, then joining `b` |
| `Responses.SuccessResponse` | app/models/generic_response_model.py:10-19 | success is true, error is absent, data is exactly the given data |
| `Responses.FailureResponse` | app/models/generic_response_model.py:21-36 | raises TypeError exactly when the argument is neither str nor list; otherwise success is false and data is absent; a str is the error unchanged; a list of str becomes joined with `ListSeparator` (space, bar, space) |
| `Responses.FailureOfSingletonList` | app/models/generic_response_model.py:33-34 | a one-element list gives the same response as its element passed as a str |
| `Responses.FailureOfEmptyList` | app/models/generic_response_model.py:33-34 | an empty list gives error "" |
| `Responses.FailureOfSplitList` | app/models/generic_response_model.py:33-34 | the error message of a list is the messages of any split of it glued with `ListSeparator` |
| `Vault.Name` | app/services/secrets_manager.py:14-15 | the name is APP_ENV, then "/", then the key |
| `Vault.NameInjective` | app/services/secrets_manager.py:14-15 | for one APP_ENV, two keys give the same name exactly when they are equal |
| `Vault.CreateCall` | app/services/secrets_manager.py:21-29 | the vault create succeeds exactly when the vault is reachable and the name is new; on success the name holds the value under the returned ARN; no other name changes; on failure nothing changes and a ClientError is raised |
| `Vault.PutValueCall` | app/services/secrets_manager.py:35-42 | the put succeeds exactly when the vault is reachable and the name exists; on success the name keeps its ARN and holds the new value; no other name changes; on failure nothing changes |
| `Vault.UpdateAfterCreate` | app/services/secrets_manager.py:17-42 | update after create reaches the same secret: it succeeds, keeps the ARN create returned and holds the new value |
| `Vault.SecretsManagerService.constructor` | app/services/secrets_manager.py:11-12 | the client starts on the given vault for the given APP_ENV |
| `Vault.SecretsManagerService.CreateSecret` | app/services/secrets_manager.py:17-29 | the result and the new vault are those of `CreateCall` on the key's namespaced name; vault errors come back unchanged |
| `Vault.SecretsManagerService.UpdateSecret` | app/services/secrets_manager.py:31-42 | the result and the new vault are those of `PutValueCall` on the same namespaced name |
| `Store.Root` | app/services/secrets_store.py:19 | the root is APP_BASE_PATH followed by "/System/Secrets" |
| `Store.KeyForSecret` | app/services/secrets_store.py:21-23 | the path is the root, then "/", then the key, so it lies strictly below the root folder |
| `Store.KeyForSecretInjective` | app/services/secrets_store.py:21-23 | distinct keys give distinct paths, and equal keys equal paths |
| `Store.KeyForAll` | app/services/secrets_store.py:25-26 | a path lies below the listing folder exactly when it lies below the root, and every secret's path does |
| `Store.First` | app/services/secrets_store.py:40-43 | the first element when the fetch gives a non-empty list, and None otherwise |
| `Store.AsList` | app/services/secrets_store.py:49-50 | the fetched list unchanged when it is a list, and the empty list otherwise |
| `Store.Exact` | app/services/secrets_store.py:39 | fetching a record path gives a list of at most one record: the one saved there, if any |
| `Store.Lookup` | app/services/secrets_store.py:35-43 | `get` fails exactly when the store fails; otherwise it finds a record exactly when one is saved at the key's path, and returns that record |
| `Store.SaveCall` | app/services/secrets_store.py:28-33 | `save` fails exactly when the store fails; on success the key's path holds `{key, arn}`, replacing what was there; every other path is unchanged |
| `Store.SaveThenLookup` | app/services/secrets_store.py:28-43 | save then get of the same key returns the saved `{key, arn}` |
| `Store.SaveKeepsOtherKeys` | app/services/secrets_store.py:23-43 | saving one key leaves what get returns for every other key unchanged |
| `Store.SecretsStore.constructor` | app/services/secrets_store.py:13-19 | the store starts with the given documents and root `Root(APP_BASE_PATH)` |
| `Store.SecretsStore.FetchDocument` | app/services/secrets_store.py:39 | the document fetch fails with the store's error when it is down; otherwise it gives `Exact` of the path |
| `Store.SecretsStore.FetchFolder` | app/services/secrets_store.py:49 | the folder fetch gives, in no set order, one entry per document below the folder: entry i is the document at a path visited once, and every such path is visited |
| `Store.SecretsStore.Save` | app/services/secrets_store.py:28-33 | the result and the new documents are those of `SaveCall` |
| `Store.SecretsStore.Get` | app/services/secrets_store.py:35-43 | returns `Lookup` of the current documents and changes nothing |
| `Store.SecretsStore.ListAll` | app/services/secrets_store.py:45-50 | fails only when the store fails; otherwise returns every record below the root, one entry each, and changes nothing |
| `Router.AsHttp` | app/api/secrets_router.py:37-40 | an HTTPException passes through unchanged; any other exception becomes a 500 carrying its description |
| `Router.SecretsRouter.constructor` | app/api/secrets_router.py:12-13 | the router holds the two given clients |
| `Router.SecretsRouter.CreateSecret` | app/api/secrets_router.py:15-40 | the response and the new stores are `Create` of the old stores, in the order get, vault create, save; a consistent registry stays consistent |
| `Router.SecretsRouter.ListSecrets` | app/api/secrets_router.py:43-56 | fails with 500 exactly when the store fetch fails; otherwise a success envelope whose data lists each document below the root once; in a consistent registry that is every registered key once, with its backed record |
| `Router.SecretsRouter.ViewSecret` | app/api/secrets_router.py:59-76 | the response is `View` of the current stores; neither store changes and the vault is not called; in a consistent registry a success answers the requested key's record, backed by the vault with its ARN |
| `Router.SecretsRouter.ModifySecret` | app/api/secrets_router.py:79-99 | the response and the new vault are `Modify` of the old stores; the store is not written; a consistent registry stays consistent |
| `Router.CreateKeepsConsistent` | app/api/secrets_router.py:23-35 | every outcome of create keeps each record backed by a vault secret with its ARN, because the vault create comes before the save |
| `Router.ModifyKeepsConsistent` | app/api/secrets_router.py:86-95 | every outcome of modify keeps each record backed by a vault secret with its ARN |
| `Router.ListingIsRegistry` | app/api/secrets_router.py:47-53 | in a consistent registry, a listing below the root has one entry per registered key: each entry is that key's saved record, backed by the vault; no key appears twice; no registered key is missing |
| `RouterProperties.CreateRejectsRegistered` | app/api/secrets_router.py:24-27 | create on a key with a record answers 400 "Secret already exists" and changes neither store |
| `RouterProperties.CreateRegisters` | app/api/secrets_router.py:29-35 | create on a new key, all calls succeeding, answers `{key, arn}` with the issued ARN; the vault gains the value under that ARN and the store gains exactly that record |
| `RouterProperties.CreateAnswersSavedRecord` | app/api/secrets_router.py:29-35 | a successful create answers exactly the record it saved, and the vault holds that ARN under the key's name |
| `RouterProperties.CreateVaultFailureWritesNothing` | app/api/secrets_router.py:29-30 | when the vault create fails, no store or vault change happens and the answer is a 500 |
| `RouterProperties.CreateSaveFailureLeavesOrphan` | app/api/secrets_router.py:29-30 | when the save fails after the vault create, the vault secret stays without a record and the answer is a 500 |
| `RouterProperties.CreateOverOrphanIs500` | app/api/secrets_router.py:29-40 | a vault secret without a record makes create answer 500 "ResourceExistsException", not 400, and change nothing |
| `RouterProperties.CreateThenView` | app/api/secrets_router.py:30-35 | after a successful create, view of the key gives the same response create gave |
| `RouterProperties.CreateTwiceRejected` | app/api/secrets_router.py:25-27 | a second create of a key answers 400, changes nothing, and the vault keeps the first value |
| `RouterProperties.ViewUnknownNotFound` | app/api/secrets_router.py:67-69 | view of a key without a record answers 404 "Secret not found" |
| `RouterProperties.ModifyUnknownNotFound` | app/api/secrets_router.py:88-90 | modify of a key without a record answers 404 and changes neither store |
| `RouterProperties.ModifyKeepsView` | app/api/secrets_router.py:84-95 | modify never changes the store, so view of any key answers the same before and after |
| `RouterProperties.ModifyChangesOnlyValue` | app/api/secrets_router.py:92 | a successful modify changes only the value under the key's vault name; its ARN and all other secrets stay |
| `RouterProperties.ModifyRegisteredSucceeds` | app/api/secrets_router.py:88-95 | in a consistent registry, modify of a registered key succeeds whenever the store and vault are reachable |
| `RouterProperties.ViewAnswersOwnRecord` | app/api/secrets_router.py:67-72 | in a consistent registry, view answers a record for the requested key, backed by a vault secret with its ARN |
| `RouterProperties.ListSeesEveryRecord` | app/api/secrets_router.py:47-53 | in a consistent registry, every record lies below the listing path, so list returns all of them |
| `RouterProperties.HandlerErrorsAreHttp` | app/api/secrets_router.py:23-40 | create fails only with 400 or 500, view and modify only with 404 or 500, always as HTTPException |
| `RouterProperties.ApplyKeepsRecords` | app/api/secrets_router.py:25-30 | no single request removes or changes an existing record |
| `RouterProperties.RunKeepsConsistent` | app/api/secrets_router.py:25-30 | any sequence of requests keeps the registry consistent |
| `RouterProperties.RunKeepsRecords` | app/api/secrets_router.py:25-30 | no sequence of requests takes a key back to ABSENT or changes its record's ARN |
| `RouterProperties.EveryRecordBackedFromEmpty` | app/api/secrets_router.py:25-30 | from empty stores, after any sequence of requests every record is backed by a vault secret with its ARN |

## Left out

- The FastAPI app and its routing (app/app.py) and the conversion of a raised HTTPException into an HTTP reply: a handler that raises ends with `Failure(HttpException(status, detail))`.
- Environment loading (app/config/settings.py): `APP_ENV` and `APP_BASE_PATH` are constants of the client objects. The bucket and region are not used by any modelled logic.
- Request validation (app/schemas/secrets.py): the request bodies are plain `string` parameters.
- boto3, `SimpleDocumentStoreAWS` and S3: the vault and the store are maps. A document fetch is an exact-path lookup. A folder fetch lists the documents below the folder. The store's merging of nested documents into one folder fetch is not modelled, so a key containing "/" behaves as any other key here.
- A fetch that returns something other than a list: the modelled store always returns a list. `Store.First` and `Store.AsList` still handle the non-list case.
- Python truthiness of an empty dict in `if existing` / `if not item`: every stored record has both fields, so a found record always counts as present.
- Response serialisation (`model_dump`, `JSONResponse`) and the exact text of `repr(e)`: a 500's detail is `Router.Describe(e)`, the error code.
- The vault's own error texts, and the errors the vault or store clients raise beyond a taken name, an unknown name and an unreachable service (`Outage`).
- Concurrent requests: the model is sequential, so the race between two creates of the same key is not captured.
- `failure_response` with a list holding non-strings: its outcome depends on pydantic validation. `ErrorArg.StrList` holds strings only.
