# WfP Manager core, modelled in Dafny

This project models the core of the Workers-for-Platforms manager. The manager is a Cloudflare Worker that deploys tenant workers into a dispatch namespace. The model covers five parts:

- `util.dfy` (module `Util`): JavaScript values and objects, the errors the core throws, and the shallow `required` check that is applied to every SDK reply (`src/util.ts`).
- `resources.dfy` (module `Resources`): `getOrCreateD1` (`src/resources.ts`). It runs against a `D1Account` class whose database map is updated in place, and it is specified by the pure function `GetOrCreate`.
- `script_upload.dfy` (module `ScriptUpload`): the three `ScriptUpload` operations (`src/script-upload.ts`):
  - negotiating an asset upload session;
  - the bucket-by-bucket asset upload loop, as a `while`-loop method proved against the function `BatchUpload`;
  - composing and sending the `scripts.update` request.
- `api.dfy` (module `Api`): the `/upload` route of `src/index.ts` and its `onError` handler. The method `HandleUpload` is proved against the function `Handle`, which gives the response, the ordered list of remote calls and the D1 account afterwards.
- `worker_manager_mcp.dfy` (module `WorkerManagerMcp`): the tool bodies of the MCP agent (`src/mcp/worker-manager-mcp.ts`):
  - the manifest fold, as a `for`-loop method proved against the predicate `IsManifestOf`;
  - the one-time D1 provisioning in `init`, as a class whose fields are the registered tools and the captured database;
  - the `deploy_worker` request composition.

Remote services are oracles passed in as parameters:
- the reply to each SDK call;
- `replies(k)`, the answer to the k-th bucket POST;
- the D1 account's contents and the faults it answers with.

A JavaScript object is the list of its own entries in `Object.entries` order. A key the object lacks is simply not listed, and reading such a key gives `undefined`.

The model follows the code as written; in particular:
- The upload loop sends the session `jwt` from the negotiation with every bucket. A token in an intermediate reply is never used for later buckets: a non-empty token ends the loop.
- `required` throws only for a key that is present with the value `undefined`. A key that is absent from the reply passes, so a D1 record without `uuid` is accepted and the binding gets `id: undefined`.
- `src/index.ts` calls `scriptUpload.uploadFilesBatch` and `scriptUpload.uploadScript(namespace, {name, script}, metadata)`, and `ScriptUpload` defines neither. The model reads them as `uploadAssetsBatch` and `deployWorker(namespace, name, script, metadata)`, the only operations with matching roles. As written, `uploadFilesBatch` would throw a `TypeError` inside the try block, so no bucket would be sent and the asset token would stay undefined. `uploadScript` would throw outside any try, so every request that gets past the D1 step would answer 500 and nothing would be published.

## Model

| member | source | states |
|---|---|---|
| Util.FirstUndefined | src/util.ts:2-6 | The position of the first entry whose value is `undefined` in `Object.entries` order. Every earlier entry is defined, and the position equals the length exactly when every entry is defined. |
| Util.Required | src/util.ts:1-8 | Succeeds exactly when no own entry is `undefined`, and then returns the very same object. Otherwise it fails with "Missing required value: key", naming the first such entry. |
| Util.RequireReply | src/util.ts:1-8 | An SDK reply passed through `required`. An SDK error passes through unchanged. A reply with an `undefined` entry becomes a plain `Error`, never `NotFoundError`. |
| Util.NullAndNestedUndefinedPass | src/util.ts:3 | The check is shallow and strict. `null` passes, and so does an `undefined` nested inside a value. |
| Resources.GetOrCreateD1 | src/resources.ts:13-31 | The try/catch method on the account. Its result, the account's new store and its call log are exactly those of `GetOrCreate` on the old state. |
| Resources.FoundDatabaseReturned | src/resources.ts:17-19 | A complete record found by `get` is returned as it is. Only the `get` call is made and the store is unchanged. |
| Resources.NotFoundCreatesOnce | src/resources.ts:20-27 | On `NotFoundError`, exactly one `create` is made, with the same name and location hint. Its reply, passed through `required`, is the result. |
| Resources.MissingDatabaseStored | src/resources.ts:21-27 | With no faults, a missing database is created and stored under its name, and the new record is returned. |
| Resources.OtherErrorRethrown | src/resources.ts:29 | Any other error from `get` is rethrown unchanged. Nothing is created. |
| Resources.IncompleteRecordNotRecreated | src/resources.ts:19-21 | A found record with an `undefined` entry makes `required` throw a plain error. That error is not `NotFoundError`, so it is rethrown and no `create` happens. |
| Resources.SuccessIsStoredAndComplete | src/resources.ts:13-31 | A successful result has every entry defined, and the account now holds it under that name. |
| Resources.GetOrCreateIdempotent | src/resources.ts:13-31 | After a success, a second call returns the same record, with any hint. It leaves the store unchanged and makes only a `get`. |
| ScriptUpload.CreateAssetsUpload | src/script-upload.ts:33-40 | The negotiation is sent for the given namespace, worker and manifest. Its reply is returned through `required`. |
| ScriptUpload.UploadAssetsBatch | src/script-upload.ts:42-114 | The loop over buckets returns the same result and sends the same requests as `BatchUpload`. |
| ScriptUpload.BucketForm | src/script-upload.ts:54-70 | The loop that builds one bucket's form gives the file of each hash in bucket order. It gives nothing exactly when some hash has no file, which is where the source throws "Unknown file hash". |
| ScriptUpload.MovesOn | src/script-upload.ts:94-111 | A reply whose JSON body is falsy, or a successful body without a token, lets the loop go on. The bucket's request joins those sent, and the outcome is left to the next bucket. |
| ScriptUpload.BatchesFromShape | src/script-upload.ts:51-111 | From bucket i onward, each request is the request for its bucket. Every reply except the last lets the loop continue. A success is the last reply's non-empty token. |
| ScriptUpload.RequestsFollowBuckets | src/script-upload.ts:51-78 | At most one request per bucket, in plan order. Each carries the session `jwt` as its bearer token, has every hash resolved, and holds one part per hash in order. |
| ScriptUpload.EmptyPlanSendsNothing | src/script-upload.ts:46-49 | With no buckets, the session token is returned and nothing is sent. |
| ScriptUpload.UnknownHashStopsUpload | src/script-upload.ts:54-59 | A bucket holding a hash that has no file is never sent, and neither is any later bucket. |
| ScriptUpload.UnknownHashFails | src/script-upload.ts:54-59 | When every earlier bucket was sent and moved on, a bucket with a hash that has no file ends the upload with "Unknown file hash" after exactly the k earlier requests. |
| ScriptUpload.ReachBucket | src/script-upload.ts:51-111 | If buckets before k were all sent and the loop moved on, the upload is those k requests followed by the run from bucket k. |
| ScriptUpload.FirstTokenWins | src/script-upload.ts:106-109 | The first reply carrying a non-empty token ends the upload with that token, after exactly k+1 requests. |
| ScriptUpload.FailedReplyStops | src/script-upload.ts:80-104 | A non-OK status fails with "Failed to upload files (status): text". A body that is not JSON fails with the `SyntaxError` of `response.json()`. An OK body with `success: false` fails with "Failed to upload files". Later buckets are not sent. |
| ScriptUpload.MissingTokenFails | src/script-upload.ts:113 | If all buckets are sent and none returns a token, the upload fails with "Should have received completion token". |
| ScriptUpload.DecodeFiles | src/index.ts:159-165 | One file per submitted file, with name, type, text and position kept. It is decoded as base64 exactly when flagged. |
| ScriptUpload.PublishSettings | src/index.ts:168-189 | Metadata with exactly one tag `user:<user>` and the given asset token. It has exactly two bindings: assets `ASSETS` and d1 `SQLITE` with the database's `uuid`. Observability is on. |
| ScriptUpload.FilesByName | src/script-upload.ts:123-125 | Every file name is a key, and each key maps to the last file with that name (`Object.fromEntries`). |
| ScriptUpload.DeployWorker | src/script-upload.ts:116-146 | One `scripts.update` call with `main_module` set to the main file name and the caller's metadata. Its files are keyed by name. The reply goes through `required`, and errors are rethrown unchanged. |
| Api.SampleManifest | src/index.ts:109-121 | The manifest has the single key `/hello_world.txt`, with the given hash and size 6. |
| Api.AssetsToken | src/index.ts:125-147 | The asset token is defined exactly when the upload session is well formed and the upload succeeds, and then it is that upload's token. |
| Api.UploadSampleAsset | src/index.ts:125-147 | The try block gives the upload's token, or undefined when the upload throws. It also gives the bucket requests that were sent. |
| Api.HandleUpload | src/index.ts:99-196 | The handler method's response, its calls, and the account's new state and log are exactly those of `Handle`. |
| Api.FromDatabaseCalls | src/index.ts:151-190 | After the upload come the D1 calls, then one publish call exactly when the database was obtained. |
| Api.CallOrder | src/index.ts:123-190 | The negotiation is the first call. Calls never go backwards through negotiate, buckets, D1, publish, and nothing follows a publish. |
| Api.NoPublishWithoutDatabase | src/index.ts:151-153 | If the database step fails, no publish call is made. The response is a 500 carrying that error's message. |
| Api.PublishRequest | src/index.ts:153-190 | The publish request names the tenant's worker in namespace `tiwi` and uses the body's main file and decoded files. It has the two bindings, the ownership tag and the asset token. |
| Api.FromDatabasePublish | src/index.ts:151-190 | A publish call happens only after the database was obtained. It is the last call and binds that database. |
| Api.PublishComposition | src/index.ts:123-190 | Any publish call is the last call. It follows a successful negotiation and database step, and it carries that database's `uuid` and the token the asset upload produced. |
| Api.AssetFailureSwallowed | src/index.ts:130-146 | How the platform answers the buckets has no effect on the response or on the database step. |
| Api.ResponseOutcome | src/index.ts:41-48 | The response is `{ok: true, errors: []}` exactly when the negotiation, the database step and the publish all succeed. Otherwise it is a 500 carrying the message of the error that stopped it: the negotiation's, else the database step's, else the publish's. |
| WorkerManagerMcp.ManifestStep | src/mcp/worker-manager-mcp.ts:61-67 | Adding the next file keeps the accumulator equal to the manifest of the files seen so far. |
| WorkerManagerMcp.BuildManifest | src/mcp/worker-manager-mcp.ts:61-67 | The fold's keys are exactly the input file names. Under each name is `{hash, size}` of the last file with that name. |
| WorkerManagerMcp.UniqueNameKept | src/mcp/worker-manager-mcp.ts:62-65 | A name given once maps to exactly the hash and size it came with. |
| WorkerManagerMcp.ManifestUnique | src/mcp/worker-manager-mcp.ts:61-67 | The manifest is determined by the input list. |
| WorkerManagerMcp.CreateAssetUploadTool | src/mcp/worker-manager-mcp.ts:60-82 | The upload is negotiated for the agent's namespace, with the user as the worker name, over the input's manifest. `upload_info` is the reply through `required`. |
| WorkerManagerMcp.DeployWorkerTool | src/mcp/worker-manager-mcp.ts:114-152 | The deploy goes to the agent's namespace with the user as the worker name, the given asset token, and exactly the assets binding and the D1 binding to the captured `uuid`. `version` is the reply's `etag`. |
| WorkerManagerMcp.WorkerNameIgnored | src/mcp/worker-manager-mcp.ts:115-118 | The input's `worker.name` has no effect on what is deployed or returned. |
| WorkerManagerMcp.WorkerManagerMcp.Init | src/mcp/worker-manager-mcp.ts:32-165 | It makes exactly one get-or-create, for the user with no hint. `create_asset_upload` is always registered. `deploy_worker` is registered, and the database captured, only if that call succeeds. |
| WorkerManagerMcp.WorkerManagerMcp.CallDeployWorker | src/mcp/worker-manager-mcp.ts:138-142 | Every deploy call binds the database captured by `init`, and leaves the agent unchanged. |

## Left out

- The Cloudflare SDK, `fetch`, `FormData`/`File` and the multipart wire format are out of scope. Each remote call is a reply parameter, and each request is a record of what it carries.
- The base64 and UTF-8 codecs (`Buffer.from`, `toString('base64')`) and the SHA-256 of the sample asset are out of scope. File content is kept symbolically with its encoding, and the asset hash is a parameter.
- Hono routing, zod and OpenAPI validation, and the MCP SDK's input and output schema checks are out of scope. The model starts from already-validated input. In particular, `file_name` starting with `/` is not checked.
- `McpAgent` and `McpServer` plumbing, Durable Object state persistence, and the JSON stringification of tool output are out of scope. Tool registration is kept only as the list of registered tool names.
- Logging (`console.*`) is not modelled. Its one effect on the outcome, the spread of a non-iterable `messages` or `errors`, is listed under ScriptUpload.BatchesFrom below.
- Concurrency is not modelled: simultaneous requests racing on the same D1 name are not covered. Each handler run sees one account state.
- `src/index.ts` routes other than `/upload`, the OpenAPI document, and `example/worker.js` are not part of this model.
- ScriptUpload.BatchesFrom: a reply with `success: true` and no `result` object, on which the source would throw a `TypeError`, is treated as a reply without a token. The body's `messages` and `errors` are taken to be arrays or absent. A truthy value that is not iterable, on which the logging spread (`console.warn(...data.messages)`, `console.error(...data.errors)`) throws a `TypeError` and ends the upload, is not represented.
- Api.AssetsToken: a negotiation reply whose `jwt` is not a string, or whose `buckets` is not an array of string arrays, is treated as an upload failure that is swallowed, with no bucket request sent and the asset token undefined. The source would continue with the ill-typed values. It may then send bucket requests the model does not record: with `Bearer undefined` when `jwt` is absent, or the well-formed buckets before one that is not an array. It may also obtain a token from a reply to those requests.
- WorkerManagerMcp.WorkerManagerMcp.Init: a failure escaping `init` is returned as the method's result. The agent's later lifecycle, such as re-running `init`, is not modelled.
- JavaScript numbers, such as the file sizes of `files_metadata` and `Num` values, are modelled as integers. A fractional size is not represented; sizes are only passed through.
- WorkerManagerMcp.DeployWorkerTool: the output schema's check that `version` is a string is not modelled, so `version` is the raw `etag` value, `undefined` included.
