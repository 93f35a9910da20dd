# Meshy job-abstraction layer in Dafny

This project models the job-abstraction layer of an MCP tool server that drives the
Meshy generative-3D REST API. The layer has three parts:

- the **task normalizer** (`normalizeTask`), which maps a raw Meshy task, the kind string it
  was fetched under, and an optional balance to the canonical `Job`;
- **endpoint resolution and creation dispatch**, which maps the seven job kinds to the v1/v2
  create, lookup and stream paths and builds the creation bodies;
- the **provider operations** (`getBalance`, `createJob`, `getJob`, `streamJob`) and the
  **push-subscription handler** that `streamTask` installs on its EventSource.

Modules, one per source concern:

| file | module | models |
|---|---|---|
| wrappers.dfy | `Wrappers` | `Option` for optional fields, `Result` for thrown errors |
| job_types.dfy | `JobTypes` | `Job`, `CreditBalance`, the closed kind and status sets (src/types/index.ts) |
| meshy_types.dfy | `MeshyTypes` | the raw `MeshyTask` (src/providers/meshy/types.ts) |
| normalizer.dfy | `Normalizer` | `normalizeTask` |
| endpoints.dfy | `Endpoints` | create, lookup and stream paths and create bodies (client.ts) |
| stream.dfy | `Stream` | the EventSource message/error/close handler as an open/closed machine |
| client.dfy | `Client` | the client's network operations over an abstract backend |
| provider.dfy | `Provider` | the provider's four operations |

Network effects are recorded as a trace of abstract calls: `ReadBalance`, `Post(path, body)`,
`Fetch(path)` and `Connect(url)`. What the backend answers is a `Backend` value. It holds the
balance, the id a POST returns and the raw task served at each GET path. An absent answer
stands for a transport failure, which is passed through unchanged as `Transport(path)`.
Exceptions become `Failure` results. `Job.type` is the field `jobType`, because `type` is a
Dafny keyword.

The model keeps these behaviours of the code exactly as written, although they are easy to misread:

- `streamJob` without a kind **throws** (src/providers/meshy/index.ts:71-73). It does not
  report through the error callback.
- A payload that fails to parse is reported, and the subscription **stays open**
  (src/providers/meshy/client.ts:113-115). It is not closed.
- `error` is copied from `task_error.message` **whatever the status**. It is not limited to
  failed jobs.
- `createJob` reads the balance **before** it rejects an unsupported kind, so one network
  call has already happened.
- Lookup and streaming accept **any kind starting with `text-to-3d`**. The normalizer casts
  the kind string into `Job.type` without checking it, so `getJob(id, {type:
  'text-to-3d-preview'})` returns a Job whose type is outside the seven declared kinds
  (`Provider.PrefixedLookupKindIsUndeclared`). Jobs from `createJob` always carry a declared
  kind (`Provider.CreateJob`).
- The caller's parameters overlay the `mode` that the text-to-3d create calls write, so
  the body's `mode` is the caller's whenever the caller gave one.

## Model

| member | source | states |
|---|---|---|
| JobTypes.ParseKind | src/types/index.ts:4 | a kind string is accepted exactly when it is one of the seven declared names, and it then reads back as that name |
| JobTypes.KindNameRoundTrip | src/types/index.ts:4 | each of the seven kinds round-trips through its wire name |
| JobTypes.StatusNameInjective | src/types/index.ts:5 | the five lowercase status names are pairwise distinct |
| Normalizer.NormalizeStatus | src/providers/meshy/index.ts:83-87 | every raw value of the declared vocabulary maps to the state it names, and every other string maps to pending |
| Normalizer.StatusRoundTrip | src/providers/meshy/index.ts:83-87 | translating the raw name of any state gives back that state |
| Normalizer.PendingIsTheFallback | src/providers/meshy/index.ts:83-87 | the status is pending exactly for raw `PENDING` and for strings outside the vocabulary |
| Normalizer.NormalizeOutputs | src/providers/meshy/index.ts:89-116 | models copy `model_urls` or are empty; thumbnail is `thumbnail_url`; textures are the first texture set or empty; rigging and animation are present exactly when `result` has a non-empty fbx URL, and they carry both URLs |
| Normalizer.ErrorMessage | src/providers/meshy/index.ts:132 | the error is present exactly when `task_error` is, and it is its message |
| Normalizer.Normalize | src/providers/meshy/index.ts:82-134 | id, progress and timestamps pass through; the provider is `meshy`; the type is the kind argument; inputs are empty; `credits.before` is the balance argument and `after`/`delta` are unset |
| Normalizer.LaterTextureSetsIgnored | src/providers/meshy/index.ts:99-101 | texture sets after the first never change the Job |
| Normalizer.UnreadFieldsIgnored | src/providers/meshy/index.ts:82-134 | the raw type, the expiry, the basic animations and the processed URLs never change the Job |
| Normalizer.MtlKeyCopied | src/providers/meshy/index.ts:95-97 | an `mtl` model URL, undeclared in the Job's model formats, is still copied |
| Normalizer.GlbOnlyYieldsNoRigging | src/providers/meshy/index.ts:103-109 | a result with only a glb rigged character, or an empty fbx URL, yields no rigging |
| Normalizer.RiggingAndAnimationTogether | src/providers/meshy/index.ts:103-116 | rigging and animation are independent: one result can yield both |
| Normalizer.ErrorCopiedRegardlessOfStatus | src/providers/meshy/index.ts:132 | a succeeded task that carries an error message yields a succeeded Job with that error |
| Endpoints.TaskPath | src/providers/meshy/client.ts:73-81 | the lookup chain yields a path exactly for the accepted kinds: the seven names and any string starting with `text-to-3d` |
| Endpoints.StreamPath | src/providers/meshy/client.ts:88-99 | the stream chain yields a path exactly for the same accepted kinds |
| Endpoints.CreatePath | src/providers/meshy/client.ts:26-70 | each of the eight create operations POSTs to its kind's collection from the reference table; preview and refine share the v2 text-to-3d collection |
| Endpoints.CreateBody | src/providers/meshy/client.ts:26-70 | the body holds every caller key with the caller's value, plus `mode` for the two text-to-3d operations |
| Endpoints.ServedAs | src/providers/meshy/client.ts:74-80 | a prefixed kind is served as text-to-3d, and a declared name is served as itself |
| Endpoints.OnlyTextTo3dIsPrefixed | src/providers/meshy/client.ts:74 | among the seven names only `text-to-3d` passes the prefix test |
| Endpoints.CollectionUnderVersion | src/providers/meshy/client.ts:74-80 | text-to-3d lives under v2, and every other kind lives under v1 |
| Endpoints.CollectionOfKind | src/providers/meshy/client.ts:74-80 | for each declared kind, the lookup chain requests the kind's collection from the reference table, followed by the id (`rig` is served from `rigging`, `animate` from `animations`) |
| Endpoints.TaskPathMatchesTable | src/providers/meshy/client.ts:72-81 | lookup resolves exactly the accepted kinds (the seven names and any text-to-3d-prefixed string), each to its collection path followed by the id |
| Endpoints.StreamPathExtendsTaskPath | src/providers/meshy/client.ts:89-99 | streaming accepts exactly the kinds lookup accepts, at the lookup path plus `/stream` |
| Endpoints.CreateBodyOverlay | src/providers/meshy/client.ts:26-70 | every caller parameter reaches the body verbatim; text-to-3d adds `mode`, which holds the operation's own mode only when the caller gave none; the other kinds send the parameters as given |
| Endpoints.CreatePathIsLookupStem | src/providers/meshy/client.ts:26-80 | every create path followed by `/` and a task id is the lookup path of the operation's kind for that id |
| Stream.Step | src/providers/meshy/client.ts:106-123 | on an open subscription a message is delivered once and closes exactly on a terminal raw status; a parse error is reported and stays open; a connection error is reported and closes; unsubscribing closes; a closed one does nothing |
| Stream.Run | src/providers/meshy/client.ts:106-123 | over any sequence of events a subscription never reopens, and it makes no more callbacks than there are events |
| Stream.ClosesIffJobTerminal | src/providers/meshy/client.ts:110-112 | the handler closes on a message exactly when the normalized Job is terminal |
| Stream.ClosedIsFinal | src/providers/meshy/client.ts:106-123 | a closed subscription stays closed and delivers nothing, whatever events follow |
| Stream.RunWhileOpen | src/providers/meshy/client.ts:106-121 | while no event closes it, the subscription stays open and delivers every event's output |
| Stream.RunUntilClose | src/providers/meshy/client.ts:106-123 | the first closing event closes the subscription, its own output is delivered, and nothing after it is |
| Stream.TerminalUpdateIsLast | src/providers/meshy/client.ts:109-112 | a terminal message is delivered and is the last delivery, whatever follows |
| Stream.OneUpdatePerMessage | src/providers/meshy/client.ts:108-109 | on a connection that stays open, the update callback receives exactly the messages' tasks, in order |
| Client.GetBalance | src/providers/meshy/client.ts:21-24 | one balance read, returning the backend's balance or its failure |
| Client.Create | src/providers/meshy/client.ts:26-70 | one POST of the operation's body to its path; only the returned id is used |
| Client.GetTask | src/providers/meshy/client.ts:72-85 | an unknown kind raises with no request; otherwise one GET of the kind's lookup path, returning the task served there |
| Client.StreamTask | src/providers/meshy/client.ts:87-104 | an unknown kind reports one error, opens nothing and leaves a closed (no-op) subscription; otherwise one connection to the stream URL, open |
| Provider.CreateOpFor | src/providers/meshy/index.ts:26-54 | creation accepts exactly the seven declared names, each with its own operation; text-to-3d chooses refine exactly when `mode` is `refine`, and preview otherwise |
| Provider.GetBalance | src/providers/meshy/index.ts:14-20 | one balance read, stamped with the clock reading; a failed read returns `Transport` of the balance path unchanged |
| Provider.CreateJob | src/providers/meshy/index.ts:22-58 | the trace is a balance read, then one create call chosen by kind, then one fetch of the created task's lookup path; an unsupported kind fails after the balance read only; a failed read, POST or fetch returns its `Transport` error unchanged; the Job carries a declared kind and the balance read first |
| Provider.GetJob | src/providers/meshy/index.ts:60-67 | a missing or empty kind fails with no fetch; otherwise exactly the transport lookup, normalized without a balance, and a failed fetch returns its `Transport` error unchanged |
| Provider.StreamJob | src/providers/meshy/index.ts:69-80 | a missing or empty kind fails with no subscription; an unknown kind gives a closed subscription; otherwise one connection, open |
| Provider.JobsDelivered | src/providers/meshy/index.ts:75-79 | the subscriber receives one Job per forwarded task, in order, normalized under the stream's kind with no balance |
| Provider.TerminalJobIsLastDelivered | src/providers/meshy/index.ts:75-77 | a terminal Job closes the subscription and is the last Job the subscriber receives |
| Provider.CreationKindsAreLookupKinds | src/providers/meshy/index.ts:26-56 | every kind creation accepts is accepted by lookup, at the collection the task was posted to |
| Provider.PrefixedLookupKindIsUndeclared | src/providers/meshy/index.ts:121 | lookup serves `text-to-3d-preview`, which creation rejects, and the resulting Job's type lies outside the declared kinds |

## Left out

- HTTP (axios), the EventSource connection, bearer authentication and `JSON.parse` are not modelled. They are abstracted as trace entries, a `Backend` value and stream events.
- The JSON-RPC tool server (src/index.ts), the parameter schemas (src/tools/definitions.ts), configuration loading (src/config.ts) and the integration harness are not part of this model. Parameters arrive as an already-validated bag.
- The provider interface (src/providers/base.ts) declares no behaviour. The `Provider` module's four methods mirror its four signatures.
- `Date.now()` is a parameter of `Provider.GetBalance`. The `console.error` logging of stream errors is dropped.
- Numbers in the Job and the raw task (balance, progress, timestamps) are JavaScript floats but are modelled as integers. Numbers in parameter bags are reals, so values such as a rigging height of 1.7 are representable. No bound is put on `progress`, because the code copies it unchecked.
- Only the `type` entry of `getJob`/`streamJob` options is modelled, as an optional string.
- JavaScript keys explicitly set to `undefined` are not told apart from absent keys in URL maps.
- An update callback that throws inside the message handler is not modelled. Neither is a parsed payload that is not an object.
- The unsubscribe handle is modelled as the `Unsubscribe` event of the subscription machine, not as a returned closure.
