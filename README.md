# ProgramA reconciler

A model of the reconciler in `controller.go` of a small Kubernetes operator.
The operator watches `ProgramA` custom resources (`crds.example.com/v1`,
resource `programas`, namespace `default`). For each one it creates a
Deployment that runs the `programa:latest` image with `MY_ENV_VAR` set to the
resource's `spec.envVarValue`. At startup it applies every listed resource
once, then every `Added` or `Modified` watch event, until the watch stream
ends.

The model has five modules, one per component:

- `Wrappers` (`wrappers.dfy`): `Option` and `Result`.
- `Unstructured` (`unstructured.dfy`): the accessors the reconciler uses on a
  semi-structured resource (`NestedMap`, `NestedString`, `GetName`,
  `GetNamespace`). A missing key or a null intermediate value is "not found".
  A value of the wrong type is an accessor error. The name accessors fall
  back to `""`. These helpers belong to the apimachinery library, which is not
  part of this model. Their semantics are written out from that library's
  documented behaviour.
- `Workload` (`workload.dfy`): the Deployment record and the pure synthesizer
  `DeploymentFor` (controller.go:105-140), with `Int32Ptr` for `int32Ptr`
  (controller.go:153). The synthesizer has an inverse, `InstanceOf`, defined on
  Deployments of the fixed shape (`WellShaped`). The two are proved to be a
  bijection.
- `Cluster` (`cluster.dfy`): the API server, seen only through
  `Deployments(namespace).Create`. It is a class with a store of Deployments
  keyed by (namespace, name) and a ghost log of every create request. That a
  create fails exactly when the key is taken, and that a failed create changes
  nothing, is an assumption about the server, not code of the repository.
- `Controller` (`controller.dfy`): the reconciler.
  - The spec functions `Plan`, `ApplyStore`, `ApplyRequests` and `ApplyReport`
    describe one apply.
  - Their folds `StoreAfter`, `Requests` and `Reports` describe a run over a
    sequence of applied objects.
  - `Dispatch` and `Watched` describe which watch events apply what.
  - The imperative methods `CreateDeploymentForProgramA`, `ApplyItems`,
    `ListPhase`, `HandleEvent`, `WatchLoop` and `Run` follow the Go code
    statement by statement and are proved equal to those functions.
  - The lemmas then state what the design promises.

Log output is modelled as a `Report` value per apply: rejected (with the
reason), create failed (with the conflict), or created.

The comment at controller.go:142 says "Create or update the deployment".
The code only creates. The model follows the code: `StoreAfterRun` proves
that an existing Deployment is never changed, so a later `Modified` event
with a different `envVarValue` has no effect on it.

The watch is opened (controller.go:47) before the list (controller.go:55),
with empty list options and so without a resource version. The API server
then starts the stream with a synthetic `Added` event for every resource that
already exists. Every listed resource is therefore applied twice at startup:
once as a listed item and once as an `Added` event. A resource created
between the two calls is applied twice as well. The model takes the listed
items and the event stream as independent inputs, so it covers all of these.
The second apply reports a conflict and leaves the store as the first left
it (`DuplicateDeliveryTolerated`).

## Model

| member | source | states |
|---|---|---|
| `Unstructured.NestedMapAtKey` | controller.go:90-94 | reading `spec` finds a map exactly when `spec` is present and is a map; it is "not found" exactly when `spec` is absent, and an accessor error otherwise |
| `Unstructured.NestedStringAtKey` | controller.go:96-100 | reading `envVarValue` finds a string exactly when the key is present with a string value; it is "not found" exactly when the key is absent |
| `Unstructured.MetadataStringReads` | controller.go:86-87 | `GetName`/`GetNamespace` give `metadata.name`/`metadata.namespace` when that is a string inside a map `metadata`, and `""` in every other case |
| `Workload.DeploymentFor` | controller.go:105-140 | the synthesized Deployment has the fixed shape (name ends in `-deployment`, one replica, selector and template labels both `{app: name}`, one `programa` container from `programa:latest` with pull policy Never and the single env var `MY_ENV_VAR`); the instance's name, namespace and envVarValue can be read back from it unchanged; its selector matches its template |
| `Workload.Int32Ptr` | controller.go:153 | the replica count is a non-nil pointer to the given value |
| `Workload.SynthesisRoundTrip` | controller.go:105-140 | every Deployment of the fixed shape is the one synthesized for the instance read back from it, so synthesis is a bijection onto well-shaped Deployments |
| `Workload.DeploymentForInjective` | controller.go:86-140 | equal Deployments come only from equal (name, namespace, envVarValue); with the function's determinism, the Deployment depends on exactly those three values |
| `Workload.DeploymentNameInjective` | controller.go:107 | two synthesized Deployment names are equal if and only if the instance names are equal |
| `Cluster.CreateResponse` | controller.go:144-148 | a create succeeds if and only if no Deployment with that namespace and name exists; success returns the submitted Deployment, failure is the "already exists" conflict for that key |
| `Cluster.StoreAfterCreate` | controller.go:144 | a create adds the key of the Deployment, never overwrites an existing entry, and on success stores the submitted Deployment |
| `Cluster.ApiServer.Create` | controller.go:144 | records the request in the log, answers with `CreateResponse` and leaves the store as `StoreAfterCreate` describes |
| `Cluster.KeyOfDeploymentFor` | controller.go:107-108 | two instances' Deployments compete for the same store entry if and only if the instances share name and namespace |
| `Controller.ReadEnvVarValue` | controller.go:90-100 | `spec.envVarValue` is read exactly when `spec` is a map holding a string `envVarValue`, and the value read is that string; the spec error is reported exactly when `spec` is absent or not a map, the envVarValue error otherwise |
| `Controller.Plan` | controller.go:86-100 | an apply plans a Deployment exactly for a well-formed instance; otherwise it stops with the error of reading `spec.envVarValue` |
| `Controller.ApplyStore` | controller.go:143-148 | one apply never changes an existing Deployment; a malformed instance leaves the store unchanged; a well-formed one adds exactly its Deployment's key, and stores the planned Deployment when that key was free |
| `Controller.ApplyReport` | controller.go:90-150 | one apply is rejected, under the instance's name and with the read error, exactly when the instance is malformed; it reports the created `<name>-deployment` exactly when the planned key was free, and the "already exists" conflict for that key under the instance's name otherwise |
| `Controller.CreateDeploymentForProgramA` | controller.go:85-151 | the store, request log and report after one apply are `ApplyStore`, old log plus `ApplyRequests`, and `ApplyReport` of the old store |
| `Controller.ApplyItems` | controller.go:59-61 | the listed items are applied one by one in list order: the final store, request log and reports are the folds over the items |
| `Controller.ListPhase` | controller.go:55-62 | a failed list applies nothing; a successful one applies every item in list order |
| `Controller.HandleEvent` | controller.go:67-81 | one event has the effect of applying exactly the objects `Dispatch` gives for it |
| `Controller.WatchLoop` | controller.go:66-82 | the watch phase has the effect of applying `Watched(events)` in delivery order and ends when the stream ends |
| `Controller.Run` | controller.go:53-82 | the whole run has the effect of applying the listed items, then the watched objects: store, request log and reports are the folds over `Applied(list, events)` |
| `Controller.ApplyRequests` | controller.go:143-144 | one apply submits at most one create request |
| `Controller.StoreAfter` | controller.go:143-148 | along any run, existing Deployments keep their keys and their values |
| `Controller.Requests` | controller.go:59-82 | a run submits at most one create request per applied object |
| `Controller.Reports` | controller.go:92-150 | a run reports exactly once per applied object, for malformed input and create failures included |
| `Controller.ReportAt` | controller.go:59-82 | the report for the i-th applied object is the one that object gets in the store left by the objects before it |
| `Controller.Dispatch` | controller.go:67-81 | one event applies at most one object |
| `Controller.Watched` | controller.go:66-82 | the watch phase applies at most one object per event |
| `Controller.PlanAcceptsExactlyWellFormed` | controller.go:90-100 | an instance yields a Deployment if and only if `spec` is a map holding a string `envVarValue`; that Deployment is `DeploymentFor(name, namespace, envVarValue)`; the spec error is reported exactly when `spec` is absent or not a map |
| `Controller.MalformedIsNoOp` | controller.go:90-100 | a malformed instance submits no request, leaves the store unchanged and reports one rejection under its name |
| `Controller.WellFormedRequestsOnce` | controller.go:143-148 | a well-formed instance submits exactly one request; it is stored when its key is free; otherwise the store is unchanged and the conflict is reported, with no retry |
| `Controller.PlanIgnoresOtherFields` | controller.go:86-100 | changing a top-level field other than `metadata` and `spec` leaves the name, the namespace, the plan, the requests, the new store and the report of an apply unchanged |
| `Controller.PlanIgnoresOtherMetadata` | controller.go:86-87 | changing a metadata field other than `name` and `namespace` leaves the name, the namespace, the plan, the requests, the new store and the report of an apply unchanged |
| `Controller.PlanIgnoresOtherSpec` | controller.go:96-100 | changing a spec field other than `envVarValue` leaves the name, the namespace, the plan, the requests, the new store and the report of an apply unchanged |
| `Controller.ApplyIdempotent` | controller.go:143-148 | applying the same instance twice leaves the store as applying it once |
| `Controller.DuplicateDeliveryTolerated` | controller.go:143-148 | two deliveries of one well-formed instance submit two identical requests; the second reports the conflict and the store is as after one delivery |
| `Controller.RequestsWellShaped` | controller.go:105-144 | every create request of a run is a Deployment of the fixed shape |
| `Controller.StoreAfterRun` | controller.go:59-82 | after a run, a key is in the store if and only if it was there before or some create request had that key; old entries are unchanged; a new entry holds the first request with its key, the one at the earliest position of the request log |
| `Controller.RequestCount` | controller.go:90-144 | the number of create requests equals the number of well-formed applied objects |
| `Controller.WatchedExactly` | controller.go:66-82 | the watch phase applies an object if and only if some Added or Modified event carries it as a record |
| `Controller.WatchedPrefixStep` | controller.go:66-82 | consuming one more event applies exactly what that event dispatches, after everything before it |
| `Controller.AddedActsAsModified` | controller.go:68-77 | an Added and a Modified event with the same payload have the same effect anywhere in the stream |
| `Controller.IgnoredEventHasNoEffect` | controller.go:70-80 | removing a Deleted, Bookmark or Error event, or an event whose object is not a record, does not change what the watch phase applies |
| `Controller.ListThenWatch` | controller.go:55-66 | a run is the list phase to completion followed by the watch phase from the listed store; the first reports are the listed items' in list order; a failed list leaves only the watch phase |
| `Controller.RunRequestCount` | controller.go:59-82 | a run submits one request per well-formed listed item plus one per Added or Modified event that carries a well-formed record |
| `Controller.ProgramaOnePlan` | controller.go:86-140 | the resource `programa-1`/`default` with envVarValue `instance-1` is accepted and plans `programa-1-deployment` |
| `Controller.ListedInstanceIsCreated` | controller.go:59-61 | listing that resource at startup submits one request and stores `programa-1-deployment` in `default` with `MY_ENV_VAR=instance-1`, one replica and selector `app=programa-1` |
| `Controller.DeletedEventChangesNothing` | controller.go:78-80 | a Deleted event submits nothing and leaves every Deployment as it was |
| `Controller.EmptyStreamEndsAfterList` | controller.go:66 | a stream that closes at once ends the run after the list phase |

## Left out

- Bootstrap is not modelled: kubeconfig loading, client construction, the resource definition and the `log.Fatalf` exits (controller.go:21-50). `Run` starts once the watch exists. A failed watch setup terminates the process, so it is not an input.
- The watch channel is a finite `seq<Event>` whose end is the channel closing. Its concurrency, its blocking and an unbounded stream are not modelled.
- `List`, `Watch` and `Create` on the real cluster are not modelled. `Create` is the abstract `ApiServer`, whose behaviour is an assumption.
- Cluster.CreateResponse: the only create failure modelled is the "already exists" conflict. Validation, admission, missing-namespace and transport errors are not modelled. The reconciler would treat them like the conflict: log and continue.
- Other writers to the cluster while the reconciler runs are not modelled.
- Fields the server assigns to a created object (uid, resourceVersion, status) are not modelled. `Created` reports the submitted name, which `result.GetName()` returns.
- Text output is not modelled. Each apply's log line is a `Report` value. The log line for a failed list and the progress lines of `main` have no counterpart.
- The label selector is modelled as its `matchLabels` map. The spec pointer to the selector and every Deployment field the reconciler does not set are not modelled.
- The deep copy inside `NestedMap` is not modelled. It makes no difference to the values read.
- programA.go (a loop that prints an environment variable) and programB.go (a seeding script that creates three resources) are not part of this model. They are I/O and demo glue.
