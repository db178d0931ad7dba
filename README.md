# controller-demo in Dafny

A model of the AppService operator of controller-demo and proofs about it.
The operator is a Kubernetes controller built with controller-runtime. An
AppService names an image, a replica count, resources, environment
variables and ports. The controller keeps one Deployment and one NodePort
Service of the same name in step with it, and an admission webhook defaults
and validates AppService objects.

The model has seven modules:

- `ApiTypes` (api_types.dfy): the resource types. A Go nil map, slice or
  `*T` that the code tells apart from an empty one is an `Option`.
  Replica counts and ports are `int32`.
- `Store` (store.dfy): the API server as three maps keyed by namespaced
  name, with get, create, update, patch and delete calls. The `Client`
  class holds the maps and its methods change them in place. A call fails
  with `NotFound` when the object is missing and `AlreadyExists` on a
  duplicate create. Other failures come from a fault plan, which maps a
  call site of the reconciler to the error that call receives. Each call
  site runs at most once per pass, so a plan can express any failure
  pattern of a single pass.
- `Snapshot` (snapshot.dfy): the last-applied spec kept as JSON under the
  annotation `spec`. JSON is a codec parameter, a pair of encode and decode
  functions. A valid codec decodes what it encodes, never encodes to the
  empty text, and decodes `{}` to the zero spec.
- `Children` (children.dfy): `NewDeployment`, `newContainer`, `NewService`
  and `ensureInitialized`.
- `Reconciler` (reconciler.dfy): `ReconcilePass` describes one
  reconciliation as a function of the store, and the
  `AppServiceReconciler` class runs it call by call against a `Client`.
  `Reconcile`'s postcondition says that the new store and the returned
  error are what `ReconcilePass` gives for the old store.
- `ReconcilerProperties` (reconciler_properties.dfy): what a pass
  guarantees. These lemmas cover the error exits, the deletion branch, the
  create and update paths, the finalizer and snapshot writes, preservation
  of the store invariant, idempotence and convergence after a spec change.
- `Webhook` (webhook.dfy): `Default`, the `isValidVersion` matcher, and the
  replica checks done by `ValidateCreate` and `ValidateUpdate`.
  `isValidVersion` uses Go's regexp `^\d+\.\d+\.\d+$`. The model replaces
  it with a hand-written scan and proves that scan equivalent to "three
  non-empty ASCII digit runs joined by dots".

The webhook is modelled as the code is written.

- `Default` returns early when the deletion timestamp is zero, so it only
  edits objects that are being deleted. The comment at the early return says
  the opposite (see Findings).
- The tag it appends is the constant `":least"`. The comment beside it says
  `":latest"`; the model keeps the constant.

## Model

| member | source | states |
|---|---|---|
| Webhook.LastIndex | api/v1/appservice_webhook.go:64 | `strings.LastIndex` for one character: -1 exactly when the character is absent, otherwise an index holding it with no occurrence after it |
| Webhook.DigitRun | api/v1/appservice_webhook.go:33 | the length of the longest digit prefix: every character before it is an ASCII digit and the one at it is not |
| Webhook.IsValidVersion | api/v1/appservice_webhook.go:75-82 | `isValidVersion` as a left-to-right scan for number, dot, number, dot, number, end of text; an accepted text has at least five characters, starts and ends with a digit and holds a dot |
| Webhook.IsValidVersionMatchesPattern | api/v1/appservice_webhook.go:75-82 | `isValidVersion(s)` holds iff `s` is digits, dot, digits, dot, digits with nothing else, each run non-empty (both directions) |
| Webhook.ValidVersionExample | api/v1/appservice_webhook.go:75-82 | `1.21.0` is a valid version |
| Webhook.InvalidVersionExamples | api/v1/appservice_webhook.go:75-82 | `stable`, `least` and `1.21` are not valid versions |
| Webhook.DefaultImage | api/v1/appservice_webhook.go:63-73 | the defaulted image is always the input image or the input with `:least` appended |
| Webhook.DefaultImageKeepsOnlyVersionTags | api/v1/appservice_webhook.go:63-73 | the image is left unchanged iff the text after its last colon is a valid version; an image without a colon is always tagged |
| Webhook.DefaultUntaggedExample | api/v1/appservice_webhook.go:64-66 | `nginx` becomes `nginx:least` |
| Webhook.DefaultVersionTagExample | api/v1/appservice_webhook.go:67-72 | `nginx:1.21.0` is left unchanged |
| Webhook.DefaultWordTagExample | api/v1/appservice_webhook.go:67-72 | `nginx:stable` becomes `nginx:stable:least` |
| Webhook.DefaultImageNotIdempotent | api/v1/appservice_webhook.go:63-73 | defaulting is not idempotent: an image it has just tagged gets `:least` appended a second time |
| Webhook.CheckSpecReplicas | api/v1/appservice_webhook.go:116-124 | `checkSpecReplicas`, by definition: a nil count fails, a negative count fails, any other count passes |
| Webhook.CheckSpecReplicasExamples | api/v1/appservice_webhook.go:116-124 | `checkSpecReplicas` rejects nil and -3 and accepts 0 and 5 |
| Webhook.ValidatedReplicas | api/v1/appservice_webhook.go:94-96 | the replica count after validation always passes `checkSpecReplicas`; a passing count is kept and a failing one becomes 1 |
| Webhook.AppServiceObject.Default | api/v1/appservice_webhook.go:57-74 | as written: a live object is left unchanged; on an object marked for deletion only the image changes, to `DefaultImage` of the old image |
| Webhook.AppServiceObject.ValidateCreate | api/v1/appservice_webhook.go:92-98 | no warnings and no error; only the replica count changes, to the validated count |
| Webhook.AppServiceObject.ValidateUpdate | api/v1/appservice_webhook.go:101-107 | the same as ValidateCreate; the old object plays no part |
| Webhook.AppServiceObject.ValidateDelete | api/v1/appservice_webhook.go:110-115 | always no warnings and no error, and the object is not changed |
| Webhook.LiveImageIsNeverDefaulted | api/v1/appservice_webhook.go:59-62 | as written, the spec of a live object is never defaulted, so `nginx` stays `nginx` where the intended defaulting gives `nginx:least` |
| Webhook.IntendedDefaultTagsLiveImages | api/v1/appservice_webhook.go:59-62 | with the check the right way round, a live object keeps its image iff it has a version tag, an object marked for deletion is untouched, and no other spec field changes |
| Webhook.AppServiceObject.DefaultAsIntended | api/v1/appservice_webhook.go:57-74 | the corrected `Default`: the new spec is the intended defaulted spec, and objects marked for deletion are untouched |
| Children.AppLabels | internal/controller/appservice_controller.go:155 | the labels are exactly `{"app": name}` |
| Children.NewContainer | internal/controller/appservice_controller.go:187-204 | exactly one container, with the app's name and image and one port per spec port in order, each exposing that port's target port |
| Children.NewDeployment | internal/controller/appservice_controller.go:154-184 | same name and namespace as the app and owned by it; replicas copied; the selector equals the template labels `{"app": name}`; the template holds exactly the app's container |
| Children.NewService | internal/controller/appservice_controller.go:207-232 | same name and namespace as the app and owned by it; type NodePort; ports copied verbatim; selector `{"app": name}`; no ClusterIP |
| Children.ServiceTargetsDeploymentPods | internal/controller/appservice_controller.go:187-229 | the Service selects exactly the pods the Deployment labels, and its i-th port targets the container's i-th port |
| Children.EnsureInitialized | internal/controller/appservice_controller.go:252-274 | the seven fields end up non-nil; each nil one becomes empty and each non-nil one is kept; every other field is unchanged; an initialized Deployment is returned as is, which makes the operation idempotent |
| Snapshot.SnapshotText | internal/controller/appservice_controller.go:92-95 | the text to decode is never empty: exactly the annotation when it is present and non-empty, and exactly `{}` in every other case |
| Snapshot.LoadSnapshot | internal/controller/appservice_controller.go:92-100 | the last-applied spec is the decoding of that text; the only error is a malformed snapshot, returned exactly when the text does not decode |
| Snapshot.WithSnapshot | internal/controller/appservice_controller.go:135-139 | `spec` maps to the data, every other key is kept with its value, and a nil map becomes a new one |
| Snapshot.MissingSnapshotIsZeroSpec | internal/controller/appservice_controller.go:92-99 | an absent or empty snapshot loads as the zero spec |
| Snapshot.SnapshotRoundTrip | internal/controller/appservice_controller.go:134-139 | the snapshot a pass writes loads back as the spec it encoded |
| Snapshot.WithSnapshotAgain | internal/controller/appservice_controller.go:135-139 | writing the snapshot that is already there leaves the annotations unchanged |
| Reconciler.WithoutFinalizer | internal/controller/appservice_controller.go:64 | the result holds exactly the other finalizers, each once |
| Reconciler.AppServiceReconciler.Reconcile | internal/controller/appservice_controller.go:49-144 | the new store and the returned error are those `ReconcilePass` gives for the old store |
| Reconciler.AppServiceReconciler.ApplyChildren | internal/controller/appservice_controller.go:71-125 | the child create or update step changes the store as `ChildrenPass` says |
| Reconciler.AppServiceReconciler.DeleteAssociatedResources | internal/controller/appservice_controller.go:234-251 | the cleanup changes the store as `CleanupPass` says |
| ReconcilerProperties.CleanupShape | internal/controller/appservice_controller.go:234-251 | cleanup never touches an app; each child is either kept or removed under the app's name |
| ReconcilerProperties.CreateShape | internal/controller/appservice_controller.go:78-87 | creation touches only the desired Deployment and Service under the app's name; success leaves a Deployment |
| ReconcilerProperties.UpdateShape | internal/controller/appservice_controller.go:101-123 | the update path only rewrites the stored children with the desired specs; success leaves a Deployment |
| ReconcilerProperties.ChildrenShape | internal/controller/appservice_controller.go:71-125 | applying the children never writes an app, and on success the Deployment exists |
| ReconcilerProperties.SnapshotShape | internal/controller/appservice_controller.go:133-142 | the snapshot write changes only the app, to the app with the snapshot recorded, or changes nothing |
| ReconcilerProperties.RecordShape | internal/controller/appservice_controller.go:126-142 | the finalizer and snapshot steps touch only the app; on success it holds the finalizer and the snapshot |
| ReconcilerProperties.FetchFailureEndsPass | internal/controller/appservice_controller.go:50-56 | a NotFound fetch is success with the store unchanged; any other fetch error is returned unchanged with the store unchanged |
| ReconcilerProperties.DeletionNeverApplies | internal/controller/appservice_controller.go:57-70 | while the app is being deleted no child is created or updated and the app changes at most by losing the finalizer; the finalizer goes only after the cleanup succeeded, and a cleanup error is returned with the app unchanged; without the finalizer nothing is written |
| ReconcilerProperties.DeletionCleansUp | internal/controller/appservice_controller.go:57-70 | with no faults both children are deleted and the finalizer is removed entirely; the other finalizers are kept, each once |
| ReconcilerProperties.FailedCleanupLookupsAreSkipped | internal/controller/appservice_controller.go:237-249 | whichever cleanup Gets fail, each failed one skips only its own child: the other child is still deleted, no error is reported, and the finalizer is still removed |
| ReconcilerProperties.CreatePathOrder | internal/controller/appservice_controller.go:73-87 | the Deployment is created before the Service; a failed Deployment create writes nothing else; a failed Service create keeps the new Deployment and leaves the app untouched |
| ReconcilerProperties.LeftoverServiceBlocksCreate | internal/controller/appservice_controller.go:79-87 | a Service left behind without its Deployment makes the create path fail with AlreadyExists after creating the Deployment |
| ReconcilerProperties.DeploymentLookupFailureEndsPass | internal/controller/appservice_controller.go:73-77 | a Deployment lookup error other than NotFound ends the pass with that error and nothing written |
| ReconcilerProperties.MalformedSnapshotBlocksPass | internal/controller/appservice_controller.go:92-100 | a snapshot that does not decode ends the pass with an error before any write |
| ReconcilerProperties.UnchangedSpecKeepsChildren | internal/controller/appservice_controller.go:101-125 | when the snapshot equals the spec neither child is written |
| ReconcilerProperties.ChangedSpecRewritesChildren | internal/controller/appservice_controller.go:101-123 | when they differ, the Deployment gets the desired spec and keeps its metadata, and the Service gets the desired spec with its ClusterIP kept |
| ReconcilerProperties.MissingServiceIsNotRecreated | internal/controller/appservice_controller.go:112-116 | a missing Service on the update path is a NotFound error; the Deployment update stays and the app is not written |
| ReconcilerProperties.SuccessfulPassRecords | internal/controller/appservice_controller.go:126-142 | after a successful pass the Deployment exists; a missing finalizer is appended once, and a present one leaves the list as it was; `spec` holds the encoded spec and the other annotations are kept |
| ReconcilerProperties.WritesFollowPassOrder | internal/controller/appservice_controller.go:71-143 | an app is written only when the child step (create, or diff and update) succeeded, and it then holds the finalizer with the Deployment present; a changed annotation means the whole pass succeeded |
| ReconcilerProperties.ReconcilePreservesValid | internal/controller/appservice_controller.go:49-143 | every pass keeps each object stored under its own namespace and name |
| ReconcilerProperties.SuccessfulPassSettles | internal/controller/appservice_controller.go:126-143 | a successful pass leaves the Deployment present and the app with the finalizer and a snapshot of its current spec |
| ReconcilerProperties.SettledPassChangesNothing | internal/controller/appservice_controller.go:88-143 | a pass over a settled app writes nothing whatever fails, and succeeds when nothing fails |
| ReconcilerProperties.SecondPassChangesNothing | internal/controller/appservice_controller.go:49-143 | idempotence: after a successful pass, a second pass writes nothing |
| ReconcilerProperties.ChangedSpecConverges | internal/controller/appservice_controller.go:101-143 | after a spec change on a settled app, the next pass rewrites the Deployment to the new desired spec, keeps the Service's ClusterIP, and settles the app with the new snapshot |

## Left out

- utils/ensure.go is not part of this model. It walks arbitrary Go values by reflection. Its only call, on the Deployment found by the existence check, changes a local copy that is never used afterwards, so it has no effect on the store.
- The API server's own behaviour is left out: merge-patch computation, resource versions, optimistic-concurrency conflicts, and the deletion of an app once its finalizers are gone. A patch is modelled as replacing the finalizer list, which is the only field the reconciler changes before patching. A conflict is one of the errors a fault plan can inject.
- JSON encoding is a codec parameter. The model does not cover Marshal failures, which the source ignores, field names, or the way nil and empty slices compare under `reflect.DeepEqual`. Spec comparison is Dafny equality.
- `TypeMeta` (`apps/v1`, `Deployment`, `v1`, `Service`), the status subresource and the internals of `metav1.NewControllerRef` are left out. The owner reference records the group version, kind, name and uid and sets both flags.
- Logging, `SetupWithManager`, `SetupWebhookWithManager`, the kubebuilder markers, admission transport, event dispatch and concurrency between reconcilers are left out.
- No other client writes the store during a pass: the model's store changes only through the pass's own calls. The source's `Patch` also decodes the server's reply back into `instance` (internal/controller/appservice_controller.go:65, 129), so the snapshot written at line 134 is the spec as the server holds it after the finalizer patch. The model keeps the copy fetched at the start of the pass. It therefore does not capture what happens when a user edits the spec between that fetch and the finalizer patch on the first pass: the source creates the children from the old spec but records the new one as the snapshot, so the edit is never applied. `SecondPassChangesNothing` and `ChangedSpecConverges` hold only under this single-writer assumption.
- The Go regexp engine is left out; `isValidVersion` is the hand-written scan that is proved equivalent to the pattern.
- The shared `defaultReplicas` variable whose address every corrected object receives is left out. Replicas are a value, so the aliasing through that address is not modelled.
- Reconciler.WithoutFinalizer: `UnsortedList` returns the remaining finalizers in an unspecified order. The model picks one order, and the contracts state only which finalizers remain and that none repeats.
- Children.EnsureInitialized: the source fills the fields in place through its `*appsv1.Deployment` argument. The model returns the filled Deployment as a value.
- api/v1/appservice_types.go is not part of this model. Fields it declares that the core never reads are left out.

## Findings

| source | as written | input that shows it | evidently intended | confidence | as-written member | corrected member |
|---|---|---|---|---|---|---|
| api/v1/appservice_webhook.go:59-62 | `Default` returns early when `DeletionTimestamp.IsZero()`, so it only defaults objects that are being deleted | a live AppService with image `nginx` keeps `nginx` | return early for objects being deleted, as the comment says, and default live objects (`nginx` becomes `nginx:least`) | high, not executed | Webhook.LiveImageIsNeverDefaulted | Webhook.IntendedDefaultTagsLiveImages |
