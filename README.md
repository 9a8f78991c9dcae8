# Hypershift operator reconcilers: node labels and OAuth certificate rotation

This project models two reconcilers of the hypershift operator. Each one
reads objects through an informer cache or an API client and writes them
back through the client.

- **Node-label enforcement** (`pkg/controllers/nodelabels/reconciler.go`).
  Every node of the target cluster must carry the labels
  `node-role.kubernetes.io/worker` and `node-role.kubernetes.io/master`.
  A node that has both keys is left alone, whatever their values. Otherwise
  the missing keys are added with the value `""`, the existing labels are
  kept, and the node is written back with one update.
- **Hash-gated OAuth serving-certificate rotation**
  (`pkg/controllers/oauthcert/syncer.go`). The syncer only reacts to
  `openshift-ingress/router-certs-default`, the router CA secret of the
  target cluster. It hashes that secret's data: JSON, then MD5, in
  lower-case hex. It compares the hash with the annotation
  `hypershift.openshift.io/router-cert-hash` on the pod template of the
  `oauth-openshift` Deployment in the control-plane namespace. If they
  differ, it does the following in order:
  1. derives a CA from the router secret;
  2. issues a serving certificate for the configured `externalAddress`;
  3. stores the certificate's PEM as `server.crt`/`server.key` in the
     `oauth-openshift` secret and writes the secret;
  4. writes the Deployment with the new hash annotation.

Files:

- `kube.dfy`, module `Kube`: the API world.
  - The `World` value holds the informer caches, the server stores, a set
    of injected faults and a log of every call.
  - The class `Cluster` holds the same fields. Its methods are the lister
    lookups, `Get` and `Update`. Each method's contract ties its new
    state to the value-level `Read`/`Write` outcome.
- `nodelabels.dfy`, module `Nodelabels`:
  - the class `NodeLabels`, whose `Reconcile` method is imperative, with
    map-iteration loops;
  - its specification function `ReconcileOutcome`;
  - the properties of that function.
- `oauthcert.dfy`, module `Oauthcert`:
  - the class `OAuthCertSyncer`, whose `Reconcile` method follows the Go
    control flow, including the `updateNeeded` flag;
  - its specification function `SyncOutcome`, split into `CompareOutcome`,
    `RotateOutcome`, `Prepare` and `CommitOutcome`;
  - `CalculateHash`, with `%x` hex formatting modelled concretely;
  - the properties of all of these.

The two `Reconcile` methods are proved equal to their specification
functions. The properties of the reconcilers are lemmas about those
functions.

The model is driven by two mechanisms:

- **Injected faults.** API failures are deterministic. A call listed in
  `World.faults` fails with `Failed(call)`. A lookup of a missing key fails
  with `NotFound(call)`, the only error for which `IsNotFound` holds.
- **The call log.** Every call, cache reads included, is appended to
  `World.log`. So "no writes happen" and "the secret is written before the
  Deployment" are statements about `Writes(CallsSince(w, w'))`.

The JSON encoder, MD5, and the certificate library
(`GetCAFromBytes`, `MakeServerCert`, `GetPEMBytes`) are parameters of the
model. They are fields of the `Crypto` record: opaque functions that may
return an error.

## Model

| member | source | states |
|---|---|---|
| Kube.Cluster.CachedNode | pkg/controllers/nodelabels/reconciler.go:26 | A node lister lookup returns the cached node, `NotFound` for a missing name, or the injected failure. It only appends the call to the log. |
| Kube.Cluster.UpdateNode | pkg/controllers/nodelabels/reconciler.go:45 | A node update replaces the server's node when that node exists and no fault is injected. Otherwise it returns the error. Either way the call is logged and nothing else changes. |
| Kube.Cluster.CachedSecret | pkg/controllers/oauthcert/syncer.go:50 | A secret lister lookup reads the target cluster's cache and only logs the call. |
| Kube.Cluster.GetDeployment | pkg/controllers/oauthcert/syncer.go:61 | A Deployment is read from the server; the only change is the logged call. |
| Kube.Cluster.GetConfigMap | pkg/controllers/oauthcert/syncer.go:85 | A ConfigMap is read from the server; the only change is the logged call. |
| Kube.Cluster.GetSecret | pkg/controllers/oauthcert/syncer.go:106 | A secret is read from the server; the only change is the logged call. |
| Kube.Cluster.UpdateSecret | pkg/controllers/oauthcert/syncer.go:113 | A secret update replaces the stored secret, or returns the error and leaves the store alone. |
| Kube.Cluster.UpdateDeployment | pkg/controllers/oauthcert/syncer.go:118 | A Deployment update replaces the stored Deployment, or returns the error and leaves the store alone. |
| Nodelabels.WithRequiredLabels | pkg/controllers/nodelabels/reconciler.go:34-42 | The result's keys are the old keys plus the required ones. Every existing label keeps its value, even a required key with a non-empty value. Every added key gets `""`. Both required keys are present. |
| Nodelabels.HasRequiredLabels | pkg/controllers/nodelabels/reconciler.go:52-59 | The early-exit scan returns true exactly when every required key is among the node's labels. Values are not looked at. |
| Nodelabels.NodeLabels.Reconcile | pkg/controllers/nodelabels/reconciler.go:23-50 | The imperative reconcile does the lookup, the check, the in-place label loop and the update. It leaves the cluster in the state `ReconcileOutcome` describes and returns its error. |
| Nodelabels.LookupFailureIsReturned | pkg/controllers/nodelabels/reconciler.go:26-29 | A failed lister lookup, not-found included, is returned as it is. Only the lookup is logged, so no update is made. |
| Nodelabels.LabelledNodeIsNoop | pkg/controllers/nodelabels/reconciler.go:30-32 | A node with every required key gives success, and nothing is done beyond the lookup. |
| Nodelabels.MissingLabelsOneUpdate | pkg/controllers/nodelabels/reconciler.go:34-49 | A node missing a required key gets exactly one update, carrying its labels plus the missing ones. Only the server's nodes change. The update's error, if any, is what reconcile returns. |
| Nodelabels.UpdateOutcomeWrites | pkg/controllers/nodelabels/reconciler.go:45-49 | The single node update adds one call to the log and changes only the server's nodes. On success the store is the write's outcome; on failure the write's error is returned and the nodes are unchanged. |
| Nodelabels.OnlyTheRequestedNodeChanges | pkg/controllers/nodelabels/reconciler.go:23-50 | No other node is ever written. When the requested node changes, it becomes its cached self with the required labels added. |
| Nodelabels.LabelledIsFixpoint | pkg/controllers/nodelabels/reconciler.go:30-42 | Adding the required labels to a fully labelled map gives the same map. So the early return only skips a write that would change nothing. |
| Nodelabels.ConvergesAfterCacheCatchesUp | pkg/controllers/nodelabels/reconciler.go:26-32 | Once the cache holds the node that a successful update wrote, the next reconcile succeeds without a write. |
| Nodelabels.ReconcileOutcomeSharingCache | pkg/controllers/nodelabels/reconciler.go:26-49 | The reconcile as written, where the node is labelled inside the lister's cache. Apart from the cache it returns the same error and makes the same calls and server writes as `ReconcileOutcome`, so every property above holds of the code as written. The cache entry becomes the labelled node exactly when the lookup found a node missing a required key; otherwise the cache is unchanged. |
| Nodelabels.RetryAfterFailedUpdateSkipsWriteAsWritten | pkg/controllers/nodelabels/reconciler.go:26-49 | As written: after one failed update, the retry sees the labels it added to the cache. It returns success without writing, while the server's node still lacks them. |
| Nodelabels.RetryAfterFailedUpdateReissuesWrite | pkg/controllers/nodelabels/reconciler.go:45-49 | Without cache sharing, a retry after a failed update issues the same single update again. Once it succeeds, the server's node is labelled. |
| Oauthcert.Hex | pkg/controllers/oauthcert/syncer.go:127 | `%x` of a byte slice gives two lower-case hex digits per byte. |
| Oauthcert.HexPairInjective | pkg/controllers/oauthcert/syncer.go:127 | A byte is determined by its two hex digits. |
| Oauthcert.HexInjective | pkg/controllers/oauthcert/syncer.go:127 | Different byte slices print differently in hex. |
| Oauthcert.CalculateHash | pkg/controllers/oauthcert/syncer.go:122-128 | A marshal error is returned as it is. Otherwise the hash is 32 hex digits. It is a function of the data value alone. |
| Oauthcert.HashComparesDigests | pkg/controllers/oauthcert/syncer.go:122-128 | Two data values have equal hashes exactly when their MD5 digests are equal. |
| Oauthcert.MissingAnnotationIsStale | pkg/controllers/oauthcert/syncer.go:66-72 | An absent hash annotation reads as `""`, and a hash is never empty, so it always counts as a mismatch. |
| Oauthcert.SetServingCertAsWritten | pkg/controllers/oauthcert/syncer.go:110-111 | The assignment as written fails (a panic) exactly when the secret's data map is nil. |
| Oauthcert.WithServingCert | pkg/controllers/oauthcert/syncer.go:110-111 | The corrected assignment. In the result, `server.crt` and `server.key` hold the new PEMs and every other entry is kept. A nil map is first made empty. |
| Oauthcert.NilDataPanicsAsWritten | pkg/controllers/oauthcert/syncer.go:110-111 | For nil data, the as-written assignment panics. The corrected one gives a map with exactly the two entries. |
| Oauthcert.ServingCertAgreesOnNonNilData | pkg/controllers/oauthcert/syncer.go:110-111 | On non-nil data, the corrected assignment agrees with the one written. |
| Oauthcert.OAuthCertSyncer.Reconcile | pkg/controllers/oauthcert/syncer.go:40-120 | The imperative reconcile leaves the cluster in the state `SyncOutcome` describes and returns its error. It runs the steps in order: scope gate, cache read, hash, Deployment read, `updateNeeded`, CA, ConfigMap, certificate, PEM, secret read, secret update, Deployment update. |
| Oauthcert.OAuthCertSyncer.Rotate | pkg/controllers/oauthcert/syncer.go:79-119 | The rotation steps are CA derivation, ConfigMap read, certificate issuance, PEM encoding, serving-secret read and the two writes. They leave the cluster as `RotateOutcome` describes and return its error, each failure under the source's message. |
| Oauthcert.OAuthCertSyncer.Commit | pkg/controllers/oauthcert/syncer.go:110-119 | The serving secret gets the new certificate and key and is written; only after that write succeeds is the Deployment written. The cluster ends as `CommitOutcome` describes. |
| Oauthcert.OutOfScopeDoesNothing | pkg/controllers/oauthcert/syncer.go:43-46 | Any request other than `openshift-ingress/router-certs-default` succeeds with no read and no write. |
| Oauthcert.RouterSecretLookupFailure | pkg/controllers/oauthcert/syncer.go:50-56 | A not-found router secret gives success, and any other lookup error is returned. In both cases only the lookup happens. Success occurs exactly when the secret is absent and the lookup did not fail. |
| Oauthcert.ConvergedHashIsNoop | pkg/controllers/oauthcert/syncer.go:61-77 | A recorded hash equal to the fresh one gives success after only the two reads. |
| Oauthcert.DeploymentGetFailureIsReturned | pkg/controllers/oauthcert/syncer.go:61-64 | A failed Get of the Deployment is returned as it is, after only the router-secret and Deployment reads. |
| Oauthcert.StaleHashRotates | pkg/controllers/oauthcert/syncer.go:65-77 | A different or absent hash leads to rotation. The Deployment it carries is the one read, with only the hash annotation set to the fresh hash. |
| Oauthcert.PrepareWritesNothing | pkg/controllers/oauthcert/syncer.go:80-109 | A failure in CA derivation, the ConfigMap read, issuance, PEM encoding or the secret read is returned with no write made. Success also writes nothing, and hands on the server's serving secret. |
| Oauthcert.CommitOrder | pkg/controllers/oauthcert/syncer.go:110-119 | The secret update comes first and carries the certificate and key. A failure is returned wrapped as "failed to update oauth secret", and the Deployment is then not updated. Otherwise the Deployment update follows. If it fails, its error is returned unwrapped and the Deployments are unchanged. If it succeeds, the reconcile returns success and the Deployment store is the write's outcome. Nothing but the log, the secrets and the Deployments changes. |
| Oauthcert.CommittedErrorIsReturned | pkg/controllers/oauthcert/syncer.go:113-119 | When a reconcile reaches the writes, there are three outcomes. A failed secret update is returned, wrapped as "failed to update oauth secret". A failed Deployment update is returned as it is. The reconcile succeeds exactly when both updates succeed. |
| Oauthcert.CommitChangesOnly | pkg/controllers/oauthcert/syncer.go:110-119 | A commit changes nothing but the log and two objects. The serving secret can only become the read secret with the new PEM entries. The Deployment can only become the stamped one. |
| Oauthcert.SuccessfulCommitStamps | pkg/controllers/oauthcert/syncer.go:113-119 | A commit that succeeds has written the stamped Deployment, and changed nothing but the log, the secrets and that Deployment. |
| Oauthcert.CommitWrites | pkg/controllers/oauthcert/syncer.go:113-119 | A commit writes the secret, then the Deployment unless the secret write failed. The Deployment only changes when both writes happened and the reconcile succeeded. |
| Oauthcert.SyncCases | pkg/controllers/oauthcert/syncer.go:40-120 | Every reconcile either only reads, or reads and then commits with the prepared secret and the stamped Deployment. |
| Oauthcert.UncommittedOnlyReads | pkg/controllers/oauthcert/syncer.go:50-109 | A reconcile of the router secret that stops before the writes makes only reads. This covers a missing or unreadable router secret, a hash error, a Deployment read error, a converged hash, and a preparation failure. |
| Oauthcert.ComparedOnlyReads | pkg/controllers/oauthcert/syncer.go:50-64 | Reading the router secret from the cache and the Deployment from the server writes nothing. |
| Oauthcert.SyncChangesOnlyServingSecretAndDeployment | pkg/controllers/oauthcert/syncer.go:69-119 | A reconcile changes nothing but the log and two objects. In the serving secret, only its certificate and key change (lines 110-113). In the Deployment, only the hash annotation changes, and it is set to the router secret's hash (lines 69-72, written at 118). |
| Oauthcert.SyncWriteOrder | pkg/controllers/oauthcert/syncer.go:113-119 | A reconcile's writes are none, the secret alone, or the secret then the Deployment. There are writes only when the router secret was found and hashed, the hash was stale, and every preparation step succeeded. |
| Oauthcert.SyncPartialWrites | pkg/controllers/oauthcert/syncer.go:113-119 | If only the secret write was made, the reconcile fails and neither object changed. A changed Deployment means both writes happened and the reconcile succeeded. Without writes neither object changes. |
| Oauthcert.SuccessfulSyncIsFixpoint | pkg/controllers/oauthcert/syncer.go:65-77 | After a successful reconcile, a second reconcile of the router secret with unchanged inputs succeeds with no write. |
| Oauthcert.CommittedSyncIsFixpoint | pkg/controllers/oauthcert/syncer.go:65-119 | A successful reconcile that wrote has stamped the fresh hash. The next reconcile finds the Deployment converged, succeeds and writes nothing. |
| Oauthcert.SuccessWithoutCommit | pkg/controllers/oauthcert/syncer.go:50-77 | A successful reconcile that never reached the writes found either no router secret, or a Deployment whose hash already matched. |
| Oauthcert.UncommittedSyncIsFixpoint | pkg/controllers/oauthcert/syncer.go:50-77 | After a successful reconcile without writes, the next reconcile sees the same objects, succeeds again and writes nothing. |
| Oauthcert.FailedDeploymentWriteKeepsSecret | pkg/controllers/oauthcert/syncer.go:113-119 | A commit that fails after attempting the Deployment write has written the serving secret with the new certificate and key. The Deployments are unchanged. |
| Oauthcert.FailedDeploymentWriteLeavesHashStale | pkg/controllers/oauthcert/syncer.go:110-119 | Suppose the secret write succeeds and the Deployment write fails. Then the reconcile was a committing one, the serving secret is the server's with exactly the certificate and key just issued, and the Deployments are unchanged, so the recorded hash still differs from the fresh one. |
| Oauthcert.FailedDeploymentWriteRotatesAgain | pkg/controllers/oauthcert/syncer.go:61-80 | After such a reconcile, the next one with the same inputs sees the same router secret and Deployment, finds the hash stale, and rotates again from the Deployment stamped with the fresh hash. |
| Oauthcert.StaleAfterFailedCommit | pkg/controllers/oauthcert/syncer.go:110-119 | When a committing reconcile fails after the Deployment write was attempted, the Deployments are unchanged. The serving secret is the server's with exactly the certificate and key just issued. |
| Oauthcert.FirstRotationStampsDeployment | pkg/controllers/oauthcert/syncer.go:65-119 | With no failures and no annotation yet, the reconcile succeeds. The serving secret then holds the certificate issued for the configured external address. The Deployment records the router secret's hash. |

## Left out

- The `setup.go` files, the controller-runtime cache, work queue and dispatcher, and the other reconcilers (autoapprover, routesync, cmca, clusteroperator, openshift_controller_manager). They are wiring or are not part of this model. Concurrency and event delivery are not modelled; one reconcile is one step on a world value.
- Logging through `logr` and the `fmt.Println` output of the certificate and key at pkg/controllers/oauthcert/syncer.go:100-105: output only.
- The internals of `encoding/json`, MD5, `GetCAFromBytes`, `MakeServerCert` and `GetPEMBytes`: opaque parameters that may fail. `HexInjective` and `HashComparesDigests` say nothing about MD5 collisions; no collision-freedom is claimed.
- `json.Marshal` of a `map[string][]byte` cannot fail in Go. The model still carries the error branch of `calculateHash`, with the failure left to the marshal parameter.
- Nil label and annotation maps are modelled as empty maps, because Go reads them the same way. The lazy `map[string]string{}` initialisation at reconciler.go:38-40 and syncer.go:66-68 therefore has no separate step. A nil secret data map is kept distinct (`None`).
- Secret data values are byte sequences, so a nil `[]byte` value inside the data map is the same as an empty one. `json.Marshal` writes `null` for the first and `""` for the second, so Go's `calculateHash` tells apart two data maps that the model's `marshal` parameter must treat as equal.
- `MakeServerCert` is a function of the CA, the host names and the lifetime in this model. The library generates a new key pair and serial number on every call, so in Go a retried rotation issues a different certificate. No lemma depends on the certificate being the same across calls.
- Objects carry only the fields these reconcilers touch. Names, resource versions and the other object fields are not modelled, so an update conflict appears only as an injected fault.
- `ctrl.Result` is always the zero value in both reconcilers, so only the returned error is modelled.
- The code comment at pkg/controllers/oauthcert/syncer.go:43 names `kube-system/kubeadmin`. The model follows the code at line 44.
- Error messages are modelled as the `Wrapped(context, cause)` structure with the source's context strings, not as formatted text.
- Nodelabels.NodeLabels.Reconcile: it labels a copy of the cached node instead of the cache's own object. See the first finding.
- Oauthcert.OAuthCertSyncer.Reconcile, Oauthcert.OAuthCertSyncer.Rotate and Oauthcert.OAuthCertSyncer.Commit: the correction is made in `Commit` (and `CommitOutcome`), and the other two inherit it. They initialise a nil secret data map instead of panicking. See the second finding.

## Findings

| source | as written | input that shows it | evidently intended | confidence | as-written member | corrected member |
|---|---|---|---|---|---|---|
| pkg/controllers/nodelabels/reconciler.go:26-45 | The node returned by the lister is the informer cache's own object, and the labels are added to it in place. When the update fails, the cache already shows the labels, and the requeued retry returns success without writing. | Node `n` with no labels, where the first update fails: the second reconcile makes no write and the server's node still has no role labels. | Label a deep copy of the cached node, so that a retry after a failed update writes again. | not executed | Nodelabels.RetryAfterFailedUpdateSkipsWriteAsWritten | Nodelabels.RetryAfterFailedUpdateReissuesWrite |
| pkg/controllers/oauthcert/syncer.go:110-111 | `oauthSecret.Data["server.crt"] = certBytes` assigns into the secret's data map without checking it for nil. For a secret with no data, a store into a nil map panics. | An `oauth-openshift` secret whose `data` is absent, with a stale hash. | Initialise the data map first, as the code does for the annotations at lines 66-68. | not executed | Oauthcert.NilDataPanicsAsWritten | Oauthcert.WithServingCert |
