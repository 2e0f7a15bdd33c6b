# kube_assign replicator — a Dafny model

kube_assign copies the running workloads of one Kubernetes namespace to a
target namespace, reading through a source client and creating through a
target client. It lists the Pods of the source namespace. For each Pod
whose phase is `Running`, it does the following in order:

1. It scans the Pod spec for the ConfigMaps, Secrets and
   PersistentVolumeClaims the Pod refers to.
2. It replicates those ConfigMaps, then those Secrets.
3. It replicates the claims, and for each claim the PersistentVolumes that
   match its selector.
4. It creates the Pod itself in the target namespace.

This project models `replicate.go`: `replicateConfMap`, `replicateSecrets`,
`replicatePvc` and `replicatePods`.

- `kube.dfy` (module `Kube`) holds the API objects, reduced to the fields
  the replicator reads or writes. It also holds what the source cluster
  answers, the target cluster's objects, and the trace of API calls (`Get`,
  `List`, `Create`).
- `store.dfy` (module `Store`) describes how creates change the target. An
  object is stored under its name. A create of an object with no name, or
  of a name already taken, is refused. No call updates or deletes anything.
- `extract.dfy` (module `Extractor`) holds the dependency scan.
  - `Extract` is the functional specification.
  - `ExtractDependencies`, with `ScanEnv`, `ScanEnvFrom` and `ScanVolumes`,
    holds the nested loops of the source. These methods are proved equal to
    `Extract`.
- `calls.dfy` (module `Calls`) gives, for each replicator, the exact
  sequence of calls it issues as a function of the source's answers. It
  also proves what those calls are.
  - A `Run` pairs the calls with an `Outcome`: `Ok`, or `Panicked` when a
    panic ended the loop.
  - Each of the four functions has its own `recover`. So a panic drops the
    rest of that function's list, and its caller carries on.
- `replicate.dfy` (module `Replicate`) holds the class `KubeClient`.
  - Its fields are the source cluster (a `const`, only ever read), the two
    namespaces, the target cluster and the call trace.
  - One method per Go function, with the same loops. Each is proved to
    append exactly the calls `Calls` gives to the trace, and to leave the
    target as those calls make it.
  - The class invariant `Valid` states that the target is always the
    initial target with the traced calls applied.

In these places the code behaves in ways a reader might not expect, and the
model follows the code as written:

- **Secret key references (replicate.go:147).** The code appends
  `ConfigMapKeyRef.Name` for a Secret key reference, not the Secret's name.
  When the variable has no ConfigMap key reference, this dereferences nil
  and panics.
  - The model keeps this. `Extraction.NilConfigMapKeyRef` is the panic.
    `SecretKeyRefNameAsWritten` is what gets appended otherwise.
  - The panic is caught by `replicatePods`' own `recover`, so every later
    Pod is abandoned (`Calls.NilDerefAbandonsLaterPods`).
- **ConfigMap or Secret fetch failure.** It neither skips the create nor
  trips the `recover`. The error is only printed, and a create is issued
  for the zero-valued object the failed Get returns. That object has no
  name, so the target refuses it (`Calls.ZeroObjectCreatesAreRefused`).
  - The zero-valued object is what a failed Get hands back in the client
    library the code was written against.
- **Claim fetch failure.** The zero claim has a nil selector. Reading its
  `MatchLabels` (replicate.go:89-90) panics, so the claims after it in that
  call are dropped (`Calls.MissingClaimDropsRest`).
- **Pod List failure.** It is not fatal to the process. The `panic` at
  replicate.go:122 is inside `replicatePods`, whose own `recover` catches
  it, and `replicatePods` returns normally having issued only the List.

## Model

| member | source | states |
|---|---|---|
| Extractor.ExtractDependencies | replicate.go:135-172 | The nested container/env/envFrom loops and the volume loop return exactly `Extract(spec)`: the three name lists, or the nil-dereference failure. |
| Extractor.ScanEnv | replicate.go:140-150 | The env loop reports the nil dereference exactly when some variable has a Secret key reference and no ConfigMap key reference. Otherwise it returns the ConfigMap key reference names and, for Secret key references, the ConfigMap key reference names, in order. |
| Extractor.ScanEnvFrom | replicate.go:152-160 | The envFrom loop returns the ConfigMap and Secret reference names, in order. |
| Extractor.ScanVolumes | replicate.go:163-172 | The volume loop returns the ConfigMap volume names and the claim names, in volume order. |
| Extractor.NilDerefIff | replicate.go:146-148 | The scan fails if and only if some container has an environment variable with a Secret key reference and no ConfigMap key reference. |
| Extractor.ConfigMapNamesAreReferences | replicate.go:139-172 | A name is in the ConfigMap list if and only if an env ConfigMap key reference, an envFrom ConfigMap reference or a ConfigMap volume names it. |
| Extractor.SecretNamesAsWritten | replicate.go:146-158 | A name is in the Secret list if and only if it is the ConfigMap key reference name of a variable that also has a Secret key reference, or an envFrom Secret reference names it. Secret volumes never contribute. |
| Extractor.ConfigMapCountIsReferenceCount | replicate.go:139-172 | The ConfigMap list has one entry per reference: env key references plus envFrom references plus ConfigMap volumes. Duplicates are kept. |
| Extractor.ClaimNamesInVolumeOrder | replicate.go:163-172 | The claim list is exactly the claim name of each claim-backed volume, one per volume, in volume order. |
| Extractor.ConfigMapVolumesLast | replicate.go:163-168 | The ConfigMap list ends with the ConfigMap volume names, one per volume, in volume order, after the container references. |
| Store.ApplyOnlyAdds | replicate.go:12-195 | Whatever calls the replicator issues, every object already in the target stays there unchanged: it only creates. |
| Calls.ConfigMapCallsAttemptEveryName | replicate.go:20-37 | For each name, in order, a Get on the source namespace and then a create on the target, whether or not the Get succeeded. The created ConfigMap has the fetched object's name, labels and data and the target namespace. When the Get failed, it is the zero object with the target namespace. |
| Calls.SecretCallsAttemptEveryName | replicate.go:48-65 | The same for Secrets: Get, then create of the fetched Secret's name, labels and data in the target namespace, or of the zero Secret. |
| Calls.ZeroObjectCreatesAreRefused | replicate.go:21-34 | The create that follows a failed ConfigMap or Secret Get leaves the target unchanged. |
| Calls.ConfigMapsLandInTarget | replicate.go:21-31 | Round trip, when source ConfigMaps are stored under their own names: every listed ConfigMap present in the source and absent from the target ends up in the target with the source's name, labels and data and the target namespace. |
| Calls.SecretsLandInTarget | replicate.go:49-59 | Round trip, when source Secrets are stored under their own names: every listed Secret present in the source and absent from the target ends up in the target with the source's name, labels and data and the target namespace. |
| Calls.VolumeCreatesAt | replicate.go:97-102 | The volume loop issues one create per listed volume, in list order. Each create is the listed volume itself with its namespace set to the target namespace. |
| Calls.VolumeCreatesCount | replicate.go:97-102 | The volume loop issues exactly as many creates as the List returned volumes. |
| Calls.ClaimStepCreatesVolumesThenClaim | replicate.go:78-105 | A claim with a selector yields, in order: a Get, the cluster-wide List for its match labels, one create per listed volume in the target namespace, and then one create of the claim (same name, labels and spec, target namespace). The loop goes on. |
| Calls.ClaimStepCreateCount | replicate.go:89-105 | A claim whose selector matches N volumes yields exactly N + 1 creates. |
| Calls.ClaimCallsStopAtPanic | replicate.go:70-77 | Once `replicatePvc` has panicked on a prefix of its names, the remaining names issue no call. |
| Calls.MissingClaimDropsRest | replicate.go:78-90 | A claim missing from the source, or one without a selector, ends the call right after its Get: neither it nor any later claim is created. |
| Calls.NonRunningPodsIssueNoCalls | replicate.go:126-131 | The Pod loop issues exactly the calls it would issue over the Running Pods alone, so a Pod that is not Running causes no call. |
| Calls.PodCallsStopAtPanic | replicate.go:111-126 | Once the Pod loop has panicked on a prefix of the Pods, the remaining Pods issue no call. |
| Calls.NilDerefAbandonsLaterPods | replicate.go:111-147 | The nil dereference in a Running Pod's scan ends the Pod loop: only the calls of the earlier Pods are issued. |
| Calls.PodStepPhaseOrder | replicate.go:174-189 | For a Running Pod whose scan succeeds, the calls come in phase order: ConfigMaps, Secrets, claims and volumes, and the Pod create last. The created Pod has the source Pod's name, labels and spec and the target namespace. The loop goes on even if `replicatePvc` panicked. |
| Calls.PodLandsInTarget | replicate.go:184-189 | Round trip of a Pod: a Running Pod whose scan succeeds, with a name not yet taken in the target, ends up in the target's Pods with its name, labels and spec and the target namespace, whatever its dependencies' creates did. |
| Calls.ReplicationDirected | replicate.go:119-189 | Every Get and List goes to the source, namespaced ones to the source namespace. Every create goes to the target and carries the target namespace, volumes included. |
| Replicate.KubeClient.constructor | main.go:5-10 | The client starts with the given source, target and namespaces and an empty trace. |
| Replicate.KubeClient.GetConfigMap | replicate.go:21-24 | A Get on the source namespace is traced; the result is the stored ConfigMap, or the zero ConfigMap when the name is missing. |
| Replicate.KubeClient.GetSecret | replicate.go:49-52 | The same for Secrets. |
| Replicate.KubeClient.GetClaim | replicate.go:78-81 | The same for claims; a missing claim comes back with a nil selector. |
| Replicate.KubeClient.ListVolumes | replicate.go:92-95 | A cluster-wide List for the match labels is traced; the result is the volumes the source answers for them, none when it answers nothing. |
| Replicate.KubeClient.ListPods | replicate.go:119-123 | The Pod List on the source namespace is traced; it reports the List error, and otherwise returns the source's Pods. |
| Replicate.KubeClient.CreateOnTarget | replicate.go:31-34 | A create on the target is traced and changes the target as the API server would. It succeeds exactly when the object has a name that is not yet taken. |
| Replicate.KubeClient.ReplicateConfigMaps | replicate.go:12-38 | Issues exactly `ConfigMapCalls` and leaves the target as those calls make it. |
| Replicate.KubeClient.ReplicateSecrets | replicate.go:40-66 | Issues exactly `SecretCalls` and leaves the target as those calls make it. |
| Replicate.KubeClient.CreateVolumes | replicate.go:97-102 | Issues exactly one create per listed volume, re-homed to the target namespace. |
| Replicate.KubeClient.ReplicateClaim | replicate.go:78-105 | One claim: issues exactly `ClaimStep`'s calls and reports its panic. |
| Replicate.KubeClient.ReplicateClaims | replicate.go:68-107 | Issues exactly `ClaimCalls`: the loop stops at the first panic, which is recovered. The target is as those calls make it. |
| Replicate.KubeClient.ReplicatePod | replicate.go:127-193 | One Pod: issues exactly `PodStep`'s calls (ConfigMaps, Secrets, claims, Pod) and reports the scan's panic. |
| Replicate.KubeClient.ReplicatePods | replicate.go:109-195 | Issues exactly `ReplicationCalls`: the Pod List, then the Pod loop up to its first panic. The target is as those calls make it, and every object already in the target is kept unchanged. |

## Left out

- config.go and the client construction in main.go are not modelled. Reading `config.json` and building clientsets from kubeconfig files is I/O.
- Source and target are modelled as two distinct clusters, which the program as written does not provide. `initKubeClient` (config.go:28-50) ignores its `confFile` argument and builds both the source and the target client from the default `~/.kube/config`, so both clients talk to the same cluster. The model assumes they reach different clusters: the source is a separate, read-only `SourceCluster` and the constructor takes a separate `TargetCluster`. As written, the creates land in the cluster the run reads from, and every listed PersistentVolume, being cluster-scoped, already exists there, so its create would be refused.
- Logging (`fmt.Print*`) and `context.TODO()` are not modelled. They have no effect on the calls or on the clusters.
- The network behaviour of the client library is left out. Each call is an event in the trace. The source's answers are an input (`SourceCluster`).
- A Get is modelled as the object or nothing. Errors other than "not found" (such as a timeout) are not distinguished. Each yields the zero object, as a missing name does.
- Label selectors are not modelled.
  - The `json.Marshal` of the match labels into the selector string (replicate.go:91) is left out, and so is the API server's matching of that string.
  - The PersistentVolume List result is an input keyed by the match labels. A failed List and an unmatched selector both yield no volumes, since the code then iterates over an empty list.
  - On a real cluster the volume creates probably never happen, for two reasons read from the code and not observed. The selector string is JSON (`{"k":"v"}`), not label-selector syntax, so the List at replicate.go:92 would most likely fail and yield no volumes. A listed volume copied at replicate.go:98-100 still carries its resource version, which the API server refuses on create. `Calls.ClaimStepCreatesVolumesThenClaim` and `Calls.VolumeCreatesAt` describe the calls the code makes when the List does return volumes; the model's store accepts such a create.
- The target's refusal of a create is modelled only for a missing name and a taken name. Other server-side validation is left out.
- Changes to the source cluster during a run are not modelled. The source's answers are fixed for the whole run.
- Setting a namespace on a PersistentVolume, which is cluster-scoped, is kept as written. What the API server does with that field is not modelled.
- The replicators' panics are modelled only where the code panics on the data it reads:
  - the nil selector at replicate.go:89-90;
  - the nil ConfigMap key reference at replicate.go:147;
  - the failed Pod List at replicate.go:121-123.

  Panics from the client library itself are left out.
