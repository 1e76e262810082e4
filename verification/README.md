# Namespace backup webhook, modelled in Dafny

This project models the core of a Kubernetes admission webhook
(`namespace-webhook/main.go`). The webhook watches Namespace create, update
and delete events. It reads two labels, `namespace.oam.dev/target` and
`usage.oam.dev/runtime`. From them it decides whether to create a Velero
backup Schedule together with an instant Backup, or to delete the Schedule.
Whatever it decides, it answers "allowed".

Modules, one per part of the handler:

- `Labels` (`labels.dfy`): the namespace record (name and label map), Go's two-value map lookup, the target
  predicate `IsTarget` and the weaker old-side test of the Update branch, `OldSideUnset`.
- `Timestamp` (`timestamp.dfy`): `time.Now().Format("20060102150405")`. `Format` renders a
  `DateTime` with Go's minimum-width zero padding. `Parse` is its inverse on valid times.
- `Velero` (`velero.dfy`): the configuration record and its defaults, the two resource kinds, the
  naming functions `ScheduleName` / `BackupName` and the two object templates, typed instead of
  unstructured. It also defines `Action`, one call made through the dynamic client.
- `Decision` (`decision.dfy`): `Decide` copies the branches of the second operation switch as
  written. `Calls` and `Plan` turn the decision into the client calls the helpers make. `EdgeIntent`
  is an independent reference: a pure edge detector over the target predicate.
- `Webhook` (`webhook.dfy`): the request checks `ParseRequest`, the recording client
  `ResourceClient`, the three helpers `CreateVeleroSchedule`, `CreateVeleroBackup` and
  `DeleteVeleroSchedule`, and the handler `ServeNamespaceBackup`. The handler is an imperative method
  with the source's early returns. It returns the outcome and the sequence of client calls it made.
  Its contract covers every path: each 400 in its order, each 500, the missing response for an
  unknown operation, and otherwise "allowed" with the request UID, with calls equal to `Plan`.
  The scenario methods at the end of the file call the handler with a backend that fails every call.

Inputs that the source obtains from outside are parameters:

- `HttpRequest.decoded` and `AdmissionRequest.newObject` / `oldObject` are the results of
  `json.Unmarshal` (`None` when it fails).
- `Cluster.inClusterConfig` and `Cluster.clientBuilt` say whether `rest.InClusterConfig` and
  `dynamic.NewForConfig` succeed.
- `Cluster.now` is the clock.
- `Cluster.replies` is what the backend answers to each call. Nothing in `Plan` or in the
  handler's outcome depends on it, because the source only logs those answers.

Where the code and a plain edge-detector reading of the webhook differ, the model follows the code.
On Update, activation requires the old labels to have the target or the runtime label absent or
empty. Old labels with a non-empty target label and a non-empty runtime other than `"target"` are not
a target. Yet changing them to target labels issues no call. (Old labels with runtime `"other"` but
no target label, or an empty one, do activate.) `Decision.DecideVersusEdges` states that this is the only
disagreement with `EdgeIntent`. `Labels.WeakGuardGap` characterises those label maps exactly.
The configured `backupSuffix` is read but never used in any name. `Velero.SuffixUnused` states this.
Instant backups are named to the second. Two activations of one namespace within the same second
produce the same backup name. `Velero.BackupNameInjective` shows this is the only way two backup
names can collide.

## Model

| member | source | states |
|---|---|---|
| `Labels.IsTarget` | namespace-webhook/main.go:119-127 | true exactly when the target label is present and non-empty and the runtime label is present and exactly "target" |
| `Labels.OldSideUnset` | namespace-webhook/main.go:133 | the Update guard's old-side test holds exactly when one of the two labels is absent or empty; it implies the old labels are not a target |
| `Labels.NoLabelsNoTarget` | namespace-webhook/main.go:119-127 | an empty (nil) label map, an empty target value, or a missing label never makes a target |
| `Labels.ExactRuntimeAnyTarget` | namespace-webhook/main.go:120-127 | with both labels set, the map is a target exactly when the target value is non-empty and the runtime is exactly "target" |
| `Labels.WeakGuardGap` | namespace-webhook/main.go:133-136 | the maps that are neither a target nor "old side unset" are exactly those with a non-empty target and a non-empty runtime other than "target" |
| `Labels.Lookup` | namespace-webhook/main.go:119-122 | Go's two-value map index (the empty string and false when absent); its use is characterised by the `IsTarget` and `OldSideUnset` contracts |
| `Timestamp.FormatShape` | namespace-webhook/main.go:223 | a valid time renders as exactly fourteen decimal digits |
| `Timestamp.ParseFormat` | namespace-webhook/main.go:223 | reading back a rendered valid time gives the same time |
| `Timestamp.FormatInjective` | namespace-webhook/main.go:223 | distinct valid times render differently |
| `Timestamp.Format` | namespace-webhook/main.go:223 | the rendered time is all decimal digits and at least fourteen long; exact length and inverse in `FormatShape` and `ParseFormat` |
| `Velero.ScheduleName` | namespace-webhook/main.go:173 | the schedule name starts with the namespace name and is seven characters longer |
| `Velero.ScheduleNameInjective` | namespace-webhook/main.go:172-173 | different namespaces never share a schedule name |
| `Velero.BackupNameShape` | namespace-webhook/main.go:222-223 | a backup name is the schedule name, a dash and the fourteen-digit timestamp, which reads back to the time |
| `Velero.BackupNameInjective` | namespace-webhook/main.go:222-223 | two backup names are equal only for the same namespace and the same second |
| `Velero.ManifestsAgree` | namespace-webhook/main.go:188-248 | both objects sit in the Velero namespace, include exactly `[ns]`, share one backup template, and the backup is named after the schedule; the schedule is named by `ScheduleName`, the kinds and cron expression are as configured, and the owner-reference flag is false |
| `Velero.SuffixUnused` | namespace-webhook/main.go:327 | changing the configured suffix changes neither object |
| `Velero.BackupName` | namespace-webhook/main.go:222-223 | the backup name starts with the schedule name followed by a dash, with at least fourteen characters after it; injectivity in `BackupNameInjective` |
| `Velero.Template` | namespace-webhook/main.go:200-204 | the shared backup settings; `ManifestsAgree` states that both objects include exactly `[ns]` and share them |
| `Velero.ScheduleManifest` | namespace-webhook/main.go:188-208 | the Schedule object; its properties are stated by `ManifestsAgree` and `SuffixUnused` |
| `Velero.BackupManifest` | namespace-webhook/main.go:232-248 | the Backup object; its properties are stated by `ManifestsAgree`, `BackupNameShape` and `SuffixUnused` |
| `Decision.DecideVersusEdges` | namespace-webhook/main.go:131-138 | the decision equals the edge detector's except exactly on Update from a non-target with both labels set to a target, where it does nothing |
| `Decision.CreatePlan` | namespace-webhook/main.go:125-130 | Create issues get, schedule create and backup create for the new name when the new labels are a target and nothing otherwise, and never deletes |
| `Decision.UpdatePlan` | namespace-webhook/main.go:131-138 | on Update, activation happens iff the new labels are a target and the old side is unset; a single delete of the new name's schedule happens iff the new labels are not a target and the old are; otherwise nothing |
| `Decision.UpdateNoReassert` | namespace-webhook/main.go:133-138 | Update from target to target, or from a non-empty target label with a non-empty runtime other than "target" to target, issues no call |
| `Decision.DeletePlan` | namespace-webhook/main.go:140-144 | Delete issues one delete of the old name's schedule iff the old labels are a target, nothing otherwise, and never creates |
| `Decision.ConnectPlan` | namespace-webhook/main.go:124-145 | no other operation issues any call |
| `Decision.PlanShape` | namespace-webhook/main.go:124-145 | a plan has 0, 1 or 3 calls, never mixes creates and deletes, addresses only the Velero namespace, and a single call is a schedule delete |
| `Decision.ActivationReplay` | namespace-webhook/main.go:172-223 | repeating an activation targets the same schedule identity, while backups taken at different seconds get different names |
| `Decision.Decide` | namespace-webhook/main.go:124-145 | activation only for Create or Update with target new labels, deactivation only for Update or Delete with target old labels, and nothing on Update from target to target; the full table is in `DecideVersusEdges` and the per-operation lemmas |
| `Decision.ScheduleCalls` | namespace-webhook/main.go:182-212 | the get and the create of createVeleroSchedule; the handler helper `CreateVeleroSchedule` is proved to issue exactly these |
| `Decision.BackupCalls` | namespace-webhook/main.go:252 | the create of createVeleroBackup; `CreateVeleroBackup` is proved to issue exactly this |
| `Decision.DeleteCalls` | namespace-webhook/main.go:271 | the delete of deleteVeleroSchedule; `DeleteVeleroSchedule` is proved to issue exactly this |
| `Decision.Calls` | namespace-webhook/main.go:128-143 | an intent issues no call exactly when it is NoOp, and every call addresses the Velero namespace |
| `Decision.Plan` | namespace-webhook/main.go:124-145 | the calls of the decision stage; stated per operation by `CreatePlan`, `UpdatePlan`, `DeletePlan`, `ConnectPlan` and `PlanShape`, and tied to the handler by `ServeNamespaceBackup` |
| `Webhook.Decodes` | namespace-webhook/main.go:66-100 | which decodes each operation requires; used by the `ServeNamespaceBackup` contract for its 400 and 500 cases |
| `Webhook.NewSnapshot` | namespace-webhook/main.go:63-82 | the new namespace after decoding, the zero value for Delete; used by the `ServeNamespaceBackup` contract |
| `Webhook.OldSnapshot` | namespace-webhook/main.go:62-95 | the old namespace after decoding, the zero value for Create; used by the `ServeNamespaceBackup` contract |
| `Webhook.StatusCode` | namespace-webhook/main.go:58-114 | the HTTP status of each outcome (an empty 200 for NoResponse); the 400/500 promises are in `ServeNamespaceBackup` |
| `Webhook.ParseRequest` | namespace-webhook/main.go:280-303 | a request passes iff the content type is exactly application/json, the body is non-empty, it decodes and has a request section; failures are reported in that order |
| `Webhook.ResourceClient.Get` | namespace-webhook/main.go:182 | records one get and returns the backend's reply to it |
| `Webhook.ResourceClient.Create` | namespace-webhook/main.go:212 | records one create and returns the backend's reply to it |
| `Webhook.ResourceClient.Delete` | namespace-webhook/main.go:271 | records one delete and returns the backend's reply to it |
| `Webhook.CreateVeleroSchedule` | namespace-webhook/main.go:172-218 | always issues the existence check and then the create, whatever the check answers |
| `Webhook.CreateVeleroBackup` | namespace-webhook/main.go:221-258 | issues one create of the timestamped backup |
| `Webhook.DeleteVeleroSchedule` | namespace-webhook/main.go:261-277 | issues one delete of the namespace's schedule |
| `Webhook.ServeNamespaceBackup` | namespace-webhook/main.go:51-169 | malformed requests and failed required decodes give 400 in the source's order, client construction failures 500, an unknown operation no response, all without calls; otherwise "allowed" with the request UID and exactly the calls of `Plan`, independent of backend replies; the answer is a 400 exactly when parsing fails or a handled operation lacks a required decode, and a 500 exactly when the request decodes but the cluster configuration or the client cannot be obtained |

## Left out

- HTTPS serving, the TLS certificate paths, `main` and the `/health` handler: transport only, no logic.
- JSON decoding of the review and the namespaces: its results are inputs (`Option` values). A namespace decodes to its name and labels only.
- Encoding the response with `json.Marshal` and its 500 path: the response value always encodes. The `Content-Type` header of the answer is not modelled.
- The error message texts: a fault value stands for each message.
- `rest.InClusterConfig`, `dynamic.NewForConfig` and the dynamic client: two booleans, plus a recorder of calls with a reply function. There is no backend store. So the backend's own answers to repeated creates and deletes (already exists, not found) are not modelled; the source ignores them anyway.
- `setEnv` / `getEnv` and the logging setup: the configuration is an immutable `Config` parameter with the values it takes when no environment variable is set in `Velero.Defaults`. The parsing of the environment variables is not modelled.
- Logging, request-context cancellation and concurrent handler calls.
- Operation values: every value other than CREATE, UPDATE and DELETE is represented by `Connect`.
- Timestamp.ParseFormat: the round trip is stated for valid calendar times with a four-digit year only; `Format` renders larger years with more digits, as Go does, and negative years are not modelled.
