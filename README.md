# Xglwwebapp reconciler — a Dafny model

The Xglwwebapp operator watches `Xglwwebapp` custom resources and, for each, keeps
three dependent resources under the same namespaced name: a Deployment (always
wanted), a Service (wanted when `EnableService` is set) and an Ingress (wanted when
`EnableIngress` is set). This project models one pass of
`XglwwebappReconciler.Reconcile` as the controller is written, and proves what a pass
does.

- `cluster.dfy` (module `Cluster`): the cluster under the reconciled name as a class
  `Client` with one slot for the Xglwwebapp and one `Option<Obj>` slot per managed
  kind, and the client calls `Get`, `Create`, `Update` (whole replace), `Delete` and
  `SetControllerReference`. What the API server answers beyond the stored objects is
  injected through a `Faults` value: a failed fetch, a non-not-found read failure,
  and the error of each write or owner-reference call. Reads otherwise reflect the
  store, so not-found means the slot is empty. A ghost trace `calls` records every
  call, in order.
- `xglwwebapp_controller.dfy` (module `Controller`): the class
  `XglwwebappReconciler` whose `Reconcile` method follows the controller's calls and
  branches one for one, with its early returns. Each of the three per-kind blocks is a
  method of its own, proved against one row of the decision table; `Reconcile` is
  proved to leave the cluster, the trace, the result and the error exactly as
  `ReconcileSpec.PassSpec` says.
- `reconcile_spec.dfy` (module `ReconcileSpec`): the pass as a decision table
  (`Decide`: read outcome × kind × flag → create, replace, delete, skip, swallow or
  abort), one kind's part (`KindPass`) and the fixed sequence Deployment, Service,
  Ingress (`RunKinds` over `Order`) that stops at the first error.
- `reconcile_properties.dfy` (module `ReconcileProperties`): the properties of a
  pass, proved about `PassSpec` and `KindPass`.

What the code does, where a cleaner reconciler would do otherwise (the model follows
the code, and the lemmas below state it):

- a Service that exists is deleted on every pass, even when `EnableService` is set; so
  with `EnableService` set the Service is deleted and re-created on alternate passes
  and the cluster never settles (`SettlesIffServiceDisabled`, `ServiceAlternates`);
- the Deployment is replaced whole by `Update` on every pass that finds it, not
  patched field by field;
- a missing Xglwwebapp is returned as a not-found error, not treated as success;
- a read error other than not-found is ignored for the Deployment, and for the
  Service and the Ingress it ends the pass only when the matching flag is set;
- a failed `Delete`, not-found included, ends the pass with that error;
- no pass ever asks for a requeue.

## Model

| member | source | states |
|---|---|---|
| `Cluster.FetchApp` | internal/controller/xglwwebapp_controller.go:56 | fetching the Xglwwebapp succeeds exactly when nothing failed and one is stored, and returns it; it is not-found exactly when nothing failed and none is stored |
| `Cluster.ReadSlot` | internal/controller/xglwwebapp_controller.go:64 | reading a managed kind finds the stored object exactly when there is one and no read failure; it is not-found exactly when the slot is empty and the read did not fail |
| `Cluster.Client.GetApp` | internal/controller/xglwwebapp_controller.go:56 | the fetch answers as `FetchApp` on the current store and only appends itself to the trace |
| `Cluster.Client.Get` | internal/controller/xglwwebapp_controller.go:82 | a read answers as `ReadSlot` on the current slot and changes nothing but the trace |
| `Cluster.Client.SetControllerReference` | internal/controller/xglwwebapp_controller.go:60 | returns the injected owner-reference error; on success the object comes back with the Xglwwebapp as its controller; no stored object changes |
| `Cluster.Client.Create` | internal/controller/xglwwebapp_controller.go:66 | returns the injected create error; on success the object is stored in its kind's slot and nothing else changes; the store stays well-kinded |
| `Cluster.Client.Update` | internal/controller/xglwwebapp_controller.go:72 | returns the injected update error; on success the stored object is replaced whole by the given one and nothing else changes |
| `Cluster.Client.Delete` | internal/controller/xglwwebapp_controller.go:93 | returns the injected delete error, not-found included; on success the kind's slot is emptied and nothing else changes |
| `Controller.XglwwebappReconciler.Reconcile` | internal/controller/xglwwebapp_controller.go:53-130 | one pass leaves the result, the error, the stored objects and the call trace exactly as `PassSpec` gives them for the store and faults it started from |
| `Controller.XglwwebappReconciler.ReconcileDeployment` | internal/controller/xglwwebapp_controller.go:59-76 | the Deployment block returns the error, the Deployment slot and the calls of `KindPass` for the Deployment, and changes no other slot |
| `Controller.XglwwebappReconciler.ReconcileService` | internal/controller/xglwwebapp_controller.go:77-97 | the Service block returns the error, the Service slot and the calls of `KindPass` for the Service, and changes no other slot |
| `Controller.XglwwebappReconciler.ReconcileIngress` | internal/controller/xglwwebapp_controller.go:98-122 | the Ingress block returns the error, the Ingress slot and the calls of `KindPass` for the Ingress, and changes no other slot |
| `ReconcileSpec.PassSteps` | internal/controller/xglwwebapp_controller.go:53-130 | a failed fetch ends the pass with its error and only the fetch call; otherwise the Deployment, Service and Ingress parts run in that order and the first that fails ends the pass with its error, later kinds neither called nor changed; a pass through all three ends with the Ingress part's error, none when it succeeds |
| `ReconcileProperties.DeploymentStep` | internal/controller/xglwwebapp_controller.go:59-76 | owner-reference failure ends the part; not found: create, and the slot holds the built owned object unless the create failed; found: update, the slot is replaced by the built owned object unless the update failed; any other read error: no write, no error |
| `ReconcileProperties.ServiceStep` | internal/controller/xglwwebapp_controller.go:77-97 | found: deleted whatever `EnableService` says; not found and enabled: created; not found and disabled: nothing written; other read error: the error ends the pass only when enabled, and is swallowed when disabled |
| `ReconcileProperties.IngressStep` | internal/controller/xglwwebapp_controller.go:98-122 | found and enabled: left untouched; found and disabled: deleted; not found and enabled: created; not found and disabled: nothing written; other read error: ends the pass only when enabled |
| `ReconcileProperties.KindCalls` | internal/controller/xglwwebapp_controller.go:59-122 | each kind's part starts with the owner reference, makes one to three calls, all about that kind, and at most one write, which is its last call |
| `ReconcileProperties.KindFailure` | internal/controller/xglwwebapp_controller.go:60-120 | a kind's part ends with the owner-reference error, else with the error of the one write the decision table chose, else with the read error when the table aborts, else with none; a non-not-found read error fails the part exactly for an enabled Service or Ingress; a failed part leaves its slot as it was |
| `ReconcileProperties.FetchFailureWritesNothing` | internal/controller/xglwwebapp_controller.go:55-58 | when the Xglwwebapp cannot be fetched, not-found included, the pass returns that error, makes no other call and changes nothing; a missing Xglwwebapp gives a not-found error |
| `ReconcileProperties.WritesInOrder` | internal/controller/xglwwebapp_controller.go:59-122 | in every pass the writes come in strictly increasing kind order: at most one per kind, Deployment before Service before Ingress |
| `ReconcileProperties.FailFast` | internal/controller/xglwwebapp_controller.go:60-120 | when kind k's part is the first to fail, the pass returns its error, no later kind is read or written, and later kinds keep what they held |
| `ReconcileProperties.NoRollback` | internal/controller/xglwwebapp_controller.go:59-122 | when kind k's part is the first to fail, k and every earlier kind hold what their own part left: earlier writes are not undone |
| `ReconcileProperties.PassEnd` | internal/controller/xglwwebapp_controller.go:129 | every pass returns an empty result; the error is nil exactly when the fetch and all three kind parts succeeded, and then every kind was read |
| `ReconcileProperties.CleanPass` | internal/controller/xglwwebapp_controller.go:59-122 | a pass without failures ends without error with the built Deployment stored, a Service only if none existed and it is enabled, and the Ingress kept or created when enabled and absent when not |
| `ReconcileProperties.ServiceAlternates` | internal/controller/xglwwebapp_controller.go:81-97 | with `EnableService` set, over any number n of passes without failures the Service is present after n passes exactly when its presence at the start matches n being even, while the Deployment and the Ingress stay as the first pass left them |
| `ReconcileProperties.SettlesWhenServiceDisabled` | internal/controller/xglwwebapp_controller.go:59-122 | with `EnableService` off, any number n ≥ 1 of passes without failures leaves the cluster exactly as the first one did |
| `ReconcileProperties.SettlesIffServiceDisabled` | internal/controller/xglwwebapp_controller.go:92-97 | under passes without failures, a second pass changes nothing exactly when `EnableService` is off; with it on, the Service exists after one pass exactly when it did not after the previous one |

## Left out

- `SetupWithManager` (internal/controller/xglwwebapp_controller.go:133-138): manager and watch wiring, with no decision logic.
- `utils.NewDeployment`, `utils.NewService` and `utils.NewIngress` are not part of this model: their bodies are not available, so `Cluster.Build` stands for them and a built object is known only by its kind, its namespaced name, the Xglwwebapp spec it came from and its controller reference. Image, replica count and other fields are not modelled.
- `controllerutil.SetControllerReference` and the scheme: modelled only as a call that sets the owner or fails with an injected error.
- The Kubernetes client and API server: a store under one namespaced name. A request's name and the fetched Xglwwebapp's name are taken to be the same. Conflicts, already-exists and transport errors appear only as injected errors, one per call and kind, which suffices because each call is made at most once per kind in a pass.
- `Cluster.Client.Get`: a read never reports not-found for an object that is stored (a stale cache is not modelled); its failures are injected non-not-found errors.
- Logging (`logf.FromContext`, `log.Error`, `logger.Info`) has no effect on the pass and is left out. The source refers to `errors`, `log` and `logger` without declaring them; `errors.IsNotFound` is taken as the not-found test of a read's error and the log calls as no-ops.
- Context cancellation, concurrent passes and the work queue's requeue and backoff belong to the controller runtime, not to this function.
