# Route monitor adder — a Dafny model

This project models the create side of the route-monitor operator's
reconciler: `RouteMonitorAdder.EnsureServiceMonitorResourceExists` and its
constructor `New` (`controllers/routemonitor/adder/adder.go`). One pass over a
route monitor declaration does three things, in order, and stops at the first
one that fails or ends the pass:

1. While `Status.RouteURL` is empty, it requeues with the soft `NoHost`
   error and touches nothing.
2. If the declaration lacks the operator's finalizer (the retraction marker),
   it adds the marker to its own copy, writes that copy back with `Update`,
   and stops the pass. A failing `Update` is returned unchanged as a requeue.
3. Otherwise it looks up the declaration's ServiceMonitor by its derived name.
   The lookup can end three ways:
   - found: nothing more is done and the pass continues;
   - `NotFound`: the ServiceMonitor is created from the template;
   - any other error: that error is returned unchanged.
   A `Create` failure is returned unchanged too.

The Kubernetes client is modelled as an abstract store, `Client.Store`. It is a
class with these fields:
- the ServiceMonitors, keyed by name and namespace;
- the declaration last written back with `Update`;
- the log of calls issued;
- the fault each kind of call is set to answer with, the way the mocked
  client in `adder_test.go` is told what to return.

An unset fault means the call follows the store's contents: `Get` answers nil
for a stored key and `NotFound` otherwise. A `Create` of a stored key answers
`AlreadyExists`. Each store method is proved against a pure function of the
abstract state (`GetStep`, `CreateStep`, `UpdateStep`). The adder's method is
proved equal to the pure pass `Adder.Ensure`. The lemmas about `Ensure` state
what the source promises: the ordering of marker and creation, that errors
are surfaced unchanged, that a failed step ends the pass, and idempotence.
Across any history of passes, a ServiceMonitor exists only while the stored
declaration carries the marker.

Files: `reconcile.dfy` (directive and errors), `resources.dfy` (declaration,
ServiceMonitor, finalizer helpers, naming and template), `client.dfy` (the
store), `adder.dfy` (the adder, its pass and the lemmas).

After writing the finalizer, `adder.go:55` returns `StopReconcile()` and
`adder_test.go:331` expects `StopOperation()`, so the model returns `Stop`
rather than a requeue.

## Model

| member | source | states |
|---|---|---|
| `Resources.AddFinalizer` | controllers/routemonitor/adder/adder.go:51 | the key is in the result; the old list is kept as a prefix; at most the key is added; nothing changes if it was there |
| `Resources.WithFinalizer` | controllers/routemonitor/adder/adder.go:49-51 | the marked declaration carries the finalizer, keeps its other finalizers in order with at most the key appended, keeps identity and URL, and equals the input when already marked |
| `Resources.ServiceMonitorName` | controllers/routemonitor/adder/adder.go:58 | the derived key always lies in the fixed monitoring namespace |
| `Resources.ResourceStoredUnderItsName` | controllers/routemonitor/adder/adder.go:58-75 | the created body is stored under exactly the key that `Get` looks up |
| `Client.GetStep` | controllers/routemonitor/adder/adder.go:66 | `Get` answers the configured fault when one is set, otherwise nil iff the key is stored and `NotFound` for an absent key; only the call log changes |
| `Client.CreateStep` | controllers/routemonitor/adder/adder.go:75 | `Create` succeeds iff no fault is set and the key is free, and then stores the body under its key; on failure the contents are untouched |
| `Client.UpdateStep` | controllers/routemonitor/adder/adder.go:52 | `Update` answers the configured fault; on success the given declaration becomes the persisted one; ServiceMonitors are untouched |
| `Client.Store.Get` | controllers/routemonitor/adder/adder_test.go:83-85 | the store's `Get` changes its state exactly as `GetStep` says |
| `Client.Store.Create` | controllers/routemonitor/adder/adder_test.go:91-93 | the store's `Create` changes its state exactly as `CreateStep` says |
| `Client.Store.Update` | controllers/routemonitor/adder/adder_test.go:79-81 | the store's `Update` changes its state exactly as `UpdateStep` says |
| `Adder.Ensure` | controllers/routemonitor/adder/adder.go:43-82 | a pass never changes the faults, only appends to the call log, and never removes or overwrites a stored ServiceMonitor |
| `Adder.RouteMonitorAdder.New` | controllers/routemonitor/adder/adder.go:35-41 | the adder carries the reconciler's client, logger and scheme |
| `Adder.RouteMonitorAdder.EnsureServiceMonitorResourceExists` | controllers/routemonitor/adder/adder.go:43-82 | the directive and the new store equal the pure pass; with no URL the store is unchanged; ServiceMonitors change only for a marked declaration with a URL; a pass that writes the declaration creates nothing |
| `Adder.NoHostRequeues` | controllers/routemonitor/adder/adder.go:45-47 | with an empty URL the pass requeues with `NoHost` and issues no call |
| `Adder.MissingFinalizerIsPersistedFirst` | controllers/routemonitor/adder/adder.go:49-56 | an unmarked declaration with a URL is written back once, with the finalizer, and nothing is looked up or created; success stops the pass with no error |
| `Adder.FailedUpdateIsSurfaced` | controllers/routemonitor/adder/adder.go:52-53 | a failing `Update` is returned unchanged as a requeue, its error is the returned error, and nothing is persisted, looked up or created |
| `Adder.CreateOnlyAfterMarker` | controllers/routemonitor/adder/adder.go:45-75 | a `Create` is only issued for a marked declaration with a URL, and never in a pass that issues an `Update` |
| `Adder.ExistingMonitorIsLeftAlone` | controllers/routemonitor/adder/adder.go:66-81 | when `Get` finds the ServiceMonitor, the pass continues with no returned error and only the lookup is logged |
| `Adder.FailedGetIsSurfaced` | controllers/routemonitor/adder/adder.go:66-71 | a `Get` error other than `NotFound` is the returned error, unchanged, and no `Create` is issued |
| `Adder.NotFoundCreatesOnce` | controllers/routemonitor/adder/adder.go:72-81 | on `NotFound` exactly one `Create` of the templated body is issued; success continues with it stored under its key; a configured `Create` fault, or `AlreadyExists` for a stored key, is returned unchanged with the contents untouched |
| `Adder.PassCalls` | controllers/routemonitor/adder/adder.go:43-82 | every pass issues one of four call sequences, each exactly when its guard holds, so a failing call is the last of its pass |
| `Adder.SecondPassIsIdempotent` | controllers/routemonitor/adder/adder.go:66-81 | without faults, the pass after a successful one writes nothing and again continues |
| `Adder.ConvergesInTwoPasses` | controllers/routemonitor/adder/adder.go:43-82 | without faults, a fresh declaration is marked in one pass and gets its ServiceMonitor in the next; the third pass writes nothing |
| `Adder.PassKeepsMarkerGuard` | controllers/routemonitor/adder/adder.go:45-75 | a pass given a declaration read from the store keeps "a ServiceMonitor exists only while the stored declaration is marked" |
| `Adder.HistoryKeepsMarkerGuard` | controllers/routemonitor/adder/adder.go:45-75 | that guard holds after any sequence of such passes |

## Left out

- The logger, the scheme and the `context` argument are not modelled. The adder only carries the logger and scheme, as opaque tokens. A cancelled context is one more `Other` error that a store call can be set to answer with.
- `Get` filling its output object is not modelled, because the adder never reads that object.
- The `templates` package is not part of this model. `ServiceMonitorName` follows the naming that `api/v1alpha1/v1alpha1_test.go:80-95` expects: name and namespace joined by `-`, in the `openshift-monitoring` namespace. `ServiceMonitorResource` keeps only the name, namespace and target URL. The proofs use only that the body is stored under the looked-up key.
- The `pkg/consts` value of `FinalizerKey` is not part of this model. The string used here is an assumption, and no proof depends on its contents.
- `finalizer.HasFinalizer` and `utilfinalizer.Add` are modelled as sequence membership and as an append when the key is absent. Their own code is not part of this model.
- `Resources.ServiceMonitorResource`: its contract states only the key the body is stored under. The fixed `openshift-monitoring` namespace is an assumption about the templates package, whose code is not part of this model, and the body's other contents are not modelled.
- `Resources.ServiceMonitorName`: its contract states only the fixed namespace, because the naming template's code is not part of this model.
- The store's optimistic concurrency, event redelivery and requeue scheduling are external to the adder. Faults stand for conflicting writes.
- The `EnsureBlackBoxExporterDeploymentExists` and `EnsureBlackBoxExporterServiceExists` tests (`adder_test.go:165-281`) exercise methods that the modelled `adder.go` does not have.
- The deletion path and the BlackBoxExporter retain/remove decision exercised in `controllers/routemonitor/routemonitor_test.go` are not part of this model. Their code is not part of this model.
