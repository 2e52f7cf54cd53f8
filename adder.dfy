/** The create side of the route monitor reconciler: make sure the
    declaration carries its retraction marker, then make sure its
    ServiceMonitor exists. */
module Adder {
  import opened Reconcile
  import opened Resources
  import opened Client

  /** The logger and the type scheme the reconciler hands to the adder;
      the adder only carries them. */
  datatype Logger = Logger(name: string)
  datatype Scheme = Scheme(name: string)

  /** The parts of the route monitor reconciler the adder is built from. */
  datatype Reconciler = Reconciler(client: Store, log: Logger, scheme: Scheme)

  /** One pass of the create side over an abstract store: the directive
      returned and the store afterwards. */
  function Ensure(rm: RouteMonitor, s: StoreState): (r: (Result, StoreState))
    ensures r.1.faults == s.faults
    ensures |s.calls| <= |r.1.calls| && r.1.calls[..|s.calls|] == s.calls
    ensures forall k :: k in s.monitors ==> k in r.1.monitors && r.1.monitors[k] == s.monitors[k]
  {
    if rm.routeURL == "" then
      (RequeueWith(NoHost), s)
    else if !HasFinalizer(rm) then
      var u := UpdateStep(s, WithFinalizer(rm));
      if u.0.Some? then (RequeueWith(u.0.value), u.1) else (Stop, u.1)
    else
      var key := ServiceMonitorName(rm.namespace, rm.name);
      var g := GetStep(s, key);
      if g.0.None? then
        (Continue, g.1)
      else if !g.0.value.NotFound? then
        (RequeueWith(g.0.value), g.1)
      else
        var c := CreateStep(g.1, ServiceMonitorResource(rm.routeURL, key.name));
        if c.0.Some? then (RequeueWith(c.0.value), c.1) else (Continue, c.1)
  }

  class RouteMonitorAdder {
    const client: Store
    const log: Logger
    const scheme: Scheme

    constructor New(r: Reconciler)
      ensures client == r.client && log == r.log && scheme == r.scheme
    {
      client := r.client;
      log := r.log;
      scheme := r.scheme;
    }

    /** Requeues with NoHost while the route URL is unset; otherwise adds
        and persists the finalizer and stops if it is missing; otherwise
        creates the ServiceMonitor if the store does not have it. */
    method EnsureServiceMonitorResourceExists(routeMonitor: RouteMonitor) returns (result: Result)
      modifies client
      ensures (result, client.State()) == Ensure(routeMonitor, old(client.State()))
      ensures routeMonitor.routeURL == "" ==> result == RequeueWith(NoHost) && unchanged(client)
      ensures client.monitors != old(client.monitors) ==> routeMonitor.routeURL != "" && HasFinalizer(routeMonitor)
      ensures client.persisted != old(client.persisted) ==> client.monitors == old(client.monitors)
    {
      if routeMonitor.routeURL == "" {
        return RequeueWith(NoHost);
      }

      var rm := routeMonitor;
      if !HasFinalizer(rm) {
        rm := rm.(finalizers := AddFinalizer(rm.finalizers, FinalizerKey));
        var err := client.Update(rm);
        if err.Some? {
          return RequeueWith(err.value);
        }
        return Stop;
      }

      var namespacedName := ServiceMonitorName(rm.namespace, rm.name);
      var err := client.Get(namespacedName);
      if err.Some? {
        if !err.value.NotFound? {
          return RequeueWith(err.value);
        }
        var resource := ServiceMonitorResource(rm.routeURL, namespacedName.name);
        err := client.Create(resource);
        if err.Some? {
          return RequeueWith(err.value);
        }
      }
      return Continue;
    }
  }

  /** The calls one pass adds to the store's log. */
  function NewCalls(rm: RouteMonitor, s: StoreState): seq<Call> {
    Ensure(rm, s).1.calls[|s.calls|..]
  }

  /** The key of the ServiceMonitor that belongs to a declaration. */
  function MonitorKey(rm: RouteMonitor): NamespacedName {
    ServiceMonitorName(rm.namespace, rm.name)
  }

  /** The ServiceMonitor the adder creates for a declaration. */
  function DesiredMonitor(rm: RouteMonitor): ServiceMonitor {
    ServiceMonitorResource(rm.routeURL, MonitorKey(rm).name)
  }

  /** While the route URL is unset the pass requeues with NoHost and issues
      no call at all. */
  lemma NoHostRequeues(rm: RouteMonitor, s: StoreState)
    requires rm.routeURL == ""
    ensures Ensure(rm, s) == (RequeueWith(NoHost), s)
  {
  }

  /** With a URL but no finalizer the pass issues exactly one Update, of the
      declaration with the finalizer added, looks up and creates nothing,
      and on success stops. */
  lemma MissingFinalizerIsPersistedFirst(rm: RouteMonitor, s: StoreState)
    requires rm.routeURL != "" && !HasFinalizer(rm)
    requires s.faults.update.None?
    ensures NewCalls(rm, s) == [UpdateCall(WithFinalizer(rm))]
    ensures Ensure(rm, s).0 == Stop && Ensure(rm, s).0.Err() == None
    ensures Ensure(rm, s).1.persisted == Some(WithFinalizer(rm))
    ensures Ensure(rm, s).1.monitors == s.monitors
  {
  }

  /** A failing Update is surfaced unchanged, nothing is written, and
      nothing is looked up or created. */
  lemma FailedUpdateIsSurfaced(rm: RouteMonitor, s: StoreState)
    requires rm.routeURL != "" && !HasFinalizer(rm)
    requires s.faults.update.Some?
    ensures NewCalls(rm, s) == [UpdateCall(WithFinalizer(rm))]
    ensures Ensure(rm, s).0 == RequeueWith(s.faults.update.value)
    ensures Ensure(rm, s).0.Err() == s.faults.update
    ensures Ensure(rm, s).1.persisted == s.persisted
    ensures Ensure(rm, s).1.monitors == s.monitors
  {
  }

  /** A Create is only ever issued for a declaration that already carries
      the finalizer and has a URL, and never in a pass that issues an
      Update. */
  lemma CreateOnlyAfterMarker(rm: RouteMonitor, s: StoreState, i: nat)
    requires i < |NewCalls(rm, s)| && NewCalls(rm, s)[i].CreateCall?
    ensures rm.routeURL != "" && HasFinalizer(rm)
    ensures forall c :: c in NewCalls(rm, s) ==> !c.UpdateCall?
  {
  }

  /** When Get finds the ServiceMonitor nothing is created or written and
      the pass continues without error. */
  lemma ExistingMonitorIsLeftAlone(rm: RouteMonitor, s: StoreState)
    requires rm.routeURL != "" && HasFinalizer(rm)
    requires s.faults.get.None? && MonitorKey(rm) in s.monitors
    ensures Ensure(rm, s) == (Continue, s.(calls := s.calls + [GetCall(MonitorKey(rm))]))
    ensures Ensure(rm, s).0.Err() == None
  {
  }

  /** A Get failure other than NotFound is surfaced unchanged and Create is
      not called. */
  lemma FailedGetIsSurfaced(rm: RouteMonitor, s: StoreState)
    requires rm.routeURL != "" && HasFinalizer(rm)
    requires s.faults.get.Some? && !s.faults.get.value.NotFound?
    ensures Ensure(rm, s) == (RequeueWith(s.faults.get.value), s.(calls := s.calls + [GetCall(MonitorKey(rm))]))
    ensures Ensure(rm, s).0.Err() == s.faults.get
  {
  }

  /** When Get answers NotFound exactly one Create is issued, of the body
      templated from the URL and the derived name; success continues with
      the ServiceMonitor stored under the key it was looked up by, and a
      Create failure (a configured fault, or AlreadyExists when a stale
      NotFound met a stored key) is surfaced unchanged with the store's
      contents untouched. */
  lemma NotFoundCreatesOnce(rm: RouteMonitor, s: StoreState)
    requires rm.routeURL != "" && HasFinalizer(rm)
    requires s.faults.get == Some(NotFound) || (s.faults.get.None? && MonitorKey(rm) !in s.monitors)
    ensures NewCalls(rm, s) == [GetCall(MonitorKey(rm)), CreateCall(DesiredMonitor(rm))]
    ensures Ensure(rm, s).1.persisted == s.persisted
    ensures s.faults.create.Some? ==>
      Ensure(rm, s).0 == RequeueWith(s.faults.create.value) && Ensure(rm, s).1.monitors == s.monitors
    ensures s.faults.create.None? && MonitorKey(rm) in s.monitors ==>
      Ensure(rm, s).0 == RequeueWith(AlreadyExists) && Ensure(rm, s).1.monitors == s.monitors
    ensures s.faults.create.None? && MonitorKey(rm) !in s.monitors ==>
      Ensure(rm, s).0 == Continue && Ensure(rm, s).1.monitors == s.monitors[MonitorKey(rm) := DesiredMonitor(rm)]
  {
  }

  /** Every pass issues one of four call sequences, and a failing call is
      always the last one of its pass. */
  lemma PassCalls(rm: RouteMonitor, s: StoreState)
    ensures NewCalls(rm, s) == [] <==> rm.routeURL == ""
    ensures NewCalls(rm, s) == [UpdateCall(WithFinalizer(rm))] <==> rm.routeURL != "" && !HasFinalizer(rm)
    ensures NewCalls(rm, s) == [GetCall(MonitorKey(rm))] <==>
      rm.routeURL != "" && HasFinalizer(rm) && GetStep(s, MonitorKey(rm)).0 != Some(NotFound)
    ensures NewCalls(rm, s) == [GetCall(MonitorKey(rm)), CreateCall(DesiredMonitor(rm))] <==>
      rm.routeURL != "" && HasFinalizer(rm) && GetStep(s, MonitorKey(rm)).0 == Some(NotFound)
  {
  }

  /** With no faults injected, a second pass over a marked declaration
      writes nothing and again continues. */
  lemma SecondPassIsIdempotent(rm: RouteMonitor, s: StoreState)
    requires s.faults == NoFaults && rm.routeURL != "" && HasFinalizer(rm)
    ensures Ensure(rm, s).0 == Continue
    ensures MonitorKey(rm) in Ensure(rm, s).1.monitors
    ensures var s1 := Ensure(rm, s).1;
      Ensure(rm, s1) == (Continue, s1.(calls := s1.calls + [GetCall(MonitorKey(rm))]))
  {
  }

  /** With no faults injected and each pass given the declaration as last
      persisted, a fresh declaration is marked in the first pass, gets its
      ServiceMonitor in the second, and the third pass writes nothing. */
  lemma ConvergesInTwoPasses(rm: RouteMonitor, s: StoreState)
    requires s.faults == NoFaults && rm.routeURL != "" && !HasFinalizer(rm)
    requires MonitorKey(rm) !in s.monitors
    ensures var s1 := Ensure(rm, s).1;
      && Ensure(rm, s).0 == Stop
      && s1.persisted == Some(WithFinalizer(rm))
      && s1.monitors == s.monitors
    ensures var marked := WithFinalizer(rm);
      var s2 := Ensure(marked, Ensure(rm, s).1).1;
      && Ensure(marked, Ensure(rm, s).1).0 == Continue
      && s2.monitors == s.monitors[MonitorKey(rm) := DesiredMonitor(rm)]
      && Ensure(marked, s2) == (Continue, s2.(calls := s2.calls + [GetCall(MonitorKey(rm))]))
  {
    var marked := WithFinalizer(rm);
    MissingFinalizerIsPersistedFirst(rm, s);
    var s1 := Ensure(rm, s).1;
    assert MonitorKey(marked) == MonitorKey(rm) && DesiredMonitor(marked) == DesiredMonitor(rm);
    NotFoundCreatesOnce(marked, s1);
    SecondPassIsIdempotent(marked, s1);
  }

  /** The store holds the declaration's ServiceMonitor only while the
      persisted declaration carries the finalizer. */
  ghost predicate MarkerGuardsDependents(s: StoreState) {
    forall k :: k in s.monitors ==>
      s.persisted.Some? && HasFinalizer(s.persisted.value) && k == MonitorKey(s.persisted.value)
  }

  /** The declaration a pass is given was read from the store: it has the
      persisted declaration's identity, and it carries the finalizer only
      if the persisted declaration does. */
  ghost predicate ReadFromStore(rm: RouteMonitor, s: StoreState) {
    && (s.persisted.Some? ==> s.persisted.value.name == rm.name && s.persisted.value.namespace == rm.namespace)
    && (HasFinalizer(rm) ==> s.persisted.Some? && HasFinalizer(s.persisted.value))
  }

  /** One pass keeps the guard. */
  lemma PassKeepsMarkerGuard(rm: RouteMonitor, s: StoreState)
    requires MarkerGuardsDependents(s) && ReadFromStore(rm, s)
    ensures MarkerGuardsDependents(Ensure(rm, s).1)
  {
  }

  /** The store after a sequence of passes, one declaration per pass. */
  function Passes(rms: seq<RouteMonitor>, s: StoreState): StoreState
    decreases |rms|
  {
    if rms == [] then s else Passes(rms[1..], Ensure(rms[0], s).1)
  }

  /** Every pass of the sequence is given a declaration read from the store
      as it stands at that pass. */
  ghost predicate EachReadFromStore(rms: seq<RouteMonitor>, s: StoreState)
    decreases |rms|
  {
    rms == [] || (ReadFromStore(rms[0], s) && EachReadFromStore(rms[1..], Ensure(rms[0], s).1))
  }

  /** Across any history of passes, no ServiceMonitor exists while the
      persisted declaration lacks the finalizer. */
  lemma {:induction false} HistoryKeepsMarkerGuard(rms: seq<RouteMonitor>, s: StoreState)
    requires MarkerGuardsDependents(s) && EachReadFromStore(rms, s)
    ensures MarkerGuardsDependents(Passes(rms, s))
  {
    if rms != [] {
      PassKeepsMarkerGuard(rms[0], s);
      HistoryKeepsMarkerGuard(rms[1..], Ensure(rms[0], s).1);
    }
  }
}
