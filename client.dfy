/** The declarative resource store the adder talks to, as an abstract
    client. It keeps the ServiceMonitors by key, the declaration last
    written back with `Update`, the calls issued in order, and the faults
    configured for each kind of call (the way a mocked client is told what
    to answer). */
module Client {
  import opened Reconcile
  import opened Resources

  /** The error each kind of call is configured to answer with; `None`
      means the call behaves as the store's contents say. */
  datatype Faults = Faults(get: Option<Error>, create: Option<Error>, update: Option<Error>)

  const NoFaults: Faults := Faults(None, None, None)

  /** A call issued against the store, with its argument. */
  datatype Call =
    | GetCall(key: NamespacedName)
    | CreateCall(monitor: ServiceMonitor)
    | UpdateCall(declaration: RouteMonitor)

  /** The abstract state of the store. */
  datatype StoreState = StoreState(
    monitors: map<NamespacedName, ServiceMonitor>,
    persisted: Option<RouteMonitor>,
    calls: seq<Call>,
    faults: Faults)

  /** Looking a ServiceMonitor up by key: a configured fault wins; otherwise
      the answer is nil for a stored key and NotFound for any other. Only
      the call log changes. */
  function GetStep(s: StoreState, key: NamespacedName): (r: (Option<Error>, StoreState))
    ensures r.1 == s.(calls := s.calls + [GetCall(key)])
    ensures s.faults.get.Some? ==> r.0 == s.faults.get
    ensures r.0.None? <==> s.faults.get.None? && key in s.monitors
    ensures r.0 == Some(NotFound) <==> s.faults.get == Some(NotFound) || (s.faults.get.None? && key !in s.monitors)
  {
    var s' := s.(calls := s.calls + [GetCall(key)]);
    if s.faults.get.Some? then (s.faults.get, s')
    else if key in s.monitors then (None, s')
    else (Some(NotFound), s')
  }

  /** Creating a ServiceMonitor: a configured fault or an object already
      stored under its key leaves the contents alone; otherwise it is
      stored under its key. */
  function CreateStep(s: StoreState, sm: ServiceMonitor): (r: (Option<Error>, StoreState))
    ensures r.1.calls == s.calls + [CreateCall(sm)]
    ensures r.1.persisted == s.persisted && r.1.faults == s.faults
    ensures r.0.None? <==> s.faults.create.None? && Key(sm) !in s.monitors
    ensures r.0.None? ==> r.1.monitors == s.monitors[Key(sm) := sm]
    ensures r.0.Some? ==> r.1.monitors == s.monitors
    ensures s.faults.create.Some? ==> r.0 == s.faults.create
  {
    var s' := s.(calls := s.calls + [CreateCall(sm)]);
    if s.faults.create.Some? then (s.faults.create, s')
    else if Key(sm) in s.monitors then (Some(AlreadyExists), s')
    else (None, s'.(monitors := s.monitors[Key(sm) := sm]))
  }

  /** Writing the declaration back: a configured fault leaves the stored
      declaration alone; otherwise the given declaration becomes it. */
  function UpdateStep(s: StoreState, rm: RouteMonitor): (r: (Option<Error>, StoreState))
    ensures r.0 == s.faults.update
    ensures r.1.calls == s.calls + [UpdateCall(rm)]
    ensures r.1.monitors == s.monitors && r.1.faults == s.faults
    ensures r.1.persisted == if r.0.None? then Some(rm) else s.persisted
  {
    var s' := s.(calls := s.calls + [UpdateCall(rm)]);
    if s.faults.update.Some? then (s.faults.update, s')
    else (None, s'.(persisted := Some(rm)))
  }

  class Store {
    var monitors: map<NamespacedName, ServiceMonitor>
    var persisted: Option<RouteMonitor>
    var calls: seq<Call>
    var faults: Faults

    function State(): StoreState
      reads this
    {
      StoreState(monitors, persisted, calls, faults)
    }

    /** An empty store that answers with the given faults. */
    constructor (faults: Faults)
      ensures State() == StoreState(map[], None, [], faults)
    {
      monitors := map[];
      persisted := None;
      calls := [];
      this.faults := faults;
    }

    method Get(key: NamespacedName) returns (err: Option<Error>)
      modifies this
      ensures (err, State()) == GetStep(old(State()), key)
    {
      calls := calls + [GetCall(key)];
      if faults.get.Some? {
        err := faults.get;
      } else if key in monitors {
        err := None;
      } else {
        err := Some(NotFound);
      }
    }

    method Create(sm: ServiceMonitor) returns (err: Option<Error>)
      modifies this
      ensures (err, State()) == CreateStep(old(State()), sm)
    {
      calls := calls + [CreateCall(sm)];
      if faults.create.Some? {
        err := faults.create;
      } else if Key(sm) in monitors {
        err := Some(AlreadyExists);
      } else {
        monitors := monitors[Key(sm) := sm];
        err := None;
      }
    }

    method Update(rm: RouteMonitor) returns (err: Option<Error>)
      modifies this
      ensures (err, State()) == UpdateStep(old(State()), rm)
    {
      calls := calls + [UpdateCall(rm)];
      err := faults.update;
      if err.None? {
        persisted := Some(rm);
      }
    }
  }
}
