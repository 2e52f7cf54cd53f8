/** The resources the adder reads and writes: the route monitor declaration,
    the ServiceMonitor derived from it, the finalizer helpers and the two
    templates that name and build the ServiceMonitor. */
module Resources {

  /** The retraction marker this operator owns. */
  const FinalizerKey: string := "routemonitor.routemonitoroperator.monitoring.openshift.io/finalizer"

  /** The namespace every ServiceMonitor of this operator lives in. */
  const MonitoringNamespace: string := "openshift-monitoring"

  /** A store key: the name and namespace of an object. */
  datatype NamespacedName = NamespacedName(name: string, namespace: string)

  /** A route monitor declaration, reduced to the fields the adder reads or
      writes: its identity, `Status.RouteURL` and `ObjectMeta.Finalizers`. */
  datatype RouteMonitor = RouteMonitor(
    name: string,
    namespace: string,
    routeURL: string,
    finalizers: seq<string>)

  /** A ServiceMonitor, reduced to its identity and the URL it probes. */
  datatype ServiceMonitor = ServiceMonitor(name: string, namespace: string, targetURL: string)

  /** The key under which a ServiceMonitor is stored. */
  function Key(sm: ServiceMonitor): NamespacedName {
    NamespacedName(sm.name, sm.namespace)
  }

  /** Whether the declaration carries the retraction marker. */
  predicate HasFinalizer(rm: RouteMonitor) {
    FinalizerKey in rm.finalizers
  }

  /** Adds a finalizer to a finalizer list unless it is already there. */
  function AddFinalizer(finalizers: seq<string>, key: string): (r: seq<string>)
    ensures key in r
    ensures |finalizers| <= |r| <= |finalizers| + 1 && r[..|finalizers|] == finalizers
    ensures forall f :: f in r ==> f in finalizers || f == key
    ensures key in finalizers ==> r == finalizers
  {
    if key in finalizers then finalizers else finalizers + [key]
  }

  /** The declaration with the retraction marker added. */
  function WithFinalizer(rm: RouteMonitor): (r: RouteMonitor)
    ensures HasFinalizer(r)
    ensures |rm.finalizers| <= |r.finalizers| <= |rm.finalizers| + 1
    ensures r.finalizers[..|rm.finalizers|] == rm.finalizers
    ensures r.name == rm.name && r.namespace == rm.namespace && r.routeURL == rm.routeURL
    ensures HasFinalizer(rm) ==> r == rm
  {
    rm.(finalizers := AddFinalizer(rm.finalizers, FinalizerKey))
  }

  /** The key of the ServiceMonitor that belongs to a declaration: a pure
      function of the declaration's namespace and name. */
  function ServiceMonitorName(namespace: string, name: string): (k: NamespacedName)
    ensures k.namespace == MonitoringNamespace
  {
    NamespacedName(name + "-" + namespace, MonitoringNamespace)
  }

  /** The ServiceMonitor body built for a route URL under a given name. */
  function ServiceMonitorResource(routeURL: string, name: string): (sm: ServiceMonitor)
    ensures Key(sm) == NamespacedName(name, MonitoringNamespace)
  {
    ServiceMonitor(name, MonitoringNamespace, routeURL)
  }

  /** The ServiceMonitor built from a declaration's derived name is stored
      under exactly the key the adder looks it up by. */
  lemma ResourceStoredUnderItsName(routeURL: string, namespace: string, name: string)
    ensures Key(ServiceMonitorResource(routeURL, ServiceMonitorName(namespace, name).name))
         == ServiceMonitorName(namespace, name)
  {
  }
}
