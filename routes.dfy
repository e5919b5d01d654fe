/**
 * Route synthesis: the TLS block follows a four-state termination machine
 * (unset, edge, reencrypt, passthrough) and the route targets the Service's
 * primary port by name.
 */
module Routes {
  import opened Wrappers
  import opened Text
  import opened Kube
  import opened Descriptor
  import opened Labels
  import opened Services

  /** The Route object the reconcile loop fetched; customize updates it in place. */
  class Route {
    var metadata: ObjectMeta
    var spec: RouteSpec

    /** `&routev1.Route{}`. */
    constructor ()
      ensures metadata == EmptyMeta
      ensures spec == RouteSpec("", "", RouteTargetReference("", "", None), None, None)
    {
      metadata := EmptyMeta;
      spec := RouteSpec("", "", RouteTargetReference("", "", None), None, None);
    }
  }

  /** Termination the descriptor asks for, if any. */
  function RequestedTermination(rc: RuntimeComponent): Option<Termination> {
    match rc.route
    case Some(rt) => rt.termination
    case None => None
  }

  /** The insecure-edge policy the descriptor asks for, if any. */
  function RequestedInsecurePolicy(rc: RuntimeComponent): Option<InsecureEdgeTerminationPolicy> {
    match rc.route
    case Some(rt) => rt.insecureEdgeTerminationPolicy
    case None => None
  }

  /**
   * The TLS block the route must carry, built afresh from the requested
   * termination and the certificate material (`key`, `crt`, `ca`,
   * `destCACert`) the caller read from the certificate secret. Nothing of a
   * previous TLS block is carried over.
   */
  function RouteTLS(rc: RuntimeComponent, key: string, crt: string, ca: string, destCACert: string): (tls: TLSConfig)
    ensures tls.termination == RequestedTermination(rc).GetOr(Reencrypt)
  {
    match RequestedTermination(rc)
    case None => TLSConfig(Reencrypt, "", "", "", "", None)
    case Some(Edge) => TLSConfig(Edge, crt, key, ca, "", RequestedInsecurePolicy(rc))
    case Some(Reencrypt) => TLSConfig(Reencrypt, crt, key, ca, destCACert, RequestedInsecurePolicy(rc))
    case Some(Passthrough) => TLSConfig(Passthrough, "", "", "", "", None)
  }

  /**
   * Which certificate material each termination may carry: passthrough none
   * at all, edge no destination CA.
   */
  predicate ConsistentTLS(tls: TLSConfig) {
    && (tls.termination == Passthrough ==>
          tls.certificate == "" && tls.key == "" && tls.caCertificate == ""
          && tls.destinationCACertificate == "" && tls.insecureEdgeTerminationPolicy.None?)
    && (tls.termination == Edge ==> tls.destinationCACertificate == "")
  }

  /** Annotations of the route sub-spec, none when it is absent. */
  function RouteAnnotations(rc: RuntimeComponent): map<string, string> {
    match rc.route
    case Some(rt) => rt.annotations
    case None => map[]
  }

  /** The route's target port: the Service's port name, else `"<port>-tcp"`. */
  function RouteTargetPort(rc: RuntimeComponent): IntOrString {
    StrVal(PrimaryPortName(rc.service))
  }

  /**
   * CustomizeRoute: labels and annotations merged in (the route sub-spec's
   * own annotations last), host and path copied when a route sub-spec is
   * given, the TLS block replaced by `RouteTLS`, and the route pointed at
   * the Service of the same name, weight 100, on the primary port's name.
   */
  method CustomizeRoute(route: Route, rc: RuntimeComponent, key: string, crt: string, ca: string, destCACert: string)
    modifies route
    ensures route.metadata == CustomizedMeta(old(route.metadata), rc, MergeMaps(rc.annotations, RouteAnnotations(rc)))
    ensures rc.route.Some? ==> route.spec.host == rc.route.value.host && route.spec.path == rc.route.value.path
    ensures rc.route.None? ==> route.spec.host == old(route.spec.host) && route.spec.path == old(route.spec.path)
    ensures route.spec.tls == Some(RouteTLS(rc, key, crt, ca, destCACert))
    ensures route.spec.to == RouteTargetReference("Service", rc.name, Some(100))
    ensures route.spec.port == Some(RoutePort(RouteTargetPort(rc)))
  {
    route.metadata := CustomizedMeta(route.metadata, rc, MergeMaps(rc.annotations, RouteAnnotations(rc)));
    var host, path := route.spec.host, route.spec.path;
    if rc.route.Some? {
      host, path := rc.route.value.host, rc.route.value.path;
    }
    route.spec := RouteSpec(host, path, RouteTargetReference("Service", rc.name, Some(100)),
                            Some(RoutePort(RouteTargetPort(rc))), Some(RouteTLS(rc, key, crt, ca, destCACert)));
  }

  // ---------------------------------------------------------------------
  // Properties of the termination state machine
  // ---------------------------------------------------------------------

  /** Every state the machine can reach carries only the material allowed in it. */
  lemma RouteTLSConsistent(rc: RuntimeComponent, key: string, crt: string, ca: string, destCACert: string)
    ensures ConsistentTLS(RouteTLS(rc, key, crt, ca, destCACert))
  {
  }

  /** With no termination requested the TLS block is exactly `{Termination: reencrypt}`. */
  lemma UnsetTerminationIsBareReencrypt(rc: RuntimeComponent, key: string, crt: string, ca: string, destCACert: string)
    requires RequestedTermination(rc).None?
    ensures RouteTLS(rc, key, crt, ca, destCACert) == TLSConfig(Reencrypt, "", "", "", "", None)
  {
  }

  /** Edge installs key, certificate and CA and leaves the destination CA empty. */
  lemma EdgeTLS(rc: RuntimeComponent, key: string, crt: string, ca: string, destCACert: string)
    requires RequestedTermination(rc) == Some(Edge)
    ensures var tls := RouteTLS(rc, key, crt, ca, destCACert);
            tls.key == key && tls.certificate == crt && tls.caCertificate == ca
            && tls.destinationCACertificate == ""
            && tls.insecureEdgeTerminationPolicy == RequestedInsecurePolicy(rc)
  {
  }

  /** Reencrypt installs key, certificate and CA and also the destination CA. */
  lemma ReencryptTLS(rc: RuntimeComponent, key: string, crt: string, ca: string, destCACert: string)
    requires RequestedTermination(rc) == Some(Reencrypt)
    ensures var tls := RouteTLS(rc, key, crt, ca, destCACert);
            tls.key == key && tls.certificate == crt && tls.caCertificate == ca
            && tls.destinationCACertificate == destCACert
            && tls.insecureEdgeTerminationPolicy == RequestedInsecurePolicy(rc)
  {
  }

  /** Passthrough clears all four pieces of certificate material. */
  lemma PassthroughTLS(rc: RuntimeComponent, key: string, crt: string, ca: string, destCACert: string)
    requires RequestedTermination(rc) == Some(Passthrough)
    ensures var tls := RouteTLS(rc, key, crt, ca, destCACert);
            tls.key == "" && tls.certificate == "" && tls.caCertificate == ""
            && tls.destinationCACertificate == ""
  {
  }

  /**
   * The route targets the Service's primary port: its target port is the
   * name the Service gives that port.
   */
  lemma RouteTargetsPrimaryServicePort(rc: RuntimeComponent)
    ensures RouteTargetPort(rc) == StrVal(DesiredPorts(rc.service)[0].name)
  {
  }

  /** The descriptor of the route test: ClusterIP on 8443, with the given route sub-spec and port name. */
  function RouteTestComponent(route: Option<RuntimeComponentRoute>, portName: string): RuntimeComponent {
    NewRuntimeComponent("my-app", "runtime", map["key1" := "value1"],
                        RuntimeComponentService(ClusterIP, 8443, None, None, portName, []))
      .(annotations := map["key2" := "value2"], route := route)
  }

  /**
   * The sequence of the unit test: no route sub-spec, then edge, reencrypt
   * and passthrough. Each step's TLS block and target port are the ones the
   * state machine prescribes; nothing depends on the step before.
   */
  lemma RouteTerminationScenario()
    ensures var rc := RouteTestComponent(None, "");
            && RouteTLS(rc, "", "", "", "") == TLSConfig(Reencrypt, "", "", "", "", None)
            && RouteTargetPort(rc) == StrVal("8443-tcp")
    ensures var rc := RouteTestComponent(Some(RuntimeComponentRoute(map[], "routeHost", "routePath", Some(Edge), Some(PolicyNone))), "");
            RouteTLS(rc, "key", "crt", "ca", "destCACert") == TLSConfig(Edge, "crt", "key", "ca", "", Some(PolicyNone))
    ensures var rc := RouteTestComponent(Some(RuntimeComponentRoute(map[], "", "", Some(Reencrypt), Some(PolicyNone))), "");
            && RouteTLS(rc, "key", "crt", "ca", "destCACert") == TLSConfig(Reencrypt, "crt", "key", "ca", "destCACert", Some(PolicyNone))
            && RouteTargetPort(rc) == StrVal("8443-tcp")
    ensures var rc := RouteTestComponent(Some(RuntimeComponentRoute(map[], "", "", Some(Passthrough), None)), "myservice");
            && RouteTLS(rc, "key", "crt", "ca", "destCACert") == TLSConfig(Passthrough, "", "", "", "", None)
            && RouteTargetPort(rc) == StrVal("myservice")
  {
    assert IntToString(8443) == "8443";
  }

  /**
   * The metadata a fresh route receives in the same test: the instance
   * label is the descriptor's name and the annotations are exactly the
   * descriptor's, as no route sub-spec adds any.
   */
  lemma RouteMetadataScenario()
    ensures var m := CustomizedMeta(EmptyMeta, RouteTestComponent(None, ""),
                                    MergeMaps(map["key2" := "value2"], RouteAnnotations(RouteTestComponent(None, ""))));
            && m.labels[InstanceKey] == "my-app"
            && m.annotations == map["key2" := "value2"]
  {
    CustomizedMetaIdentity(EmptyMeta, RouteTestComponent(None, ""), map["key2" := "value2"]);
  }
}
