/**
 * Service synthesis: the port list is rebuilt from the descriptor on every
 * reconcile, the primary port first and the additional ports after it.
 */
module Services {
  import opened Wrappers
  import opened Text
  import opened Kube
  import opened Descriptor
  import opened Labels

  /** The Service object the reconcile loop fetched; customize updates it in place. */
  class Service {
    var metadata: ObjectMeta
    var spec: ServiceSpec

    /** `&corev1.Service{}`. */
    constructor ()
      ensures metadata == EmptyMeta && spec == ServiceSpec(ClusterIP, map[], [])
    {
      metadata, spec := EmptyMeta, ServiceSpec(ClusterIP, map[], []);
    }
  }

  /** The name given to a port that has none: `"<port>-tcp"`. */
  function DefaultPortName(port: int): string {
    IntToString(port) + "-tcp"
  }

  /** Name of the primary port: `spec.service.portName`, else `"<port>-tcp"`. */
  function PrimaryPortName(s: RuntimeComponentService): string {
    if s.portName != "" then s.portName else DefaultPortName(s.port)
  }

  /** The port the application listens on: the target port, else the service port. */
  function ResolvedTargetPort(s: RuntimeComponentService): int {
    s.targetPort.GetOr(s.port)
  }

  /** Node port requested for a port of a Service of type `t`; zero lets the platform choose. */
  function NodePortFor(t: ServiceType, requested: int): int {
    if t == NodePort then requested else 0
  }

  /** The primary port entry, rebuilt from `port`, `targetPort`, `nodePort` and `portName`. */
  function PrimaryPort(s: RuntimeComponentService): ServicePort {
    ServicePort(PrimaryPortName(s), s.port, IntVal(ResolvedTargetPort(s)),
                NodePortFor(s.serviceType, s.nodePort.GetOr(0)))
  }

  /** An additional port's target port counts as unset when it is the zero value. */
  predicate TargetPortUnset(t: IntOrString) {
    t == IntVal(0) || t == StrVal("")
  }

  /** One entry of `spec.service.ports`, normalised. */
  function AdditionalPort(t: ServiceType, p: ServicePort): ServicePort {
    ServicePort(if p.name != "" then p.name else DefaultPortName(p.port),
                p.port,
                if TargetPortUnset(p.targetPort) then IntVal(p.port) else p.targetPort,
                NodePortFor(t, p.nodePort))
  }

  /** The full port list the Service must carry. */
  function DesiredPorts(s: RuntimeComponentService): seq<ServicePort> {
    [PrimaryPort(s)] + seq(|s.ports|, i requires 0 <= i < |s.ports| => AdditionalPort(s.serviceType, s.ports[i]))
  }

  /**
   * Builds the port list into a fresh sequence: the primary port, then each
   * additional port in descriptor order.
   */
  method BuildPorts(s: RuntimeComponentService) returns (ports: seq<ServicePort>)
    ensures |ports| == |s.ports| + 1
    ensures ports[0] == PrimaryPort(s)
    ensures forall i :: 0 <= i < |s.ports| ==> ports[i + 1] == AdditionalPort(s.serviceType, s.ports[i])
    ensures ports == DesiredPorts(s)
  {
    ports := [PrimaryPort(s)];
    var i := 0;
    while i < |s.ports|
      invariant 0 <= i <= |s.ports|
      invariant |ports| == i + 1 && ports[0] == PrimaryPort(s)
      invariant forall k :: 0 <= k < i ==> ports[k + 1] == AdditionalPort(s.serviceType, s.ports[k])
    {
      ports := ports + [AdditionalPort(s.serviceType, s.ports[i])];
      i := i + 1;
    }
  }

  /**
   * CustomizeService: labels and annotations are merged in, the type and the
   * instance selector are set, and the whole port list is replaced, so a port
   * removed from the descriptor disappears from the Service.
   */
  method CustomizeService(svc: Service, rc: RuntimeComponent)
    modifies svc
    ensures svc.metadata == CustomizedMeta(old(svc.metadata), rc, rc.annotations)
    ensures svc.spec == ServiceSpec(rc.service.serviceType, SelectorLabels(rc), DesiredPorts(rc.service))
  {
    svc.metadata := CustomizedMeta(svc.metadata, rc, rc.annotations);
    var ports := BuildPorts(rc.service);
    svc.spec := ServiceSpec(rc.service.serviceType, SelectorLabels(rc), ports);
  }

  // ---------------------------------------------------------------------
  // Properties
  // ---------------------------------------------------------------------

  /**
   * The Service has one port per additional port plus the primary one, and
   * the list depends on the descriptor alone: whatever ports the Service
   * carried before, none survives unless the descriptor still names it.
   */
  lemma DesiredPortsShape(s: RuntimeComponentService)
    ensures |DesiredPorts(s)| == |s.ports| + 1
    ensures DesiredPorts(s)[0].port == s.port
    ensures forall i :: 0 <= i < |s.ports| ==> DesiredPorts(s)[i + 1].port == s.ports[i].port
  {
  }

  /**
   * Primary port defaults: the target port is the service port unless one is
   * given, and the node port is zero unless the Service is of type NodePort
   * and the descriptor gives one.
   */
  lemma PrimaryPortDefaults(s: RuntimeComponentService)
    ensures PrimaryPort(s).targetPort == IntVal(if s.targetPort.Some? then s.targetPort.value else s.port)
    ensures s.nodePort.None? || s.serviceType != NodePort ==> PrimaryPort(s).nodePort == 0
    ensures s.nodePort.Some? && s.serviceType == NodePort ==> PrimaryPort(s).nodePort == s.nodePort.value
  {
  }

  /**
   * A default port name is `"<digits>-tcp"`, and reading the digits back
   * gives the port number.
   */
  lemma DefaultPortNameReadsBack(port: int)
    ensures var n := DefaultPortName(port);
            HasSuffix(n, "-tcp")
            && var digits := n[..|n| - 4];
               ((|digits| > 0 && digits[0] == '-' && AllDigits(digits[1..])) || AllDigits(digits))
               && ParseInt(digits) == port
  {
    var n := DefaultPortName(port);
    assert n[..|n| - 4] == IntToString(port);
    ParseIntToString(port);
  }

  /** Two unnamed ports with different numbers never share a name. */
  lemma DefaultPortNamesDistinct(p: int, q: int)
    requires p != q
    ensures DefaultPortName(p) != DefaultPortName(q)
  {
    if DefaultPortName(p) == DefaultPortName(q) {
      DefaultPortNameReadsBack(p);
      DefaultPortNameReadsBack(q);
    }
  }

  /**
   * Additional ports keep their number, take `"<port>-tcp"` when unnamed,
   * default the target port to the port, and get a node port only on a
   * NodePort Service.
   */
  lemma AdditionalPortNormalised(t: ServiceType, p: ServicePort)
    ensures AdditionalPort(t, p).port == p.port
    ensures p.name == "" ==> AdditionalPort(t, p).name == IntToString(p.port) + "-tcp"
    ensures p.name != "" ==> AdditionalPort(t, p).name == p.name
    ensures TargetPortUnset(p.targetPort) ==> AdditionalPort(t, p).targetPort == IntVal(p.port)
    ensures t != NodePort ==> AdditionalPort(t, p).nodePort == 0
  {
  }

  /**
   * Unnamed additional ports with distinct numbers get distinct names, so
   * the synthesized names never collide among themselves.
   */
  lemma UnnamedAdditionalPortsDistinct(s: RuntimeComponentService, i: nat, j: nat)
    requires i < j < |s.ports|
    requires s.ports[i].name == "" && s.ports[j].name == ""
    requires s.ports[i].port != s.ports[j].port
    ensures DesiredPorts(s)[i + 1].name != DesiredPorts(s)[j + 1].name
  {
    DefaultPortNamesDistinct(s.ports[i].port, s.ports[j].port);
  }

  // ---------------------------------------------------------------------
  // The scenarios of the unit tests
  // ---------------------------------------------------------------------

  /** `service` of the tests: ClusterIP on 8443. */
  function TestService(): RuntimeComponentService {
    RuntimeComponentService(ClusterIP, 8443, None, None, "", [])
  }

  /** The two additional ports of the tests: a named one and an unnamed one on 3333. */
  function TestAdditionalPorts(): seq<ServicePort> {
    [ServicePort("https", 9080, IntVal(9000), 0), ServicePort("", 3333, IntVal(0), 0)]
  }

  /**
   * With no target port the primary port targets itself and has no node
   * port. The service test runs after the route test has set the shared
   * Service's port name to `myservice`, so there the primary port carries
   * that name; without a port name it is `8443-tcp`.
   */
  lemma PrimaryPortScenario()
    ensures DesiredPorts(TestService()) == [ServicePort("8443-tcp", 8443, IntVal(8443), 0)]
    ensures DesiredPorts(TestService().(portName := "myservice")) == [ServicePort("myservice", 8443, IntVal(8443), 0)]
  {
    var s := TestService();
    assert IntToString(8443) == "8443";
    assert PrimaryPort(s) == ServicePort("8443-tcp", 8443, IntVal(8443), 0);
    assert DesiredPorts(s) == [PrimaryPort(s)] + [];
  }

  /** An explicit target port and an explicit node port on a NodePort Service are used. */
  lemma TargetAndNodePortScenario()
    ensures DesiredPorts(TestService().(targetPort := Some(3333)))[0].targetPort == IntVal(3333)
    ensures DesiredPorts(TestService().(serviceType := NodePort, nodePort := Some(3011)))[0].nodePort == 3011
  {
  }

  /**
   * Two additional ports give three Service ports; the unnamed one is named
   * `"3333-tcp"`. Dropping the last additional port and switching to
   * NodePort gives two ports, the first additional one carrying its node
   * port; dropping all of them leaves the primary port alone.
   */
  lemma AdditionalPortsScenario()
    ensures var ps := DesiredPorts(TestService().(ports := TestAdditionalPorts()));
            |ps| == 3
            && ps[1] == ServicePort("https", 9080, IntVal(9000), 0)
            && ps[2] == ServicePort("3333-tcp", 3333, IntVal(3333), 0)
    ensures var ps := DesiredPorts(TestService().(serviceType := NodePort,
                                                  ports := [TestAdditionalPorts()[0].(nodePort := 3000)]));
            |ps| == 2 && ps[1].nodePort == 3000 && ps[0].nodePort == 0
    ensures |DesiredPorts(TestService().(ports := []))| == 1
  {
    assert IntToString(3333) == "3333";
  }

  /**
   * What the second block of the additional-ports test expects, as written:
   * two ports, the node port 3000 on the first one.
   */
  predicate SecondReconcileExpectationAsWritten(ps: seq<ServicePort>) {
    |ps| == 2 && ps[0].nodePort == 3000
  }

  /** The same expectation with the node port on the port that was given it. */
  predicate SecondReconcileExpectationIntended(ps: seq<ServicePort>) {
    |ps| == 2 && ps[1].nodePort == 3000
  }

  /** The descriptor of that block: NodePort, one additional port carrying node port 3000. */
  function SecondReconcileService(): RuntimeComponentService {
    TestService().(serviceType := NodePort, ports := [TestAdditionalPorts()[0].(nodePort := 3000)])
  }

  /**
   * The expectation as written cannot hold: the node port 3000 was put on
   * the first additional port, which is the Service's second port, and the
   * primary port has no node port of its own.
   */
  lemma SecondReconcileAsWrittenFails()
    ensures !SecondReconcileExpectationAsWritten(DesiredPorts(SecondReconcileService()))
  {
  }

  /** The intended expectation holds. */
  lemma SecondReconcileIntendedHolds()
    ensures SecondReconcileExpectationIntended(DesiredPorts(SecondReconcileService()))
  {
  }

  /**
   * The additional-ports sequence of the unit tests on one Service object:
   * three ports, then two after the descriptor drops one, then the primary
   * port alone. No port of an earlier reconcile survives.
   */
  method AdditionalPortsReconcileScenario()
  {
    var svc := new Service();
    var rc := NewRuntimeComponent("my-app", "runtime", map["key1" := "value1"],
                                  TestService().(ports := TestAdditionalPorts()));
    CustomizeService(svc, rc);
    DesiredPortsShape(rc.service);
    assert |svc.spec.ports| == 3;

    rc := rc.(service := SecondReconcileService());
    CustomizeService(svc, rc);
    SecondReconcileIntendedHolds();
    assert |svc.spec.ports| == 2 && svc.spec.ports[1].nodePort == 3000;
    assert svc.spec.serviceType == NodePort;

    rc := rc.(service := rc.service.(ports := []));
    CustomizeService(svc, rc);
    DesiredPortsShape(rc.service);
    assert |svc.spec.ports| == 1;
    assert svc.spec.selector[InstanceKey] == "my-app";
  }
}
