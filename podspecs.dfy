/**
 * Pod template synthesis: the application container (image, port, security
 * context, probes, volume mounts), the service account, the affinity and
 * the workload annotations of the pod template.
 */
module PodSpecs {
  import opened Wrappers
  import opened Kube
  import opened Descriptor
  import opened Labels
  import opened Services
  import opened Affinities

  /** The pod template of the Deployment or StatefulSet; customize updates it in place. */
  class PodTemplate {
    var metadata: ObjectMeta
    var spec: PodSpec

    /** `&corev1.PodTemplateSpec{}`. */
    constructor ()
      ensures metadata == EmptyMeta && spec == EmptyPodTemplateSpec.spec
    {
      metadata := EmptyMeta;
      spec := EmptyPodTemplateSpec.spec;
    }
  }

  // ---------------------------------------------------------------------
  // Probes
  // ---------------------------------------------------------------------

  datatype ProbeKind = Readiness | Liveness | Startup

  /** The health endpoint each default probe polls. */
  function ProbePath(k: ProbeKind): string {
    match k
    case Readiness => "/health/ready"
    case Liveness => "/health/live"
    case Startup => "/health/started"
  }

  function DefaultInitialDelay(k: ProbeKind): int {
    match k
    case Readiness => 10
    case Liveness => 60
    case Startup => 0
  }

  function DefaultFailureThreshold(k: ProbeKind): int {
    match k
    case Readiness => 10
    case Liveness => 3
    case Startup => 20
  }

  const DefaultProbeTimeout := 2
  const DefaultProbePeriod := 10

  /**
   * The default probe of a kind: an HTTPS GET on the kind's health path at
   * the Service's port (not its target port), with the kind's delay and
   * threshold.
   */
  function DefaultProbe(rc: RuntimeComponent, k: ProbeKind): Probe {
    Probe(Handler(None, Some(HTTPGetAction(ProbePath(k), IntVal(rc.service.port), "HTTPS")), None),
          DefaultInitialDelay(k), DefaultProbeTimeout, DefaultProbePeriod, 0, DefaultFailureThreshold(k))
  }

  /** The probe the descriptor gives for a kind, if any. */
  function RequestedProbe(rc: RuntimeComponent, k: ProbeKind): Option<Probe> {
    match rc.probes
    case None => None
    case Some(ps) =>
      match k
      case Readiness => ps.readiness
      case Liveness => ps.liveness
      case Startup => ps.startup
  }

  /** The probe the container gets: none, the default for an empty probe, else the given one. */
  function ResolvedProbe(rc: RuntimeComponent, k: ProbeKind): Option<Probe> {
    match RequestedProbe(rc, k)
    case None => None
    case Some(p) => if p == EmptyProbe then Some(DefaultProbe(rc, k)) else Some(p)
  }

  // ---------------------------------------------------------------------
  // Security context, annotations, service account
  // ---------------------------------------------------------------------

  /** The restricted context every container gets unless the descriptor gives one. */
  const DefaultSecurityContext := SecurityContext(
    Some(Capabilities([], ["ALL"])), Some(false), Some(true), Some(false), Some(false))

  function ResolvedSecurityContext(rc: RuntimeComponent): SecurityContext {
    rc.securityContext.GetOr(DefaultSecurityContext)
  }

  /** The workload's own annotations: the StatefulSet's when it is set, else the Deployment's. */
  function WorkloadAnnotations(rc: RuntimeComponent): map<string, string> {
    match (rc.statefulSet, rc.deployment)
    case (Some(ss), _) => ss.annotations
    case (None, Some(d)) => d.annotations
    case (None, None) => map[]
  }

  /** Annotations of the pod template: the descriptor's, then the workload's. */
  function PodAnnotations(rc: RuntimeComponent): map<string, string> {
    MergeMaps(rc.annotations, WorkloadAnnotations(rc))
  }

  /** The service account the pods run as: the one given, else the descriptor's name. */
  function ServiceAccountFor(rc: RuntimeComponent): string {
    rc.serviceAccountName.GetOr(rc.name)
  }

  // ---------------------------------------------------------------------
  // The pod spec
  // ---------------------------------------------------------------------

  /** The application container. */
  function AppContainer(rc: RuntimeComponent): Container {
    Container(rc.applicationImage, [ContainerPort(ResolvedTargetPort(rc.service))],
              Some(ResolvedSecurityContext(rc)),
              ResolvedProbe(rc, Readiness), ResolvedProbe(rc, Liveness), ResolvedProbe(rc, Startup),
              rc.volumeMounts)
  }

  /** The affinity of the pods: composed afresh when the descriptor has an affinity sub-spec, else kept. */
  function PodAffinityFor(current: Option<Affinity>, rc: RuntimeComponent): Option<Affinity> {
    if rc.affinity.Some? then Some(ComposedAffinity(rc.affinity.value)) else current
  }

  /** The pod spec after customization. */
  function CustomizedPodSpec(current: PodSpec, rc: RuntimeComponent): PodSpec {
    PodSpec([AppContainer(rc)], ServiceAccountFor(rc), PodAffinityFor(current.affinity, rc))
  }

  /**
   * CustomizePodSpec: labels and annotations merged into the template's
   * metadata, and the pod spec rebuilt from the descriptor.
   */
  method CustomizePodSpec(pts: PodTemplate, rc: RuntimeComponent)
    modifies pts
    ensures pts.metadata == CustomizedMeta(old(pts.metadata), rc, PodAnnotations(rc))
    ensures pts.spec == CustomizedPodSpec(old(pts.spec), rc)
  {
    pts.metadata := CustomizedMeta(pts.metadata, rc, PodAnnotations(rc));
    var affinity := pts.spec.affinity;
    if rc.affinity.Some? {
      var composed := CustomizeAffinity(rc);
      affinity := Some(composed);
    }
    pts.spec := PodSpec([AppContainer(rc)], ServiceAccountFor(rc), affinity);
  }

  // ---------------------------------------------------------------------
  // Properties
  // ---------------------------------------------------------------------

  /**
   * The three ways a probe slot resolves: left unset, an empty probe asking
   * for the default, or a user probe used verbatim.
   */
  lemma ProbeResolution(rc: RuntimeComponent, k: ProbeKind)
    ensures RequestedProbe(rc, k).None? <==> ResolvedProbe(rc, k).None?
    ensures RequestedProbe(rc, k) == Some(EmptyProbe) ==> ResolvedProbe(rc, k) == Some(DefaultProbe(rc, k))
    ensures RequestedProbe(rc, k).Some? && RequestedProbe(rc, k) != Some(EmptyProbe)
            ==> ResolvedProbe(rc, k) == RequestedProbe(rc, k)
  {
  }

  /**
   * Every default probe polls its own health path over HTTPS on the
   * Service's port, times out after 2 seconds and runs every 10, with no
   * success threshold of its own. Readiness waits 10 seconds and tolerates
   * 10 failures, liveness 60 and 3, startup 0 and 20. No default is the
   * empty probe, so defaulting never has to be repeated.
   */
  lemma DefaultProbeShape(rc: RuntimeComponent, k: ProbeKind)
    ensures var p := DefaultProbe(rc, k);
            && p.handler.httpGet == Some(HTTPGetAction(ProbePath(k), IntVal(rc.service.port), "HTTPS"))
            && p.handler.exec.None? && p.handler.tcpSocket.None?
            && p.timeoutSeconds == 2 && p.periodSeconds == 10
            && p.successThreshold == 0
            && p != EmptyProbe
    ensures var p := DefaultProbe(rc, k);
            && (k == Readiness ==> p.initialDelaySeconds == 10 && p.failureThreshold == 10)
            && (k == Liveness ==> p.initialDelaySeconds == 60 && p.failureThreshold == 3)
            && (k == Startup ==> p.initialDelaySeconds == 0 && p.failureThreshold == 20)
    ensures forall j: ProbeKind :: j != k ==> ProbePath(j) != ProbePath(k)
  {
  }

  /** The default context drops every capability, forbids privilege and runs as non-root; a given one replaces it whole. */
  lemma SecurityContextResolution(rc: RuntimeComponent)
    ensures rc.securityContext.Some? ==> ResolvedSecurityContext(rc) == rc.securityContext.value
    ensures rc.securityContext.None? ==>
              var c := ResolvedSecurityContext(rc);
              && c.capabilities == Some(Capabilities([], ["ALL"]))
              && c.privileged == Some(false) && c.allowPrivilegeEscalation == Some(false)
              && c.runAsNonRoot == Some(true) && c.readOnlyRootFilesystem == Some(false)
  {
  }

  /**
   * The pod template carries the workload's annotations: the StatefulSet's
   * take precedence over the Deployment's, and the descriptor's own
   * annotations come through where neither overrides them.
   */
  lemma PodAnnotationsPrecedence(rc: RuntimeComponent)
    ensures rc.statefulSet.Some? ==> WorkloadAnnotations(rc) == rc.statefulSet.value.annotations
    ensures rc.statefulSet.None? && rc.deployment.Some? ==> WorkloadAnnotations(rc) == rc.deployment.value.annotations
    ensures rc.statefulSet.None? && rc.deployment.None? ==> PodAnnotations(rc) == rc.annotations
    ensures forall k :: k in WorkloadAnnotations(rc) ==> k in PodAnnotations(rc) && PodAnnotations(rc)[k] == WorkloadAnnotations(rc)[k]
    ensures forall k :: k in rc.annotations && k !in WorkloadAnnotations(rc) ==> PodAnnotations(rc)[k] == rc.annotations[k]
  {
  }

  /**
   * The pod spec holds exactly one container, exposing the Service's
   * target port, running as the chosen service account.
   */
  lemma PodSpecShape(current: PodSpec, rc: RuntimeComponent)
    ensures var s := CustomizedPodSpec(current, rc);
            && |s.containers| == 1 && |s.containers[0].ports| == 1
            && s.containers[0].ports[0].containerPort == (if rc.service.targetPort.Some? then rc.service.targetPort.value else rc.service.port)
            && s.containers[0].image == rc.applicationImage
            && s.containers[0].volumeMounts == rc.volumeMounts
            && (rc.serviceAccountName.None? ==> s.serviceAccountName == rc.name)
            && (rc.serviceAccountName.Some? ==> s.serviceAccountName == rc.serviceAccountName.value)
  {
  }

  /** Customizing the pod spec a second time with the same descriptor changes nothing. */
  lemma CustomizedPodSpecIdempotent(current: PodSpec, rc: RuntimeComponent)
    ensures CustomizedPodSpec(CustomizedPodSpec(current, rc), rc) == CustomizedPodSpec(current, rc)
  {
  }

  /** Customizing the template's metadata a second time with the same descriptor changes nothing. */
  lemma CustomizedMetaIdempotent(meta: ObjectMeta, rc: RuntimeComponent)
    ensures CustomizedMeta(CustomizedMeta(meta, rc, PodAnnotations(rc)), rc, PodAnnotations(rc))
            == CustomizedMeta(meta, rc, PodAnnotations(rc))
  {
    MergeMapsIdempotent(meta.labels, ComponentLabels(rc));
    MergeMapsIdempotent(meta.annotations, PodAnnotations(rc));
  }

  // ---------------------------------------------------------------------
  // The scenarios of the unit tests
  // ---------------------------------------------------------------------

  /** The descriptor shared by the pod tests: image `my-image`, ClusterIP on 8443. */
  function PodTestComponent(): RuntimeComponent {
    NewRuntimeComponent("my-app", "runtime", map["key1" := "value1"], TestService())
      .(applicationImage := "my-image")
  }

  /**
   * The annotation test: with neither workload sub-spec the template has no
   * annotation; with the Deployment's only, `depAnno`; with the StatefulSet's,
   * alone or beside the Deployment's, `setAnno` only.
   */
  lemma PodAnnotationsScenario()
    ensures CustomizedMeta(EmptyMeta, PodTestComponent(), PodAnnotations(PodTestComponent())).annotations == map[]
    ensures var rc := PodTestComponent().(deployment := Some(RuntimeComponentDeployment(map["depAnno" := "depAnno"])));
            CustomizedMeta(EmptyMeta, rc, PodAnnotations(rc)).annotations == map["depAnno" := "depAnno"]
    ensures var rc := PodTestComponent().(statefulSet := Some(RuntimeComponentStatefulSet(map["setAnno" := "setAnno"], None)));
            CustomizedMeta(EmptyMeta, rc, PodAnnotations(rc)).annotations == map["setAnno" := "setAnno"]
    ensures var rc := PodTestComponent().(deployment := Some(RuntimeComponentDeployment(map["depAnno" := "depAnno"])),
                                          statefulSet := Some(RuntimeComponentStatefulSet(map["setAnno" := "setAnno"], None)));
            CustomizedMeta(EmptyMeta, rc, PodAnnotations(rc)).annotations == map["setAnno" := "setAnno"]
  {
  }

  /**
   * The probe test: no probes sub-spec leaves all three unset, empty probes
   * give the three defaults, and the user's probes are used as given.
   */
  lemma ProbesScenario(custom: Probe)
    requires custom != EmptyProbe
    ensures var s := CustomizedPodSpec(EmptyPodTemplateSpec.spec, PodTestComponent());
            s.containers[0].readinessProbe.None? && s.containers[0].livenessProbe.None? && s.containers[0].startupProbe.None?
    ensures var rc := PodTestComponent().(probes := Some(RuntimeComponentProbes(Some(EmptyProbe), Some(EmptyProbe), Some(EmptyProbe))));
            var c := CustomizedPodSpec(EmptyPodTemplateSpec.spec, rc).containers[0];
            && c.readinessProbe == Some(Probe(Handler(None, Some(HTTPGetAction("/health/ready", IntVal(8443), "HTTPS")), None), 10, 2, 10, 0, 10))
            && c.livenessProbe == Some(Probe(Handler(None, Some(HTTPGetAction("/health/live", IntVal(8443), "HTTPS")), None), 60, 2, 10, 0, 3))
            && c.startupProbe == Some(Probe(Handler(None, Some(HTTPGetAction("/health/started", IntVal(8443), "HTTPS")), None), 0, 2, 10, 0, 20))
    ensures var rc := PodTestComponent().(probes := Some(RuntimeComponentProbes(Some(custom), Some(custom), Some(custom))));
            var c := CustomizedPodSpec(EmptyPodTemplateSpec.spec, rc).containers[0];
            c.readinessProbe == Some(custom) && c.livenessProbe == Some(custom) && c.startupProbe == Some(custom)
  {
  }

  /**
   * The pod-spec test, whose shared Service sub-spec carries target port
   * 3333 by then: one container with one port 3333, the service account
   * defaulting to `my-app` and then taking the given one, the default and
   * then the given security context, and the architecture `ppc64le` in the
   * required and the weight-1 preferred node affinity.
   */
  lemma PodSpecScenario(custom: SecurityContext)
    ensures var rc := PodTestComponent().(service := TestService().(targetPort := Some(3333)),
                                          affinity := Some(RuntimeComponentAffinity(None, None, None, ["ppc64le"], [])));
            var s1 := CustomizedPodSpec(EmptyPodTemplateSpec.spec, rc);
            var s2 := CustomizedPodSpec(s1, rc.(serviceAccountName := Some("service-account"), securityContext := Some(custom)));
            && |s1.containers| == 1 && |s1.containers[0].ports| == 1
            && s1.serviceAccountName == "my-app"
            && s2.serviceAccountName == "service-account"
            && s1.containers[0].securityContext == Some(DefaultSecurityContext)
            && s2.containers[0].securityContext == Some(custom)
            && s2.affinity.value.nodeAffinity.value.requiredDuringScheduling.value.nodeSelectorTerms[0].matchExpressions[0].values[0] == "ppc64le"
            && s2.affinity.value.nodeAffinity.value.preferredDuringScheduling[0].weight == 1
            && s2.affinity.value.nodeAffinity.value.preferredDuringScheduling[0].preference.matchExpressions[0].values[0] == "ppc64le"
            && s2.containers[0].ports[0].containerPort == 3333
  {
  }
}
