/**
 * The platform's native record types that the customize engine reads and
 * writes, cut down to the fields the engine touches. Field names follow the
 * platform schema (meta/v1, core/v1, apps/v1, autoscaling/v1, route/v1).
 * Each object is split, as on the platform, into its `metadata` and its
 * `spec`; both are plain values, and the objects that the engine updates in
 * place are classes holding them (see the Services, Routes, PodSpecs,
 * Persistence and Autoscaling modules).
 */
module Kube {
  import opened Wrappers

  /** `metav1.ObjectMeta`: identity and the two string maps. */
  datatype ObjectMeta = ObjectMeta(
    name: string,
    namespace: string,
    labels: map<string, string>,
    annotations: map<string, string>)

  /** The metadata of an object created with no field set. */
  const EmptyMeta := ObjectMeta("", "", map[], map[])

  /** `intstr.IntOrString`: a port given by number or by name. */
  datatype IntOrString = IntVal(intVal: int) | StrVal(strVal: string)

  // ----- services -----

  datatype ServiceType = ClusterIP | NodePort | LoadBalancer | ExternalName

  /** `corev1.ServicePort`. */
  datatype ServicePort = ServicePort(name: string, port: int, targetPort: IntOrString, nodePort: int)

  /** `corev1.ServiceSpec`. */
  datatype ServiceSpec = ServiceSpec(serviceType: ServiceType, selector: map<string, string>, ports: seq<ServicePort>)

  // ----- routes -----

  datatype Termination = Edge | Reencrypt | Passthrough

  datatype InsecureEdgeTerminationPolicy = PolicyNone | PolicyAllow | PolicyRedirect

  /** `routev1.TLSConfig`. */
  datatype TLSConfig = TLSConfig(
    termination: Termination,
    certificate: string,
    key: string,
    caCertificate: string,
    destinationCACertificate: string,
    insecureEdgeTerminationPolicy: Option<InsecureEdgeTerminationPolicy>)

  /** `routev1.RouteTargetReference`. */
  datatype RouteTargetReference = RouteTargetReference(kind: string, name: string, weight: Option<int>)

  /** `routev1.RoutePort`. */
  datatype RoutePort = RoutePort(targetPort: IntOrString)

  /** `routev1.RouteSpec`. */
  datatype RouteSpec = RouteSpec(
    host: string,
    path: string,
    to: RouteTargetReference,
    port: Option<RoutePort>,
    tls: Option<TLSConfig>)

  // ----- probes -----

  datatype HTTPGetAction = HTTPGetAction(path: string, port: IntOrString, scheme: string)
  datatype TCPSocketAction = TCPSocketAction(port: IntOrString)
  datatype ExecAction = ExecAction(command: seq<string>)

  datatype Handler = Handler(
    exec: Option<ExecAction>,
    httpGet: Option<HTTPGetAction>,
    tcpSocket: Option<TCPSocketAction>)

  datatype Probe = Probe(
    handler: Handler,
    initialDelaySeconds: int,
    timeoutSeconds: int,
    periodSeconds: int,
    successThreshold: int,
    failureThreshold: int)

  /** `corev1.Probe{}`: the probe with no field set. */
  const EmptyProbe := Probe(Handler(None, None, None), 0, 0, 0, 0, 0)

  // ----- security -----

  datatype Capabilities = Capabilities(add: seq<string>, drop: seq<string>)

  datatype SecurityContext = SecurityContext(
    capabilities: Option<Capabilities>,
    privileged: Option<bool>,
    runAsNonRoot: Option<bool>,
    readOnlyRootFilesystem: Option<bool>,
    allowPrivilegeEscalation: Option<bool>)

  // ----- volumes -----

  datatype VolumeMount = VolumeMount(name: string, mountPath: string)

  datatype AccessMode = ReadWriteOnce | ReadOnlyMany | ReadWriteMany

  /**
   * `corev1.PersistentVolumeClaim`; `kind` is its `TypeMeta.Kind` and
   * `storageRequest` is `spec.resources.requests[storage]`.
   */
  datatype PersistentVolumeClaim = PersistentVolumeClaim(
    kind: string,
    metadata: ObjectMeta,
    accessModes: seq<AccessMode>,
    storageRequest: string)

  // ----- affinity -----

  datatype SelectorOperator = In | NotIn | Exists | DoesNotExist | Gt | Lt

  datatype NodeSelectorRequirement = NodeSelectorRequirement(key: string, operator: SelectorOperator, values: seq<string>)

  datatype NodeSelectorTerm = NodeSelectorTerm(
    matchExpressions: seq<NodeSelectorRequirement>,
    matchFields: seq<NodeSelectorRequirement>)

  datatype NodeSelector = NodeSelector(nodeSelectorTerms: seq<NodeSelectorTerm>)

  datatype PreferredSchedulingTerm = PreferredSchedulingTerm(weight: int, preference: NodeSelectorTerm)

  datatype NodeAffinity = NodeAffinity(
    requiredDuringScheduling: Option<NodeSelector>,
    preferredDuringScheduling: seq<PreferredSchedulingTerm>)

  datatype LabelSelectorRequirement = LabelSelectorRequirement(key: string, operator: SelectorOperator, values: seq<string>)

  datatype PodAffinityTerm = PodAffinityTerm(
    matchExpressions: seq<LabelSelectorRequirement>,
    topologyKey: string)

  datatype WeightedPodAffinityTerm = WeightedPodAffinityTerm(weight: int, podAffinityTerm: PodAffinityTerm)

  /** Shared shape of `corev1.PodAffinity` and `corev1.PodAntiAffinity`. */
  datatype PodAffinity = PodAffinity(
    requiredDuringScheduling: seq<PodAffinityTerm>,
    preferredDuringScheduling: seq<WeightedPodAffinityTerm>)

  datatype Affinity = Affinity(
    nodeAffinity: Option<NodeAffinity>,
    podAffinity: Option<PodAffinity>,
    podAntiAffinity: Option<PodAffinity>)

  // ----- pods and workloads -----

  datatype ContainerPort = ContainerPort(containerPort: int)

  datatype Container = Container(
    image: string,
    ports: seq<ContainerPort>,
    securityContext: Option<SecurityContext>,
    readinessProbe: Option<Probe>,
    livenessProbe: Option<Probe>,
    startupProbe: Option<Probe>,
    volumeMounts: seq<VolumeMount>)

  /** `corev1.Container{}`. */
  const EmptyContainer := Container("", [], None, None, None, None, [])

  /** `corev1.PodSpec`. */
  datatype PodSpec = PodSpec(
    containers: seq<Container>,
    serviceAccountName: string,
    affinity: Option<Affinity>)

  /** `corev1.PodTemplateSpec`. */
  datatype PodTemplateSpec = PodTemplateSpec(metadata: ObjectMeta, spec: PodSpec)

  const EmptyPodTemplateSpec := PodTemplateSpec(EmptyMeta, PodSpec([], "", None))

  /** `appsv1.StatefulSetSpec`. */
  datatype StatefulSetSpec = StatefulSetSpec(
    template: PodTemplateSpec,
    volumeClaimTemplates: seq<PersistentVolumeClaim>)

  // ----- autoscaling -----

  /** `autoscalingv1.CrossVersionObjectReference`. */
  datatype CrossVersionObjectReference = CrossVersionObjectReference(kind: string, name: string, apiVersion: string)

  /** `autoscalingv1.HorizontalPodAutoscalerSpec`. */
  datatype HorizontalPodAutoscalerSpec = HorizontalPodAutoscalerSpec(
    scaleTargetRef: CrossVersionObjectReference,
    minReplicas: Option<int>,
    maxReplicas: int,
    targetCPUUtilizationPercentage: Option<int>)
}
