/**
 * The application descriptor (the RuntimeComponent custom resource, API
 * version v1beta2), cut down to the sub-specs the customize engine reads.
 */
module Descriptor {
  import opened Wrappers
  import opened Kube

  /**
   * `spec.service`. The operator defaults it before any customize step runs,
   * so it is always present here.
   */
  datatype RuntimeComponentService = RuntimeComponentService(
    serviceType: ServiceType,
    port: int,
    targetPort: Option<int>,
    nodePort: Option<int>,
    portName: string,
    ports: seq<ServicePort>)

  /** `spec.route`. */
  datatype RuntimeComponentRoute = RuntimeComponentRoute(
    annotations: map<string, string>,
    host: string,
    path: string,
    termination: Option<Termination>,
    insecureEdgeTerminationPolicy: Option<InsecureEdgeTerminationPolicy>)

  /** `spec.probes`: one optional probe per slot; `EmptyProbe` asks for the default. */
  datatype RuntimeComponentProbes = RuntimeComponentProbes(
    readiness: Option<Probe>,
    liveness: Option<Probe>,
    startup: Option<Probe>)

  /**
   * `spec.affinity`. `nodeAffinityLabels` is the label map, given as its
   * entries in the order the runtime iterates them.
   */
  datatype RuntimeComponentAffinity = RuntimeComponentAffinity(
    nodeAffinity: Option<NodeAffinity>,
    podAffinity: Option<PodAffinity>,
    podAntiAffinity: Option<PodAffinity>,
    architecture: seq<string>,
    nodeAffinityLabels: seq<(string, string)>)

  /** `spec.deployment`. */
  datatype RuntimeComponentDeployment = RuntimeComponentDeployment(annotations: map<string, string>)

  /** `spec.statefulSet.storage`. */
  datatype RuntimeComponentStorage = RuntimeComponentStorage(
    size: string,
    mountPath: string,
    volumeClaimTemplate: Option<PersistentVolumeClaim>)

  /** `spec.statefulSet`. */
  datatype RuntimeComponentStatefulSet = RuntimeComponentStatefulSet(
    annotations: map<string, string>,
    storage: Option<RuntimeComponentStorage>)

  /** `spec.autoscaling`. */
  datatype RuntimeComponentAutoScaling = RuntimeComponentAutoScaling(
    minReplicas: Option<int>,
    maxReplicas: int,
    targetCPUUtilizationPercentage: Option<int>)

  /** The descriptor: metadata, the spec fields read here and `status.references`. */
  datatype RuntimeComponent = RuntimeComponent(
    name: string,
    namespace: string,
    labels: map<string, string>,
    annotations: map<string, string>,
    applicationImage: string,
    applicationName: string,
    serviceAccountName: Option<string>,
    pullSecret: Option<string>,
    securityContext: Option<SecurityContext>,
    volumeMounts: seq<VolumeMount>,
    service: RuntimeComponentService,
    route: Option<RuntimeComponentRoute>,
    probes: Option<RuntimeComponentProbes>,
    affinity: Option<RuntimeComponentAffinity>,
    deployment: Option<RuntimeComponentDeployment>,
    statefulSet: Option<RuntimeComponentStatefulSet>,
    autoscaling: Option<RuntimeComponentAutoScaling>,
    references: map<string, string>)

  /**
   * `createRuntimeComponent` of the tests: a descriptor with the given
   * identity and service and every optional part unset.
   */
  function NewRuntimeComponent(name: string, namespace: string, labels: map<string, string>,
                               service: RuntimeComponentService): RuntimeComponent
  {
    RuntimeComponent(name, namespace, labels, map[], "", "", None, None, None, [], service,
                     None, None, None, None, None, None, map[])
  }

  /** `spec.statefulSet.storage`, when configured. */
  function Storage(rc: RuntimeComponent): Option<RuntimeComponentStorage>
  {
    match rc.statefulSet
    case Some(ss) => ss.storage
    case None => None
  }
}
