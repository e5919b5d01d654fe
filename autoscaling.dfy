/**
 * HorizontalPodAutoscaler synthesis: the scale target is the workload the
 * descriptor yields (a StatefulSet when persistence is configured, else a
 * Deployment) and the bounds are copied from the autoscaling sub-spec.
 */
module Autoscaling {
  import opened Wrappers
  import opened Kube
  import opened Descriptor
  import opened Labels

  /** The autoscaler the reconcile loop fetched; customize updates it in place. */
  class HorizontalPodAutoscaler {
    var metadata: ObjectMeta
    var spec: HorizontalPodAutoscalerSpec

    /** `&autoscalingv1.HorizontalPodAutoscaler{}`. */
    constructor ()
      ensures metadata == EmptyMeta
      ensures spec == HorizontalPodAutoscalerSpec(CrossVersionObjectReference("", "", ""), None, 0, None)
    {
      metadata := EmptyMeta;
      spec := HorizontalPodAutoscalerSpec(CrossVersionObjectReference("", "", ""), None, 0, None);
    }
  }

  /** API group and version of both workload kinds. */
  const WorkloadAPIVersion := "apps/v1"

  /** The kind of workload the descriptor yields. */
  function ScaleTargetKind(rc: RuntimeComponent): string {
    if Storage(rc).Some? then "StatefulSet" else "Deployment"
  }

  /** The autoscaler spec the descriptor asks for. */
  function AutoscalerSpec(rc: RuntimeComponent, a: RuntimeComponentAutoScaling): HorizontalPodAutoscalerSpec {
    HorizontalPodAutoscalerSpec(CrossVersionObjectReference(ScaleTargetKind(rc), rc.name, WorkloadAPIVersion),
                                a.minReplicas, a.maxReplicas, a.targetCPUUtilizationPercentage)
  }

  /**
   * CustomizeHPA: labels and annotations merged in and the spec set from
   * the autoscaling sub-spec, which the caller has checked is present.
   */
  method CustomizeHPA(hpa: HorizontalPodAutoscaler, rc: RuntimeComponent)
    requires rc.autoscaling.Some?
    modifies hpa
    ensures hpa.metadata == CustomizedMeta(old(hpa.metadata), rc, rc.annotations)
    ensures hpa.spec == AutoscalerSpec(rc, rc.autoscaling.value)
  {
    hpa.metadata := CustomizedMeta(hpa.metadata, rc, rc.annotations);
    hpa.spec := AutoscalerSpec(rc, rc.autoscaling.value);
  }

  /**
   * The autoscaler scales the workload of the same name: a StatefulSet
   * exactly when persistence is configured, a Deployment otherwise; min,
   * max and CPU target are copied unchanged.
   */
  lemma ScaleTargetMatchesWorkload(rc: RuntimeComponent, a: RuntimeComponentAutoScaling)
    ensures var s := AutoscalerSpec(rc, a);
            && s.scaleTargetRef.name == rc.name
            && s.scaleTargetRef.apiVersion == "apps/v1"
            && (s.scaleTargetRef.kind == "StatefulSet" <==> Storage(rc).Some?)
            && (s.scaleTargetRef.kind == "Deployment" <==> Storage(rc).None?)
            && s.minReplicas == a.minReplicas && s.maxReplicas == a.maxReplicas
            && s.targetCPUUtilizationPercentage == a.targetCPUUtilizationPercentage
  {
  }

  /**
   * The autoscaler test: min 2, max 3, CPU target 30, scaling the
   * Deployment `my-app`, then the StatefulSet once storage is configured.
   */
  lemma AutoscalerScenario()
    ensures var a := RuntimeComponentAutoScaling(Some(2), 3, Some(30));
            var rc := NewRuntimeComponent("my-app", "runtime", map["key1" := "value1"], RuntimeComponentService(ClusterIP, 0, None, None, "", []))
                        .(autoscaling := Some(a));
            && AutoscalerSpec(rc, a) == HorizontalPodAutoscalerSpec(CrossVersionObjectReference("Deployment", "my-app", "apps/v1"), Some(2), 3, Some(30))
            && AutoscalerSpec(rc.(statefulSet := Some(RuntimeComponentStatefulSet(map[], Some(RuntimeComponentStorage("10Mi", "/mnt/data", None))))), a).scaleTargetRef.kind
               == "StatefulSet"
  {
  }
}
