/**
 * Persistence of a StatefulSet: its first volume-claim template (the one
 * the descriptor gives, else a default claim of the requested size) and a
 * volume mount of that claim in the application container.
 */
module Persistence {
  import opened Wrappers
  import opened Kube
  import opened Descriptor
  import opened Labels

  /** The StatefulSet the reconcile loop fetched; customize updates it in place. */
  class StatefulSet {
    var metadata: ObjectMeta
    var spec: StatefulSetSpec

    /** `&appsv1.StatefulSet{}`. */
    constructor ()
      ensures metadata == EmptyMeta && spec == StatefulSetSpec(EmptyPodTemplateSpec, [])
    {
      metadata := EmptyMeta;
      spec := StatefulSetSpec(EmptyPodTemplateSpec, []);
    }
  }

  /** Name of the claim synthesised when the descriptor gives no template. */
  const DefaultClaimName := "pvc"

  /** Annotations of the StatefulSet sub-spec, none when it is absent. */
  function StatefulSetAnnotations(rc: RuntimeComponent): map<string, string> {
    match rc.statefulSet
    case Some(ss) => ss.annotations
    case None => map[]
  }

  /**
   * The claim synthesised from `size`: named `pvc` in the descriptor's
   * namespace, carrying its labels and the StatefulSet annotations, one
   * ReadWriteOnce access mode.
   */
  function DefaultClaim(rc: RuntimeComponent, st: RuntimeComponentStorage): PersistentVolumeClaim {
    PersistentVolumeClaim("", ObjectMeta(DefaultClaimName, rc.namespace, ComponentLabels(rc), StatefulSetAnnotations(rc)),
                          [ReadWriteOnce], st.size)
  }

  /** The claim to install: the descriptor's template, else the default claim. */
  function ClaimFor(rc: RuntimeComponent, st: RuntimeComponentStorage): PersistentVolumeClaim {
    st.volumeClaimTemplate.GetOr(DefaultClaim(rc, st))
  }

  /** Claim templates after installation: only an empty list receives the claim. */
  function InstalledTemplates(current: seq<PersistentVolumeClaim>, rc: RuntimeComponent, st: RuntimeComponentStorage)
    : seq<PersistentVolumeClaim>
  {
    if |current| == 0 then [ClaimFor(rc, st)] else current
  }

  predicate HasMount(mounts: seq<VolumeMount>, name: string) {
    exists i :: 0 <= i < |mounts| && mounts[i].name == name
  }

  /** Every mount named `name` gets `path`; with none of that name, one is appended. */
  function UpsertMount(mounts: seq<VolumeMount>, name: string, path: string): seq<VolumeMount> {
    if HasMount(mounts, name) then
      seq(|mounts|, i requires 0 <= i < |mounts| =>
            if mounts[i].name == name then mounts[i].(mountPath := path) else mounts[i])
    else mounts + [VolumeMount(name, path)]
  }

  /** A persistence step that needs the application container: storage with a mount path. */
  predicate MountsVolume(rc: RuntimeComponent) {
    Storage(rc).Some? && Storage(rc).value.mountPath != ""
  }

  /** The StatefulSet spec after persistence is reconciled. */
  function PersistedSpec(spec: StatefulSetSpec, rc: RuntimeComponent): StatefulSetSpec
    requires MountsVolume(rc) ==> |spec.template.spec.containers| > 0
  {
    match Storage(rc)
    case None => spec
    case Some(st) =>
      var templates := InstalledTemplates(spec.volumeClaimTemplates, rc, st);
      if st.mountPath == "" then spec.(volumeClaimTemplates := templates)
      else
        var containers := spec.template.spec.containers;
        var app := containers[0];
        var app' := app.(volumeMounts := UpsertMount(app.volumeMounts, templates[0].metadata.name, st.mountPath));
        var pod := spec.template.spec.(containers := [app'] + containers[1..]);
        StatefulSetSpec(spec.template.(spec := pod), templates)
  }

  // ---------------------------------------------------------------------
  // The procedure
  // ---------------------------------------------------------------------

  /** Walks the mounts, updating the path of those named `name`, and appends one when none was found. */
  method UpsertMountLoop(mounts: seq<VolumeMount>, name: string, path: string) returns (out: seq<VolumeMount>)
    ensures out == UpsertMount(mounts, name, path)
  {
    var found := false;
    out := mounts;
    var i := 0;
    while i < |mounts|
      invariant 0 <= i <= |mounts|
      invariant |out| == |mounts|
      invariant forall k :: 0 <= k < i ==>
                  out[k] == (if mounts[k].name == name then mounts[k].(mountPath := path) else mounts[k])
      invariant forall k :: i <= k < |mounts| ==> out[k] == mounts[k]
      invariant found <==> exists k :: 0 <= k < i && mounts[k].name == name
    {
      if mounts[i].name == name {
        found := true;
        out := out[i := mounts[i].(mountPath := path)];
      }
      i := i + 1;
    }
    if !found {
      out := out + [VolumeMount(name, path)];
    }
  }

  /**
   * CustomizePersistence: installs the claim template when the StatefulSet
   * has none and mounts the first template's claim at the requested path in
   * the application container. Nothing else changes.
   */
  method CustomizePersistence(ss: StatefulSet, rc: RuntimeComponent)
    requires MountsVolume(rc) ==> |ss.spec.template.spec.containers| > 0
    modifies ss
    ensures ss.metadata == old(ss.metadata)
    ensures ss.spec == PersistedSpec(old(ss.spec), rc)
  {
    var storage := Storage(rc);
    if storage.None? {
      return;
    }
    var st := storage.value;
    var templates := ss.spec.volumeClaimTemplates;
    if |templates| == 0 {
      templates := [ClaimFor(rc, st)];
    }
    if st.mountPath == "" {
      ss.spec := ss.spec.(volumeClaimTemplates := templates);
      return;
    }
    var containers := ss.spec.template.spec.containers;
    var mounts := UpsertMountLoop(containers[0].volumeMounts, templates[0].metadata.name, st.mountPath);
    var pod := ss.spec.template.spec.(containers := [containers[0].(volumeMounts := mounts)] + containers[1..]);
    ss.spec := StatefulSetSpec(ss.spec.template.(spec := pod), templates);
  }

  // ---------------------------------------------------------------------
  // Properties
  // ---------------------------------------------------------------------

  /**
   * After the upsert exactly the mounts named `name` carry `path`, every
   * other mount is untouched, and the list grew by one precisely when no
   * mount had that name.
   */
  lemma UpsertMountContents(mounts: seq<VolumeMount>, name: string, path: string)
    ensures var r := UpsertMount(mounts, name, path);
            && HasMount(r, name)
            && (forall i :: 0 <= i < |r| && r[i].name == name ==> r[i].mountPath == path)
            && (forall i :: 0 <= i < |mounts| && mounts[i].name != name ==> r[i] == mounts[i])
            && (forall i :: 0 <= i < |mounts| ==> r[i].name == mounts[i].name)
            && (|r| == |mounts| <==> HasMount(mounts, name))
            && (|r| == |mounts| + 1 <==> !HasMount(mounts, name))
  {
    var r := UpsertMount(mounts, name, path);
    if HasMount(mounts, name) {
      var j :| 0 <= j < |mounts| && mounts[j].name == name;
      assert r[j].name == name;
    } else {
      assert r[|mounts|].name == name;
    }
  }

  /** Upserting the same mount twice changes nothing the second time. */
  lemma UpsertMountIdempotent(mounts: seq<VolumeMount>, name: string, path: string)
    ensures UpsertMount(UpsertMount(mounts, name, path), name, path) == UpsertMount(mounts, name, path)
  {
    UpsertMountContents(mounts, name, path);
  }

  /** Without a storage sub-spec the StatefulSet is left as it is. */
  lemma NoStorageNoChange(spec: StatefulSetSpec, rc: RuntimeComponent)
    requires Storage(rc).None?
    ensures PersistedSpec(spec, rc) == spec
  {
  }

  /**
   * Templates already present are never replaced; an empty list receives
   * exactly the descriptor's template, else the default claim of the
   * requested size.
   */
  lemma TemplatesInstalledOnce(spec: StatefulSetSpec, rc: RuntimeComponent)
    requires MountsVolume(rc) ==> |spec.template.spec.containers| > 0
    requires Storage(rc).Some?
    ensures var t := PersistedSpec(spec, rc).volumeClaimTemplates;
            && (|spec.volumeClaimTemplates| > 0 ==> t == spec.volumeClaimTemplates)
            && (|spec.volumeClaimTemplates| == 0 && Storage(rc).value.volumeClaimTemplate.Some? ==>
                  t == [Storage(rc).value.volumeClaimTemplate.value])
            && (|spec.volumeClaimTemplates| == 0 && Storage(rc).value.volumeClaimTemplate.None? ==>
                  |t| == 1 && t[0].metadata.name == DefaultClaimName
                  && t[0].accessModes == [ReadWriteOnce] && t[0].storageRequest == Storage(rc).value.size)
  {
  }

  /**
   * With a mount path, the application container mounts the first claim
   * template at that path; the other containers and the pod's other fields
   * are untouched.
   */
  lemma ClaimMounted(spec: StatefulSetSpec, rc: RuntimeComponent)
    requires MountsVolume(rc) && |spec.template.spec.containers| > 0
    ensures var r := PersistedSpec(spec, rc);
            var mounts := r.template.spec.containers[0].volumeMounts;
            && |r.volumeClaimTemplates| > 0
            && HasMount(mounts, r.volumeClaimTemplates[0].metadata.name)
            && (forall i :: 0 <= i < |mounts| && mounts[i].name == r.volumeClaimTemplates[0].metadata.name ==>
                  mounts[i].mountPath == Storage(rc).value.mountPath)
            && |r.template.spec.containers| == |spec.template.spec.containers|
            && r.template.spec.containers[1..] == spec.template.spec.containers[1..]
            && r.template.metadata == spec.template.metadata
            && r.template.spec.serviceAccountName == spec.template.spec.serviceAccountName
  {
    var st := Storage(rc).value;
    var templates := InstalledTemplates(spec.volumeClaimTemplates, rc, st);
    UpsertMountContents(spec.template.spec.containers[0].volumeMounts, templates[0].metadata.name, st.mountPath);
  }

  /** A second reconcile with the same descriptor leaves the StatefulSet as the first one left it. */
  lemma PersistedSpecIdempotent(spec: StatefulSetSpec, rc: RuntimeComponent)
    requires MountsVolume(rc) ==> |spec.template.spec.containers| > 0
    ensures PersistedSpec(PersistedSpec(spec, rc), rc) == PersistedSpec(spec, rc)
  {
    match Storage(rc)
    case None =>
    case Some(st) =>
      if st.mountPath != "" {
        var templates := InstalledTemplates(spec.volumeClaimTemplates, rc, st);
        var mounts := spec.template.spec.containers[0].volumeMounts;
        UpsertMountIdempotent(mounts, templates[0].metadata.name, st.mountPath);
        var once := PersistedSpec(spec, rc);
        assert once.template.spec.containers[1..] == spec.template.spec.containers[1..];
      }
  }

  // ---------------------------------------------------------------------
  // The scenario of the unit test
  // ---------------------------------------------------------------------

  /** The claim template of the tests: `pvc` in `runtime`, of kind `StatefulSet`. */
  function TestClaim(): PersistentVolumeClaim {
    PersistentVolumeClaim("StatefulSet", ObjectMeta("pvc", "runtime", map[], map[]), [], "")
  }

  /** A StatefulSet spec whose only container has the given mounts. */
  function OneContainer(mounts: seq<VolumeMount>): StatefulSetSpec {
    StatefulSetSpec(PodTemplateSpec(EmptyMeta, PodSpec([EmptyContainer.(volumeMounts := mounts)], "", None)), [])
  }

  /**
   * The persistence test: with the template given and no mount yet, the
   * template is installed and `/mnt/data` mounted; without a template and
   * with the mount already present, the default claim carries size `10Mi`
   * and the mount named `pvc` stays first.
   */
  lemma PersistenceScenario()
    ensures var rc := NewRuntimeComponent("my-app", "runtime", map["key1" := "value1"], RuntimeComponentService(ClusterIP, 0, None, None, "", []))
                        .(statefulSet := Some(RuntimeComponentStatefulSet(map[], Some(RuntimeComponentStorage("10Mi", "/mnt/data", Some(TestClaim()))))));
            var r := PersistedSpec(OneContainer([]), rc);
            && r.volumeClaimTemplates[0].kind == "StatefulSet"
            && r.template.spec.containers[0].volumeMounts[0].mountPath == "/mnt/data"
    ensures var rc := NewRuntimeComponent("my-app", "runtime", map["key1" := "value1"], RuntimeComponentService(ClusterIP, 0, None, None, "", []))
                        .(statefulSet := Some(RuntimeComponentStatefulSet(map[], Some(RuntimeComponentStorage("10Mi", "/mnt/data", None)))));
            var r := PersistedSpec(OneContainer([VolumeMount("pvc", "/mnt/data")]), rc);
            && r.volumeClaimTemplates[0].storageRequest == "10Mi"
            && r.template.spec.containers[0].volumeMounts[0].name == "pvc"
            && r.template.spec.containers[0].volumeMounts == [VolumeMount("pvc", "/mnt/data")]
  {
    var m := [VolumeMount("pvc", "/mnt/data")];
    assert HasMount(m, "pvc") by { assert m[0].name == "pvc"; }
    assert !HasMount([], "pvc");
  }
}
