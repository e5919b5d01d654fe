/**
 * Identity labels and the merging of labels and annotations onto every
 * derived object.
 */
module Labels {
  import opened Kube
  import opened Descriptor

  const InstanceKey := "app.kubernetes.io/instance"
  const PartOfKey := "app.kubernetes.io/part-of"

  /** The application a component belongs to: its application name, else its own name. */
  function PartOf(rc: RuntimeComponent): string {
    if rc.applicationName != "" then rc.applicationName else rc.name
  }

  /**
   * Labels put on every derived object: the descriptor's own labels, plus
   * `instance` = the descriptor's name and `part-of`, unless the user gave
   * one. See `ComponentLabelsContents`.
   */
  function ComponentLabels(rc: RuntimeComponent): map<string, string>
  {
    map[InstanceKey := rc.name, PartOfKey := PartOf(rc)] + (rc.labels - {InstanceKey})
  }

  /**
   * The label set carries the descriptor's labels, the instance label is
   * the descriptor's name whatever the user's labels say, and `part-of`
   * falls back to the application.
   */
  lemma ComponentLabelsContents(rc: RuntimeComponent)
    ensures var m := ComponentLabels(rc);
            && InstanceKey in m && m[InstanceKey] == rc.name
            && m.Keys == rc.labels.Keys + {InstanceKey, PartOfKey}
            && (forall k :: k in rc.labels && k != InstanceKey ==> m[k] == rc.labels[k])
            && (PartOfKey !in rc.labels ==> m[PartOfKey] == PartOf(rc))
  {
  }

  /** The selector every Service uses: the instance label alone. */
  function SelectorLabels(rc: RuntimeComponent): map<string, string> {
    map[InstanceKey := rc.name]
  }

  /**
   * `MergeMaps`: `overlay` written onto `base`. See `MergeMapsKeepsForeignKeys`.
   */
  function MergeMaps(base: map<string, string>, overlay: map<string, string>): map<string, string>
  {
    base + overlay
  }

  /**
   * Merging never deletes: keys the overlay does not mention keep their
   * value from `base`, and the overlay wins on shared keys.
   */
  lemma MergeMapsKeepsForeignKeys(base: map<string, string>, overlay: map<string, string>)
    ensures var r := MergeMaps(base, overlay);
            && r.Keys == base.Keys + overlay.Keys
            && (forall k :: k in overlay ==> r[k] == overlay[k])
            && (forall k :: k in base && k !in overlay ==> r[k] == base[k])
  {
  }

  /** Merging the same overlay twice changes nothing the second time. */
  lemma MergeMapsIdempotent(base: map<string, string>, overlay: map<string, string>)
    ensures MergeMaps(MergeMaps(base, overlay), overlay) == MergeMaps(base, overlay)
  {
  }

  /**
   * The metadata of a derived object after customization: the component
   * labels and then `annotations` merged onto what the object had, its name
   * and namespace untouched.
   */
  function CustomizedMeta(meta: ObjectMeta, rc: RuntimeComponent, annotations: map<string, string>): ObjectMeta
  {
    meta.(labels := MergeMaps(meta.labels, ComponentLabels(rc)),
          annotations := MergeMaps(meta.annotations, annotations))
  }

  /**
   * Every customized object carries the instance label of its descriptor,
   * and keeps every label and annotation key it already had.
   */
  lemma CustomizedMetaIdentity(meta: ObjectMeta, rc: RuntimeComponent, annotations: map<string, string>)
    ensures var m := CustomizedMeta(meta, rc, annotations);
            && InstanceKey in m.labels && m.labels[InstanceKey] == rc.name
            && meta.labels.Keys <= m.labels.Keys
            && meta.annotations.Keys <= m.annotations.Keys
            && m.name == meta.name && m.namespace == meta.namespace
  {
    ComponentLabelsContents(rc);
  }
}
