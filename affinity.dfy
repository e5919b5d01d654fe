/**
 * Affinity composition: the descriptor's node, pod and pod-anti affinity
 * are copied, then the architecture list and the node-affinity labels are
 * turned into required `In` expressions appended to every required node
 * selector term, and the architecture list also into one preferred term of
 * weight 1.
 */
module Affinities {
  import opened Wrappers
  import opened Text
  import opened Kube
  import opened Descriptor

  /** Node label holding the CPU architecture. */
  const ArchKey := "kubernetes.io/arch"

  /** Weight of the preferred term the architecture list yields. */
  const ArchPreferenceWeight := 1

  /** `spec.affinity`, or the sub-spec with nothing set when it is absent. */
  function AffinitySpecOf(rc: RuntimeComponent): RuntimeComponentAffinity {
    rc.affinity.GetOr(RuntimeComponentAffinity(None, None, None, [], []))
  }

  /** The required expression the architecture list yields. */
  function ArchRequirement(archs: seq<string>): NodeSelectorRequirement {
    NodeSelectorRequirement(ArchKey, In, archs)
  }

  /** The preferred term the architecture list yields. */
  function ArchPreference(archs: seq<string>): PreferredSchedulingTerm {
    PreferredSchedulingTerm(ArchPreferenceWeight, NodeSelectorTerm([ArchRequirement(archs)], []))
  }

  /** One node-affinity label: key `In` the comma-separated, trimmed values. */
  function LabelRequirement(entry: (string, string)): NodeSelectorRequirement {
    NodeSelectorRequirement(entry.0, In, SplitAndTrim(entry.1, ','))
  }

  /** The expressions of all node-affinity labels, in iteration order. */
  function LabelRequirements(labels: seq<(string, string)>): seq<NodeSelectorRequirement> {
    seq(|labels|, i requires 0 <= i < |labels| => LabelRequirement(labels[i]))
  }

  /** Expressions appended to every required term: the architecture one first, then the labels'. */
  function AddedRequirements(a: RuntimeComponentAffinity): seq<NodeSelectorRequirement> {
    (if |a.architecture| > 0 then [ArchRequirement(a.architecture)] else [])
    + LabelRequirements(a.nodeAffinityLabels)
  }

  /**
   * `extra` appended after the user's expressions of every term; with no
   * term at all, one term holding `extra` alone.
   */
  function ExtendTerms(terms: seq<NodeSelectorTerm>, extra: seq<NodeSelectorRequirement>): seq<NodeSelectorTerm> {
    if |terms| == 0 then [NodeSelectorTerm(extra, [])]
    else seq(|terms|, i requires 0 <= i < |terms| =>
               terms[i].(matchExpressions := terms[i].matchExpressions + extra))
  }

  /** The user's required node selector terms, none when unset. */
  function RequiredTerms(n: NodeAffinity): seq<NodeSelectorTerm> {
    match n.requiredDuringScheduling
    case Some(sel) => sel.nodeSelectorTerms
    case None => []
  }

  /** The node affinity the pod gets. */
  function ComposedNodeAffinity(a: RuntimeComponentAffinity): Option<NodeAffinity> {
    var extra := AddedRequirements(a);
    if |extra| == 0 then a.nodeAffinity
    else
      var base := a.nodeAffinity.GetOr(NodeAffinity(None, []));
      Some(NodeAffinity(
        Some(NodeSelector(ExtendTerms(RequiredTerms(base), extra))),
        base.preferredDuringScheduling
        + (if |a.architecture| > 0 then [ArchPreference(a.architecture)] else [])))
  }

  /** The affinity the pod gets. */
  function ComposedAffinity(a: RuntimeComponentAffinity): Affinity {
    Affinity(ComposedNodeAffinity(a), a.podAffinity, a.podAntiAffinity)
  }

  // ---------------------------------------------------------------------
  // The procedure
  // ---------------------------------------------------------------------

  /** Appends `extra` to the expressions of every term, one term at a time. */
  method AppendToEveryTerm(terms: seq<NodeSelectorTerm>, extra: seq<NodeSelectorRequirement>)
    returns (out: seq<NodeSelectorTerm>)
    ensures out == ExtendTerms(terms, extra)
  {
    if |terms| == 0 {
      return [NodeSelectorTerm(extra, [])];
    }
    out := [];
    var i := 0;
    while i < |terms|
      invariant 0 <= i <= |terms|
      invariant |out| == i
      invariant forall k :: 0 <= k < i ==>
                  out[k] == terms[k].(matchExpressions := terms[k].matchExpressions + extra)
    {
      out := out + [terms[i].(matchExpressions := terms[i].matchExpressions + extra)];
      i := i + 1;
    }
  }

  /** Builds one expression per node-affinity label, in iteration order. */
  method BuildLabelRequirements(labels: seq<(string, string)>) returns (reqs: seq<NodeSelectorRequirement>)
    ensures reqs == LabelRequirements(labels)
  {
    reqs := [];
    var i := 0;
    while i < |labels|
      invariant 0 <= i <= |labels|
      invariant |reqs| == i
      invariant forall k :: 0 <= k < i ==> reqs[k] == LabelRequirement(labels[k])
    {
      reqs := reqs + [LabelRequirement(labels[i])];
      i := i + 1;
    }
  }

  /**
   * CustomizeAffinity: fills a freshly created Affinity object from the
   * descriptor; here the object is returned.
   */
  method CustomizeAffinity(rc: RuntimeComponent) returns (affinity: Affinity)
    ensures affinity == ComposedAffinity(AffinitySpecOf(rc))
  {
    var a := AffinitySpecOf(rc);
    var labelReqs := BuildLabelRequirements(a.nodeAffinityLabels);
    var extra := (if |a.architecture| > 0 then [ArchRequirement(a.architecture)] else []) + labelReqs;
    assert extra == AddedRequirements(a);
    var node := a.nodeAffinity;
    if |extra| > 0 {
      var base := a.nodeAffinity.GetOr(NodeAffinity(None, []));
      var terms := AppendToEveryTerm(RequiredTerms(base), extra);
      var archPreference := if |a.architecture| > 0 then [ArchPreference(a.architecture)] else [];
      node := Some(NodeAffinity(Some(NodeSelector(terms)), base.preferredDuringScheduling + archPreference));
    }
    affinity := Affinity(node, a.podAffinity, a.podAntiAffinity);
  }

  // ---------------------------------------------------------------------
  // Properties
  // ---------------------------------------------------------------------

  /** Pod affinity and pod anti-affinity are copied verbatim. */
  lemma PodAffinityCopied(a: RuntimeComponentAffinity)
    ensures ComposedAffinity(a).podAffinity == a.podAffinity
    ensures ComposedAffinity(a).podAntiAffinity == a.podAntiAffinity
  {
  }

  /** With neither an architecture nor a label, the node affinity is copied verbatim. */
  lemma NodeAffinityCopiedWhenNothingAdded(a: RuntimeComponentAffinity)
    requires |a.architecture| == 0 && |a.nodeAffinityLabels| == 0
    ensures ComposedNodeAffinity(a) == a.nodeAffinity
  {
  }

  /**
   * Every user term keeps its expressions, in order, and gets the added
   * ones after them; no user term is lost and none is added.
   */
  lemma UserExpressionsKeptFirst(a: RuntimeComponentAffinity)
    requires |AddedRequirements(a)| > 0
    ensures var base := a.nodeAffinity.GetOr(NodeAffinity(None, []));
            var user := RequiredTerms(base);
            var n := ComposedNodeAffinity(a).value;
            && n.requiredDuringScheduling.Some?
            && var terms := n.requiredDuringScheduling.value.nodeSelectorTerms;
               && |terms| == (if |user| == 0 then 1 else |user|)
               && (forall i :: 0 <= i < |user| ==>
                     terms[i].matchExpressions == user[i].matchExpressions + AddedRequirements(a)
                     && terms[i].matchFields == user[i].matchFields)
               && (|user| == 0 ==> terms[0].matchExpressions == AddedRequirements(a))
  {
  }

  /**
   * A non-empty architecture list puts its `In` expression in every
   * required term and adds exactly one preferred term, of weight 1, after
   * the user's preferred terms.
   */
  lemma ArchitectureEverywhere(a: RuntimeComponentAffinity)
    requires |a.architecture| > 0
    ensures var base := a.nodeAffinity.GetOr(NodeAffinity(None, []));
            var n := ComposedNodeAffinity(a).value;
            && n.requiredDuringScheduling.Some?
            && (forall t :: t in n.requiredDuringScheduling.value.nodeSelectorTerms ==>
                  ArchRequirement(a.architecture) in t.matchExpressions)
            && n.preferredDuringScheduling[..|base.preferredDuringScheduling|] == base.preferredDuringScheduling
            && |n.preferredDuringScheduling| == |base.preferredDuringScheduling| + 1
            && n.preferredDuringScheduling[|base.preferredDuringScheduling|].weight == 1
            && n.preferredDuringScheduling[|base.preferredDuringScheduling|].preference.matchExpressions
               == [ArchRequirement(a.architecture)]
  {
    var base := a.nodeAffinity.GetOr(NodeAffinity(None, []));
    var user := RequiredTerms(base);
    var extra := AddedRequirements(a);
    assert extra[0] == ArchRequirement(a.architecture);
    var terms := ExtendTerms(user, extra);
    forall t | t in terms
      ensures ArchRequirement(a.architecture) in t.matchExpressions
    {
      var i :| 0 <= i < |terms| && terms[i] == t;
      if |user| == 0 {
        assert t.matchExpressions == extra;
      } else {
        assert t.matchExpressions == user[i].matchExpressions + extra;
        assert t.matchExpressions[|user[i].matchExpressions|] == extra[0];
      }
    }
  }

  /**
   * Every label value lands in its expression split on commas and trimmed:
   * no value holds a comma or outer white space, and joining the untrimmed
   * pieces back with commas gives the label value.
   */
  lemma LabelValuesSplitAndTrimmed(entry: (string, string))
    ensures var r := LabelRequirement(entry);
            && r.key == entry.0 && r.operator == In
            && |r.values| == Count(entry.1, ',') + 1
            && (forall k :: 0 <= k < |r.values| ==> ',' !in r.values[k] && TrimSpace(r.values[k]) == r.values[k])
            && (forall k :: 0 <= k < |r.values| ==> r.values[k] == TrimSpace(Split(entry.1, ',')[k]))
            && Join(Split(entry.1, ','), ",") == entry.1
  {
    SplitAndTrimClean(entry.1, ',');
    JoinSplit(entry.1, ',');
  }

  /** `"label1, label2"` gives the values `["label1", "label2"]`. */
  lemma TwoLabelValues()
    ensures SplitAndTrim("label1" + ", " + "label2", ',') == ["label1", "label2"]
  {
    var tail := " " + "label2" + "";
    var s := "" + "label1" + "" + [','] + tail;
    assert "label1" + ", " + "label2" == s;
    SplitAndTrimPaddedPiece("", "label1", "", ',', tail);
    SplitAndTrimPaddedLast(" ", "label2", "", ',');
    assert SplitAndTrim(s, ',') == ["label1"] + ["label2"];
  }

  // ---------------------------------------------------------------------
  // The scenarios of the unit tests
  // ---------------------------------------------------------------------

  /** The user's required expression of the node-affinity test. */
  function TestRequired(): NodeSelectorRequirement {
    NodeSelectorRequirement("key", NotIn, ["large", "medium"])
  }

  /** The user's preferred term of the node-affinity test. */
  function TestPreferred(): PreferredSchedulingTerm {
    PreferredSchedulingTerm(20, NodeSelectorTerm([NodeSelectorRequirement("failure-domain.beta.kubernetes.io/zone", In, ["zoneB"])], []))
  }

  /**
   * The node-affinity test: the label `customNodeLabel: "label1, label2"`
   * lands after the user's required expression, and the preferred terms
   * are untouched.
   */
  lemma NodeAffinityLabelScenario()
    ensures var a := RuntimeComponentAffinity(
                       Some(NodeAffinity(Some(NodeSelector([NodeSelectorTerm([TestRequired()], [])])), [TestPreferred()])),
                       None, None, [], [("customNodeLabel", "label1" + ", " + "label2")]);
            var n := ComposedNodeAffinity(a).value;
            && n.requiredDuringScheduling.value.nodeSelectorTerms[0].matchExpressions
               == [TestRequired(), NodeSelectorRequirement("customNodeLabel", In, ["label1", "label2"])]
            && n.preferredDuringScheduling[0].preference.matchExpressions == TestPreferred().preference.matchExpressions
  {
    TwoLabelValues();
    var a := RuntimeComponentAffinity(
               Some(NodeAffinity(Some(NodeSelector([NodeSelectorTerm([TestRequired()], [])])), [TestPreferred()])),
               None, None, [], [("customNodeLabel", "label1" + ", " + "label2")]);
    assert AddedRequirements(a) == [NodeSelectorRequirement("customNodeLabel", In, ["label1", "label2"])];
  }

  /**
   * The pod-spec test: architecture `["ppc64le"]` and nothing else gives one
   * required term whose first expression has value `"ppc64le"`, and a
   * preferred term of weight 1 with the same value.
   */
  lemma ArchitectureScenario()
    ensures var n := ComposedNodeAffinity(RuntimeComponentAffinity(None, None, None, ["ppc64le"], [])).value;
            && n.requiredDuringScheduling.value.nodeSelectorTerms[0].matchExpressions[0].values[0] == "ppc64le"
            && n.preferredDuringScheduling[0].weight == 1
            && n.preferredDuringScheduling[0].preference.matchExpressions[0].values[0] == "ppc64le"
  {
  }
}
