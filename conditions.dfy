/**
 * The status-condition ledger of the descriptor: an ordered list of
 * conditions, at most one per type as long as only `SetCondition` adds
 * them, read by type and updated in place.
 */
module Conditions {
  import opened Wrappers

  datatype ConditionStatus = StatusUnset | StatusTrue | StatusFalse | StatusUnknown

  /** `StatusCondition`: its type, status, reason and message. */
  datatype StatusCondition = StatusCondition(
    conditionType: string,
    status: ConditionStatus,
    reason: string,
    message: string)

  /** The type of the condition the reconcile loop maintains. */
  const ReconciledType := "Reconciled"

  /** The descriptor's status; its conditions are updated in place. */
  class Status {
    var conditions: seq<StatusCondition>

    /** `&RuntimeComponentStatus{}`. */
    constructor (initial: seq<StatusCondition>)
      ensures conditions == initial
    {
      conditions := initial;
    }
  }

  /** Index of the first condition of type `t`, if any. */
  function FindCondition(cs: seq<StatusCondition>, t: string): (r: Option<nat>)
    ensures r.Some? ==> r.value < |cs| && cs[r.value].conditionType == t
                        && forall k :: 0 <= k < r.value ==> cs[k].conditionType != t
    ensures r.None? <==> forall k :: 0 <= k < |cs| ==> cs[k].conditionType != t
    decreases |cs|
  {
    if |cs| == 0 then None
    else if cs[0].conditionType == t then Some(0)
    else match FindCondition(cs[1..], t)
      case None => None
      case Some(i) => Some(i + 1)
  }

  /** The ledger after `SetCondition`: the first entry of the type replaced, else the condition appended. */
  function Upsert(cs: seq<StatusCondition>, c: StatusCondition): seq<StatusCondition> {
    match FindCondition(cs, c.conditionType)
    case Some(i) => cs[i := c]
    case None => cs + [c]
  }

  /**
   * GetCondition: the first condition of the type, none when the ledger
   * holds none; the ledger is only read.
   */
  method GetCondition(t: string, status: Status) returns (r: Option<StatusCondition>)
    ensures r.Some? <==> FindCondition(status.conditions, t).Some?
    ensures r.Some? ==> r.value == status.conditions[FindCondition(status.conditions, t).value]
  {
    var i := 0;
    while i < |status.conditions|
      invariant 0 <= i <= |status.conditions|
      invariant forall k :: 0 <= k < i ==> status.conditions[k].conditionType != t
    {
      if status.conditions[i].conditionType == t {
        return Some(status.conditions[i]);
      }
      i := i + 1;
    }
    return None;
  }

  /** SetCondition: replaces the first condition of the same type in place, or appends. */
  method SetCondition(c: StatusCondition, status: Status)
    modifies status
    ensures status.conditions == Upsert(old(status.conditions), c)
  {
    var i := 0;
    while i < |status.conditions|
      invariant 0 <= i <= |status.conditions|
      invariant status.conditions == old(status.conditions)
      invariant forall k :: 0 <= k < i ==> status.conditions[k].conditionType != c.conditionType
    {
      if status.conditions[i].conditionType == c.conditionType {
        status.conditions := status.conditions[i := c];
        return;
      }
      i := i + 1;
    }
    status.conditions := status.conditions + [c];
  }

  // ---------------------------------------------------------------------
  // Properties
  // ---------------------------------------------------------------------

  /** The ledger keeps its length when the type is present and grows by one otherwise. */
  lemma UpsertLength(cs: seq<StatusCondition>, c: StatusCondition)
    ensures FindCondition(cs, c.conditionType).Some? ==> |Upsert(cs, c)| == |cs|
    ensures FindCondition(cs, c.conditionType).None? ==> |Upsert(cs, c)| == |cs| + 1
  {
  }

  /** After setting a condition, reading its type gives it back. */
  lemma FindAfterUpsert(cs: seq<StatusCondition>, c: StatusCondition)
    ensures var r := Upsert(cs, c);
            var i := FindCondition(r, c.conditionType);
            i.Some? && r[i.value] == c
  {
    var r := Upsert(cs, c);
    match FindCondition(cs, c.conditionType)
    case Some(i) =>
      assert r[i] == c;
      assert FindCondition(r, c.conditionType) == Some(i) by {
        assert forall k :: 0 <= k < i ==> r[k] == cs[k];
      }
    case None =>
      assert r[|cs|] == c;
      assert FindCondition(r, c.conditionType) == Some(|cs|) by {
        assert forall k :: 0 <= k < |cs| ==> r[k] == cs[k];
      }
  }

  /** Setting a condition leaves every condition of another type where and as it was. */
  lemma UpsertKeepsOtherTypes(cs: seq<StatusCondition>, c: StatusCondition)
    ensures var r := Upsert(cs, c);
            forall k :: 0 <= k < |cs| && cs[k].conditionType != c.conditionType ==> r[k] == cs[k]
  {
  }

  /** Setting the same condition twice changes nothing the second time. */
  lemma UpsertIdempotent(cs: seq<StatusCondition>, c: StatusCondition)
    ensures Upsert(Upsert(cs, c), c) == Upsert(cs, c)
  {
    var r := Upsert(cs, c);
    FindAfterUpsert(cs, c);
    var i := FindCondition(r, c.conditionType).value;
    assert r[i := c] == r;
  }

  /**
   * No two entries share a type: `SetCondition` keeps a ledger that has
   * this property with it.
   */
  predicate TypesDistinct(cs: seq<StatusCondition>) {
    forall i, j :: 0 <= i < j < |cs| ==> cs[i].conditionType != cs[j].conditionType
  }

  lemma UpsertKeepsTypesDistinct(cs: seq<StatusCondition>, c: StatusCondition)
    requires TypesDistinct(cs)
    ensures TypesDistinct(Upsert(cs, c))
  {
  }

  // ---------------------------------------------------------------------
  // The scenarios of the unit tests
  // ---------------------------------------------------------------------

  /**
   * The condition tests: a ledger holding a true `Reconciled` condition
   * reads it back, an empty ledger reads nothing, and setting a true
   * `Reconciled` condition over an unset one updates entry 0 in place.
   */
  lemma ConditionsScenario()
    ensures var c := StatusCondition(ReconciledType, StatusTrue, "", "");
            FindCondition([c], ReconciledType) == Some(0)
    ensures FindCondition([], ReconciledType).None?
    ensures var c := StatusCondition(ReconciledType, StatusTrue, "", "");
            Upsert([StatusCondition(ReconciledType, StatusUnset, "", "")], c) == [c]
  {
  }

  /** The same tests run against the ledger object: reading never grows it, setting updates entry 0. */
  method ConditionsObjectScenario()
  {
    var c := StatusCondition(ReconciledType, StatusTrue, "", "");
    var status := new Status([c]);
    var got := GetCondition(ReconciledType, status);
    assert got == Some(c);
    var empty := new Status([]);
    got := GetCondition(ReconciledType, empty);
    assert got.None? && |empty.conditions| == 0;
    var ledger := new Status([StatusCondition(ReconciledType, StatusUnset, "", "")]);
    SetCondition(c, ledger);
    assert ledger.conditions[0].status == StatusTrue && |ledger.conditions| == 1;
  }
}
