/**
 * ServiceAccount image-pull-secret merging: the descriptor's pull secret,
 * and the secondary secret named in `status.references`, are appended by
 * name when missing; no entry is ever removed.
 */
module ServiceAccounts {
  import opened Wrappers
  import opened Kube
  import opened Descriptor
  import opened Labels

  /** The ServiceAccount the reconcile loop fetched; customize updates it in place. */
  class ServiceAccount {
    var metadata: ObjectMeta
    var imagePullSecrets: seq<string>

    /** `&corev1.ServiceAccount{}`. */
    constructor ()
      ensures metadata == EmptyMeta && imagePullSecrets == []
    {
      metadata := EmptyMeta;
      imagePullSecrets := [];
    }
  }

  /** Key of the secondary pull secret in `status.references`. */
  const PullSecretReferenceKey := "saPullSecretName"

  /** `name` appended unless an entry already has it. */
  function AppendMissing(secrets: seq<string>, name: string): seq<string> {
    if name in secrets then secrets else secrets + [name]
  }

  /** The descriptor's pull secret, when set. */
  function PrimaryPullSecret(rc: RuntimeComponent): Option<string> {
    rc.pullSecret
  }

  /** The secondary pull secret, when the references name one that exists in the cluster. */
  function SecondaryPullSecret(rc: RuntimeComponent, existing: set<string>): Option<string> {
    if PullSecretReferenceKey in rc.references && rc.references[PullSecretReferenceKey] in existing
    then Some(rc.references[PullSecretReferenceKey]) else None
  }

  /** Pull secrets after the merge: the primary, then the secondary, each only when missing. */
  function MergedPullSecrets(secrets: seq<string>, rc: RuntimeComponent, existing: set<string>): seq<string> {
    var withPrimary := match PrimaryPullSecret(rc)
                       case Some(p) => AppendMissing(secrets, p)
                       case None => secrets;
    match SecondaryPullSecret(rc, existing)
    case Some(q) => AppendMissing(withPrimary, q)
    case None => withPrimary
  }

  /** Whether an entry named `name` is already present, scanning the list. */
  method ContainsSecret(secrets: seq<string>, name: string) returns (found: bool)
    ensures found <==> name in secrets
  {
    found := false;
    var i := 0;
    while i < |secrets|
      invariant 0 <= i <= |secrets|
      invariant found <==> name in secrets[..i]
    {
      if secrets[i] == name {
        found := true;
      }
      assert secrets[..i + 1] == secrets[..i] + [secrets[i]];
      i := i + 1;
    }
    assert secrets[..i] == secrets;
  }

  /**
   * CustomizeServiceAccount: labels and annotations merged in, then the
   * pull secrets merged. `existing` names the secrets of the namespace, the
   * one thing the source asks the cluster client for.
   */
  method CustomizeServiceAccount(sa: ServiceAccount, rc: RuntimeComponent, existing: set<string>)
    modifies sa
    ensures sa.metadata == CustomizedMeta(old(sa.metadata), rc, rc.annotations)
    ensures sa.imagePullSecrets == MergedPullSecrets(old(sa.imagePullSecrets), rc, existing)
  {
    sa.metadata := CustomizedMeta(sa.metadata, rc, rc.annotations);
    var secrets := sa.imagePullSecrets;
    if rc.pullSecret.Some? {
      var found := ContainsSecret(secrets, rc.pullSecret.value);
      if !found {
        secrets := secrets + [rc.pullSecret.value];
      }
    }
    var secondary := SecondaryPullSecret(rc, existing);
    if secondary.Some? {
      var found := ContainsSecret(secrets, secondary.value);
      if !found {
        secrets := secrets + [secondary.value];
      }
    }
    sa.imagePullSecrets := secrets;
  }

  // ---------------------------------------------------------------------
  // Properties
  // ---------------------------------------------------------------------

  /**
   * The merge keeps every entry in place, adds at most the two named
   * secrets, makes both present, and adds nothing else.
   */
  lemma MergeNeverRemoves(secrets: seq<string>, rc: RuntimeComponent, existing: set<string>)
    ensures var r := MergedPullSecrets(secrets, rc, existing);
            && |secrets| <= |r| <= |secrets| + 2
            && r[..|secrets|] == secrets
            && (rc.pullSecret.Some? ==> rc.pullSecret.value in r)
            && (SecondaryPullSecret(rc, existing).Some? ==> SecondaryPullSecret(rc, existing).value in r)
            && (forall s :: s in r ==> s in secrets || Some(s) == rc.pullSecret || Some(s) == SecondaryPullSecret(rc, existing))
  {
  }

  /** A secondary reference to a secret that does not exist adds nothing. */
  lemma MissingSecondaryIgnored(secrets: seq<string>, rc: RuntimeComponent, existing: set<string>)
    requires PullSecretReferenceKey in rc.references && rc.references[PullSecretReferenceKey] !in existing
    ensures MergedPullSecrets(secrets, rc, existing) == MergedPullSecrets(secrets, rc.(references := map[]), existing)
  {
  }

  /** Merging twice with the same descriptor changes nothing the second time. */
  lemma MergeIdempotent(secrets: seq<string>, rc: RuntimeComponent, existing: set<string>)
    ensures MergedPullSecrets(MergedPullSecrets(secrets, rc, existing), rc, existing)
            == MergedPullSecrets(secrets, rc, existing)
  {
  }

  /**
   * The service-account test: an empty account gets `mysecret`; with the
   * pull secret `my-new-secret` and a reference to the absent secret `test`,
   * `my-new-secret` becomes the second entry.
   */
  lemma ServiceAccountScenario()
    ensures var existing := {"mysecret", "my-new-secret"};
            var rc1 := NewRuntimeComponent("my-app", "runtime", map["key1" := "value1"], RuntimeComponentService(ClusterIP, 0, None, None, "", []))
                         .(pullSecret := Some("mysecret"));
            var first := MergedPullSecrets([], rc1, existing);
            var rc2 := rc1.(pullSecret := Some("my-new-secret"), references := map[PullSecretReferenceKey := "test"]);
            && first == ["mysecret"]
            && MergedPullSecrets(first, rc2, existing) == ["mysecret", "my-new-secret"]
  {
  }
}
