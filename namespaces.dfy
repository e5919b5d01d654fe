/**
 * The namespaces the operator watches: the comma-separated value of
 * `WATCH_NAMESPACE`, each entry trimmed; the single empty entry means every
 * namespace.
 */
module Namespaces {
  import opened Wrappers
  import opened Text

  /** Name of the environment variable read. */
  const WatchNamespaceVar := "WATCH_NAMESPACE"

  /** The error when the variable is not set at all. */
  const WatchNamespaceUnsetError := WatchNamespaceVar + " must be set"

  /**
   * GetWatchNamespaces on the variable's value (`None` when unset): the
   * trimmed comma-separated entries, or no entry and an error when unset.
   */
  method GetWatchNamespaces(watchNamespace: Option<string>) returns (namespaces: seq<string>, err: Option<string>)
    ensures watchNamespace.None? ==> namespaces == [] && err == Some(WatchNamespaceUnsetError)
    ensures watchNamespace.Some? ==> err.None? && namespaces == SplitAndTrim(watchNamespace.value, ',')
  {
    if watchNamespace.None? {
      return [], Some(WatchNamespaceUnsetError);
    }
    var parts := Split(watchNamespace.value, ',');
    namespaces := [];
    var i := 0;
    while i < |parts|
      invariant 0 <= i <= |parts|
      invariant |namespaces| == i
      invariant forall k :: 0 <= k < i ==> namespaces[k] == TrimSpace(parts[k])
    {
      namespaces := namespaces + [TrimSpace(parts[i])];
      i := i + 1;
    }
    err := None;
  }

  /**
   * IsClusterWide: the single empty entry stands for every namespace; a
   * list with any name in it, or with more than one entry, does not.
   */
  function IsClusterWide(namespaces: seq<string>): (r: bool)
    ensures r <==> namespaces == [""]
  {
    |namespaces| == 1 && namespaces[0] == ""
  }

  /** A character occurs no time exactly when it is absent. */
  lemma {:induction false} CountZero(s: string, c: char)
    ensures Count(s, c) == 0 <==> c !in s
    decreases |s|
  {
    if |s| > 0 {
      CountZero(s[1..], c);
      assert s == [s[0]] + s[1..];
    }
  }

  /**
   * The operator watches every namespace exactly when the variable holds
   * no comma and nothing but white space.
   */
  lemma ClusterWideIff(s: string)
    ensures IsClusterWide(SplitAndTrim(s, ',')) <==> ',' !in s && AllSpace(s)
  {
    CountZero(s, ',');
    if ',' !in s {
      SplitWithoutSeparator(s, ',');
      TrimSpaceEmptyIff(s);
    }
  }

  /**
   * Every entry is trimmed and free of commas, there is one more entry than
   * commas, and the untrimmed entries joined with commas give the value back.
   */
  lemma WatchNamespacesShape(s: string)
    ensures var ns := SplitAndTrim(s, ',');
            && |ns| == Count(s, ',') + 1
            && (forall k :: 0 <= k < |ns| ==> ',' !in ns[k] && TrimSpace(ns[k]) == ns[k])
            && Join(Split(s, ','), ",") == s
  {
    SplitAndTrimClean(s, ',');
    JoinSplit(s, ',');
  }

  // ---------------------------------------------------------------------
  // The scenarios of the unit tests
  // ---------------------------------------------------------------------

  /** `""` is every namespace, and `"ns1"` is that one namespace. */
  lemma OneEntryScenario()
    ensures SplitAndTrim("", ',') == [""]
    ensures SplitAndTrim("ns" + "1", ',') == ["ns1"]
  {
    SplitAndTrimPaddedLast("", "ns" + "1", "", ',');
    assert "" + ("ns" + "1") + "" == "ns" + "1" == "ns1";
  }

  /** An entry of the variable: white space, a comma-free name, white space. */
  predicate PaddedEntry(a: string, name: string, b: string) {
    && AllSpace(a) && AllSpace(b)
    && ',' !in a && ',' !in name && ',' !in b
    && |name| > 0 && !IsSpace(name[0]) && !IsSpace(name[|name| - 1])
  }

  /** Three padded entries separated by commas give the three names, trimmed, in order. */
  lemma ThreePaddedEntries(a1: string, n1: string, b1: string,
                           a2: string, n2: string, b2: string,
                           a3: string, n3: string, b3: string)
    requires PaddedEntry(a1, n1, b1) && PaddedEntry(a2, n2, b2) && PaddedEntry(a3, n3, b3)
    ensures SplitAndTrim(a1 + n1 + b1 + "," + a2 + n2 + b2 + "," + a3 + n3 + b3, ',') == [n1, n2, n3]
  {
    var last := a3 + n3 + b3;
    var middle := a2 + n2 + b2 + [','] + last;
    assert a1 + n1 + b1 + "," + a2 + n2 + b2 + "," + a3 + n3 + b3 == a1 + n1 + b1 + [','] + middle;
    SplitAndTrimPaddedPiece(a1, n1, b1, ',', middle);
    SplitAndTrimPaddedPiece(a2, n2, b2, ',', last);
    SplitAndTrimPaddedLast(a3, n3, b3, ',');
    assert SplitAndTrim(a1 + n1 + b1 + [','] + middle, ',') == [n1] + ([n2] + [n3]);
  }

  /**
   * `"ns1,ns2,ns3"` gives the three namespaces, and so does
   * `" ns1   ,  ns2,  ns3  "` once every entry is trimmed.
   */
  lemma SeveralEntriesScenario()
    ensures SplitAndTrim("ns1" + "," + "ns2" + "," + "ns3", ',') == ["ns1", "ns2", "ns3"]
    ensures SplitAndTrim(" " + "ns1" + "   " + "," + "  " + "ns2" + "" + "," + "  " + "ns3" + "  ", ',') == ["ns1", "ns2", "ns3"]
  {
    ThreePaddedEntries("", "ns1", "", "", "ns2", "", "", "ns3", "");
    assert "" + "ns1" + "" + "," + "" + "ns2" + "" + "," + "" + "ns3" + "" == "ns1" + "," + "ns2" + "," + "ns3";
    ThreePaddedEntries(" ", "ns1", "   ", "  ", "ns2", "", "  ", "ns3", "  ");
  }

  /** The cluster-wide tests: one named namespace no, the empty one yes, two namespaces no. */
  lemma ClusterWideScenario()
    ensures !IsClusterWide(["namespace"])
    ensures IsClusterWide([""])
    ensures !IsClusterWide(["namespace1", "namespace2"])
  {
  }
}
