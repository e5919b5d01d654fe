/**
 * Validation of the descriptor before anything is written: persistence
 * without a full claim template must give a storage size that is a resource
 * quantity. Also the two message builders the validation uses.
 */
module Validation {
  import opened Wrappers
  import opened Text
  import opened Kube
  import opened Descriptor

  // ---------------------------------------------------------------------
  // Messages
  // ---------------------------------------------------------------------

  const ValidationPrefix := "validation failed: "
  const RequiredFieldPrefix := "must set the field(s): "

  /** The field path of the storage size. */
  const StorageSizeField := "spec.statefulSet.storage.size"

  /** createValidationError: the message behind a failed validation. */
  function CreateValidationError(msg: string): (r: string)
    ensures HasPrefix(r, ValidationPrefix) && r[|ValidationPrefix|..] == msg
    ensures |r| == |ValidationPrefix| + |msg|
  {
    ValidationPrefix + msg
  }

  /** requiredFieldMessage: names the missing fields, comma-separated. */
  function RequiredFieldMessage(fields: seq<string>): (r: string)
    ensures HasPrefix(r, RequiredFieldPrefix)
    ensures |fields| == 1 ==> r[|RequiredFieldPrefix|..] == fields[0]
  {
    RequiredFieldPrefix + Join(fields, ", ")
  }

  // ---------------------------------------------------------------------
  // The quantity grammar ^([+-]?[0-9.]+)([eEinumkKMGTP]*[-+]?[0-9]*)$
  // ---------------------------------------------------------------------

  /** The regular expression quoted in the parse error. */
  const QuantityPattern := "^([+-]?[0-9.]+)([eEinumkKMGTP]*[-+]?[0-9]*)$"

  predicate IsSign(c: char) {
    c == '+' || c == '-'
  }

  /** The character classes of the grammar: mantissa `[0-9.]`, suffix `[eEinumkKMGTP]`, exponent `[0-9]`. */
  datatype CharClass = Mantissa | Suffix | Exponent

  predicate InClass(c: char, cls: CharClass) {
    match cls
    case Mantissa => IsDigit(c) || c == '.'
    case Suffix => c in {'e', 'E', 'i', 'n', 'u', 'm', 'k', 'K', 'M', 'G', 'T', 'P'}
    case Exponent => IsDigit(c)
  }

  /** End of the longest run of `cls` characters starting at `i`. */
  function RunEnd(s: string, i: nat, cls: CharClass): (j: nat)
    requires i <= |s|
    ensures i <= j <= |s|
    ensures forall k :: i <= k < j ==> InClass(s[k], cls)
    ensures j < |s| ==> !InClass(s[j], cls)
    decreases |s| - i
  {
    if i < |s| && InClass(s[i], cls) then RunEnd(s, i + 1, cls) else i
  }

  /**
   * The grammar read left to right, each part as long as it can be: an
   * optional sign, at least one mantissa character, suffix letters, an
   * optional exponent sign, and nothing but digits after that.
   */
  predicate IsQuantity(s: string) {
    var a := if |s| > 0 && IsSign(s[0]) then 1 else 0;
    var b := RunEnd(s, a, Mantissa);
    b > a &&
    var c := RunEnd(s, b, Suffix);
    var d := if c < |s| && IsSign(s[c]) then c + 1 else c;
    RunEnd(s, d, Exponent) == |s|
  }

  predicate AllOf(s: string, lo: nat, hi: nat, cls: CharClass)
    requires lo <= hi <= |s|
  {
    forall k :: lo <= k < hi ==> InClass(s[k], cls)
  }

  /**
   * `s` splits at `a <= b <= c <= d` into the five parts of the grammar:
   * `[+-]?`, `[0-9.]+`, `[eEinumkKMGTP]*`, `[-+]?`, `[0-9]*`.
   */
  predicate SplitsAsQuantity(s: string, a: nat, b: nat, c: nat, d: nat) {
    && a <= 1 && a < b <= c <= d <= |s| && d <= c + 1
    && (a == 1 ==> IsSign(s[0]))
    && AllOf(s, a, b, Mantissa)
    && AllOf(s, b, c, Suffix)
    && (d == c + 1 ==> IsSign(s[c]))
    && AllOf(s, d, |s|, Exponent)
  }

  /** The regular expression's language: some split into the five parts exists. */
  ghost predicate MatchesQuantityPattern(s: string) {
    exists a: nat, b: nat, c: nat, d: nat :: SplitsAsQuantity(s, a, b, c, d)
  }

  /** A run that is `cls` up to `p` and not at `p` ends at `p`. */
  lemma RunStopsAt(s: string, i: nat, cls: CharClass, p: nat)
    requires i <= p <= |s|
    requires AllOf(s, i, p, cls)
    requires p < |s| ==> !InClass(s[p], cls)
    ensures RunEnd(s, i, cls) == p
  {
  }

  /**
   * Reading each part greedily accepts exactly the language of the
   * regular expression: no backtracking is ever needed.
   */
  lemma IsQuantityMatchesPattern(s: string)
    ensures IsQuantity(s) <==> MatchesQuantityPattern(s)
  {
    if IsQuantity(s) {
      var a := if |s| > 0 && IsSign(s[0]) then 1 else 0;
      var b := RunEnd(s, a, Mantissa);
      var c := RunEnd(s, b, Suffix);
      var d := if c < |s| && IsSign(s[c]) then c + 1 else c;
      assert SplitsAsQuantity(s, a, b, c, d);
    }
    if MatchesQuantityPattern(s) {
      var a: nat, b: nat, c: nat, d: nat :| SplitsAsQuantity(s, a, b, c, d);
      GreedyFindsSplit(s, a, b, c, d);
    }
  }

  /** Any split into the five parts is found by the greedy reading. */
  lemma GreedyFindsSplit(s: string, a': nat, b': nat, c': nat, d': nat)
    requires SplitsAsQuantity(s, a', b', c', d')
    ensures IsQuantity(s)
  {
    var a := if |s| > 0 && IsSign(s[0]) then 1 else 0;
    assert a == a';
    var b := RunEnd(s, a, Mantissa);
    assert b >= b';
    if b > b' {
      // The greedy mantissa ran into digits the split gave to the exponent.
      assert InClass(s[b'], Mantissa);
      assert c' == b' && d' == c';
      assert b == |s|;
    } else {
      RunStopsAt(s, b, Suffix, c');
      var c := RunEnd(s, b, Suffix);
      var d := if c < |s| && IsSign(s[c]) then c + 1 else c;
      assert d == d';
    }
  }

  /** The parse error of a storage size. */
  function ParseErrorMessage(size: string): string {
    "cannot parse '" + size + "': quantities must match the regular expression '" + QuantityPattern + "'"
  }

  // ---------------------------------------------------------------------
  // Validate
  // ---------------------------------------------------------------------

  /** Whether the descriptor's storage must be checked: storage without a full claim template. */
  predicate StorageSizeRequired(rc: RuntimeComponent) {
    Storage(rc).Some? && Storage(rc).value.volumeClaimTemplate.None?
  }

  /**
   * Validate: succeeds, with no error, unless storage without a claim
   * template has a missing or unparseable size; the error then names the
   * missing field, or quotes the size and the quantity grammar.
   */
  function Validate(rc: RuntimeComponent): (r: (bool, Option<string>))
    ensures r.0 <==> r.1.None?
    ensures r.0 <==> !StorageSizeRequired(rc) || (Storage(rc).value.size != "" && MatchesQuantityPattern(Storage(rc).value.size))
  {
    if !StorageSizeRequired(rc) then (true, None)
    else
      var size := Storage(rc).value.size;
      IsQuantityMatchesPattern(size);
      if size == "" then (false, Some(CreateValidationError(RequiredFieldMessage([StorageSizeField]))))
      else if !IsQuantity(size) then (false, Some(CreateValidationError(ParseErrorMessage(size))))
      else (true, None)
  }

  /**
   * Every failure message starts with `validation failed: `; a missing size
   * names its field path, a malformed one is quoted back.
   */
  lemma ValidateErrors(rc: RuntimeComponent)
    ensures var r := Validate(rc);
            && (r.1.Some? ==> HasPrefix(r.1.value, ValidationPrefix))
            && (StorageSizeRequired(rc) && Storage(rc).value.size == "" ==>
                  r.1 == Some(ValidationPrefix + RequiredFieldPrefix + StorageSizeField))
            && (StorageSizeRequired(rc) && Storage(rc).value.size != "" && !IsQuantity(Storage(rc).value.size) ==>
                  r.1 == Some(ValidationPrefix + ParseErrorMessage(Storage(rc).value.size)))
  {
    if StorageSizeRequired(rc) && Storage(rc).value.size == "" {
      var m := RequiredFieldMessage([StorageSizeField]);
      assert m == RequiredFieldPrefix + StorageSizeField;
      assert CreateValidationError(m) == ValidationPrefix + RequiredFieldPrefix + StorageSizeField;
    }
  }

  /** A descriptor whose storage carries a full claim template is never rejected, whatever its size. */
  lemma ClaimTemplateSkipsSizeCheck(rc: RuntimeComponent)
    requires Storage(rc).Some? && Storage(rc).value.volumeClaimTemplate.Some?
    ensures Validate(rc) == (true, None)
  {
  }

  // ---------------------------------------------------------------------
  // The scenarios of the unit tests
  // ---------------------------------------------------------------------

  /** `10Mi` is a quantity and `size` is not. */
  lemma TestSizes()
    ensures IsQuantity("10" + "Mi")
    ensures !IsQuantity("si" + "ze")
  {
    var good := "10" + "Mi";
    assert RunEnd(good, 0, Mantissa) == 2 by {
      assert RunEnd(good, 2, Mantissa) == 2;
    }
    assert RunEnd(good, 2, Suffix) == 4;
    var bad := "si" + "ze";
    assert !InClass(bad[0], Mantissa);
  }

  /** The descriptor of the validation test, with the given storage. */
  function ValidationTestComponent(storage: RuntimeComponentStorage): RuntimeComponent {
    NewRuntimeComponent("my-app", "runtime", map["key1" := "value1"], RuntimeComponentService(ClusterIP, 8443, None, None, "", []))
      .(statefulSet := Some(RuntimeComponentStatefulSet(map[], Some(storage))))
  }

  /**
   * The validation test, first step: an empty storage sub-spec fails with
   * `validation failed: must set the field(s): spec.statefulSet.storage.size`.
   */
  lemma ValidateMissingSizeScenario()
    ensures Validate(ValidationTestComponent(RuntimeComponentStorage("", "", None)))
            == (false, Some(ValidationPrefix + RequiredFieldPrefix + StorageSizeField))
  {
    ValidateErrors(ValidationTestComponent(RuntimeComponentStorage("", "", None)));
  }

  /**
   * The validation test, second step: the size `size` fails with
   * `validation failed: cannot parse 'size': quantities must match the
   * regular expression '<QuantityPattern>'`.
   */
  lemma ValidateMalformedSizeScenario()
    ensures Validate(ValidationTestComponent(RuntimeComponentStorage("si" + "ze", "", None)))
            == (false, Some(ValidationPrefix + ParseErrorMessage("si" + "ze")))
  {
    TestSizes();
    ValidateErrors(ValidationTestComponent(RuntimeComponentStorage("si" + "ze", "", None)));
  }

  /** The validation test, last step: size `10Mi` passes, with or without a claim template. */
  lemma ValidateGoodSizeScenario(claim: PersistentVolumeClaim)
    ensures Validate(ValidationTestComponent(RuntimeComponentStorage("10" + "Mi", "/mnt/data", Some(claim)))) == (true, None)
    ensures Validate(ValidationTestComponent(RuntimeComponentStorage("10" + "Mi", "/mnt/data", None))) == (true, None)
  {
    TestSizes();
  }

  /**
   * The message tests: `createValidationError("Test Error")` and
   * `requiredFieldMessage("Required")`; several fields are listed in order,
   * comma-separated.
   */
  lemma MessagesScenario(f: string, g: string)
    ensures CreateValidationError("Test Error") == ValidationPrefix + "Test Error"
    ensures RequiredFieldMessage(["Required"]) == RequiredFieldPrefix + "Required"
    ensures RequiredFieldMessage([f, g]) == RequiredFieldPrefix + f + ", " + g
  {
    JoinCons(f, [g], ", ");
  }
}
