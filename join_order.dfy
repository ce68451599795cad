/** The natural order of join definitions (`JoinItem.compareTo`). */
module JoinOrder {
  import opened Wrappers
  import opened JavaLang

  /** The five fields `compareTo` looks at, in priority order; all non-null. */
  datatype SortKey = SortKey(
    indexName: string,
    queryTemplate: string,
    queryString: string,
    localField: string,
    foreignField: string)

  /** `compareTo` on non-null fields: the first non-zero field comparison, in priority order, else 0. */
  function CompareKeys(a: SortKey, b: SortKey): (c: int)
    ensures c == 0 <==> a == b
  {
    CompareStringsZeroIff(a.indexName, b.indexName);
    CompareStringsZeroIff(a.queryTemplate, b.queryTemplate);
    CompareStringsZeroIff(a.queryString, b.queryString);
    CompareStringsZeroIff(a.localField, b.localField);
    CompareStringsZeroIff(a.foreignField, b.foreignField);
    var c1 := CompareStrings(a.indexName, b.indexName);
    if c1 != 0 then c1 else
    var c2 := CompareStrings(a.queryTemplate, b.queryTemplate);
    if c2 != 0 then c2 else
    var c3 := CompareStrings(a.queryString, b.queryString);
    if c3 != 0 then c3 else
    var c4 := CompareStrings(a.localField, b.localField);
    if c4 != 0 then c4 else
    CompareStrings(a.foreignField, b.foreignField)
  }

  /** The result is decided by the first field, in priority order, on which the keys differ. */
  lemma CompareKeysFirstDifference(a: SortKey, b: SortKey)
    ensures a.indexName != b.indexName ==>
      CompareKeys(a, b) == CompareStrings(a.indexName, b.indexName)
    ensures a.indexName == b.indexName && a.queryTemplate != b.queryTemplate ==>
      CompareKeys(a, b) == CompareStrings(a.queryTemplate, b.queryTemplate)
    ensures a.indexName == b.indexName && a.queryTemplate == b.queryTemplate && a.queryString != b.queryString ==>
      CompareKeys(a, b) == CompareStrings(a.queryString, b.queryString)
    ensures (a.indexName == b.indexName && a.queryTemplate == b.queryTemplate && a.queryString == b.queryString
             && a.localField != b.localField) ==>
      CompareKeys(a, b) == CompareStrings(a.localField, b.localField)
    ensures (a.indexName == b.indexName && a.queryTemplate == b.queryTemplate && a.queryString == b.queryString
             && a.localField == b.localField) ==>
      CompareKeys(a, b) == CompareStrings(a.foreignField, b.foreignField)
  {
    CompareStringsZeroIff(a.indexName, b.indexName);
    CompareStringsZeroIff(a.queryTemplate, b.queryTemplate);
    CompareStringsZeroIff(a.queryString, b.queryString);
    CompareStringsZeroIff(a.localField, b.localField);
  }

  /** The five key fields as the item holds them, each possibly null. */
  datatype NullableKey = NullableKey(
    indexName: JString,
    queryTemplate: JString,
    queryString: JString,
    localField: JString,
    foreignField: JString)

  predicate Present(k: NullableKey) {
    k.indexName.Some? && k.queryTemplate.Some? && k.queryString.Some? && k.localField.Some? && k.foreignField.Some?
  }

  function KeyOf(k: NullableKey): SortKey
    requires Present(k)
  {
    SortKey(k.indexName.value, k.queryTemplate.value, k.queryString.value, k.localField.value, k.foreignField.value)
  }

  /** One step of `compareTo`: `a.compareTo(b)`, or `None` for the `NullPointerException` a null operand raises. */
  function CompareField(a: JString, b: JString): Option<int> {
    if a.Some? && b.Some? then Some(CompareStrings(a.value, b.value)) else None
  }

  /** Returns a non-zero or failed step as it is; continues with `rest` after a 0. */
  function Then(step: Option<int>, rest: Option<int>): Option<int> {
    if step.Some? && step.value == 0 then rest else step
  }

  /**
   * `compareTo` over possibly-null fields: it stops at the first field that
   * differs and throws (`None`) only at a null field it actually reaches.
   */
  function CompareNullableKeys(a: NullableKey, b: NullableKey): (r: Option<int>)
    ensures r == Some(0) <==> Present(a) && Present(b) && a == b
    ensures Present(a) && Present(b) ==> r == Some(CompareKeys(KeyOf(a), KeyOf(b)))
    ensures a.indexName.None? || b.indexName.None? ==> r.None?
    ensures a.indexName.Some? && b.indexName.Some? && a.indexName != b.indexName ==>
      r == Some(CompareStrings(a.indexName.value, b.indexName.value))
  {
    CompareStringsZeroIff(a.indexName.GetOr(""), b.indexName.GetOr(""));
    CompareStringsZeroIff(a.queryTemplate.GetOr(""), b.queryTemplate.GetOr(""));
    CompareStringsZeroIff(a.queryString.GetOr(""), b.queryString.GetOr(""));
    CompareStringsZeroIff(a.localField.GetOr(""), b.localField.GetOr(""));
    CompareStringsZeroIff(a.foreignField.GetOr(""), b.foreignField.GetOr(""));
    Then(CompareField(a.indexName, b.indexName),
    Then(CompareField(a.queryTemplate, b.queryTemplate),
    Then(CompareField(a.queryString, b.queryString),
    Then(CompareField(a.localField, b.localField),
         CompareField(a.foreignField, b.foreignField)))))
  }

  /** Swapping the operands negates the result, as `Comparable` requires. */
  lemma CompareKeysAntisymmetric(a: SortKey, b: SortKey)
    ensures CompareKeys(a, b) == -CompareKeys(b, a)
  {
    CompareStringsAntisymmetric(a.indexName, b.indexName);
    CompareStringsAntisymmetric(a.queryTemplate, b.queryTemplate);
    CompareStringsAntisymmetric(a.queryString, b.queryString);
    CompareStringsAntisymmetric(a.localField, b.localField);
    CompareStringsAntisymmetric(a.foreignField, b.foreignField);
  }

  /** The order is transitive, as `Comparable` requires. */
  lemma CompareKeysTransitive(a: SortKey, b: SortKey, c: SortKey)
    requires CompareKeys(a, b) < 0 && CompareKeys(b, c) < 0
    ensures CompareKeys(a, c) < 0
  {
    CompareKeysFirstDifference(a, b);
    CompareKeysFirstDifference(b, c);
    CompareKeysFirstDifference(a, c);
    if a.indexName != b.indexName || b.indexName != c.indexName {
      FieldStep(a.indexName, b.indexName, c.indexName);
    } else if a.queryTemplate != b.queryTemplate || b.queryTemplate != c.queryTemplate {
      FieldStep(a.queryTemplate, b.queryTemplate, c.queryTemplate);
    } else if a.queryString != b.queryString || b.queryString != c.queryString {
      FieldStep(a.queryString, b.queryString, c.queryString);
    } else if a.localField != b.localField || b.localField != c.localField {
      FieldStep(a.localField, b.localField, c.localField);
    } else {
      FieldStep(a.foreignField, b.foreignField, c.foreignField);
    }
  }

  /** One field of the transitivity proof: each step is `< 0` or an equality, not both equalities. */
  lemma FieldStep(x: string, y: string, z: string)
    requires x != y || y != z
    requires x != y ==> CompareStrings(x, y) < 0
    requires y != z ==> CompareStrings(y, z) < 0
    ensures x != z && CompareStrings(x, z) < 0
  {
    CompareStringsZeroIff(x, z);
    CompareStringsAntisymmetric(x, z);
    if x != y && y != z {
      CompareStringsTransitive(x, y, z);
    }
  }
}
