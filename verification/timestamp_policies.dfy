/**
 * The two column-based timestamp-extraction policies: a LONG column read as
 * epoch milliseconds, and a STRING column parsed with a date format. Both are
 * immutable value types whose equality and hash code come from their fields.
 */
module TimestampPolicies {
  import opened Wrappers
  import opened JavaLang

  /** A reference to a column, optionally qualified by a source. */
  datatype ColumnRef = ColumnRef(source: Option<string>, name: string)

  /** `ColumnRef.withoutSource(ColumnName.of(name))`. */
  function WithoutSource(name: string): ColumnRef { ColumnRef(None, name) }

  datatype TimestampExtractionPolicy =
    | LongColumnTimestamp(timestampField: ColumnRef)
    | StringTimestamp(timestampField: ColumnRef, format: string)

  /** The extractor `create(index)` returns. */
  datatype TimestampExtractor =
    | LongTimestampExtractor(columnIndex: int)
    | StringTimestampExtractor(format: string, columnIndex: int)

  /** Any object an `equals` call may receive. */
  datatype PolicyObject = NullObject | PolicyValue(policy: TimestampExtractionPolicy) | OtherValue(className: string)

  // ---------------------------------------------------------------------------
  // Constructors and getters
  // ---------------------------------------------------------------------------

  function NewLongColumnPolicy(timestampField: Option<ColumnRef>): (r: Result<TimestampExtractionPolicy, Exn>)
    ensures r.Success? <==> timestampField.Some?
    ensures r.Success? ==> r.value.LongColumnTimestamp? && GetTimestampField(r.value) == timestampField.value
    ensures r.Failure? ==> r.error == Exn(NullPointer, "timestampField can't be null")
  {
    if timestampField.None? then Failure(Exn(NullPointer, "timestampField can't be null"))
    else Success(LongColumnTimestamp(timestampField.value))
  }

  /** The field is checked first, then the format. */
  function NewStringPolicy(timestampField: Option<ColumnRef>, format: Option<string>): (r: Result<TimestampExtractionPolicy, Exn>)
    ensures r.Success? <==> timestampField.Some? && format.Some?
    ensures r.Success? ==> r.value.StringTimestamp? && GetTimestampField(r.value) == timestampField.value
                           && r.value.format == format.value
    ensures timestampField.None? ==> r == Failure(Exn(NullPointer, "timestampField can't be null"))
    ensures timestampField.Some? && format.None? ==> r == Failure(Exn(NullPointer, "format can't be null"))
  {
    if timestampField.None? then Failure(Exn(NullPointer, "timestampField can't be null"))
    else if format.None? then Failure(Exn(NullPointer, "format can't be null"))
    else Success(StringTimestamp(timestampField.value, format.value))
  }

  function GetTimestampField(p: TimestampExtractionPolicy): ColumnRef { p.timestampField }

  /** `create(columnIndex)`: an extractor of the policy's kind reading that column. */
  function Create(p: TimestampExtractionPolicy, columnIndex: int): (r: TimestampExtractor)
    ensures r.columnIndex == columnIndex
    ensures p.LongColumnTimestamp? <==> r.LongTimestampExtractor?
    ensures p.StringTimestamp? ==> r.format == p.format
  {
    match p
    case LongColumnTimestamp(_) => LongTimestampExtractor(columnIndex)
    case StringTimestamp(_, format) => StringTimestampExtractor(format, columnIndex)
  }

  // ---------------------------------------------------------------------------
  // equals / hashCode
  // ---------------------------------------------------------------------------

  /** `LongColumnTimestampExtractionPolicy.equals`: an instance of the same class with an equal field. */
  function LongColumnEquals(self: TimestampExtractionPolicy, other: PolicyObject): (r: bool)
    requires self.LongColumnTimestamp?
    ensures r <==> other == PolicyValue(self)
  {
    if !other.PolicyValue? || !other.policy.LongColumnTimestamp? then false
    else other.policy.timestampField == self.timestampField
  }

  /** `StringTimestampExtractionPolicy.equals`: the same class, an equal field and an equal format. */
  function StringEquals(self: TimestampExtractionPolicy, other: PolicyObject): (r: bool)
    requires self.StringTimestamp?
    ensures r <==> other == PolicyValue(self)
  {
    if !other.PolicyValue? || !other.policy.StringTimestamp? then false
    else other.policy.timestampField == self.timestampField && other.policy.format == self.format
  }

  /** Dispatch of `equals` on the receiver's class. */
  function PolicyEquals(self: TimestampExtractionPolicy, other: PolicyObject): (r: bool)
    ensures r <==> other == PolicyValue(self)
  {
    match self
    case LongColumnTimestamp(_) => LongColumnEquals(self, other)
    case StringTimestamp(_, _) => StringEquals(self, other)
  }

  /**
   * `hashCode()`: `Objects.hash(timestampField)`, and for the string policy
   * `Objects.hash(timestampField, format)`. `columnHash` is `ColumnRef.hashCode`.
   */
  function PolicyHash(p: TimestampExtractionPolicy, columnHash: ColumnRef -> int): (r: int)
    ensures IsInt(r)
    ensures p.LongColumnTimestamp? ==> r == WrapInt(31 + columnHash(p.timestampField))
    ensures p.StringTimestamp? ==> r == WrapInt(961 + 31 * columnHash(p.timestampField) + StringHashCode(p.format))
  {
    match p
    case LongColumnTimestamp(f) =>
      var hs := [columnHash(f)];
      assert hs[..0] == [];
      assert Polynomial(1, hs) == 31 * Polynomial(1, hs[..0]) + hs[0];
      ObjectsHash(hs)
    case StringTimestamp(f, format) =>
      var hs := [columnHash(f), StringHashCode(format)];
      assert hs[..1] == [columnHash(f)] && hs[..1][..0] == [];
      assert Polynomial(1, hs[..1]) == 31 + hs[0];
      assert Polynomial(1, hs) == 31 * Polynomial(1, hs[..1]) + hs[1];
      ObjectsHash(hs)
  }

  /** Equal policies hash equally, whatever `ColumnRef.hashCode` is. */
  lemma HashConsistentWithEquals(a: TimestampExtractionPolicy, b: TimestampExtractionPolicy, columnHash: ColumnRef -> int)
    requires PolicyEquals(a, PolicyValue(b))
    ensures PolicyHash(a, columnHash) == PolicyHash(b, columnHash)
  {
  }

  /** A long-column policy is never equal to a string policy, and the other way round. */
  lemma KindsNeverEqual(field: ColumnRef, format: string)
    ensures !PolicyEquals(LongColumnTimestamp(field), PolicyValue(StringTimestamp(field, format)))
    ensures !PolicyEquals(StringTimestamp(field, format), PolicyValue(LongColumnTimestamp(field)))
  {
  }

  /** Two string policies on the same column are equal exactly when their formats are. */
  lemma StringPolicyFormatMatters(field: ColumnRef, f1: string, f2: string)
    ensures PolicyEquals(StringTimestamp(field, f1), PolicyValue(StringTimestamp(field, f2))) <==> f1 == f2
  {
  }

  /**
   * The equality groups of the long-column policy: two policies on `field1`
   * are equal (in both directions, and each to itself); a policy on `field2`
   * equals neither, and none equals null or another class.
   */
  lemma LongColumnEqualityGroups()
    ensures var a := NewLongColumnPolicy(Some(WithoutSource("field1")));
            var b := NewLongColumnPolicy(Some(WithoutSource("field1")));
            var c := NewLongColumnPolicy(Some(WithoutSource("field2")));
            && a.Success? && b.Success? && c.Success?
            && PolicyEquals(a.value, PolicyValue(b.value)) && PolicyEquals(b.value, PolicyValue(a.value))
            && PolicyEquals(a.value, PolicyValue(a.value)) && PolicyEquals(c.value, PolicyValue(c.value))
            && !PolicyEquals(a.value, PolicyValue(c.value)) && !PolicyEquals(c.value, PolicyValue(b.value))
            && !PolicyEquals(a.value, NullObject) && !PolicyEquals(c.value, OtherValue("java.lang.Object"))
  {
    assert WithoutSource("field1") != WithoutSource("field2") by {
      assert "field1"[5] != "field2"[5];
    }
  }
}
