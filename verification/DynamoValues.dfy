/** DynamoDB attribute values: a record of optional fields, of which a well-formed value sets exactly one. */
module DynamoValues {
  import opened Wrappers
  import opened Strings

  datatype MapField = NoMap | Map(entries: map<string, AttributeValue>)
  datatype ListField = NoList | List(items: seq<AttributeValue>)

  datatype AttributeValue = AttributeValue(
    S: Option<string>, N: Option<string>, BOOL: Option<bool>, NULL: bool, M: MapField, L: ListField)

  type Attributes = map<string, AttributeValue>

  const EMPTY: AttributeValue := AttributeValue(None, None, None, false, NoMap, NoList)

  function StringValue(s: string): AttributeValue { EMPTY.(S := Some(s)) }
  function NumberValue(n: string): AttributeValue { EMPTY.(N := Some(n)) }
  function BoolValue(b: bool): AttributeValue { EMPTY.(BOOL := Some(b)) }
  function NullValue(): AttributeValue { EMPTY.(NULL := true) }
  function MapValue(m: Attributes): AttributeValue { EMPTY.(M := Map(m)) }
  function ListValue(l: seq<AttributeValue>): AttributeValue { EMPTY.(L := List(l)) }

  function FieldCount(v: AttributeValue): nat {
    (if v.S.Some? then 1 else 0) + (if v.N.Some? then 1 else 0) + (if v.BOOL.Some? then 1 else 0)
    + (if v.NULL then 1 else 0) + (if v.M.Map? then 1 else 0) + (if v.L.List? then 1 else 0)
  }

  // exactly one field, at every depth
  predicate WellFormed(v: AttributeValue) {
    && FieldCount(v) == 1
    && (v.M.Map? ==> forall k | k in v.M.entries :: WellFormed(v.M.entries[k]))
    && (v.L.List? ==> forall i | 0 <= i < |v.L.items| :: WellFormed(v.L.items[i]))
  }

  predicate WellFormedDocument(d: Attributes) {
    forall k | k in d :: WellFormed(d[k])
  }

  // ---------- equality ----------

  // attributeValueEquals: some field is set on both sides and equal
  predicate Equals(l: AttributeValue, r: AttributeValue) {
    || (l.S.Some? && r.S.Some? && l.S.value == r.S.value)
    || (l.N.Some? && r.N.Some? && l.N.value == r.N.value)
    || (l.BOOL.Some? && r.BOOL.Some? && l.BOOL.value == r.BOOL.value)
    || (l.NULL && r.NULL)
    || (l.M.Map? && r.M.Map? && EntriesEqual(l.M, r.M))
    || (l.L.List? && r.L.List? && ItemsEqual(l.L, r.L))
  }

  // attributeDocumentsEqual
  predicate EntriesEqual(l: MapField, r: MapField)
    requires l.Map? && r.Map?
  {
    && |l.entries| == |r.entries|
    && forall k | k in l.entries :: k in r.entries && Equals(l.entries[k], r.entries[k])
  }

  // attributeListsEqual
  predicate ItemsEqual(l: ListField, r: ListField)
    requires l.List? && r.List?
  {
    && |l.items| == |r.items|
    && forall i | 0 <= i < |l.items| :: Equals(l.items[i], r.items[i])
  }

  predicate DocumentsEqual(l: Attributes, r: Attributes) {
    EntriesEqual(Map(l), Map(r))
  }

  // A value that equals any other equals itself. (A value without fields equals nothing.)
  lemma {:induction false} EqualsSelf(l: AttributeValue, r: AttributeValue)
    requires Equals(l, r)
    ensures Equals(l, l)
  {
    if l.M.Map? && r.M.Map? && EntriesEqual(l.M, r.M) {
      forall k | k in l.M.entries ensures Equals(l.M.entries[k], l.M.entries[k]) {
        EqualsSelf(l.M.entries[k], r.M.entries[k]);
      }
    }
    if l.L.List? && r.L.List? && ItemsEqual(l.L, r.L) {
      forall i | 0 <= i < |l.L.items| ensures Equals(l.L.items[i], l.L.items[i]) {
        EqualsSelf(l.L.items[i], r.L.items[i]);
      }
    }
  }

  // On well-formed values the comparison is equality.
  lemma {:induction false} EqualsIsEquality(l: AttributeValue, r: AttributeValue)
    requires WellFormed(l) && WellFormed(r)
    ensures Equals(l, r) <==> l == r
  {
    if l.M.Map? && r.M.Map? {
      forall k | k in l.M.entries && k in r.M.entries
        ensures Equals(l.M.entries[k], r.M.entries[k]) <==> l.M.entries[k] == r.M.entries[k]
      {
        EqualsIsEquality(l.M.entries[k], r.M.entries[k]);
      }
      if EntriesEqual(l.M, r.M) {
        SameEntries(l.M.entries, r.M.entries);
      }
    }
    if l.L.List? && r.L.List? {
      forall i | 0 <= i < |l.L.items| && i < |r.L.items|
        ensures Equals(l.L.items[i], r.L.items[i]) <==> l.L.items[i] == r.L.items[i]
      {
        EqualsIsEquality(l.L.items[i], r.L.items[i]);
      }
    }
  }

  lemma SameEntries(l: Attributes, r: Attributes)
    requires |l| == |r| && forall k | k in l :: k in r && l[k] == r[k]
    ensures l == r
  {
    assert l.Keys <= r.Keys && |l.Keys| == |r.Keys|;
    assert |r.Keys - l.Keys| == 0;
    assert forall k | k in r :: k in l by {
      assert forall k | k in r && k !in l :: k in r.Keys - l.Keys;
    }
  }

  lemma DocumentsEqualIsEquality(l: Attributes, r: Attributes)
    requires WellFormedDocument(l) && WellFormedDocument(r)
    ensures DocumentsEqual(l, r) <==> l == r
  {
    EqualsIsEquality(MapValue(l), MapValue(r));
  }

  // ---------- order ----------

  // What strconv.ParseFloat reads: any order-preserving choice of numbers, nothing for text that is not
  // a number or is NaN.
  type Parse = string -> Option<real>

  // compareAttributeValues
  function CompareValues(parse: Parse, l: AttributeValue, r: AttributeValue): int {
    if l.S.Some? && r.S.Some? then Compare(l.S.value, r.S.value)
    else if l.N.Some? && r.N.Some? then
      var x, y := parse(TrimSpace(l.N.value)), parse(TrimSpace(r.N.value));
      if x.None? || y.None? then 0
      else if x.value < y.value then -1 else if x.value > y.value then 1 else 0
    else 0
  }
}
