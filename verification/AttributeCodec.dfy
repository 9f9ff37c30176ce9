/** The stable JSON encoding of attribute documents and its decoder, on JSON trees. */
module AttributeCodec {
  import opened Wrappers
  import opened Strings
  import opened DynamoValues
  import opened KeyOrder
  import StableSort

  // ---------- JSON trees ----------

  // An object keeps its fields in the order in which they are written.
  datatype Json =
    | JNull | JBool(value: bool) | JNumber(digits: string) | JString(text: string)
    | JArray(elements: seq<Json>) | JObject(fields: seq<Field>)

  datatype Field = Field(name: string, value: Json)

  // the last field of that name
  function Get(fields: seq<Field>, name: string): (r: Option<Json>)
    ensures r.Some? ==> exists i :: 0 <= i < |fields| && fields[i] == Field(name, r.value)
    ensures r.None? ==> forall i | 0 <= i < |fields| :: fields[i].name != name
    decreases |fields|
  {
    if |fields| == 0 then None
    else if fields[|fields| - 1].name == name then Some(fields[|fields| - 1].value)
    else Get(fields[..|fields| - 1], name)
  }

  // ---------- encoding ----------

  function ScalarFields(v: AttributeValue): seq<Field> {
    (if v.S.Some? then [Field("S", JString(v.S.value))] else [])
    + (if v.N.Some? then [Field("N", JString(v.N.value))] else [])
    + (if v.BOOL.Some? then [Field("BOOL", JBool(v.BOOL.value))] else [])
    + (if v.NULL then [Field("NULL", JBool(true))] else [])
  }

  // marshalAttributeValueStable; a value without fields is written as null
  ghost function Encode(v: AttributeValue): Json {
    var fields := ScalarFields(v)
      + (if v.M.Map? then [Field("M", JObject(EncodeFields(v.M)))] else [])
      + (if v.L.List? then [Field("L", JArray(EncodeItems(v.L)))] else []);
    if |fields| == 0 then JNull else JObject(fields)
  }

  // marshalAttributesStable
  ghost function EncodeFields(m: MapField): (fields: seq<Field>)
    requires m.Map?
    ensures |fields| == |m.entries|
  {
    var keys := SortedKeys(m.entries.Keys);
    seq(|keys|, i requires 0 <= i < |keys| =>
      assert keys[i] in keys;
      Field(keys[i], Encode(m.entries[keys[i]])))
  }

  ghost function EncodeItems(l: ListField): (elements: seq<Json>)
    requires l.List?
    ensures |elements| == |l.items|
  {
    seq(|l.items|, i requires 0 <= i < |l.items| => Encode(l.items[i]))
  }

  ghost function EncodeDocument(d: Attributes): Json {
    JObject(EncodeFields(Map(d)))
  }

  // the keys of a map in whatever order it yields them
  method CollectKeys(entries: Attributes) returns (keys: seq<string>)
    ensures forall k :: k in keys <==> k in entries
    ensures |keys| == |entries.Keys|
  {
    keys := [];
    var rest := entries.Keys;
    while rest != {}
      invariant rest <= entries.Keys
      invariant forall k :: k in keys <==> k in entries && k !in rest
      invariant |keys| + |rest| == |entries.Keys|
      decreases |rest|
    {
      var k :| k in rest;
      keys, rest := keys + [k], rest - {k};
    }
  }

  method MarshalFields(m: MapField) returns (fields: seq<Field>)
    requires m.Map?
    ensures fields == EncodeFields(m)
    decreases m
  {
    hide *;
    var collected := CollectKeys(m.entries);
    SortIsSortedKeys(m.entries.Keys, collected);
    var keys := StableSort.Sort(Less, collected);
    fields := [];
    for i := 0 to |keys|
      invariant fields == EncodeFields(m)[..i]
    {
      FieldAt(m, i);
      var value := MarshalValue(m.entries[keys[i]]);
      fields := fields + [Field(keys[i], value)];
    }
  }

  lemma FieldAt(m: MapField, i: nat)
    requires m.Map? && i < |m.entries|
    ensures var k := SortedKeys(m.entries.Keys)[i];
      k in m.entries && EncodeFields(m)[i] == Field(k, Encode(m.entries[k]))
  {
    assert SortedKeys(m.entries.Keys)[i] in SortedKeys(m.entries.Keys);
  }

  method MarshalItems(l: ListField) returns (elements: seq<Json>)
    requires l.List?
    ensures elements == EncodeItems(l)
    decreases l
  {
    elements := [];
    for i := 0 to |l.items|
      invariant elements == EncodeItems(l)[..i]
    {
      var element := MarshalValue(l.items[i]);
      elements := elements + [element];
    }
  }

  method MarshalScalars(v: AttributeValue) returns (parts: seq<Field>)
    ensures parts == ScalarFields(v)
  {
    parts := [];
    if v.S.Some? {
      parts := parts + [Field("S", JString(v.S.value))];
    }
    if v.N.Some? {
      parts := parts + [Field("N", JString(v.N.value))];
    }
    if v.BOOL.Some? {
      parts := parts + [Field("BOOL", JBool(v.BOOL.value))];
    }
    if v.NULL {
      parts := parts + [Field("NULL", JBool(true))];
    }
  }

  method MarshalValue(v: AttributeValue) returns (j: Json)
    ensures j == Encode(v)
    decreases v
  {
    var parts := MarshalScalars(v);
    if v.M.Map? {
      var nested := MarshalFields(v.M);
      parts := parts + [Field("M", JObject(nested))];
    }
    if v.L.List? {
      var nested := MarshalItems(v.L);
      parts := parts + [Field("L", JArray(nested))];
    }
    j := if |parts| == 0 then JNull else JObject(parts);
  }

  // ---------- decoding ----------

  datatype DecodeError = Malformed

  // What json.Unmarshal makes of a field of a stored value: nothing for a missing or null field, an error for a
  // value of another type.
  function TextField(fields: seq<Field>, name: string): Result<Option<string>, DecodeError> {
    match Get(fields, name)
    case None => Ok(None)
    case Some(JNull) => Ok(None)
    case Some(JString(text)) => Ok(Some(text))
    case Some(_) => Err(Malformed)
  }

  function BoolField(fields: seq<Field>, name: string): Result<Option<bool>, DecodeError> {
    match Get(fields, name)
    case None => Ok(None)
    case Some(JNull) => Ok(None)
    case Some(JBool(value)) => Ok(Some(value))
    case Some(_) => Err(Malformed)
  }

  function ObjectField(fields: seq<Field>, name: string): Result<Option<Json>, DecodeError> {
    match Get(fields, name)
    case None => Ok(None)
    case Some(JNull) => Ok(None)
    case Some(JObject(fs)) => Ok(Some(JObject(fs)))
    case Some(_) => Err(Malformed)
  }

  function ArrayField(fields: seq<Field>, name: string): Result<Option<Json>, DecodeError> {
    match Get(fields, name)
    case None => Ok(None)
    case Some(JNull) => Ok(None)
    case Some(JArray(es)) => Ok(Some(JArray(es)))
    case Some(_) => Err(Malformed)
  }

  // decodeAttributeValue: a stored value, or a plain JSON value written by an earlier version
  function Decode(j: Json): Result<AttributeValue, DecodeError>
    decreases j
  {
    match j
    case JNull => Ok(NullValue())
    case JBool(b) => Ok(BoolValue(b))
    case JNumber(n) => Ok(NumberValue(n))
    case JString(s) => Ok(StringValue(s))
    case JArray(_) =>
      (match DecodeElements(j)
       case Err(e) => Err(e)
       case Ok(items) => Ok(ListValue(items)))
    case JObject(_) =>
      match DecodeStored(j)
      case Err(e) => Err(e)
      case Ok(Some(v)) => Ok(v)
      case Ok(None) =>
        match DecodeEntries(j)
        case Err(e) => Err(e)
        case Ok(m) => Ok(MapValue(m))
  }

  // decodeStoredAttributeValue: the first field that is set decides
  function DecodeStored(j: Json): Result<Option<AttributeValue>, DecodeError>
    requires j.JObject?
    decreases j, 0
  {
    var s, n := TextField(j.fields, "S"), TextField(j.fields, "N");
    var b, z := BoolField(j.fields, "BOOL"), BoolField(j.fields, "NULL");
    var m, l := ObjectField(j.fields, "M"), ArrayField(j.fields, "L");
    if s.Err? || n.Err? || b.Err? || z.Err? || m.Err? || l.Err? then Err(Malformed)
    else if s.value.Some? then Ok(Some(StringValue(s.value.value)))
    else if n.value.Some? then Ok(Some(NumberValue(n.value.value)))
    else if b.value.Some? then Ok(Some(BoolValue(b.value.value)))
    else if z.value == Some(true) then Ok(Some(NullValue()))
    else if m.value.Some? then
      match DecodeEntries(m.value.value)
      case Err(e) => Err(e)
      case Ok(entries) => Ok(Some(MapValue(entries)))
    else if l.value.Some? then
      match DecodeElements(l.value.value)
      case Err(e) => Err(e)
      case Ok(items) => Ok(Some(ListValue(items)))
    else Ok(None)
  }

  // every field must decode; a later field of the same name wins
  function DecodeEntries(j: Json): Result<Attributes, DecodeError>
    requires j.JObject?
    decreases j, 0
  {
    if exists i :: 0 <= i < |j.fields| && Decode(j.fields[i].value).Err? then Err(Malformed)
    else Ok(map name | name in FieldNames(j.fields) :: Decode(Get(j.fields, name).value).value)
  }

  function FieldNames(fields: seq<Field>): (names: set<string>)
    ensures forall name | name in names :: Get(fields, name).Some?
  {
    set i | 0 <= i < |fields| :: fields[i].name
  }

  function DecodeElements(j: Json): Result<seq<AttributeValue>, DecodeError>
    requires j.JArray?
    decreases j, 0
  {
    if exists i :: 0 <= i < |j.elements| && Decode(j.elements[i]).Err? then Err(Malformed)
    else Ok(seq(|j.elements|, i requires 0 <= i < |j.elements| => Decode(j.elements[i]).value))
  }

  // ---------- round trip ----------

  lemma DecodedHasOneField(j: Json)
    requires Decode(j).Ok?
    ensures FieldCount(Decode(j).value) == 1
  {
  }

  // the stored form of a value with one field
  function Single(name: string, value: Json): Json {
    JObject([Field(name, value)])
  }

  lemma GetSingle(name: string, value: Json, other: string)
    ensures Get(Single(name, value).fields, other) == if name == other then Some(value) else None
  {
    var fields := Single(name, value).fields;
    assert fields[..0] == [];
  }

  lemma EncodedSingle(v: AttributeValue)
    requires FieldCount(v) == 1
    ensures v.S.Some? ==> Encode(v) == Single("S", JString(v.S.value))
    ensures v.N.Some? ==> Encode(v) == Single("N", JString(v.N.value))
    ensures v.BOOL.Some? ==> Encode(v) == Single("BOOL", JBool(v.BOOL.value))
    ensures v.NULL ==> Encode(v) == Single("NULL", JBool(true))
    ensures v.M.Map? ==> Encode(v) == Single("M", JObject(EncodeFields(v.M)))
    ensures v.L.List? ==> Encode(v) == Single("L", JArray(EncodeItems(v.L)))
  {
  }

  lemma DifferentNames()
    ensures "S" != "N" && "S" != "M" && "S" != "L" && "N" != "M" && "N" != "L" && "M" != "L"
    ensures "BOOL" !in {"S", "N", "M", "L"} && "NULL" !in {"S", "N", "M", "L"}
    ensures "BOOL" != "NULL"
  {
    assert "S"[0] != "N"[0] && "S"[0] != "M"[0] && "S"[0] != "L"[0] && "N"[0] != "M"[0] && "N"[0] != "L"[0] && "M"[0] != "L"[0];
    assert |"S"| == |"N"| == |"M"| == |"L"| == 1;
    assert |"BOOL"| == |"NULL"| == 4;
    assert "BOOL"[0] != "NULL"[0];
  }

  lemma GetFromSingle(name: string, value: Json)
    ensures forall other :: Get(Single(name, value).fields, other) == if name == other then Some(value) else None
  {
    forall other {
      GetSingle(name, value, other);
    }
  }

  // What the decoder makes of a stored value with one field.
  lemma {:induction false} DecodeText(text: string)
    ensures Decode(Single("S", JString(text))) == Ok(StringValue(text))
    ensures Decode(Single("N", JString(text))) == Ok(NumberValue(text))
  {
    DifferentNames();
    GetFromSingle("S", JString(text));
    GetFromSingle("N", JString(text));
  }

  lemma {:induction false} DecodeFlag(b: bool)
    ensures Decode(Single("BOOL", JBool(b))) == Ok(BoolValue(b))
    ensures Decode(Single("NULL", JBool(true))) == Ok(NullValue())
  {
    DifferentNames();
    GetFromSingle("BOOL", JBool(b));
    GetFromSingle("NULL", JBool(true));
  }

  lemma {:induction false} DecodeMap(fields: seq<Field>, entries: Attributes)
    ensures Decode(Single("M", JObject(fields))) == Ok(MapValue(entries)) <==> DecodeEntries(JObject(fields)) == Ok(entries)
  {
    DifferentNames();
    GetFromSingle("M", JObject(fields));
  }

  lemma {:induction false} DecodeList(elements: seq<Json>, items: seq<AttributeValue>)
    ensures Decode(Single("L", JArray(elements))) == Ok(ListValue(items)) <==> DecodeElements(JArray(elements)) == Ok(items)
  {
    DifferentNames();
    GetFromSingle("L", JArray(elements));
  }

  // the encoding of an entry of a map
  ghost function EncodedEntry(m: MapField, k: string): Json
    requires m.Map?
  {
    if k in m.entries then Encode(m.entries[k]) else JNull
  }

  lemma {:induction false} EncodedFields(m: MapField)
    requires m.Map?
    ensures var fields := EncodeFields(m);
      && FieldNames(fields) == m.entries.Keys
      && (forall i | 0 <= i < |fields| :: fields[i].value == EncodedEntry(m, fields[i].name))
      && (forall k | k in m.entries :: Get(fields, k) == Some(EncodedEntry(m, k)))
  {
    var fields, keys := EncodeFields(m), SortedKeys(m.entries.Keys);
    forall i | 0 <= i < |fields| ensures fields[i] == Field(keys[i], EncodedEntry(m, keys[i])) {
      assert keys[i] in keys;
    }
    FieldsByName(fields, keys, k => EncodedEntry(m, k));
  }

  // The fields of a map are written in the ascending order of their names, each once, whatever the order of the map.
  lemma FieldsAscend(m: MapField)
    requires m.Map?
    ensures var fields := EncodeFields(m);
      && (forall i, j | 0 <= i < j < |fields| :: Less(fields[i].name, fields[j].name))
      && (forall k :: k in FieldNames(fields) <==> k in m.entries)
      && (forall i | 0 <= i < |fields| :: fields[i].value == EncodedEntry(m, fields[i].name))
  {
    EncodedFields(m);
    SortedKeysAscend(m.entries.Keys);
    hide EncodedEntry, Less, SortedKeys, Encode;
  }

  lemma FieldsByName(fields: seq<Field>, keys: seq<string>, encoded: string -> Json)
    requires |fields| == |keys| && forall i | 0 <= i < |fields| :: fields[i] == Field(keys[i], encoded(keys[i]))
    ensures forall k :: k in FieldNames(fields) <==> k in keys
    ensures forall k | k in keys :: Get(fields, k) == Some(encoded(k))
  {
    forall k | k in keys ensures k in FieldNames(fields) && Get(fields, k) == Some(encoded(k)) {
      var i :| 0 <= i < |keys| && keys[i] == k;
      assert fields[i].name == k;
    }
    forall k | k in FieldNames(fields) ensures k in keys {
      var i :| 0 <= i < |fields| && fields[i].name == k;
      assert keys[i] == k;
    }
  }

  lemma {:induction false} EntriesDecode(fields: seq<Field>, entries: Attributes, encoded: string -> Json)
    requires FieldNames(fields) == entries.Keys
    requires forall i | 0 <= i < |fields| :: fields[i].value == encoded(fields[i].name)
    requires forall k | k in entries :: Get(fields, k) == Some(encoded(k))
    ensures DecodeEntries(JObject(fields)) == Ok(entries) <==> forall k | k in entries :: Decode(encoded(k)) == Ok(entries[k])
  {
    var r := DecodeEntries(JObject(fields));
    if forall k | k in entries :: Decode(encoded(k)) == Ok(entries[k]) {
      forall i | 0 <= i < |fields| ensures Decode(fields[i].value).Ok? {
        assert fields[i].name in FieldNames(fields);
      }
      assert r.value == entries;
    }
    if r == Ok(entries) {
      forall k | k in entries ensures Decode(encoded(k)) == Ok(entries[k]) {
        assert k in FieldNames(fields);
        var i :| 0 <= i < |fields| && fields[i].name == k;
        assert Decode(fields[i].value).Ok?;
      }
    }
  }

  // A map comes back exactly if each of its entries does.
  lemma {:induction false} DecodeEncodedEntries(m: MapField)
    requires m.Map?
    ensures DecodeEntries(JObject(EncodeFields(m))) == Ok(m.entries) <==>
      forall k | k in m.entries :: Decode(Encode(m.entries[k])) == Ok(m.entries[k])
  {
    EncodedFields(m);
    EntriesDecode(EncodeFields(m), m.entries, k => EncodedEntry(m, k));
  }

  // A list comes back exactly if each of its items does.
  lemma {:induction false} DecodeEncodedItems(l: ListField)
    requires l.List?
    ensures DecodeElements(JArray(EncodeItems(l))) == Ok(l.items) <==>
      forall i | 0 <= i < |l.items| :: Decode(Encode(l.items[i])) == Ok(l.items[i])
  {
    var elements := EncodeItems(l);
    assert forall i | 0 <= i < |elements| :: elements[i] == Encode(l.items[i]);
    ElementsDecode(elements, l.items);
  }

  lemma {:induction false} ElementsDecode(elements: seq<Json>, items: seq<AttributeValue>)
    requires |elements| == |items|
    ensures DecodeElements(JArray(elements)) == Ok(items) <==>
      forall i | 0 <= i < |items| :: Decode(elements[i]) == Ok(items[i])
  {
    var r := DecodeElements(JArray(elements));
    if forall i | 0 <= i < |items| :: Decode(elements[i]) == Ok(items[i]) {
      assert r.Ok? && r.value == items;
    }
    if r == Ok(items) {
      forall i | 0 <= i < |items| ensures Decode(elements[i]) == Ok(items[i]) {
        assert r.value[i] == Decode(elements[i]).value;
      }
    }
  }

  // the children of a value come back
  ghost predicate ChildrenReturn(v: AttributeValue) {
    && (v.M.Map? ==> DecodeEntries(JObject(EncodeFields(v.M))) == Ok(v.M.entries))
    && (v.L.List? ==> DecodeElements(JArray(EncodeItems(v.L))) == Ok(v.L.items))
  }

  // A value with one field comes back exactly if its children do.
  lemma {:induction false} DecodeEncodedOne(v: AttributeValue)
    requires FieldCount(v) == 1
    ensures Decode(Encode(v)) == Ok(v) <==> ChildrenReturn(v)
  {
    EncodedSingle(v);
    if v.M.Map? {
      DecodeMap(EncodeFields(v.M), v.M.entries);
    } else if v.L.List? {
      DecodeList(EncodeItems(v.L), v.L.items);
    } else if v.S.Some? {
      DecodeText(v.S.value);
    } else if v.N.Some? {
      DecodeText(v.N.value);
    } else {
      DecodeFlag(v.BOOL.Some? && v.BOOL.value);
    }
  }

  // Decoding the encoding of a value gives it back exactly if the value is well-formed.
  lemma {:induction false} RoundTripIff(v: AttributeValue)
    ensures Decode(Encode(v)) == Ok(v) <==> WellFormed(v)
    decreases v
  {
    if Decode(Encode(v)) == Ok(v) {
      DecodedHasOneField(Encode(v));
    }
    if FieldCount(v) == 1 {
      DecodeEncodedOne(v);
      if v.M.Map? {
        DecodeEncodedEntries(v.M);
        forall k | k in v.M.entries
          ensures Decode(Encode(v.M.entries[k])) == Ok(v.M.entries[k]) <==> WellFormed(v.M.entries[k])
        {
          RoundTripIff(v.M.entries[k]);
        }
      }
      if v.L.List? {
        DecodeEncodedItems(v.L);
        forall i | 0 <= i < |v.L.items|
          ensures Decode(Encode(v.L.items[i])) == Ok(v.L.items[i]) <==> WellFormed(v.L.items[i])
        {
          RoundTripIff(v.L.items[i]);
        }
      }
    }
  }

  // decodeAttributes
  lemma DocumentRoundTripIff(d: Attributes)
    ensures DecodeEntries(EncodeDocument(d)) == Ok(d) <==> WellFormedDocument(d)
  {
    DecodeEncodedEntries(Map(d));
    forall k | k in d ensures Decode(Encode(d[k])) == Ok(d[k]) <==> WellFormed(d[k]) {
      RoundTripIff(d[k]);
    }
  }

  // The encoding is canonical: equal documents have equal encodings, different ones have different encodings.
  lemma Canonical(d: Attributes, e: Attributes)
    requires WellFormedDocument(d) && WellFormedDocument(e)
    ensures EncodeDocument(d) == EncodeDocument(e) <==> d == e
  {
    DocumentRoundTripIff(d);
    DocumentRoundTripIff(e);
  }

  // A value without a field comes back as NULL, and of a text that is also a number only the text comes back.
  lemma OtherValuesLost(text: string, numeral: string)
    ensures Decode(Encode(EMPTY)) == Ok(NullValue()) && NullValue() != EMPTY
    ensures var both := StringValue(text).(N := Some(numeral));
      Decode(Encode(both)) == Ok(StringValue(text)) && StringValue(text) != both
  {
    var both := StringValue(text).(N := Some(numeral));
    var fields := [Field("S", JString(text)), Field("N", JString(numeral))];
    assert Encode(both) == JObject(fields);
    DifferentNames();
    assert fields[1..] == [Field("N", JString(numeral))];
    assert Get(fields, "S") == Some(JString(text)) && Get(fields, "N") == Some(JString(numeral));
    assert Get(fields, "BOOL") == Get(fields, "NULL") == Get(fields, "M") == Get(fields, "L") == None;
  }
}
