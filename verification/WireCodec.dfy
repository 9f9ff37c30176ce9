/** Attribute values as requests carry them, with string and number sets, and their form in the domain, where
    a set is a map with a reserved key. */
module WireCodec {
  import opened Wrappers
  import opened DynamoValues

  datatype WireMap = NoWireMap | WireMap(entries: map<string, WireValue>)
  datatype WireList = NoWireList | WireList(items: seq<WireValue>)

  // An empty set is as good as none.
  datatype WireValue = WireValue(
    S: Option<string>, N: Option<string>, SS: seq<string>, NS: seq<string>,
    BOOL: Option<bool>, NULL: bool, M: WireMap, L: WireList)

  const BLANK: WireValue := WireValue(None, None, [], [], None, false, NoWireMap, NoWireList)

  const SET_TYPE := "__mildstack_set_type"
  const VALUES := "values"

  function WireFieldCount(w: WireValue): nat {
    (if w.S.Some? then 1 else 0) + (if w.N.Some? then 1 else 0) + (if |w.SS| > 0 then 1 else 0)
    + (if |w.NS| > 0 then 1 else 0) + (if w.BOOL.Some? then 1 else 0) + (if w.NULL then 1 else 0)
    + (if w.M.WireMap? then 1 else 0) + (if w.L.WireList? then 1 else 0)
  }

  // ---------- to the domain ----------

  function Strings(ss: seq<string>): seq<AttributeValue> {
    seq(|ss|, i requires 0 <= i < |ss| => StringValue(ss[i]))
  }

  function Numbers(ns: seq<string>): seq<AttributeValue> {
    seq(|ns|, i requires 0 <= i < |ns| => NumberValue(ns[i]))
  }

  function SetValue(kind: string, elements: seq<AttributeValue>): AttributeValue {
    MapValue(map[SET_TYPE := StringValue(kind), VALUES := ListValue(elements)])
  }

  // attributeValueToDomain; nothing for a value without fields, at any depth
  function ToDomain(w: WireValue): Option<AttributeValue>
    decreases w
  {
    if w.S.Some? then Some(StringValue(w.S.value))
    else if w.N.Some? then Some(NumberValue(w.N.value))
    else if |w.SS| > 0 then Some(SetValue("SS", Strings(w.SS)))
    else if |w.NS| > 0 then Some(SetValue("NS", Numbers(w.NS)))
    else if w.BOOL.Some? then Some(BoolValue(w.BOOL.value))
    else if w.NULL then Some(NullValue())
    else if w.M.WireMap? then
      if exists k :: k in w.M.entries && ToDomain(w.M.entries[k]).None? then None
      else Some(MapValue(map k | k in w.M.entries :: ToDomain(w.M.entries[k]).value))
    else if w.L.WireList? then
      if exists i :: 0 <= i < |w.L.items| && ToDomain(w.L.items[i]).None? then None
      else Some(ListValue(seq(|w.L.items|, i requires 0 <= i < |w.L.items| => ToDomain(w.L.items[i]).value)))
    else None
  }

  lemma SetEntries(kind: string, elements: seq<AttributeValue>)
    ensures var entries := SetValue(kind, elements).M.entries;
      && entries.Keys == {"__mildstack_set_type", "values"} && SetValue(kind, elements) == MapValue(entries)
      && entries["__mildstack_set_type"] == StringValue(kind) && entries["values"] == ListValue(elements)
  {
    assert SET_TYPE[0] != VALUES[0];
  }

  // A value with one field: texts, numbers and flags stay what they are, maps and lists keep their names and places, and
  // a set becomes a map with two entries, its kind and its elements in their order.
  lemma DomainForm(w: WireValue)
    requires WireFieldCount(w) == 1 && ToDomain(w).Some?
    ensures var v := ToDomain(w).value;
      && (w.S.Some? ==> v == StringValue(w.S.value))
      && (w.N.Some? ==> v == NumberValue(w.N.value))
      && (w.BOOL.Some? ==> v == BoolValue(w.BOOL.value))
      && (w.NULL ==> v == NullValue())
      && (|w.SS| > 0 ==> IsSet(v, "SS", |w.SS|) && forall i | 0 <= i < |w.SS| :: v.M.entries["values"].L.items[i] == StringValue(w.SS[i]))
      && (|w.NS| > 0 ==> IsSet(v, "NS", |w.NS|) && forall i | 0 <= i < |w.NS| :: v.M.entries["values"].L.items[i] == NumberValue(w.NS[i]))
      && (w.M.WireMap? ==>
            && v.M.Map? && v == MapValue(v.M.entries) && v.M.entries.Keys == w.M.entries.Keys
            && forall k | k in w.M.entries :: ToDomain(w.M.entries[k]) == Some(v.M.entries[k]))
      && (w.L.WireList? ==>
            && v.L.List? && v == ListValue(v.L.items) && |v.L.items| == |w.L.items|
            && forall i | 0 <= i < |w.L.items| :: ToDomain(w.L.items[i]) == Some(v.L.items[i]))
  {
    if |w.SS| > 0 {
      SetEntries("SS", Strings(w.SS));
    } else if |w.NS| > 0 {
      SetEntries("NS", Numbers(w.NS));
    }
    hide SetValue;
  }

  // a map with the kind of a set and that many elements
  predicate IsSet(v: AttributeValue, kind: string, size: nat) {
    && v.M.Map? && v == MapValue(v.M.entries) && v.M.entries.Keys == {"__mildstack_set_type", "values"}
    && v.M.entries["__mildstack_set_type"] == StringValue(kind)
    && v.M.entries["values"].L.List? && v.M.entries["values"] == ListValue(v.M.entries["values"].L.items)
    && |v.M.entries["values"].L.items| == size
  }

  // ---------- from the domain ----------

  // the elements of a set that have the field
  function Texts(items: seq<AttributeValue>): seq<string> {
    if |items| == 0 then [] else (if items[0].S.Some? then [items[0].S.value] else []) + Texts(items[1..])
  }

  function Numerals(items: seq<AttributeValue>): seq<string> {
    if |items| == 0 then [] else (if items[0].N.Some? then [items[0].N.value] else []) + Numerals(items[1..])
  }

  // a map that reads as a set of that kind
  predicate ReadsAsSet(m: Attributes, kind: string) {
    && SET_TYPE in m && m[SET_TYPE].S == Some(kind)
    && VALUES in m && m[VALUES].L.List?
  }

  // dynamoAttributeValueFromDomain
  function FromDomain(v: AttributeValue): WireValue
    decreases v
  {
    if v.M.Map? && ReadsAsSet(v.M.entries, "SS") then BLANK.(SS := Texts(v.M.entries[VALUES].L.items))
    else if v.M.Map? && ReadsAsSet(v.M.entries, "NS") then BLANK.(NS := Numerals(v.M.entries[VALUES].L.items))
    else if v.S.Some? then BLANK.(S := v.S)
    else if v.N.Some? then BLANK.(N := v.N)
    else if v.BOOL.Some? then BLANK.(BOOL := v.BOOL)
    else if v.NULL then BLANK.(NULL := true)
    else if v.M.Map? then BLANK.(M := WireMap(map k | k in v.M.entries :: FromDomain(v.M.entries[k])))
    else if v.L.List? then
      BLANK.(L := WireList(seq(|v.L.items|, i requires 0 <= i < |v.L.items| => FromDomain(v.L.items[i]))))
    else BLANK
  }

  // ---------- round trip ----------

  // a map of the wire that takes the form of a set
  predicate Disguised(w: WireValue) {
    && w.M.WireMap?
    && SET_TYPE in w.M.entries && w.M.entries[SET_TYPE].S in {Some("SS"), Some("NS")}
    && VALUES in w.M.entries && w.M.entries[VALUES].L.WireList?
  }

  // one field at every depth, and no map in disguise
  predicate Plain(w: WireValue)
    decreases w
  {
    && WireFieldCount(w) == 1
    && !Disguised(w)
    && (w.M.WireMap? ==> forall k | k in w.M.entries :: Plain(w.M.entries[k]))
    && (w.L.WireList? ==> forall i | 0 <= i < |w.L.items| :: Plain(w.L.items[i]))
  }

  ghost predicate Returns(w: WireValue) {
    ToDomain(w).Some? && FromDomain(ToDomain(w).value) == w
  }

  lemma FromDomainHasOneField(v: AttributeValue)
    ensures WireFieldCount(FromDomain(v)) <= 1
  {
  }

  lemma {:induction false} SetElements(ss: seq<string>)
    ensures Texts(Strings(ss)) == ss && Numerals(Numbers(ss)) == ss
  {
    if |ss| > 0 {
      SetElements(ss[1..]);
      assert Strings(ss)[1..] == Strings(ss[1..]) && Numbers(ss)[1..] == Numbers(ss[1..]);
      assert ss == [ss[0]] + ss[1..];
    }
  }

  lemma ReservedNames()
    ensures SET_TYPE != VALUES && "SS" != "NS"
  {
    assert SET_TYPE[0] != VALUES[0];
    assert "SS"[0] != "NS"[0];
  }

  // String and number sets come back.
  lemma {:induction false} SetsReturn(ss: seq<string>)
    requires |ss| > 0
    ensures Returns(BLANK.(SS := ss)) && Returns(BLANK.(NS := ss))
  {
    ReservedNames();
    SetElements(ss);
    var s, n := SetValue("SS", Strings(ss)), SetValue("NS", Numbers(ss));
    assert ReadsAsSet(s.M.entries, "SS") && ReadsAsSet(n.M.entries, "NS") && !ReadsAsSet(n.M.entries, "SS");
  }

  // The domain value of an entry has the string and list fields of the entry.
  lemma {:induction false} FieldsKept(w: WireValue)
    requires WireFieldCount(w) == 1 && ToDomain(w).Some?
    ensures ToDomain(w).value.S == w.S
    ensures ToDomain(w).value.L.List? <==> w.L.WireList?
  {
  }

  lemma {:induction false} DisguiseSeen(entries: map<string, WireValue>, domain: Attributes)
    requires domain.Keys == entries.Keys
    requires forall k | k in entries :: domain[k].S == entries[k].S && (domain[k].L.List? <==> entries[k].L.WireList?)
    ensures ReadsAsSet(domain, "SS") || ReadsAsSet(domain, "NS") <==> Disguised(BLANK.(M := WireMap(entries)))
  {
  }

  // A map comes back exactly if its entries do and it is not in disguise.
  lemma {:induction false} MapReturns(entries: map<string, WireValue>)
    requires forall k | k in entries :: WireFieldCount(entries[k]) == 1
    ensures var w := BLANK.(M := WireMap(entries));
      Returns(w) <==> !Disguised(w) && forall k | k in entries :: Returns(entries[k])
  {
    var w := BLANK.(M := WireMap(entries));
    if forall k | k in entries :: ToDomain(entries[k]).Some? {
      var domain := map k | k in entries :: ToDomain(entries[k]).value;
      assert ToDomain(w) == Some(MapValue(domain));
      forall k | k in entries ensures domain[k].S == entries[k].S && (domain[k].L.List? <==> entries[k].L.WireList?) {
        FieldsKept(entries[k]);
      }
      DisguiseSeen(entries, domain);
      if !Disguised(w) {
        MapFromDomain(entries, domain);
      }
    } else {
      var k :| k in entries && ToDomain(entries[k]).None?;
      assert !Returns(entries[k]);
    }
  }

  lemma {:induction false} EntriesReturn(entries: map<string, WireValue>)
    requires Returns(BLANK.(M := WireMap(entries)))
    ensures forall k | k in entries :: Returns(entries[k])
  {
    var w := BLANK.(M := WireMap(entries));
    var domain := map k | k in entries :: ToDomain(entries[k]).value;
    assert ToDomain(w) == Some(MapValue(domain));
    MapFromDomain(entries, domain);
  }

  lemma {:induction false} MapFromDomain(entries: map<string, WireValue>, domain: Attributes)
    requires domain.Keys == entries.Keys && !ReadsAsSet(domain, "SS") && !ReadsAsSet(domain, "NS")
    ensures FromDomain(MapValue(domain)) == BLANK.(M := WireMap(entries)) <==>
      forall k | k in entries :: FromDomain(domain[k]) == entries[k]
  {
    var back := map k | k in domain :: FromDomain(domain[k]);
    assert FromDomain(MapValue(domain)) == BLANK.(M := WireMap(back));
    if forall k | k in entries :: FromDomain(domain[k]) == entries[k] {
      assert back == entries;
    }
    if back == entries {
      forall k | k in entries ensures FromDomain(domain[k]) == entries[k] {
        assert back[k] == entries[k];
      }
    }
  }

  lemma {:induction false} ListReturns(items: seq<WireValue>)
    ensures Returns(BLANK.(L := WireList(items))) <==> forall i | 0 <= i < |items| :: Returns(items[i])
  {
    var w := BLANK.(L := WireList(items));
    if forall i | 0 <= i < |items| :: ToDomain(items[i]).Some? {
      var domain := seq(|items|, i requires 0 <= i < |items| => ToDomain(items[i]).value);
      assert ToDomain(w).value.L.items == domain;
      var back := seq(|domain|, i requires 0 <= i < |domain| => FromDomain(domain[i]));
      assert FromDomain(ListValue(domain)).L.items == back;
      if back == items {
        forall i | 0 <= i < |items| ensures Returns(items[i]) {
          assert back[i] == items[i];
        }
      }
      if forall i | 0 <= i < |items| :: Returns(items[i]) {
        assert back == items;
      }
    } else {
      var i :| 0 <= i < |items| && ToDomain(items[i]).None?;
      assert !Returns(items[i]);
    }
  }

  lemma {:induction false} ScalarReturns(w: WireValue)
    requires WireFieldCount(w) == 1 && !w.M.WireMap? && !w.L.WireList?
    ensures Returns(w)
  {
    if |w.SS| > 0 {
      SetsReturn(w.SS);
      assert w == BLANK.(SS := w.SS);
    } else if |w.NS| > 0 {
      SetsReturn(w.NS);
      assert w == BLANK.(NS := w.NS);
    }
  }

  // A value goes to the domain and comes back unchanged exactly if it has one field at every depth and none of its
  // maps takes the form of a set.
  lemma {:induction false} RoundTripIff(w: WireValue)
    ensures Returns(w) <==> Plain(w)
    decreases w
  {
    if Returns(w) {
      FromDomainHasOneField(ToDomain(w).value);
      ReturnedHasField(w);
    }
    if WireFieldCount(w) == 1 {
      if w.M.WireMap? {
        MapChildren(w);
      } else if w.L.WireList? {
        assert w == BLANK.(L := w.L);
        ListReturns(w.L.items);
        forall i | 0 <= i < |w.L.items| ensures Returns(w.L.items[i]) <==> Plain(w.L.items[i]) {
          RoundTripIff(w.L.items[i]);
        }
      } else {
        ScalarReturns(w);
      }
    }
  }

  lemma {:induction false} ReturnedHasField(w: WireValue)
    requires Returns(w)
    ensures WireFieldCount(w) >= 1
  {
  }

  lemma {:induction false} MapChildren(w: WireValue)
    requires WireFieldCount(w) == 1 && w.M.WireMap?
    ensures Returns(w) <==> Plain(w)
    decreases w, 0
  {
    var entries := w.M.entries;
    assert w == BLANK.(M := w.M);
    forall k | k in entries ensures Returns(entries[k]) <==> Plain(entries[k]) {
      RoundTripIff(entries[k]);
    }
    if forall k | k in entries :: WireFieldCount(entries[k]) == 1 {
      MapReturns(entries);
    } else if Returns(w) {
      EntriesReturn(entries);
    }
  }

  // Different values without disguised maps have different forms in the domain.
  lemma Injective(w: WireValue, x: WireValue)
    requires Plain(w) && Plain(x)
    ensures ToDomain(w) == ToDomain(x) <==> w == x
  {
    RoundTripIff(w);
    RoundTripIff(x);
  }

  // one field at every depth, and no map uses the reserved key
  predicate Unreserved(w: WireValue)
    decreases w
  {
    && WireFieldCount(w) == 1
    && (w.M.WireMap? ==> SET_TYPE !in w.M.entries && forall k | k in w.M.entries :: Unreserved(w.M.entries[k]))
    && (w.L.WireList? ==> forall i | 0 <= i < |w.L.items| :: Unreserved(w.L.items[i]))
  }

  lemma {:induction false} UnreservedIsPlain(w: WireValue)
    requires Unreserved(w)
    ensures Plain(w)
    decreases w
  {
    if w.M.WireMap? {
      forall k | k in w.M.entries ensures Plain(w.M.entries[k]) {
        UnreservedIsPlain(w.M.entries[k]);
      }
    }
    if w.L.WireList? {
      forall i | 0 <= i < |w.L.items| ensures Plain(w.L.items[i]) {
        UnreservedIsPlain(w.L.items[i]);
      }
    }
  }

  // Without the reserved key every value comes back, and so the set encoding is injective on such values.
  lemma UnreservedReturns(w: WireValue, x: WireValue)
    requires Unreserved(w) && Unreserved(x)
    ensures Returns(w)
    ensures ToDomain(w) == ToDomain(x) <==> w == x
  {
    UnreservedIsPlain(w);
    UnreservedIsPlain(x);
    RoundTripIff(w);
    Injective(w, x);
  }

  // A map in disguise comes back as a set.
  lemma DisguisedIsLost(text: string)
    ensures var map' := BLANK.(M := WireMap(map[SET_TYPE := BLANK.(S := Some("SS")),
                                               VALUES := BLANK.(L := WireList([BLANK.(S := Some(text))]))]));
      ToDomain(map') == ToDomain(BLANK.(SS := [text])) && !Returns(map')
  {
    ReservedNames();
    var element := BLANK.(S := Some(text));
    var values := BLANK.(L := WireList([element]));
    var m := BLANK.(M := WireMap(map[SET_TYPE := BLANK.(S := Some("SS")), VALUES := values]));
    assert Disguised(m);
    RoundTripIff(m);
    assert ToDomain(element) == Some(StringValue(text));
    assert forall i | 0 <= i < |values.L.items| :: values.L.items[i] == element;
    assert ToDomain(values).value.L.items == [StringValue(text)] == Strings([text]);
    assert forall k | k in m.M.entries :: ToDomain(m.M.entries[k]).Some?;
    assert ToDomain(m).value.M.entries == SetValue("SS", Strings([text])).M.entries;
  }
}
