/** When the string key of an item tells its key attributes. */
module DynamoKeys {
  import opened Wrappers
  import opened Strings
  import opened DynamoValues
  import opened DynamoModel

  // ---------- key documents ----------

  // A key attribute holds text of one kind: a string, a number or a boolean.
  datatype KeyKind = StringKind | NumberKind | BoolKind

  predicate OfKind(kind: KeyKind, v: AttributeValue) {
    match kind
    case StringKind => v.S.Some? && v == StringValue(v.S.value)
    case NumberKind => v.N.Some? && v == NumberValue(v.N.value)
    case BoolKind => v.BOOL.Some? && v == BoolValue(v.BOOL.value)
  }

  // the key schema of a table with both keys, as its attribute definitions type it
  datatype KeySchema = KeySchema(partition: KeyKind, sort: KeyKind)

  ghost predicate TypedDocument(t: Table, schema: KeySchema, d: Attributes) {
    && d.Keys == {t.partitionKey, t.sortKey}
    && OfKind(schema.partition, d[t.partitionKey])
    && OfKind(schema.sort, d[t.sortKey])
  }

  // both keys named, differently
  predicate Composite(t: Table) {
    TrimSpace(t.partitionKey) != "" && HasSortKey(t) && t.partitionKey != t.sortKey
  }

  // A typed document has a key: its two components around a bar.
  lemma TypedDocumentKey(t: Table, schema: KeySchema, d: Attributes)
    requires Composite(t) && TypedDocument(t, schema, d)
    ensures var p, s := Component(d[t.partitionKey]), Component(d[t.sortKey]);
      && p.Ok? && s.Ok? && DocumentKey(t, d) == Ok(p.value + "|" + s.value) == RecordKey(t, d)
  {
    assert |d.Keys| == 2;
    assert |d| == 2;
  }

  // the text that a key attribute contributes
  ghost predicate Spells(v: AttributeValue, text: string) {
    if v.S.Some? then text == v.S.value
    else if v.N.Some? then text == v.N.value
    else v.BOOL.Some? && text == (if v.BOOL.value then "true" else "false")
  }

  // Exactly the documents of the key attributes and nothing else have a key, the text of the partition key and, behind a
  // bar, that of the sort key.
  lemma KeySpelled(t: Table, d: Attributes, key: string)
    requires Trimmed(t.partitionKey) && t.partitionKey != "" && Trimmed(t.sortKey) && t.sortKey != t.partitionKey
    ensures t.sortKey == "" ==>
      (DocumentKey(t, d) == Ok(key) <==> d.Keys == {t.partitionKey} && Spells(d[t.partitionKey], key))
    ensures t.sortKey != "" ==>
      (DocumentKey(t, d) == Ok(key) <==>
        && d.Keys == {t.partitionKey, t.sortKey}
        && exists p, s :: Spells(d[t.partitionKey], p) && Spells(d[t.sortKey], s) && key == p + "|" + s)
  {
    hide TrimSpace;
    KeysCounted(t, d);
    SpelledOnce(d);
    hide Spells, Component;
    assert HasSortKey(t) <==> t.sortKey != "";
    if t.sortKey != "" && DocumentKey(t, d) == Ok(key) {
      var p, s := Component(d[t.partitionKey]).value, Component(d[t.sortKey]).value;
      assert Spells(d[t.partitionKey], p) && Spells(d[t.sortKey], s) && key == p + "|" + s;
    }
    if t.sortKey != "" && d.Keys == {t.partitionKey, t.sortKey} {
      assert t.partitionKey in d && t.sortKey in d && |d| == 2;
      forall p, s | Spells(d[t.partitionKey], p) && Spells(d[t.sortKey], s) ensures DocumentKey(t, d) == Ok(p + "|" + s) {
        assert Component(d[t.partitionKey]) == Ok(p) && Component(d[t.sortKey]) == Ok(s);
      }
    }
  }

  lemma SpelledOnce(d: Attributes)
    ensures forall name, text | name in d :: Spells(d[name], text) <==> Component(d[name]) == Ok(text)
  {
  }

  lemma KeysCounted(t: Table, d: Attributes)
    ensures |d| == 1 && t.partitionKey in d ==> d.Keys == {t.partitionKey}
    ensures |d| == 2 && t.partitionKey in d && t.sortKey in d && t.sortKey != t.partitionKey ==> d.Keys == {t.partitionKey, t.sortKey}
    ensures d.Keys == {t.partitionKey} ==> |d| == 1
    ensures d.Keys == {t.partitionKey, t.sortKey} && t.sortKey != t.partitionKey ==> |d| == 2
  {
    var p, s := t.partitionKey, t.sortKey;
    assert |d| == |d.Keys|;
    if |d| == 1 && p in d {
      OnlyThese(d.Keys, {p});
    }
    if |d| == 2 && p in d && s in d && s != p {
      OnlyThese(d.Keys, {p, s});
    }
  }

  lemma OnlyThese(all: set<string>, some: set<string>)
    requires some <= all && |some| == |all|
    ensures some == all
  {
    assert |all - some| == 0;
  }

  // Values of one kind are told apart by their components.
  lemma ComponentSeparates(kind: KeyKind, a: AttributeValue, b: AttributeValue)
    requires OfKind(kind, a) && OfKind(kind, b) && Component(a) == Component(b)
    ensures a == b
  {
    if kind == BoolKind {
      assert "true" != "false" by { assert |"true"| != |"false"|; }
    }
  }

  // Documents whose partition component is free of bars are told apart by their keys.
  lemma DocumentKeySeparates(t: Table, schema: KeySchema, d: Attributes, e: Attributes)
    requires Composite(t) && TypedDocument(t, schema, d) && TypedDocument(t, schema, e)
    requires '|' !in Component(d[t.partitionKey]).value && '|' !in Component(e[t.partitionKey]).value
    ensures DocumentKey(t, d) == DocumentKey(t, e) <==> d == e
  {
    TypedDocumentKey(t, schema, d);
    TypedDocumentKey(t, schema, e);
    if DocumentKey(t, d) == DocumentKey(t, e) {
      BarSplit(Component(d[t.partitionKey]).value, Component(d[t.sortKey]).value,
               Component(e[t.partitionKey]).value, Component(e[t.sortKey]).value);
      ComponentSeparates(schema.partition, d[t.partitionKey], e[t.partitionKey]);
      ComponentSeparates(schema.sort, d[t.sortKey], e[t.sortKey]);
    }
  }

  function Bars(s: string): nat {
    if s == "" then 0 else (if s[0] == '|' then 1 else 0) + Bars(s[1..])
  }

  lemma {:induction false} BarsJoin(a: string, b: string)
    ensures Bars(a + b) == Bars(a) + Bars(b)
  {
    if a == "" {
      assert a + b == b;
    } else {
      assert (a + b)[1..] == a[1..] + b;
      BarsJoin(a[1..], b);
    }
  }

  lemma {:induction false} SomeBar(s: string)
    ensures Bars(s) == 0 <==> '|' !in s
    ensures Bars(s) > 0 ==> exists i :: 0 <= i < |s| && s[i] == '|'
  {
    if s != "" {
      SomeBar(s[1..]);
      assert s == [s[0]] + s[1..];
      if Bars(s[1..]) > 0 {
        var i :| 0 <= i < |s[1..]| && s[1..][i] == '|';
        assert s[i + 1] == '|';
      }
    }
  }

  lemma BarsOfKey(p: string, s: string)
    ensures Bars(p + "|" + s) == Bars(p) + 1 + Bars(s)
  {
    BarsJoin(p + "|", s);
    BarsJoin(p, "|");
    assert Bars("|") == 1 by { assert "|"[1..] == ""; }
  }

  function TextDocument(t: Table, schema: KeySchema, p: string, s: string): Attributes {
    map[t.partitionKey := if schema.partition == NumberKind then NumberValue(p) else StringValue(p),
        t.sortKey := if schema.sort == NumberKind then NumberValue(s) else StringValue(s)]
  }

  lemma TextDocumentTyped(t: Table, schema: KeySchema, p: string, s: string)
    requires Composite(t) && schema.partition != BoolKind && schema.sort != BoolKind
    ensures var d := TextDocument(t, schema, p, s);
      && TypedDocument(t, schema, d) && DocumentKey(t, d) == Ok(p + "|" + s)
      && Component(d[t.partitionKey]) == Ok(p)
  {
    TypedDocumentKey(t, schema, TextDocument(t, schema, p, s));
  }

  lemma AnotherSplit(p: string, s: string) returns (p': string, s': string)
    requires Bars(p + "|" + s) > 1
    ensures p' + "|" + s' == p + "|" + s && p' != p
  {
    BarsOfKey(p, s);
    SomeBar(p);
    SomeBar(s);
    var k := p + "|" + s;
    if Bars(p) > 0 {
      var i :| 0 <= i < |p| && p[i] == '|';
      p', s' := k[..i], k[i + 1..];
      assert k[i] == '|' && k == k[..i] + [k[i]] + k[i + 1..];
    } else {
      var i :| 0 <= i < |s| && s[i] == '|';
      var j := |p| + 1 + i;
      p', s' := k[..j], k[j + 1..];
      assert k[j] == s[i] && k == k[..j] + [k[j]] + k[j + 1..];
      assert |p'| != |p|;
    }
  }

  // Among text key documents of a table, one shares its key with no other exactly if its key has a single bar.
  lemma KeyIsUniqueIff(t: Table, schema: KeySchema, d: Attributes)
    requires Composite(t) && schema.partition != BoolKind && schema.sort != BoolKind
    requires TypedDocument(t, schema, d)
    ensures DocumentKey(t, d).Ok?
    ensures (forall e | TypedDocument(t, schema, e) && DocumentKey(t, e) == DocumentKey(t, d) :: e == d)
       <==> Bars(DocumentKey(t, d).value) == 1
  {
    TypedDocumentKey(t, schema, d);
    var p, s := Component(d[t.partitionKey]).value, Component(d[t.sortKey]).value;
    BarsOfKey(p, s);
    if Bars(p + "|" + s) == 1 {
      SomeBar(p);
      forall e | TypedDocument(t, schema, e) && DocumentKey(t, e) == DocumentKey(t, d) ensures e == d {
        TypedDocumentKey(t, schema, e);
        var q := Component(e[t.partitionKey]).value;
        BarsOfKey(q, Component(e[t.sortKey]).value);
        SomeBar(q);
        DocumentKeySeparates(t, schema, d, e);
      }
    } else {
      var p', s' := AnotherSplit(p, s);
      TextDocumentTyped(t, schema, p', s');
      assert TextDocument(t, schema, p', s') != d;
    }
  }

  // Two items of one table under one key: ("a|b", "c") and ("a", "b|c").
  lemma KeysCollide(t: Table)
    requires Composite(t)
    ensures var schema := KeySchema(StringKind, StringKind);
      var d, e := TextDocument(t, schema, "a|b", "c"), TextDocument(t, schema, "a", "b|c");
      TypedDocument(t, schema, d) && TypedDocument(t, schema, e) && d != e && DocumentKey(t, d) == DocumentKey(t, e)
  {
    var schema := KeySchema(StringKind, StringKind);
    TextDocumentTyped(t, schema, "a|b", "c");
    TextDocumentTyped(t, schema, "a", "b|c");
    assert "a|b" + "|" + "c" == "a" + "|" + "b|c";
    assert "a|b" != "a" by { assert |"a|b"| != |"a"|; }
  }

  // The record key of an item is the document key of its key attributes.
  lemma RecordKeyIsDocumentKey(t: Table, schema: KeySchema, d: Attributes, item: Attributes)
    requires Composite(t) && TypedDocument(t, schema, d)
    requires forall name | name in d :: name in item && item[name] == d[name]
    ensures RecordKey(t, item) == DocumentKey(t, d)
  {
    TypedDocumentKey(t, schema, d);
    assert t.partitionKey in d && t.sortKey in d;
    assert t.partitionKey in item;
  }
}
