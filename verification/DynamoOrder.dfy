/** The order of query results: the target's key attributes one after the other, then the item's key. */
module DynamoOrder {
  import opened Wrappers
  import opened Strings
  import opened DynamoValues
  import opened DynamoModel
  import StableSort

  // ---------- key names ----------

  datatype Target = Target(table: Table, index: Option<SecondaryIndex>, partitionKey: string, sortKey: string)

  predicate NoDuplicates(names: seq<string>) {
    forall i, j | 0 <= i < j < |names| :: names[i] != names[j]
  }

  // uniqueStrings: trimmed, without blanks, each at its first place
  function UniqueStrings(values: seq<string>): (r: seq<string>)
    ensures NoDuplicates(r)
    ensures forall name :: name in r <==> name != "" && exists i :: 0 <= i < |values| && TrimSpace(values[i]) == name
  {
    if |values| == 0 then []
    else
      var before, value := UniqueStrings(values[..|values| - 1]), TrimSpace(values[|values| - 1]);
      if value == "" || value in before then before else before + [value]
  }

  function NonBlank(name: string): seq<string> {
    if name != "" then [name] else []
  }

  // an index adds the keys of its table
  function Names(target: Target): seq<string> {
    [target.partitionKey] + NonBlank(target.sortKey)
    + (if target.index.None? then [] else [target.table.partitionKey] + NonBlank(target.table.sortKey))
  }

  // targetKeyNames
  function KeyNames(target: Target): (names: seq<string>)
    ensures NoDuplicates(names)
  {
    UniqueStrings(Names(target))
  }

  // The keys of the table itself are always among the names.
  lemma TableKeysNamed(target: Target)
    requires target.index.None? ==> target.partitionKey == target.table.partitionKey && target.sortKey == target.table.sortKey
    ensures TrimSpace(target.table.partitionKey) != "" ==> TrimSpace(target.table.partitionKey) in KeyNames(target)
    ensures HasSortKey(target.table) ==> TrimSpace(target.table.sortKey) in KeyNames(target)
  {
    var own := [target.partitionKey] + NonBlank(target.sortKey);
    var table := if target.index.None? then [] else [target.table.partitionKey] + NonBlank(target.table.sortKey);
    var values := Names(target);
    assert values == own + table;
    if target.index.None? {
      assert values[0] == target.table.partitionKey;
      if HasSortKey(target.table) {
        assert target.sortKey != "";
        assert values[1] == target.table.sortKey;
      }
    } else {
      assert values[|own|] == target.table.partitionKey;
      if HasSortKey(target.table) {
        assert target.table.sortKey != "";
        assert values[|own| + 1] == target.table.sortKey;
      }
    }
  }

  // ---------- comparators ----------

  // Comparators answer with a negative number, zero for a tie, or a positive number.
  ghost predicate Lawful<T(!new)>(cmp: (T, T) -> int, xs: seq<T>) {
    && (forall x, y | x in xs && y in xs :: cmp(x, y) < 0 <==> cmp(y, x) > 0)
    && (forall x, y, z | x in xs && y in xs && z in xs :: cmp(x, y) <= 0 && cmp(y, z) <= 0 ==> cmp(x, z) <= 0)
  }

  function Then<T>(first: (T, T) -> int, second: (T, T) -> int): (T, T) -> int {
    (x, y) => if first(x, y) != 0 then first(x, y) else second(x, y)
  }

  lemma ThenLawful<T(!new)>(first: (T, T) -> int, second: (T, T) -> int, xs: seq<T>)
    requires Lawful(first, xs) && Lawful(second, xs)
    ensures Lawful(Then(first, second), xs)
  {
    var both := Then(first, second);
    forall x, y, z | x in xs && y in xs && z in xs && both(x, y) <= 0 && both(y, z) <= 0 ensures both(x, z) <= 0 {
      assert first(x, y) <= 0 && first(y, z) <= 0;
      if first(x, z) == 0 {
        assert first(z, x) == 0;
        assert first(z, y) <= 0 && first(y, x) <= 0;
      }
    }
  }

  lemma LawfulIsTotal<T(!new)>(cmp: (T, T) -> int, xs: seq<T>)
    requires Lawful(cmp, xs)
    requires forall x, y | x in xs && y in xs :: cmp(x, y) == 0 ==> x == y
    ensures StableSort.StrictTotalOn((x, y) => cmp(x, y) < 0, xs)
  {
    var less := (x, y) => cmp(x, y) < 0;
    forall x, y, z | x in xs && y in xs && z in xs && less(x, z) ensures less(x, y) || less(y, z) {
      if cmp(x, y) >= 0 && cmp(y, z) >= 0 {
        assert false;
      }
    }
  }

  // ---------- one attribute ----------

  // How an attribute orders two items: an item that has it comes first.
  function CompareAttribute(parse: Parse, name: string, l: Item, r: Item): int {
    var present, present' := name in l.attributes, name in r.attributes;
    if present && present' then CompareValues(parse, l.attributes[name], r.attributes[name])
    else if present then -1
    else if present' then 1
    else 0
  }

  datatype Kind = Texts | Numbers | Incomparable

  predicate OfKind(parse: Parse, kind: Kind, v: AttributeValue) {
    match kind
    case Texts => v.S.Some?
    case Numbers => v.S.None? && v.N.Some? && parse(TrimSpace(v.N.value)).Some?
    case Incomparable => v.S.None? && (v.N.Some? ==> parse(TrimSpace(v.N.value)).None?)
  }

  // All items that have the attribute have it of one kind.
  ghost predicate Uniform(parse: Parse, name: string, kind: Kind, items: seq<Item>) {
    forall item | item in items && name in item.attributes :: OfKind(parse, kind, item.attributes[name])
  }

  lemma CompareStrings(a: string, b: string, c: string)
    ensures Compare(a, b) < 0 <==> Compare(b, a) > 0
    ensures Compare(a, b) == 0 <==> a == b
    ensures Compare(a, b) <= 0 && Compare(b, c) <= 0 ==> Compare(a, c) <= 0
  {
    LessConnected(a, b);
    if Less(a, b) {
      LessAsymmetric(a, b);
      if Less(b, c) {
        LessTransitive(a, b, c);
      }
    }
    if Less(b, a) {
      LessAsymmetric(b, a);
    }
  }

  lemma ValuesLawful(parse: Parse, kind: Kind, a: AttributeValue, b: AttributeValue, c: AttributeValue)
    requires OfKind(parse, kind, a) && OfKind(parse, kind, b) && OfKind(parse, kind, c)
    ensures CompareValues(parse, a, b) < 0 <==> CompareValues(parse, b, a) > 0
    ensures CompareValues(parse, a, b) <= 0 && CompareValues(parse, b, c) <= 0 ==> CompareValues(parse, a, c) <= 0
  {
    if kind == Texts {
      CompareStrings(a.S.value, b.S.value, c.S.value);
    }
  }

  function ByAttribute(parse: Parse, name: string): (Item, Item) -> int {
    (l, r) => CompareAttribute(parse, name, l, r)
  }

  lemma AttributeLawful(parse: Parse, name: string, kind: Kind, items: seq<Item>)
    requires Uniform(parse, name, kind, items)
    ensures Lawful(ByAttribute(parse, name), items)
  {
    forall x, y, z | x in items && y in items && z in items
      ensures CompareAttribute(parse, name, x, y) < 0 <==> CompareAttribute(parse, name, y, x) > 0
      ensures CompareAttribute(parse, name, x, y) <= 0 && CompareAttribute(parse, name, y, z) <= 0
          ==> CompareAttribute(parse, name, x, z) <= 0
    {
      if name in x.attributes && name in y.attributes {
        ValuesLawful(parse, kind, x.attributes[name], y.attributes[name],
                     if name in z.attributes then z.attributes[name] else y.attributes[name]);
      }
    }
    forall x, y | x in items && y in items
      ensures ByAttribute(parse, name)(x, y) < 0 <==> ByAttribute(parse, name)(y, x) > 0
    {
      assert x in items;
    }
  }

  // ---------- items ----------

  function ByKey(): (Item, Item) -> int {
    (l: Item, r: Item) => Compare(l.key, r.key)
  }

  function ByTable(): (Item, Item) -> int {
    (l: Item, r: Item) => Compare(l.table, r.table)
  }

  // compareQueryItems
  function ByNames(parse: Parse, names: seq<string>): (Item, Item) -> int {
    if |names| == 0 then Then(ByKey(), ByTable())
    else Then(ByAttribute(parse, names[0]), ByNames(parse, names[1..]))
  }

  lemma KeysLawful(items: seq<Item>)
    ensures Lawful(Then(ByKey(), ByTable()), items)
  {
    forall a: string, b: string, c: string
      ensures Compare(a, b) < 0 <==> Compare(b, a) > 0
      ensures Compare(a, b) <= 0 && Compare(b, c) <= 0 ==> Compare(a, c) <= 0
    {
      CompareStrings(a, b, c);
    }
    assert Lawful(ByKey(), items);
    assert Lawful(ByTable(), items);
    ThenLawful(ByKey(), ByTable(), items);
  }

  lemma {:induction false} NamesLawful(parse: Parse, names: seq<string>, kinds: seq<Kind>, items: seq<Item>)
    requires |kinds| == |names| && forall i | 0 <= i < |names| :: Uniform(parse, names[i], kinds[i], items)
    ensures Lawful(ByNames(parse, names), items)
  {
    if |names| == 0 {
      KeysLawful(items);
    } else {
      NamesLawful(parse, names[1..], kinds[1..], items);
      AttributeLawful(parse, names[0], kinds[0], items);
      ThenLawful(ByAttribute(parse, names[0]), ByNames(parse, names[1..]), items);
    }
  }

  lemma {:induction false} TieIsSameId(parse: Parse, names: seq<string>, l: Item, r: Item)
    requires ByNames(parse, names)(l, r) == 0
    ensures l.key == r.key && l.table == r.table
  {
    if |names| == 0 {
      CompareStrings(l.key, r.key, r.key);
      CompareStrings(l.table, r.table, r.table);
    } else {
      TieIsSameId(parse, names[1..], l, r);
    }
  }

  ghost predicate DistinctItems(items: seq<Item>) {
    forall i, j | 0 <= i < j < |items| :: ItemIdOf(items[i]) != ItemIdOf(items[j])
  }

  // orderQueryItems
  function Ordered(parse: Parse, names: seq<string>, items: seq<Item>, forward: bool): seq<Item> {
    var cmp := ByNames(parse, names);
    if forward then StableSort.Sort((x, y) => cmp(x, y) < 0, items) else StableSort.Sort((x, y) => cmp(x, y) > 0, items)
  }

  // If every ordering attribute is of one kind, the forward result is the only sorted arrangement of the items,
  // and the backward result is its exact reversal.
  lemma OrderIsTotal(parse: Parse, names: seq<string>, kinds: seq<Kind>, items: seq<Item>)
    requires |kinds| == |names| && forall i | 0 <= i < |names| :: Uniform(parse, names[i], kinds[i], items)
    requires DistinctItems(items)
    ensures var less := (x, y) => ByNames(parse, names)(x, y) < 0;
      && StableSort.StrictTotalOn(less, items)
      && multiset(Ordered(parse, names, items, true)) == multiset(items)
      && StableSort.SortedBy(less, Ordered(parse, names, items, true))
      && (forall other: seq<Item> | multiset(other) == multiset(items) && StableSort.SortedBy(less, other) ::
            other == Ordered(parse, names, items, true))
    ensures Ordered(parse, names, items, false) == StableSort.Reversed(Ordered(parse, names, items, true))
  {
    var cmp := ByNames(parse, names);
    NamesLawful(parse, names, kinds, items);
    forall x, y | x in items && y in items && cmp(x, y) == 0 ensures x == y {
      TieIsSameId(parse, names, x, y);
    }
    TotalOrder(cmp, items);
  }

  lemma TotalOrder(cmp: (Item, Item) -> int, items: seq<Item>)
    requires Lawful(cmp, items)
    requires forall x, y | x in items && y in items :: cmp(x, y) == 0 ==> x == y
    ensures var less, more := (x, y) => cmp(x, y) < 0, (x, y) => cmp(x, y) > 0;
      var sorted := StableSort.Sort(less, items);
      && StableSort.StrictTotalOn(less, items)
      && StableSort.SortedBy(less, sorted)
      && (forall other: seq<Item> | multiset(other) == multiset(items) && StableSort.SortedBy(less, other) :: other == sorted)
      && StableSort.Sort(more, items) == StableSort.Reversed(sorted)
  {
    var less, more := (x, y) => cmp(x, y) < 0, (x, y) => cmp(x, y) > 0;
    LawfulIsTotal(cmp, items);
    assert StableSort.StrictTotalOn(less, items);
    StableSort.SortSorts(less, items);
    StableSort.OppositeReverses(less, more, items);
    var sorted := StableSort.Sort(less, items);
    StableSort.SameElements(sorted, items);
    assert StableSort.StrictTotalOn(less, sorted);
    forall other: seq<Item> | multiset(other) == multiset(items) && StableSort.SortedBy(less, other)
      ensures other == sorted
    {
      StableSort.SortedUnique(less, sorted, other);
    }
  }

  // ---------- two kinds under one name ----------

  // the order of a result by one attribute
  function LessBy(parse: Parse, name: string): (Item, Item) -> bool {
    (x, y) => ByNames(parse, [name])(x, y) < 0
  }

  ghost predicate OfEither(parse: Parse, name: string, k: Kind, l: Kind, items: seq<Item>) {
    forall x | x in items && name in x.attributes ::
      OfKind(parse, k, x.attributes[name]) || OfKind(parse, l, x.attributes[name])
  }

  // Every list of values of these kinds is in order.
  ghost predicate AlwaysOrdered(parse: Parse, name: string, k: Kind, l: Kind) {
    forall items | DistinctItems(items) && OfEither(parse, name, k, l, items) ::
      StableSort.StrictTotalOn(LessBy(parse, name), items)
  }

  // the same item carries each value in turn, under the keys 1, 2 and 3
  function Three(name: string, a: AttributeValue, b: AttributeValue, c: AttributeValue): seq<Item> {
    [Item("t", "1", map[name := a]), Item("t", "2", map[name := b]), Item("t", "3", map[name := c])]
  }

  lemma OneNameCompares(parse: Parse, name: string, l: Item, r: Item)
    ensures ByNames(parse, [name])(l, r) ==
      var c := CompareAttribute(parse, name, l, r);
      if c != 0 then c else if l.key != r.key then Compare(l.key, r.key) else Compare(l.table, r.table)
  {
    hide CompareAttribute;
    assert [name][1..] == [];
    assert ByNames(parse, []) == Then(ByKey(), ByTable());
  }

  // A value that ties with a low and a high one puts three items in a circle: each comes before the next, and
  // the last before the first.
  lemma TieMakesCycle(parse: Parse, name: string, low: AttributeValue, high: AttributeValue, v: AttributeValue)
    requires CompareValues(parse, low, high) < 0 < CompareValues(parse, high, low)
    requires CompareValues(parse, high, v) == CompareValues(parse, v, high) == 0
    requires CompareValues(parse, low, v) == CompareValues(parse, v, low) == 0
    ensures var items, less := Three(name, high, v, low), LessBy(parse, name);
      && less(items[0], items[1]) && less(items[1], items[2]) && less(items[2], items[0])
      && !StableSort.StrictTotalOn(less, items)
  {
    var items, less := Three(name, high, v, low), LessBy(parse, name);
    var x, y, z := items[0], items[1], items[2];
    assert x in items && y in items && z in items;
    OneNameCompares(parse, name, x, y);
    OneNameCompares(parse, name, y, z);
    OneNameCompares(parse, name, z, x);
    OneNameCompares(parse, name, z, y);
    OneNameCompares(parse, name, y, x);
    assert Compare("1", "2") < 0 && Compare("2", "3") < 0 && Compare("2", "1") > 0 && Compare("3", "2") > 0;
    hide CompareValues, Compare, ByNames;
    assert less(x, y) && less(y, z) && less(z, x) && !less(z, y) && !less(y, x);
  }

  // two numerals of different value
  ghost predicate Numerals(parse: Parse, low: string, high: string) {
    var x, y := parse(TrimSpace(low)), parse(TrimSpace(high));
    x.Some? && y.Some? && x.value < y.value
  }

  function Low(kind: Kind, numeral: string): AttributeValue {
    if kind == Texts then StringValue("a") else NumberValue(numeral)
  }

  function High(kind: Kind, numeral: string): AttributeValue {
    if kind == Texts then StringValue("b") else NumberValue(numeral)
  }

  function Typical(kind: Kind, numeral: string): AttributeValue {
    match kind case Texts => StringValue("a") case Numbers => NumberValue(numeral) case Incomparable => BoolValue(true)
  }

  // Of two different kinds, one has values in order that the values of the other tie with.
  lemma KindsMakeCycle(parse: Parse, name: string, k: Kind, l: Kind, low: string, high: string)
    requires Numerals(parse, low, high) && k != Incomparable && l != k
    ensures var items := Three(name, High(k, high), Typical(l, low), Low(k, low));
      && DistinctItems(items) && OfEither(parse, name, k, l, items)
      && !StableSort.StrictTotalOn(LessBy(parse, name), items)
  {
    var v := Typical(l, low);
    assert Less("a", "b") && !Less("b", "a");
    assert OfKind(parse, k, Low(k, low)) && OfKind(parse, k, High(k, high)) && OfKind(parse, l, v);
    TieMakesCycle(parse, name, Low(k, low), High(k, high), v);
  }

  // Values of two kinds under an ordering attribute are always in order exactly if the kinds are the same.
  lemma KindsOrderIff(parse: Parse, name: string, k: Kind, l: Kind, low: string, high: string)
    requires Numerals(parse, low, high)
    ensures AlwaysOrdered(parse, name, k, l) <==> k == l
  {
    hide OfKind, LessBy, StableSort.StrictTotalOn;
    if k == l {
      forall items | DistinctItems(items) && OfEither(parse, name, k, l, items)
        ensures StableSort.StrictTotalOn(LessBy(parse, name), items)
      {
        OneKindOrdered(parse, name, k, items);
      }
    } else if k != Incomparable {
      KindsMakeCycle(parse, name, k, l, low, high);
    } else {
      KindsMakeCycle(parse, name, l, k, low, high);
      Swapped(parse, name, k, l, Three(name, High(l, high), Typical(k, low), Low(l, low)));
    }
  }

  lemma Swapped(parse: Parse, name: string, k: Kind, l: Kind, items: seq<Item>)
    requires OfEither(parse, name, l, k, items)
    ensures OfEither(parse, name, k, l, items)
  {
  }

  lemma OneKindOrdered(parse: Parse, name: string, kind: Kind, items: seq<Item>)
    requires DistinctItems(items) && OfEither(parse, name, kind, kind, items)
    ensures StableSort.StrictTotalOn(LessBy(parse, name), items)
  {
    var less := (x, y) => ByNames(parse, [name])(x, y) < 0;
    assert Uniform(parse, name, kind, items);
    OrderIsTotal(parse, [name], [kind], items);
    assert StableSort.StrictTotalOn(less, items);
    hide ByNames;
    assert forall x, y :: less(x, y) == LessBy(parse, name)(x, y);
  }
}
