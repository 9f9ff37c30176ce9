/** What Query and Scan answer, in terms of the items there are: which items, with which attributes, in which order. */
module DynamoAnswers {
  import opened Wrappers
  import opened Strings
  import opened DynamoValues
  import opened DynamoModel
  import opened DynamoOrder
  import opened DynamoPaging
  import opened DynamoState
  import opened DynamoReads
  import opened KeyedSeq
  import opened KeyedListing
  import KeyOrder
  import StableSort

  // ---------- values ----------

  // Texts compare by their characters and numbers by the numbers that they spell; other values do not.
  ghost predicate LessThan(parse: Parse, l: AttributeValue, r: AttributeValue) {
    if l.S.Some? && r.S.Some? then Less(l.S.value, r.S.value)
    else
      && l.N.Some? && r.N.Some?
      && var x, y := parse(TrimSpace(l.N.value)), parse(TrimSpace(r.N.value));
      x.Some? && y.Some? && x.value < y.value
  }

  lemma CompareIff(parse: Parse, l: AttributeValue, r: AttributeValue)
    ensures CompareValues(parse, l, r) < 0 <==> LessThan(parse, l, r)
    ensures CompareValues(parse, l, r) > 0 <==> LessThan(parse, r, l)
  {
    hide TrimSpace, Less;
    if l.S.Some? && r.S.Some? {
      CompareStrings(l.S.value, r.S.value, r.S.value);
      CompareTexts(l.S.value, r.S.value);
      CompareTexts(r.S.value, l.S.value);
    }
  }

  lemma CompareTexts(a: string, b: string)
    ensures Strings.Compare(a, b) < 0 <==> Less(a, b)
  {
    LessIrreflexive(a);
  }

  // ---------- conditions ----------

  // Each comparison: two values that are in no order count as equal in rank.
  ghost predicate Stands(parse: Parse, op: Comparison, l: AttributeValue, r: AttributeValue) {
    match op
    case Equal => Equals(l, r)
    case NotEqual => !Equals(l, r)
    case Below => LessThan(parse, l, r)
    case NotAbove => !LessThan(parse, r, l)
    case Above => LessThan(parse, r, l)
    case NotBelow => !LessThan(parse, l, r)
  }

  lemma StandsIff(parse: Parse, op: Comparison, l: AttributeValue, r: AttributeValue)
    ensures Compares(parse, op, l, r) <==> Stands(parse, op, l, r)
  {
    hide Equals, CompareValues, LessThan;
    CompareIff(parse, l, r);
  }

  // the text of the one begins with the text of the other
  ghost predicate Starts(l: AttributeValue, r: AttributeValue) {
    l.S.Some? && r.S.Some? && |r.S.value| <= |l.S.value| && l.S.value[..|r.S.value|] == r.S.value
  }

  ghost predicate SortAccepts(parse: Parse, sort: SortPredicate, v: AttributeValue) {
    match sort
    case AnySort => true
    case Prefix(value) => Starts(v, value)
    case Between(low, high) => !LessThan(parse, v, low) && !LessThan(parse, high, v)
    case Compare(op, value) => Stands(parse, op, v, value)
  }

  // The item is in the partition, and its sort key, if the query names one, is there and accepted.
  ghost predicate Wanted(parse: Parse, plan: Plan, x: Item) {
    && plan.partitionKey in x.attributes && Equals(x.attributes[plan.partitionKey], plan.partition)
    && (plan.sortKey != "" ==> plan.sortKey in x.attributes && SortAccepts(parse, plan.sort, x.attributes[plan.sortKey]))
  }

  // Of an absent attribute only attribute_not_exists holds.
  ghost predicate Accepts(parse: Parse, clause: Clause, x: Item) {
    if clause.path !in x.attributes then clause.NotExists?
    else
      var v := x.attributes[clause.path];
      match clause
      case Exists(_) => true
      case NotExists(_) => false
      case HasPrefix(_, value) => Starts(v, value)
      case Comparing(_, op, value) => Stands(parse, op, v, value)
  }

  ghost predicate AcceptedByAll(parse: Parse, clauses: seq<Clause>, x: Item) {
    forall i | 0 <= i < |clauses| :: Accepts(parse, clauses[i], x)
  }

  // The same item with exactly the named attributes that it has, or with all if none is named.
  ghost predicate ShowsOf(names: seq<string>, x: Item, y: Item) {
    && y.table == x.table && y.key == x.key
    && (forall name :: name in y.attributes <==> name in x.attributes && (names == [] || name in names))
    && (forall name | name in y.attributes :: y.attributes[name] == x.attributes[name])
  }

  lemma WantedIff(parse: Parse, plan: Plan, x: Item)
    ensures Matches(parse, plan, x) <==> Wanted(parse, plan, x)
  {
    hide Equals, CompareValues, LessThan, Stands, Compares;
    if plan.sortKey in x.attributes {
      var v := x.attributes[plan.sortKey];
      match plan.sort
      case Between(low, high) =>
        CompareIff(parse, v, low);
        CompareIff(parse, v, high);
      case Compare(op, value) => StandsIff(parse, op, v, value);
      case _ =>
    }
  }

  lemma AcceptsIff(parse: Parse, clause: Clause, x: Item)
    ensures ClauseHolds(parse, clause, x) <==> Accepts(parse, clause, x)
  {
    hide Stands, Compares;
    if clause.Comparing? && clause.path in x.attributes {
      StandsIff(parse, clause.op, x.attributes[clause.path], clause.value);
    }
  }

  lemma AcceptedIff(parse: Parse, clauses: seq<Clause>, x: Item)
    ensures Passes(parse, clauses, x) <==> AcceptedByAll(parse, clauses, x)
  {
    hide ClauseHolds, Accepts;
    forall i | 0 <= i < |clauses| ensures ClauseHolds(parse, clauses[i], x) <==> Accepts(parse, clauses[i], x) {
      AcceptsIff(parse, clauses[i], x);
    }
  }

  lemma ShownIff(names: seq<string>, x: Item, y: Item)
    ensures y == Projected(names, x) <==> ShowsOf(names, x, y)
  {
    if ShowsOf(names, x, y) {
      assert y.attributes == Projected(names, x).attributes;
    }
  }

  // ---------- answers ----------

  // The items of an answer come from these positions, in order, and from all whose items pass.
  ghost predicate ComesFrom(reader: Reader, xs: seq<Item>, r: seq<Item>, at: seq<nat>) {
    && |at| == |r|
    && (forall k | 0 <= k < |r| :: at[k] < |xs| && reader.filter(xs[at[k]]) && r[k] == reader.project(xs[at[k]]))
    && (forall k, l | 0 <= k < l < |r| :: at[k] < at[l])
    && (forall i | 0 <= i < |xs| && reader.filter(xs[i]) :: i in at)
  }

  lemma ComesFromParts(reader: Reader, xs: seq<Item>, r: seq<Item>, at: seq<nat>)
    requires ComesFrom(reader, xs, r, at)
    ensures |at| == |r|
    ensures forall k | 0 <= k < |r| :: at[k] < |xs| && reader.filter(xs[at[k]]) && r[k] == reader.project(xs[at[k]])
    ensures forall k, l | 0 <= k < l < |r| :: at[k] < at[l]
    ensures forall i | 0 <= i < |xs| && reader.filter(xs[i]) :: i in at
  {
  }

  lemma OneMoreFrom(reader: Reader, xs: seq<Item>, x: Item, r: seq<Item>, at: seq<nat>)
    requires ComesFrom(reader, xs, r, at)
    ensures reader.filter(x) ==> ComesFrom(reader, xs + [x], r + [reader.project(x)], at + [|xs|])
    ensures !reader.filter(x) ==> ComesFrom(reader, xs + [x], r, at)
  {
    var more, at' := xs + [x], at + [|xs|];
    forall i | 0 <= i < |more| && reader.filter(more[i]) && i != |xs| ensures i in at {
      assert more[i] == xs[i];
    }
    assert |xs| in at';
  }

  lemma {:induction false} PickedFrom(reader: Reader, xs: seq<Item>) returns (at: seq<nat>)
    ensures ComesFrom(reader, xs, Picked(reader, xs), at)
  {
    if |xs| == 0 {
      at := [];
    } else {
      var n := |xs| - 1;
      at := PickedFrom(reader, xs[..n]);
      hide ComesFrom;
      OneMoreFrom(reader, xs[..n], xs[n], Picked(reader, xs[..n]), at);
      assert xs == xs[..n] + [xs[n]];
      if reader.filter(xs[n]) {
        at := at + [n];
      } else {
        assert Picked(reader, xs) == Picked(reader, xs[..n]) + [] == Picked(reader, xs[..n]);
      }
    }
  }

  // an answer without a cursor and without a limit
  predicate Whole(request: QueryRequest) {
    && request.index.Ok? && request.plan.Ok? && request.clauses.Ok? && request.projection.Ok?
    && request.cursor == map[] && request.limit.None?
  }

  lemma WholeParts(request: QueryRequest)
    requires Whole(request)
    ensures request.index.Ok? && request.plan.Ok? && request.clauses.Ok? && request.projection.Ok?
  {
  }

  lemma WholeAnswer(parse: Parse, t: Table, items: seq<Item>, request: QueryRequest)
    requires Whole(request)
    ensures var target := TargetOf(t, request.index.value);
      var selected := Selected(parse, target, request.plan.value, items, request.forward);
      var reader := ReaderOf(parse, KeyNames(target), request.clauses.value, request.projection.value);
      Query(parse, t, items, request) == Ok(Page(Picked(reader, selected), |selected|, None))
  {
    hide Selected, ReaderOf, KeyNames;
    var target := TargetOf(t, request.index.value);
    var selected := Selected(parse, target, request.plan.value, items, request.forward);
    assert selected[0..|selected|] == selected;
  }

  // what an answer may show: a wanted and accepted item of the table, with the attributes that are asked for
  ghost predicate Answers(parse: Parse, t: Table, items: seq<Item>, request: QueryRequest, y: Item)
    requires Whole(request)
  {
    exists x :: && x in items && x.table == t.name && Wanted(parse, request.plan.value, x)
                && AcceptedByAll(parse, request.clauses.value, x) && ShowsOf(request.projection.value, x, y)
  }

  lemma AnswersOf(parse: Parse, t: Table, items: seq<Item>, request: QueryRequest, x: Item, y: Item)
    requires Whole(request) && x in items && x.table == t.name && Wanted(parse, request.plan.value, x)
    requires AcceptedByAll(parse, request.clauses.value, x) && ShowsOf(request.projection.value, x, y)
    ensures Answers(parse, t, items, request, y)
  {
    hide Wanted, AcceptedByAll, ShowsOf;
  }

  lemma AnswerMadeOf(parse: Parse, t: Table, items: seq<Item>, request: QueryRequest, y: Item) returns (x: Item)
    requires Whole(request) && Answers(parse, t, items, request, y)
    ensures x in items && x.table == t.name && Wanted(parse, request.plan.value, x)
    ensures AcceptedByAll(parse, request.clauses.value, x) && ShowsOf(request.projection.value, x, y)
  {
    hide Wanted, AcceptedByAll, ShowsOf;
    x :| && x in items && x.table == t.name && Wanted(parse, request.plan.value, x)
         && AcceptedByAll(parse, request.clauses.value, x) && ShowsOf(request.projection.value, x, y);
  }

  // A query answers exactly with the items of its table that are wanted and accepted, with the attributes it asks for.
  lemma QueryAnswers(parse: Parse, t: Table, items: seq<Item>, request: QueryRequest)
    requires Unique(ItemIdOf, items) && Whole(request)
    ensures var r := Query(parse, t, items, request);
      r.Ok? && r.value.cursor.None? && forall y :: y in r.value.items <==> Answers(parse, t, items, request, y)
  {
    hide *;
    WholeParts(request);
    var target := TargetOf(t, request.index.value);
    var selected := Selected(parse, target, request.plan.value, items, request.forward);
    var reader := ReaderOf(parse, KeyNames(target), request.clauses.value, request.projection.value);
    WholeAnswer(parse, t, items, request);
    TargetTable(t, request.index.value);
    SelectedMembers(parse, target, request.plan.value, items, request.forward);
    var at := PickedFrom(reader, selected);
    var r := Picked(reader, selected);
    ComesFromParts(reader, selected, r, at);
    forall y ensures y in r <==> Answers(parse, t, items, request, y) {
      if y in r {
        var k :| 0 <= k < |r| && r[k] == y;
        ReaderIs(parse, KeyNames(target), request.clauses.value, request.projection.value, selected[at[k]]);
        WantedIff(parse, request.plan.value, selected[at[k]]);
        AcceptedIff(parse, request.clauses.value, selected[at[k]]);
        ShownIff(request.projection.value, selected[at[k]], y);
        AnswersOf(parse, t, items, request, selected[at[k]], y);
      }
      if Answers(parse, t, items, request, y) {
        var x := AnswerMadeOf(parse, t, items, request, y);
        ReaderIs(parse, KeyNames(target), request.clauses.value, request.projection.value, x);
        WantedIff(parse, request.plan.value, x);
        AcceptedIff(parse, request.clauses.value, x);
        ShownIff(request.projection.value, x, y);
        var i :| 0 <= i < |selected| && selected[i] == x;
        assert i in at;
        var k :| 0 <= k < |at| && at[k] == i;
        assert r[k] == y;
      }
    }
  }

  lemma ReaderIs(parse: Parse, names: seq<string>, clauses: seq<Clause>, projection: seq<string>, x: Item)
    ensures ReaderOf(parse, names, clauses, projection).filter(x) <==> Passes(parse, clauses, x)
    ensures ReaderOf(parse, names, clauses, projection).project(x) == Projected(projection, x)
  {
    hide Passes, Projected;
  }

  lemma TargetTable(t: Table, index: Option<SecondaryIndex>)
    ensures TargetOf(t, index).table == t
  {
  }

  // ---------- the order of an answer ----------

  // An item that has the attribute is ahead of one that lacks it; of two that have it, the one with the lesser value.
  ghost predicate AheadBy(parse: Parse, name: string, x: Item, y: Item) {
    && name in x.attributes
    && (name in y.attributes ==> LessThan(parse, x.attributes[name], y.attributes[name]))
  }

  ghost predicate LevelBy(parse: Parse, name: string, x: Item, y: Item) {
    !AheadBy(parse, name, x, y) && !AheadBy(parse, name, y, x)
  }

  // The first of the attributes that tells them apart decides, and behind them the keys and the tables.
  ghost predicate Ahead(parse: Parse, names: seq<string>, x: Item, y: Item)
    decreases |names|
  {
    if |names| == 0 then Less(x.key, y.key) || (x.key == y.key && Less(x.table, y.table))
    else AheadBy(parse, names[0], x, y) || (LevelBy(parse, names[0], x, y) && Ahead(parse, names[1..], x, y))
  }

  lemma AttributeIff(parse: Parse, name: string, x: Item, y: Item)
    ensures CompareAttribute(parse, name, x, y) < 0 <==> AheadBy(parse, name, x, y)
    ensures CompareAttribute(parse, name, x, y) > 0 <==> AheadBy(parse, name, y, x)
  {
    hide CompareValues, LessThan;
    if name in x.attributes && name in y.attributes {
      CompareIff(parse, x.attributes[name], y.attributes[name]);
    }
  }

  lemma KeysIff(parse: Parse, x: Item, y: Item)
    ensures ByNames(parse, [])(x, y) < 0 <==> Ahead(parse, [], x, y)
    ensures ByNames(parse, [])(x, y) > 0 <==> Ahead(parse, [], y, x)
  {
    CompareTexts(x.key, y.key);
    CompareTexts(y.key, x.key);
    CompareTexts(x.table, y.table);
    CompareTexts(y.table, x.table);
    CompareStrings(x.key, y.key, y.key);
    CompareStrings(x.table, y.table, y.table);
    LessIrreflexive(x.key);
    hide Less;
  }

  lemma {:induction false} AheadIff(parse: Parse, names: seq<string>, x: Item, y: Item)
    ensures ByNames(parse, names)(x, y) < 0 <==> Ahead(parse, names, x, y)
    ensures ByNames(parse, names)(x, y) > 0 <==> Ahead(parse, names, y, x)
    decreases |names|
  {
    hide AheadBy, CompareAttribute, Less;
    if |names| == 0 {
      KeysIff(parse, x, y);
    } else {
      AttributeIff(parse, names[0], x, y);
      AheadIff(parse, names[1..], x, y);
    }
  }

  // every wanted item that has one of the ordering attributes has it of that attribute's kind
  ghost predicate OneKindEach(parse: Parse, t: Table, items: seq<Item>, plan: Plan, names: seq<string>, kinds: seq<Kind>) {
    && |kinds| == |names|
    && forall i, x | 0 <= i < |names| && x in items && x.table == t.name && Wanted(parse, plan, x) && names[i] in x.attributes ::
         OfKind(parse, kinds[i], x.attributes[names[i]])
  }

  lemma SortedIsAhead(parse: Parse, names: seq<string>, kinds: seq<Kind>, xs: seq<Item>)
    requires |kinds| == |names| && forall i | 0 <= i < |names| :: Uniform(parse, names[i], kinds[i], xs)
    requires DistinctItems(xs)
    ensures var r := Ordered(parse, names, xs, true);
      |r| == |xs| && forall i, j | 0 <= i < j < |r| :: Ahead(parse, names, r[i], r[j])
  {
    hide Uniform, ByNames, Ahead, StableSort.Sort;
    OrderIsTotal(parse, names, kinds, xs);
    var less, r := (x, y) => ByNames(parse, names)(x, y) < 0, Ordered(parse, names, xs, true);
    PermutedDistinct(r, xs);
    StableSort.SameElements(r, xs);
    hide Ordered;
    forall i, j | 0 <= i < j < |r| ensures Ahead(parse, names, r[i], r[j]) {
      AheadIff(parse, names, r[i], r[j]);
      assert r[i] in r && r[j] in r;
      assert r[i] in xs && r[j] in xs && r[i] != r[j];
      assert !less(r[j], r[i]);
      assert less(r[i], r[j]);
    }
  }

  lemma OrderedAhead(parse: Parse, names: seq<string>, kinds: seq<Kind>, xs: seq<Item>, forward: bool)
    requires |kinds| == |names| && forall i | 0 <= i < |names| :: Uniform(parse, names[i], kinds[i], xs)
    requires DistinctItems(xs)
    ensures var r := Ordered(parse, names, xs, forward);
      forall i, j | 0 <= i < j < |r| :: if forward then Ahead(parse, names, r[i], r[j]) else Ahead(parse, names, r[j], r[i])
  {
    hide *;
    SortedIsAhead(parse, names, kinds, xs);
    if !forward {
      OrderIsTotal(parse, names, kinds, xs);
      var up, down := Ordered(parse, names, xs, true), Ordered(parse, names, xs, false);
      assert down == StableSort.Reversed(up);
      forall i, j | 0 <= i < j < |down| ensures Ahead(parse, names, down[j], down[i]) {
        assert down[i] == up[|up| - 1 - i] && down[j] == up[|up| - 1 - j];
      }
    }
  }

  // The answer is in the order of the key attributes, the wanted way round, if each of them is of one kind.
  lemma QueryOrders(parse: Parse, t: Table, items: seq<Item>, request: QueryRequest, kinds: seq<Kind>) returns (xs: seq<Item>)
    requires Unique(ItemIdOf, items) && Whole(request)
    requires OneKindEach(parse, t, items, request.plan.value, KeyNames(TargetOf(t, request.index.value)), kinds)
    ensures var r, names := Query(parse, t, items, request), KeyNames(TargetOf(t, request.index.value));
      && r.Ok? && |xs| == |r.value.items|
      && (forall k | 0 <= k < |xs| :: xs[k] in items && ShowsOf(request.projection.value, xs[k], r.value.items[k]))
      && forall k, l | 0 <= k < l < |xs| ::
           if request.forward then Ahead(parse, names, xs[k], xs[l]) else Ahead(parse, names, xs[l], xs[k])
  {
    hide *;
    WholeParts(request);
    var target := TargetOf(t, request.index.value);
    var selected := Selected(parse, target, request.plan.value, items, request.forward);
    var reader := ReaderOf(parse, KeyNames(target), request.clauses.value, request.projection.value);
    WholeAnswer(parse, t, items, request);
    TargetTable(t, request.index.value);
    SelectedMembers(parse, target, request.plan.value, items, request.forward);
    SelectedOrders(parse, target, request.plan.value, items, request.forward, kinds);
    var at := PickedFrom(reader, selected);
    var r := Picked(reader, selected);
    ComesFromParts(reader, selected, r, at);
    xs := seq(|r|, k requires 0 <= k < |r| => selected[at[k]]);
    forall k | 0 <= k < |r| ensures xs[k] in items && ShowsOf(request.projection.value, xs[k], r[k]) {
      ReaderIs(parse, KeyNames(target), request.clauses.value, request.projection.value, selected[at[k]]);
      ShownIff(request.projection.value, xs[k], r[k]);
    }
  }

  lemma SelectedOrders(parse: Parse, target: Target, plan: Plan, items: seq<Item>, forward: bool, kinds: seq<Kind>)
    requires Unique(ItemIdOf, items) && OneKindEach(parse, target.table, items, plan, KeyNames(target), kinds)
    ensures var r := Selected(parse, target, plan, items, forward);
      forall i, j | 0 <= i < j < |r| ::
        if forward then Ahead(parse, KeyNames(target), r[i], r[j]) else Ahead(parse, KeyNames(target), r[j], r[i])
  {
    hide *;
    var names, listed := KeyNames(target), ListItems(items, target.table.name);
    var candidates := Candidates(parse, plan, listed);
    ListingOfTable(items, target.table.name);
    CandidatesMatch(parse, plan, listed);
    forall x | x in candidates ensures Wanted(parse, plan, x) && x in items && x.table == target.table.name {
      WantedIff(parse, plan, x);
    }
    CandidatesUniform(parse, target.table, items, plan, names, kinds, candidates);
    UniqueItems(candidates);
    OrderedAhead(parse, names, kinds, candidates, forward);
    SelectedIs(parse, target, plan, items, forward);
  }

  lemma CandidatesUniform(parse: Parse, t: Table, items: seq<Item>, plan: Plan, names: seq<string>, kinds: seq<Kind>, xs: seq<Item>)
    requires OneKindEach(parse, t, items, plan, names, kinds)
    requires forall x | x in xs :: Wanted(parse, plan, x) && x in items && x.table == t.name
    ensures |kinds| == |names| && forall i | 0 <= i < |names| :: Uniform(parse, names[i], kinds[i], xs)
  {
    hide Wanted, OfKind;
  }

  lemma SelectedIs(parse: Parse, target: Target, plan: Plan, items: seq<Item>, forward: bool)
    ensures Selected(parse, target, plan, items, forward)
      == Ordered(parse, KeyNames(target), Candidates(parse, plan, ListItems(items, target.table.name)), forward)
  {
  }

  lemma UniqueItems(xs: seq<Item>)
    requires Unique(ItemIdOf, xs)
    ensures DistinctItems(xs)
  {
  }

  // The results of a table are in the order of its keys,
  lemma TableOrderingNames(t: Table)
    requires Trimmed(t.partitionKey) && t.partitionKey != "" && Trimmed(t.sortKey)
    ensures KeyNames(TargetOf(t, None)) == if t.sortKey in ["", t.partitionKey] then [t.partitionKey] else [t.partitionKey, t.sortKey]
  {
    hide TrimSpace, UniqueStrings;
    UniqueOfTwo(t.partitionKey, t.sortKey);
    assert Names(TargetOf(t, None)) == [t.partitionKey] + NonBlank(t.sortKey);
  }

  // and those of an index in the order of the index's keys, then the table's.
  lemma IndexOrderingNames(t: Table, i: SecondaryIndex)
    requires var names := [i.hash, i.range, t.partitionKey, t.sortKey];
      NoDuplicates(names) && forall k | 0 <= k < 4 :: names[k] != "" && Trimmed(names[k])
    ensures KeyNames(TargetOf(t, Some(i))) == [i.hash, i.range, t.partitionKey, t.sortKey]
  {
    hide TrimSpace, UniqueStrings;
    var names := [i.hash, i.range, t.partitionKey, t.sortKey];
    assert names[1] != "" && names[3] != "";
    assert Names(TargetOf(t, Some(i))) == names;
    UniqueStays(names);
  }

  lemma UniqueOfTwo(a: string, b: string)
    requires Trimmed(a) && a != "" && Trimmed(b)
    ensures UniqueStrings([a] + NonBlank(b)) == if b in ["", a] then [a] else [a, b]
  {
    hide TrimSpace;
    UniqueStays([a]);
    if b == "" {
      assert [a] + NonBlank(b) == [a];
    } else if b == a {
      assert ([a] + [b])[..1] == [a];
    } else {
      assert [a] + NonBlank(b) == [a, b];
      UniqueStays([a, b]);
    }
  }

  lemma {:induction false} UniqueStays(values: seq<string>)
    requires NoDuplicates(values) && forall i | 0 <= i < |values| :: values[i] != "" && Trimmed(values[i])
    ensures UniqueStrings(values) == values
  {
    hide TrimSpace;
    if |values| > 0 {
      var n := |values| - 1;
      UniqueStays(values[..n]);
      assert values[n] !in values[..n];
      assert values == values[..n] + [values[n]];
    }
  }

  // ---------- comparisons, spelled out ----------

  // A sort key that is a text or a number, under each of the comparisons with one.
  lemma SortComparisons(parse: Parse, plan: Plan, op: Comparison, x: Item)
    requires plan.partitionKey in x.attributes && Equals(x.attributes[plan.partitionKey], plan.partition)
    requires plan.sortKey != "" && plan.sortKey in x.attributes && plan.sort.Compare? && plan.sort.op == op
    ensures forall a, b | x.attributes[plan.sortKey] == StringValue(a) && plan.sort.value == StringValue(b) ::
      Matches(parse, plan, x) <==>
        match op {
          case Equal => a == b
          case NotEqual => a != b
          case Below => Less(a, b)
          case NotAbove => AtMost(a, b)
          case Above => Less(b, a)
          case NotBelow => AtMost(b, a)
        }
    ensures forall a, b | x.attributes[plan.sortKey] == NumberValue(a) && plan.sort.value == NumberValue(b)
                          && parse(TrimSpace(a)).Some? && parse(TrimSpace(b)).Some? ::
      var m, n := parse(TrimSpace(a)).value, parse(TrimSpace(b)).value;
      Matches(parse, plan, x) <==>
        match op {
          case Equal => a == b
          case NotEqual => a != b
          case Below => m < n
          case NotAbove => m <= n
          case Above => n < m
          case NotBelow => n <= m
        }
  {
    WantedIff(parse, plan, x);
    hide TrimSpace, Less, Matches;
    forall a, b | x.attributes[plan.sortKey] == StringValue(a) && plan.sort.value == StringValue(b)
      ensures Less(a, b) ==> !Less(b, a) && a != b
      ensures !Less(a, b) && !Less(b, a) ==> a == b
    {
      LessIrreflexive(a);
      LessConnected(a, b);
      if Less(a, b) {
        LessAsymmetric(a, b);
      }
    }
  }

  // ---------- scans ----------

  // A scan answers with the accepted items of the table, in the order of their keys.
  lemma ScanAnswers(parse: Parse, t: Table, items: seq<Item>, clauses: seq<Clause>)
    requires Unique(ItemIdOf, items)
    ensures var r := Scan(parse, t, items, Ok(clauses), map[], None);
      && r.Ok? && r.value.cursor.None?
      && (forall y :: y in r.value.items <==> y in items && y.table == t.name && AcceptedByAll(parse, clauses, y))
      && (forall i, j | 0 <= i < j < |r.value.items| :: Less(r.value.items[i].key, r.value.items[j].key))
  {
    hide *;
    var listed, reader := ListItems(items, t.name), ReaderOf(parse, KeyNames(TargetOf(t, None)), clauses, []);
    WholeScan(parse, t, items, clauses);
    ListingOfTable(items, t.name);
    ListedAscend(listed);
    var at := PickedFrom(reader, listed);
    var r := Picked(reader, listed);
    ComesFromParts(reader, listed, r, at);
    forall k | 0 <= k < |r| ensures r[k] == listed[at[k]] && AcceptedByAll(parse, clauses, r[k]) {
      ReaderIs(parse, KeyNames(TargetOf(t, None)), clauses, [], listed[at[k]]);
      AllShown(listed[at[k]]);
      AcceptedIff(parse, clauses, listed[at[k]]);
    }
    forall y | y in listed && AcceptedByAll(parse, clauses, y) ensures y in r {
      ReaderIs(parse, KeyNames(TargetOf(t, None)), clauses, [], y);
      AllShown(y);
      AcceptedIff(parse, clauses, y);
      var i :| 0 <= i < |listed| && listed[i] == y;
      assert i in at;
      var k :| 0 <= k < |at| && at[k] == i;
      assert r[k] == y;
    }
  }

  lemma AllShown(x: Item)
    ensures Projected([], x) == x
  {
  }

  lemma ListedAscend(listed: seq<Item>)
    requires KeyOrder.Ascending(Keys(ItemKey, listed))
    ensures forall i, j | 0 <= i < j < |listed| :: Less(listed[i].key, listed[j].key)
  {
    hide Less;
    forall i, j | 0 <= i < j < |listed| ensures Less(listed[i].key, listed[j].key) {
      assert Less(Keys(ItemKey, listed)[i], Keys(ItemKey, listed)[j]);
    }
  }

  lemma WholeScan(parse: Parse, t: Table, items: seq<Item>, clauses: seq<Clause>)
    ensures var listed, reader := ListItems(items, t.name), ReaderOf(parse, KeyNames(TargetOf(t, None)), clauses, []);
      Scan(parse, t, items, Ok(clauses), map[], None) == Ok(Page(Picked(reader, listed), |listed|, None))
  {
    hide ListItems, ReaderOf, KeyNames;
    var listed := ListItems(items, t.name);
    assert listed[0..|listed|] == listed;
  }

  // ---------- one page ----------

  // A page goes through as many items as the limit allows and are left, keeps those that pass, and has a cursor, with the
  // key attributes of the last item it went through, exactly if items are left after it.
  lemma PageHolds(reader: Reader, items: seq<Item>, start: nat, limit: int)
    requires start <= |items| && limit > 0 && PageFrom(reader, items, start, Some(limit)).Ok?
    ensures var page, left := PageFrom(reader, items, start, Some(limit)).value, |items| - start;
      && page.scanned == (if left <= limit then left else limit)
      && page.items == Picked(reader, items[start..start + page.scanned])
      && (page.cursor.Some? <==> start + page.scanned < |items|)
      && (page.cursor.Some? ==>
            var last := items[start + page.scanned - 1];
            && page.cursor.value.Keys == (set name | name in reader.names)
            && forall name | name in reader.names :: name in last.attributes && page.cursor.value[name] == last.attributes[name])
  {
    assert items[start..start] == [];
    assert Picked(reader, []) == [];
    hide Picked;
  }
}
