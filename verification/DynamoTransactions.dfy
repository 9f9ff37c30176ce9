/** TransactWriteItems: the entries of a transaction are carried out one after the other on a copy of the
    state, and a map of the targets met so far detects conflicts. */
module DynamoTransactions {
  import opened Wrappers
  import opened DynamoValues
  import opened DynamoModel
  import opened Strings

  // ---------- updates and conditions, after parsing ----------

  datatype Operation = Set(path: string, value: AttributeValue) | Remove(path: string) | Add(path: string, value: AttributeValue)

  // Unusable: the text of the condition has an error
  datatype Condition =
    | Always | Exists(path: string) | NotExists(path: string) | EqualTo(path: string, value: AttributeValue) | Unusable

  // the sum of two numerals, nothing if one of them is not a number
  type Sum = (string, string) -> Option<string>

  predicate Meets(c: Condition, attributes: Attributes) {
    match c
    case Always => true
    case Exists(path) => path in attributes
    case NotExists(path) => path !in attributes
    case EqualTo(path, value) => path in attributes && attributes[path] == value
    case Unusable => false
  }

  // addAttribute; existing has no field when the attribute is absent
  function Added(sum: Sum, existing: AttributeValue, delta: AttributeValue): Result<AttributeValue, Error> {
    if delta.N.None? || (existing.N.None? && existing != EMPTY) then Err(InvalidAddition)
    else
      match sum(if existing.N.Some? then existing.N.value else "0", delta.N.value)
      case None => Err(InvalidAddition)
      case Some(n) => Ok(NumberValue(n))
  }

  function Operated(sum: Sum, t: Table, operation: Operation, attributes: Attributes): Result<Attributes, Error> {
    var path := operation.path;
    if IsKeyAttribute(t, path) then Err(KeyAttributeUpdate(path))
    else
      match operation
      case Set(_, value) => Ok(attributes[path := value])
      case Remove(_) => Ok(attributes - {path})
      case Add(_, value) =>
        match Added(sum, if path in attributes then attributes[path] else EMPTY, value)
        case Err(e) => Err(e)
        case Ok(updated) => Ok(attributes[path := updated])
  }

  function Updated(sum: Sum, t: Table, operations: seq<Operation>, attributes: Attributes): Result<Attributes, Error> {
    if |operations| == 0 then Ok(attributes)
    else
      match Operated(sum, t, operations[0], attributes)
      case Err(e) => Err(e)
      case Ok(next) => Updated(sum, t, operations[1..], next)
  }

  // An update leaves the key attributes alone.
  lemma {:induction false} UpdateKeepsKeyAttributes(sum: Sum, t: Table, operations: seq<Operation>, attributes: Attributes, name: string)
    requires Updated(sum, t, operations, attributes).Ok? && IsKeyAttribute(t, name)
    ensures var r := Updated(sum, t, operations, attributes).value;
      (name in r <==> name in attributes) && (name in r ==> r[name] == attributes[name])
    decreases |operations|
  {
    if |operations| > 0 {
      var next := Operated(sum, t, operations[0], attributes).value;
      UpdateKeepsKeyAttributes(sum, t, operations[1..], next, name);
    }
  }

  // ---------- one entry ----------

  // update: the parsed update expression, nothing if its text has an error
  datatype TransactItem = TransactItem(
    table: string, put: Attributes, deleteKey: Attributes, updateKey: Attributes, checkKey: Attributes,
    condition: Condition, update: Option<seq<Operation>>)

  predicate Checked(e: TransactItem) { |e.checkKey| > 0 }

  // transactDocumentKey
  function EntryKey(t: Table, e: TransactItem): Result<string, Error> {
    if |e.put| > 0 then RecordKey(t, e.put)
    else if |e.deleteKey| > 0 then DocumentKey(t, e.deleteKey)
    else if |e.updateKey| > 0 then DocumentKey(t, e.updateKey)
    else if |e.checkKey| > 0 then DocumentKey(t, e.checkKey)
    else Err(ItemRequired)
  }

  function FindTable(tables: Tables, name: string): Result<Table, Error> {
    var n := TrimSpace(name);
    if n == "" then Err(TableNameRequired) else if n !in tables then Err(TableNotFound) else Ok(tables[n])
  }

  datatype Target = Target(table: Table, id: ItemId)

  function TargetOf(tables: Tables, e: TransactItem): Result<Target, Error> {
    match FindTable(tables, e.table)
    case Err(error) => Err(error)
    case Ok(t) =>
      match EntryKey(t, e)
      case Err(error) => Err(error)
      case Ok(key) => Ok(Target(t, ItemId(TrimSpace(e.table), key)))
  }

  datatype Effect = Keep | Write(attributes: Attributes) | Erase

  datatype Reason = NoReason | ConditionalCheckFailed | TransactionConflict

  datatype Refusal = Invalid(error: Error) | Cancelled(reasons: seq<Reason>)

  function Lookup(items: Items, id: ItemId): Option<Attributes> {
    if id in items then Some(items[id]) else None
  }

  function Current(found: Option<Attributes>): Attributes {
    if found.Some? then found.value else map[]
  }

  // What an entry does to its target; Err(ConditionFailed) cancels the transaction.
  function EffectOf(sum: Sum, t: Table, e: TransactItem, found: Option<Attributes>): Result<Effect, Error> {
    if |e.put| > 0 then Ok(Write(e.put))
    else if |e.updateKey| > 0 then
      if !Meets(e.condition, Current(found)) then Err(ConditionFailed)
      else if e.update.None? then Err(InvalidExpression)
      else
        match Updated(sum, t, e.update.value, Current(found))
        case Err(error) => Err(error)
        case Ok(attributes) => Ok(Write(attributes))
    else if |e.checkKey| > 0 then
      if Meets(e.condition, Current(found)) then Ok(Keep) else Err(ConditionFailed)
    else Ok(Erase)
  }

  function Perform(items: Items, id: ItemId, effect: Effect): Items {
    match effect
    case Keep => items
    case Write(attributes) => items[id := attributes]
    case Erase => items - {id}
  }

  function Outcome(found: Option<Attributes>, effect: Effect): Option<Attributes> {
    match effect
    case Keep => found
    case Write(attributes) => Some(attributes)
    case Erase => None
  }

  // What the loop needs to know about entries: their targets, and their effects on what is found there.
  datatype Rules = Rules(
    target: TransactItem -> Result<ItemId, Error>,
    effect: (TransactItem, Option<Attributes>) -> Result<Effect, Error>,
    mark: ItemId -> string)

  // how a target is written into the map of targets met
  function Mark(id: ItemId): string {
    id.table + "|" + id.key
  }

  function EntryEffect(sum: Sum, tables: Tables, e: TransactItem, found: Option<Attributes>): Result<Effect, Error> {
    match TargetOf(tables, e)
    case Err(error) => Err(error)
    case Ok(target) => EffectOf(sum, target.table, e, found)
  }

  function EntryTarget(tables: Tables, e: TransactItem): Result<ItemId, Error> {
    match TargetOf(tables, e)
    case Err(error) => Err(error)
    case Ok(target) => Ok(target.id)
  }

  function RulesOf(sum: Sum, tables: Tables): Rules {
    Rules(e => EntryTarget(tables, e), (e, found) => EntryEffect(sum, tables, e, found), Mark)
  }

  // ---------- the loop ----------

  // items as changed so far; the latest entry of each target met
  datatype Progress = Progress(items: Items, seen: map<string, nat>)

  ghost predicate SeenBelow(p: Progress, n: nat) {
    forall m | m in p.seen :: p.seen[m] < n
  }

  function Reasons(size: nat, first: nat, second: nat, reason: Reason): seq<Reason> {
    seq(size, i => if i == first || i == second then reason else NoReason)
  }

  predicate Conflict(entries: seq<TransactItem>, n: nat, mark: string, seen: map<string, nat>)
    requires n < |entries| && (mark in seen ==> seen[mark] < n)
  {
    mark in seen && !Checked(entries[n]) && !Checked(entries[seen[mark]])
  }

  function Advance(rules: Rules, entries: seq<TransactItem>, n: nat, p: Progress): (r: Result<Progress, Refusal>)
    requires n < |entries| && SeenBelow(p, n)
    ensures r.Ok? ==> SeenBelow(r.value, n + 1)
  {
    match rules.target(entries[n])
    case Err(error) => Err(Invalid(error))
    case Ok(id) =>
      var mark := rules.mark(id);
      if Conflict(entries, n, mark, p.seen) then
        Err(Cancelled(Reasons(|entries|, n, p.seen[mark], TransactionConflict)))
      else
        match rules.effect(entries[n], Lookup(p.items, id))
        case Err(error) =>
          Err(if error == ConditionFailed then Cancelled(Reasons(|entries|, n, n, ConditionalCheckFailed)) else Invalid(error))
        case Ok(effect) => Ok(Progress(Perform(p.items, id, effect), p.seen[mark := n]))
  }

  // after the first n entries
  function After(rules: Rules, items: Items, entries: seq<TransactItem>, n: nat): (r: Result<Progress, Refusal>)
    requires n <= |entries|
    ensures r.Ok? ==> SeenBelow(r.value, n)
  {
    if n == 0 then Ok(Progress(items, map[]))
    else
      match After(rules, items, entries, n - 1)
      case Err(refusal) => Err(refusal)
      case Ok(p) => Advance(rules, entries, n - 1, p)
  }

  const LIMIT := 100

  function TransactBy(rules: Rules, items: Items, entries: seq<TransactItem>): Result<Items, Refusal> {
    if |entries| == 0 then Err(Invalid(RequestsRequired))
    else if |entries| > LIMIT then Err(Invalid(TooManyItems))
    else
      match After(rules, items, entries, |entries|)
      case Err(refusal) => Err(refusal)
      case Ok(p) => Ok(p.items)
  }

  // ---------- all at once ----------

  // the entry, evaluated against the starting state, has a target and an effect
  predicate Possible(rules: Rules, start: Items, e: TransactItem) {
    && rules.target(e).Ok?
    && rules.effect(e, Lookup(start, rules.target(e).value)).Ok?
  }

  function IdOf(rules: Rules, e: TransactItem): ItemId
    requires rules.target(e).Ok?
  {
    rules.target(e).value
  }

  // what the entry leaves at its target when it is evaluated against the starting state
  function Left(rules: Rules, start: Items, e: TransactItem): Option<Attributes>
    requires Possible(rules, start, e)
  {
    var found := Lookup(start, rules.target(e).value);
    Outcome(found, rules.effect(e, found).value)
  }

  ghost predicate AllPossible(rules: Rules, start: Items, entries: seq<TransactItem>) {
    forall i | 0 <= i < |entries| :: Possible(rules, start, entries[i])
  }

  ghost predicate DistinctTargets(rules: Rules, entries: seq<TransactItem>) {
    forall i, j | 0 <= i < j < |entries| && rules.target(entries[i]).Ok? && rules.target(entries[j]).Ok? ::
      rules.mark(IdOf(rules, entries[i])) != rules.mark(IdOf(rules, entries[j]))
  }

  // Every entry is evaluated against the starting state, and all effects are written at once.
  ghost predicate AllAtOnce(rules: Rules, start: Items, entries: seq<TransactItem>, result: Items)
    requires AllPossible(rules, start, entries)
  {
    && (forall i | 0 <= i < |entries| ::
          Lookup(result, IdOf(rules, entries[i])) == Left(rules, start, entries[i]))
    && (forall id :: Untouched(rules, entries, id) ==> Lookup(result, id) == Lookup(start, id))
  }

  ghost predicate Untouched(rules: Rules, entries: seq<TransactItem>, id: ItemId) {
    forall i | 0 <= i < |entries| :: rules.target(entries[i]).Ok? ==> IdOf(rules, entries[i]) != id
  }

  lemma SameLookups(a: Items, b: Items)
    requires forall id :: Lookup(a, id) == Lookup(b, id)
    ensures a == b
  {
    forall id ensures (id in a <==> id in b) && (id in a ==> a[id] == b[id]) {
      assert Lookup(a, id) == Lookup(b, id);
    }
  }

  // The map of targets met knows the latest entry of each target.
  ghost predicate SeenIsLatest(rules: Rules, entries: seq<TransactItem>, n: nat, seen: map<string, nat>)
    requires n <= |entries|
  {
    && (forall i | 0 <= i < n :: rules.target(entries[i]).Ok?)
    && (forall i | 0 <= i < n :: rules.mark(IdOf(rules, entries[i])) in seen && i <= seen[rules.mark(IdOf(rules, entries[i]))])
    && (forall m | m in seen :: seen[m] < n && rules.mark(IdOf(rules, entries[seen[m]])) == m)
  }

  lemma {:induction false} AfterSeen(rules: Rules, items: Items, entries: seq<TransactItem>, n: nat)
    requires n <= |entries| && After(rules, items, entries, n).Ok?
    ensures SeenIsLatest(rules, entries, n, After(rules, items, entries, n).value.seen)
  {
    if n > 0 {
      AfterSeen(rules, items, entries, n - 1);
      var p := After(rules, items, entries, n - 1).value;
      assert After(rules, items, entries, n) == Advance(rules, entries, n - 1, p);
      hide *;
      OneMoreSeen(rules, entries, n - 1, p);
    }
  }

  lemma OneMoreSeen(rules: Rules, entries: seq<TransactItem>, n: nat, p: Progress)
    requires n < |entries| && SeenBelow(p, n) && SeenIsLatest(rules, entries, n, p.seen) && Advance(rules, entries, n, p).Ok?
    ensures SeenIsLatest(rules, entries, n + 1, Advance(rules, entries, n, p).value.seen)
  {
    var mark, seen := rules.mark(IdOf(rules, entries[n])), Advance(rules, entries, n, p).value.seen;
    assert seen == p.seen[mark := n];
    hide Advance, IdOf;
  }

  lemma PrefixOk(rules: Rules, items: Items, entries: seq<TransactItem>, m: nat, n: nat)
    requires m <= n <= |entries| && After(rules, items, entries, n).Ok?
    ensures After(rules, items, entries, m).Ok?
  {
    if m < n {
      PrefixOk(rules, items, entries, m, n - 1);
    }
  }

  lemma RefusalStays(rules: Rules, items: Items, entries: seq<TransactItem>, m: nat, n: nat)
    requires m <= n <= |entries| && After(rules, items, entries, m).Err?
    ensures After(rules, items, entries, n) == After(rules, items, entries, m)
  {
    if m < n {
      RefusalStays(rules, items, entries, m, n - 1);
    }
  }

  // The map that the loop has built when it reaches an entry it carries out.
  lemma SeenAt(rules: Rules, items: Items, entries: seq<TransactItem>, n: nat) returns (seen: map<string, nat>)
    requires n < |entries| && After(rules, items, entries, |entries|).Ok?
    ensures SeenIsLatest(rules, entries, n, seen)
    ensures rules.target(entries[n]).Ok? && !Conflict(entries, n, rules.mark(IdOf(rules, entries[n])), seen)
  {
    PrefixOk(rules, items, entries, n + 1, |entries|);
    AfterSeen(rules, items, entries, n);
    seen := After(rules, items, entries, n).value.seen;
  }

  // ---------- conflicts ----------

  // An entry is in conflict exactly with an unchecked entry of the same target that no other entry of that
  // target follows.
  lemma ConflictIff(rules: Rules, items: Items, entries: seq<TransactItem>, n: nat)
    requires n < |entries| && After(rules, items, entries, n).Ok? && rules.target(entries[n]).Ok?
    ensures var p, mark := After(rules, items, entries, n).value, rules.mark(IdOf(rules, entries[n]));
      Conflict(entries, n, mark, p.seen) <==>
        !Checked(entries[n]) && exists i :: LatestBefore(rules, entries, n, i) && !Checked(entries[i])
  {
    AfterSeen(rules, items, entries, n);
    var p, mark := After(rules, items, entries, n).value, rules.mark(IdOf(rules, entries[n]));
    if mark in p.seen {
      assert LatestBefore(rules, entries, n, p.seen[mark]);
    }
    forall i | LatestBefore(rules, entries, n, i) ensures mark in p.seen && p.seen[mark] == i {
      var k := p.seen[mark];
      assert SameTarget(rules, entries, k, n);
    }
  }

  ghost predicate SameTarget(rules: Rules, entries: seq<TransactItem>, i: int, j: int) {
    && 0 <= i < |entries| && 0 <= j < |entries|
    && rules.target(entries[i]).Ok? && rules.target(entries[j]).Ok?
    && rules.mark(IdOf(rules, entries[i])) == rules.mark(IdOf(rules, entries[j]))
  }

  ghost predicate LatestBefore(rules: Rules, entries: seq<TransactItem>, n: int, i: int) {
    && i < n && SameTarget(rules, entries, i, n)
    && forall k | i < k < n :: !SameTarget(rules, entries, k, n)
  }

  lemma CheckedBetween(rules: Rules, entries: seq<TransactItem>, i: nat, j: nat, seen: map<string, nat>)
    requires i < j < |entries| && SeenIsLatest(rules, entries, j, seen)
    requires SameTarget(rules, entries, i, j) && !Checked(entries[i]) && !Checked(entries[j])
    requires !Conflict(entries, j, rules.mark(IdOf(rules, entries[j])), seen)
    ensures exists k :: i < k < j && SameTarget(rules, entries, k, j) && Checked(entries[k])
  {
    var k := seen[rules.mark(IdOf(rules, entries[j]))];
    assert SameTarget(rules, entries, k, j);
  }

  // In a transaction that goes through, a condition check on the same target separates any two unchecked entries.
  lemma ChecksSeparate(rules: Rules, items: Items, entries: seq<TransactItem>, i: nat, j: nat)
    requires i < j < |entries| && After(rules, items, entries, |entries|).Ok?
    requires SameTarget(rules, entries, i, j) && !Checked(entries[i]) && !Checked(entries[j])
    ensures exists k :: i < k < j && SameTarget(rules, entries, k, j) && Checked(entries[k])
  {
    var seen := SeenAt(rules, items, entries, j);
    CheckedBetween(rules, entries, i, j, seen);
  }

  // Without condition checks the targets of a transaction that goes through are pairwise different.
  lemma UncheckedTargetsDistinct(rules: Rules, items: Items, entries: seq<TransactItem>)
    requires After(rules, items, entries, |entries|).Ok?
    requires forall i | 0 <= i < |entries| :: !Checked(entries[i])
    ensures DistinctTargets(rules, entries)
  {
    forall i, j | 0 <= i < j < |entries| && rules.target(entries[i]).Ok? && rules.target(entries[j]).Ok?
      ensures rules.mark(IdOf(rules, entries[i])) != rules.mark(IdOf(rules, entries[j]))
    {
      if SameTarget(rules, entries, i, j) {
        ChecksSeparate(rules, items, entries, i, j);
      }
    }
  }

  // ---------- distinct targets ----------

  lemma {:induction false} Settled(rules: Rules, start: Items, entries: seq<TransactItem>, n: nat)
    requires n <= |entries|
    requires DistinctTargets(rules, entries)
    ensures After(rules, start, entries, n).Ok? <==> AllPossible(rules, start, entries[..n])
    ensures After(rules, start, entries, n).Ok? ==>
              AllAtOnce(rules, start, entries[..n], After(rules, start, entries, n).value.items)
  {
    if n > 0 {
      Settled(rules, start, entries, n - 1);
      var before, now := entries[..n - 1], entries[..n];
      assert now == before + [entries[n - 1]];
      if After(rules, start, entries, n - 1).Ok? {
        AfterSeen(rules, start, entries, n - 1);
        if rules.target(entries[n - 1]).Ok? {
          SettledOne(rules, start, entries, n - 1, After(rules, start, entries, n - 1).value);
        }
        assert now[n - 1] == entries[n - 1];
      } else {
        var i :| 0 <= i < |before| && !Possible(rules, start, before[i]);
        assert now[i] == before[i];
      }
    }
  }

  lemma SettledOne(rules: Rules, start: Items, entries: seq<TransactItem>, n: nat, p: Progress)
    requires n < |entries| && DistinctTargets(rules, entries) && rules.target(entries[n]).Ok?
    requires AllPossible(rules, start, entries[..n])
    requires SeenBelow(p, n) && SeenIsLatest(rules, entries, n, p.seen)
    requires AllAtOnce(rules, start, entries[..n], p.items)
    ensures var r := Advance(rules, entries, n, p);
      && (r.Ok? <==> Possible(rules, start, entries[n]))
      && (r.Ok? ==> AllPossible(rules, start, entries[..n] + [entries[n]]) &&
                    AllAtOnce(rules, start, entries[..n] + [entries[n]], r.value.items))
  {
    var before, e := entries[..n], entries[n];
    var id := IdOf(rules, e);
    assert forall i | 0 <= i < n :: before[i] == entries[i];
    assert rules.mark(id) !in p.seen;
    assert Untouched(rules, before, id);
    if Possible(rules, start, e) {
      SettledResult(rules, start, before, e, p.items);
    }
  }

  lemma SettledResult(rules: Rules, start: Items, before: seq<TransactItem>, e: TransactItem, items: Items)
    requires AllPossible(rules, start, before) && AllAtOnce(rules, start, before, items)
    requires Possible(rules, start, e) && Untouched(rules, before, IdOf(rules, e))
    ensures var id := IdOf(rules, e);
      var effect := rules.effect(e, Lookup(start, id)).value;
      && AllPossible(rules, start, before + [e])
      && AllAtOnce(rules, start, before + [e], Perform(items, id, effect))
  {
    var id := IdOf(rules, e);
    var effect := rules.effect(e, Lookup(start, id)).value;
    var now, result := before + [e], Perform(items, id, effect);
    assert forall i | 0 <= i < |before| :: now[i] == before[i];
    assert now[|before|] == e;
    forall other | Untouched(rules, now, other) ensures Lookup(result, other) == Lookup(start, other) {
      assert IdOf(rules, now[|before|]) != other;
      assert Untouched(rules, before, other);
    }
  }

  // A transaction of pairwise different targets goes through exactly if every entry is possible in the starting
  // state, and then amounts to writing every effect at once.
  lemma DistinctTransaction(rules: Rules, start: Items, entries: seq<TransactItem>)
    requires DistinctTargets(rules, entries)
    ensures var r := TransactBy(rules, start, entries);
      && (r.Ok? <==> 0 < |entries| <= LIMIT && AllPossible(rules, start, entries))
      && (r.Ok? ==> AllAtOnce(rules, start, entries, r.value))
  {
    Settled(rules, start, entries, |entries|);
    assert entries[..|entries|] == entries;
  }

  // Without condition checks, success means different targets and all effects at once.
  lemma UncheckedTransaction(rules: Rules, start: Items, entries: seq<TransactItem>)
    requires forall i | 0 <= i < |entries| :: !Checked(entries[i])
    ensures var r := TransactBy(rules, start, entries);
      && (r.Ok? <==> 0 < |entries| <= LIMIT && DistinctTargets(rules, entries) && AllPossible(rules, start, entries))
      && (r.Ok? ==> AllAtOnce(rules, start, entries, r.value))
  {
    var r := TransactBy(rules, start, entries);
    if r.Ok? {
      UncheckedTargetsDistinct(rules, start, entries);
    }
    if DistinctTargets(rules, entries) {
      DistinctTransaction(rules, start, entries);
    }
  }

  // ---------- order ----------

  lemma AllAtOnceUnique(rules: Rules, start: Items, entries: seq<TransactItem>, a: Items, b: Items)
    requires AllPossible(rules, start, entries)
    requires AllAtOnce(rules, start, entries, a) && AllAtOnce(rules, start, entries, b)
    ensures a == b
  {
    forall id ensures Lookup(a, id) == Lookup(b, id) {
      if !Untouched(rules, entries, id) {
        var i :| 0 <= i < |entries| && IdOf(rules, entries[i]) == id;
      }
    }
    SameLookups(a, b);
  }

  lemma {:induction false} Occurrences<T>(xs: seq<T>, i: nat, j: nat)
    requires i < j < |xs| && xs[i] == xs[j]
    ensures multiset(xs)[xs[i]] >= 2
  {
    assert xs == xs[..j] + [xs[j]] + xs[j + 1..];
    assert xs[i] in xs[..j] by { assert xs[..j][i] == xs[i]; }
    assert multiset(xs[..j])[xs[i]] >= 1;
  }

  lemma {:induction false} OccursTwice<T>(xs: seq<T>, x: T) returns (i: nat, j: nat)
    requires multiset(xs)[x] >= 2
    ensures i < j < |xs| && xs[i] == x == xs[j]
  {
    var n := |xs| - 1;
    assert xs == xs[..n] + [xs[n]];
    if xs[n] == x {
      assert x in multiset(xs[..n]);
      i :| 0 <= i < n && xs[..n][i] == x;
      j := n;
    } else {
      i, j := OccursTwice(xs[..n], x);
    }
  }

  lemma PermutedDistinct(rules: Rules, xs: seq<TransactItem>, ys: seq<TransactItem>)
    requires multiset(xs) == multiset(ys)
    requires DistinctTargets(rules, xs)
    ensures DistinctTargets(rules, ys)
  {
    forall i, j | 0 <= i < j < |ys| && rules.target(ys[i]).Ok? && rules.target(ys[j]).Ok?
      ensures rules.mark(IdOf(rules, ys[i])) != rules.mark(IdOf(rules, ys[j]))
    {
      var a, b;
      if ys[i] == ys[j] {
        Occurrences(ys, i, j);
        a, b := OccursTwice(xs, ys[i]);
      } else {
        assert ys[i] in multiset(ys) && ys[j] in multiset(ys);
        a :| 0 <= a < |xs| && xs[a] == ys[i];
        b :| 0 <= b < |xs| && xs[b] == ys[j];
      }
      assert rules.mark(IdOf(rules, xs[a])) != rules.mark(IdOf(rules, xs[b]));
    }
  }

  lemma PermutedPossible(rules: Rules, start: Items, xs: seq<TransactItem>, ys: seq<TransactItem>)
    requires multiset(xs) == multiset(ys) && AllPossible(rules, start, xs)
    ensures AllPossible(rules, start, ys) && |xs| == |ys|
  {
    assert |multiset(xs)| == |xs| && |multiset(ys)| == |ys|;
    forall j | 0 <= j < |ys| ensures Possible(rules, start, ys[j]) {
      assert ys[j] in multiset(ys);
      var i :| 0 <= i < |xs| && xs[i] == ys[j];
    }
  }

  // A transaction of different targets may be permuted: it goes through as well, to the same items.
  lemma OrderIrrelevant(rules: Rules, start: Items, xs: seq<TransactItem>, ys: seq<TransactItem>)
    requires multiset(xs) == multiset(ys)
    requires (forall i | 0 <= i < |xs| :: !Checked(xs[i])) || DistinctTargets(rules, xs)
    requires TransactBy(rules, start, xs).Ok?
    ensures TransactBy(rules, start, ys) == TransactBy(rules, start, xs)
  {
    if !DistinctTargets(rules, xs) {
      UncheckedTargetsDistinct(rules, start, xs);
    }
    DistinctTransaction(rules, start, xs);
    PermutedDistinct(rules, xs, ys);
    PermutedPossible(rules, start, xs, ys);
    DistinctTransaction(rules, start, ys);
    PermutedResult(rules, start, xs, ys, TransactBy(rules, start, ys).value);
    AllAtOnceUnique(rules, start, xs, TransactBy(rules, start, xs).value, TransactBy(rules, start, ys).value);
  }

  lemma PermutedResult(rules: Rules, start: Items, xs: seq<TransactItem>, ys: seq<TransactItem>, r: Items)
    requires multiset(xs) == multiset(ys)
    requires AllPossible(rules, start, xs) && AllPossible(rules, start, ys)
    requires AllAtOnce(rules, start, ys, r)
    ensures AllAtOnce(rules, start, xs, r)
  {
    forall i | 0 <= i < |xs| ensures Lookup(r, IdOf(rules, xs[i])) == Left(rules, start, xs[i]) {
      assert xs[i] in multiset(xs);
      var j :| 0 <= j < |ys| && ys[j] == xs[i];
    }
    forall id | Untouched(rules, xs, id) ensures Untouched(rules, ys, id) {
      forall j | 0 <= j < |ys| && rules.target(ys[j]).Ok? ensures IdOf(rules, ys[j]) != id {
        assert ys[j] in multiset(ys);
        var i :| 0 <= i < |xs| && xs[i] == ys[j];
      }
    }
  }

  // ---------- the service's transactions ----------

  function Transact(sum: Sum, tables: Tables, items: Items, entries: seq<TransactItem>): Result<Items, Refusal> {
    TransactBy(RulesOf(sum, tables), items, entries)
  }

  function PutEntry(table: string, item: Attributes): TransactItem {
    TransactItem(table, item, map[], map[], map[], Always, None)
  }

  function CheckEntry(table: string, key: Attributes): TransactItem {
    TransactItem(table, map[], map[], map[], key, Always, None)
  }

  lemma TwoSteps(rules: Rules, items: Items, e: TransactItem, f: TransactItem)
    requires rules.target(e).Ok? && rules.target(f).Ok?
    requires rules.effect(e, Lookup(items, IdOf(rules, e))).Ok?
    ensures var middle := Perform(items, IdOf(rules, e), rules.effect(e, Lookup(items, IdOf(rules, e))).value);
      After(rules, items, [e, f], 1) == Ok(Progress(middle, map[rules.mark(IdOf(rules, e)) := 0]))
    ensures rules.mark(IdOf(rules, e)) == rules.mark(IdOf(rules, f)) && !Checked(e) && !Checked(f) ==>
              TransactBy(rules, items, [e, f]) == Err(Cancelled(Reasons(2, 1, 0, TransactionConflict)))
  {
    assert After(rules, items, [e, f], 0) == Ok(Progress(items, map[]));
  }

  lemma ThreeSteps(rules: Rules, items: Items, e: TransactItem, check: TransactItem, f: TransactItem, x: Attributes, y: Attributes)
    requires rules.target(e).Ok? && rules.target(check) == rules.target(e) == rules.target(f)
    requires !Checked(e) && !Checked(f) && Checked(check)
    requires forall found :: rules.effect(e, found) == Ok(Write(x))
    requires forall found :: rules.effect(f, found) == Ok(Write(y))
    requires forall found :: rules.effect(check, found) == Ok(Keep)
    ensures TransactBy(rules, items, [e, check, f]) == Ok(items[IdOf(rules, e) := y])
  {
    var entries, id := [e, check, f], IdOf(rules, e);
    var mark := rules.mark(id);
    assert After(rules, items, entries, 0) == Ok(Progress(items, map[]));
    assert After(rules, items, entries, 1) == Ok(Progress(items[id := x], map[mark := 0]));
    assert After(rules, items, entries, 2) == Ok(Progress(items[id := x], map[mark := 0][mark := 1]));
    assert items[id := x][id := y] == items[id := y];
  }

  // Two writes to one item are refused, unless a condition check on that item stands between them:
  // then both are carried out, and the later one wins.
  lemma CheckHidesConflict(sum: Sum, tables: Tables, items: Items, table: string, x: Attributes, y: Attributes, key: Attributes)
    requires FindTable(tables, table).Ok?
    requires var t := FindTable(tables, table).value;
      RecordKey(t, x).Ok? && RecordKey(t, x) == RecordKey(t, y) == DocumentKey(t, key)
    ensures var put, check, put' := PutEntry(table, x), CheckEntry(table, key), PutEntry(table, y);
      var id := ItemId(TrimSpace(table), RecordKey(FindTable(tables, table).value, x).value);
      && Transact(sum, tables, items, [put, put']) == Err(Cancelled(Reasons(2, 1, 0, TransactionConflict)))
      && Transact(sum, tables, items, [put, check, put']) == Ok(items[id := y])
      && Transact(sum, tables, items, [put', check, put]) == Ok(items[id := x])
  {
    var rules := RulesOf(sum, tables);
    var put, check, put' := PutEntry(table, x), CheckEntry(table, key), PutEntry(table, y);
    TwoSteps(rules, items, put, put');
    ThreeSteps(rules, items, put, check, put', x, y);
    ThreeSteps(rules, items, put', check, put, y, x);
  }
}
