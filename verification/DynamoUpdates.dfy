/** Update expressions, attribute by attribute: what an update does to one attribute depends on the operations
    that name it and on nothing else. */
module DynamoUpdates {
  import opened Wrappers
  import opened DynamoValues
  import opened DynamoModel
  import opened DynamoTransactions

  // an attribute, or nothing where it is absent
  type Slot = Option<AttributeValue>

  function SlotOf(attributes: Attributes, name: string): Slot {
    if name in attributes then Some(attributes[name]) else None
  }

  // the operations that name the attribute
  function About(operations: seq<Operation>, name: string): seq<Operation> {
    if |operations| == 0 then []
    else if operations[0].path == name then [operations[0]] + About(operations[1..], name)
    else About(operations[1..], name)
  }

  // what one attribute becomes, nothing where an addition is not possible
  function Became(sum: Sum, operations: seq<Operation>, slot: Slot): Option<Slot> {
    if |operations| == 0 then Some(slot)
    else
      match operations[0]
      case Set(_, value) => Became(sum, operations[1..], Some(value))
      case Remove(_) => Became(sum, operations[1..], None)
      case Add(_, value) =>
        match Added(sum, if slot.Some? then slot.value else EMPTY, value)
        case Err(_) => None
        case Ok(updated) => Became(sum, operations[1..], Some(updated))
  }

  predicate NamesNoKey(t: Table, operations: seq<Operation>) {
    forall i | 0 <= i < |operations| :: !IsKeyAttribute(t, operations[i].path)
  }

  // An update succeeds exactly if it names no key attribute and can be carried out on every attribute alone; then it does
  // to each attribute what the operations about it do.
  lemma {:induction false} UpdatedIff(sum: Sum, t: Table, operations: seq<Operation>, attributes: Attributes)
    ensures var r := Updated(sum, t, operations, attributes);
      && (r.Ok? <==>
            NamesNoKey(t, operations)
            && forall name :: Became(sum, About(operations, name), SlotOf(attributes, name)).Some?)
      && (r.Ok? ==> forall name ::
            Became(sum, About(operations, name), SlotOf(attributes, name)) == Some(SlotOf(r.value, name)))
    decreases |operations|
  {
    if |operations| > 0 {
      var operation, more := operations[0], operations[1..];
      NamesFirst(t, operations);
      var first := Operated(sum, t, operation, attributes);
      hide Updated, IsKeyAttribute, NamesNoKey;
      assert Updated(sum, t, operations, attributes) == match first { case Err(e) => Err(e) case Ok(next) => Updated(sum, t, more, next) } by {
        UpdatedFirst(sum, t, operations, attributes);
      }
      if first.Ok? {
        UpdatedIff(sum, t, more, first.value);
        forall name
          ensures Became(sum, About(operations, name), SlotOf(attributes, name))
            == Became(sum, About(more, name), SlotOf(first.value, name))
        {
          BecameFirst(sum, t, operations, attributes, name);
        }
      } else if !IsKeyAttribute(t, operation.path) {
        ImpossibleFirst(sum, t, operations, attributes);
      }
    }
  }

  lemma UpdatedFirst(sum: Sum, t: Table, operations: seq<Operation>, attributes: Attributes)
    requires |operations| > 0
    ensures Updated(sum, t, operations, attributes)
      == match Operated(sum, t, operations[0], attributes) {
           case Err(e) => Err(e)
           case Ok(next) => Updated(sum, t, operations[1..], next)
         }
  {
  }

  lemma NamesFirst(t: Table, operations: seq<Operation>)
    requires |operations| > 0
    ensures NamesNoKey(t, operations) <==> !IsKeyAttribute(t, operations[0].path) && NamesNoKey(t, operations[1..])
  {
    hide IsKeyAttribute;
    if NamesNoKey(t, operations[1..]) {
      forall i | 1 <= i < |operations| ensures !IsKeyAttribute(t, operations[i].path) {
        assert operations[i] == operations[1..][i - 1];
      }
    }
  }

  lemma BecameFirst(sum: Sum, t: Table, operations: seq<Operation>, attributes: Attributes, name: string)
    requires |operations| > 0 && Operated(sum, t, operations[0], attributes).Ok?
    ensures Became(sum, About(operations, name), SlotOf(attributes, name))
      == Became(sum, About(operations[1..], name), SlotOf(Operated(sum, t, operations[0], attributes).value, name))
  {
    hide Added, IsKeyAttribute;
    if operations[0].path == name {
      var about := About(operations, name);
      assert about[1..] == About(operations[1..], name);
    }
  }

  lemma ImpossibleFirst(sum: Sum, t: Table, operations: seq<Operation>, attributes: Attributes)
    requires |operations| > 0 && Operated(sum, t, operations[0], attributes).Err? && !IsKeyAttribute(t, operations[0].path)
    ensures Became(sum, About(operations, operations[0].path), SlotOf(attributes, operations[0].path)).None?
  {
    hide Added, IsKeyAttribute;
  }

  // Updates that say the same about every attribute succeed together and with the same result, in whatever order they
  // take the attributes.
  lemma OrderAcrossAttributesIrrelevant(sum: Sum, t: Table, a: seq<Operation>, b: seq<Operation>, attributes: Attributes)
    requires forall name :: About(a, name) == About(b, name)
    ensures var r, r' := Updated(sum, t, a, attributes), Updated(sum, t, b, attributes);
      && (r.Ok? <==> r'.Ok?)
      && (r.Ok? ==> r.value == r'.value)
  {
    UpdatedIff(sum, t, a, attributes);
    UpdatedIff(sum, t, b, attributes);
    if NamesNoKey(t, a) {
      SameNames(t, a, b);
    }
    if NamesNoKey(t, b) {
      SameNames(t, b, a);
    }
    var r, r' := Updated(sum, t, a, attributes), Updated(sum, t, b, attributes);
    if r.Ok? && r'.Ok? {
      forall name ensures SlotOf(r.value, name) == SlotOf(r'.value, name) {
        assert Some(SlotOf(r.value, name)) == Some(SlotOf(r'.value, name));
      }
      SameSlots(r.value, r'.value);
    }
  }

  lemma SameSlots(a: Attributes, b: Attributes)
    requires forall name :: SlotOf(a, name) == SlotOf(b, name)
    ensures a == b
  {
    forall name ensures (name in a <==> name in b) && (name in a ==> a[name] == b[name]) {
      assert SlotOf(a, name) == SlotOf(b, name);
    }
  }

  lemma SameNames(t: Table, a: seq<Operation>, b: seq<Operation>)
    requires forall name :: About(a, name) == About(b, name)
    requires NamesNoKey(t, a)
    ensures NamesNoKey(t, b)
  {
    forall i | 0 <= i < |b| ensures !IsKeyAttribute(t, b[i].path) {
      AboutSome(b, i);
      if forall j | 0 <= j < |a| :: a[j].path != b[i].path {
        AboutNone(a, b[i].path);
      }
    }
  }

  lemma {:induction false} AboutSome(operations: seq<Operation>, i: nat)
    requires i < |operations|
    ensures |About(operations, operations[i].path)| > 0
  {
    if i > 0 {
      AboutSome(operations[1..], i - 1);
    }
  }

  lemma {:induction false} AboutNone(operations: seq<Operation>, name: string)
    requires forall i | 0 <= i < |operations| :: operations[i].path != name
    ensures |About(operations, name)| == 0
  {
    if |operations| > 0 {
      AboutNone(operations[1..], name);
    }
  }

  // The last operation of all stands: what it sets is there, what it removes is not, and what it adds to is a number.
  lemma {:induction false} LastWins(sum: Sum, t: Table, operations: seq<Operation>, attributes: Attributes)
    requires |operations| > 0 && Updated(sum, t, operations, attributes).Ok?
    ensures var r, last := Updated(sum, t, operations, attributes).value, operations[|operations| - 1];
      && (last.Set? ==> SlotOf(r, last.path) == Some(last.value))
      && (last.Remove? ==> SlotOf(r, last.path) == None)
      && (last.Add? ==> SlotOf(r, last.path).Some? && r[last.path].N.Some?)
    decreases |operations|
  {
    if |operations| > 1 {
      var next := Operated(sum, t, operations[0], attributes).value;
      LastWins(sum, t, operations[1..], next);
    }
  }
}
