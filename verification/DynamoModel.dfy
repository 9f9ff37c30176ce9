/** DynamoDB tables and items as values, and the string keys that items are stored under. */
module DynamoModel {
  import opened Wrappers
  import opened Strings
  import opened DynamoValues

  // ---------- entities ----------

  datatype TableStatus = Creating | Active | Deleting

  datatype AttributeDefinition = AttributeDefinition(name: string, kind: string)

  // hash and range are the attribute names of the key schema; allowed: what the projection lets through,
  // nothing when it lets everything through
  datatype SecondaryIndex = SecondaryIndex(name: string, hash: string, range: string, allowed: Option<seq<string>>)

  // Times are in nanoseconds, 0 for none.
  datatype Table = Table(
    name: string, partitionKey: string, sortKey: string, billingMode: string,
    definitions: seq<AttributeDefinition>, globalIndexes: seq<SecondaryIndex>, localIndexes: seq<SecondaryIndex>,
    status: TableStatus, createdAt: nat, activationAt: nat, deletedAt: nat)

  datatype ItemId = ItemId(table: string, key: string)

  datatype Item = Item(table: string, key: string, attributes: Attributes)

  function ItemIdOf(item: Item): ItemId { ItemId(item.table, item.key) }

  type Tables = map<string, Table>
  type Items = map<ItemId, Attributes>

  datatype Database = Database(tables: Tables, items: Items)

  datatype Error =
    | RequestsRequired | TooManyItems | TableNameRequired | TableExists | TableNotFound | ItemKeyRequired | ItemNotFound
    | ItemRequired | NoPartitionKey | UnsupportedKeyAttributes | MissingKeyAttribute(name: string)
    | NullKey | UnsupportedKeyType
    | ConditionFailed | InvalidExpression | KeyAttributeUpdate(name: string) | InvalidAddition | InvalidDefinition
    | PersistFailed

  // ---------- item keys ----------

  // attributeValueToKeyComponent
  function Component(v: AttributeValue): Result<string, Error> {
    if v.S.Some? then Ok(v.S.value)
    else if v.N.Some? then Ok(v.N.value)
    else if v.BOOL.Some? then Ok(if v.BOOL.value then "true" else "false")
    else if v.NULL then Err(NullKey)
    else Err(UnsupportedKeyType)
  }

  function AttributeComponent(values: Attributes, name: string): Result<string, Error> {
    if name in values then Component(values[name]) else Err(MissingKeyAttribute(name))
  }

  predicate HasSortKey(t: Table) {
    TrimSpace(t.sortKey) != ""
  }

  // itemRecordKey: the key attributes are read from a whole item
  function RecordKey(t: Table, values: Attributes): Result<string, Error> {
    if |values| == 0 then Err(ItemRequired)
    else if TrimSpace(t.partitionKey) == "" then Err(NoPartitionKey)
    else
      match AttributeComponent(values, t.partitionKey)
      case Err(e) => Err(e)
      case Ok(partition) =>
        if !HasSortKey(t) then Ok(partition)
        else
          match AttributeComponent(values, t.sortKey)
          case Err(e) => Err(e)
          case Ok(sort) => Ok(partition + "|" + sort)
  }

  // itemDocumentKey: the document holds the key attributes and nothing else
  function DocumentKey(t: Table, values: Attributes): Result<string, Error> {
    if |values| > 0 && TrimSpace(t.partitionKey) != "" && |values| != (if HasSortKey(t) then 2 else 1) then
      Err(UnsupportedKeyAttributes)
    else RecordKey(t, values)
  }

  predicate IsKeyAttribute(t: Table, name: string) {
    name == t.partitionKey || (t.sortKey != "" && name == t.sortKey)
  }
}
