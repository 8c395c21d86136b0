// The key schemas of a datastore's table and of its indexes, and the attribute definitions
// that must declare exactly the attributes they use.
module Datastore {
  import opened Blueprint
  import opened Sequences

  // A string set that remembers the order its members were first added in.
  class OrderedSet {
    var seen: set<string>
    var order: seq<string>

    ghost predicate Valid()
      reads this
    {
      forall v :: v in seen <==> v in order
    }

    constructor ()
      ensures Valid() && order == []
    {
      seen, order := {}, [];
    }

    method Add(v: string)
      requires Valid()
      modifies this
      ensures Valid() && order == AddFirst(old(order), v)
    {
      if v == "" {
        return;
      }
      if v in seen {
        return;
      }
      seen := seen + {v};
      order := order + [v];
    }
  }

  function AddFirst(order: seq<string>, v: string): seq<string> {
    if v == "" || v in order then order else order + [v]
  }

  function AddAll(order: seq<string>, names: seq<string>): seq<string> {
    if names == [] then order else AddFirst(AddAll(order, names[..|names| - 1]), names[|names| - 1])
  }

  lemma {:induction false} AddAllConcat(order: seq<string>, a: seq<string>, b: seq<string>)
    ensures AddAll(order, a + b) == AddAll(AddAll(order, a), b)
  {
    if b == [] {
      assert a + b == a;
    } else {
      AddAllConcat(order, a, b[..|b| - 1]);
      assert (a + b)[..|a + b| - 1] == a + b[..|b| - 1];
    }
  }

  // ---- The table ----

  datatype KeyType = Hash | Range

  datatype KeyEntry = KeyEntry(attribute: string, keyType: KeyType)

  datatype Index = Index(name: string, fields: seq<string>)

  datatype DatastoreSpec = DatastoreSpec(partitionKey: string, sortKey: string, indexes: seq<Index>)

  datatype SecondaryIndex = SecondaryIndex(name: string, keySchema: seq<KeyEntry>)

  datatype Table = Table(keySchema: seq<KeyEntry>, indexes: seq<SecondaryIndex>, attributeDefinitions: seq<string>)

  predicate Indexable(i: Index) {
    1 <= |i.fields| <= 2
  }

  function KeySchema(hash: string, sort: seq<string>): seq<KeyEntry> {
    [KeyEntry(hash, Hash)] + if sort == [] then [] else [KeyEntry(sort[0], Range)]
  }

  function IndexOfTable(i: Index): seq<SecondaryIndex> {
    if Indexable(i) then [SecondaryIndex(i.name, KeySchema(i.fields[0], i.fields[1..]))] else []
  }

  function SkippedIndex(i: Index): seq<string> {
    if Indexable(i) then [] else [i.name]
  }

  function UsedFields(i: Index): seq<string> {
    if Indexable(i) then i.fields else []
  }

  function TableKeys(s: DatastoreSpec): seq<string> {
    [s.partitionKey] + if s.sortKey == "" then [] else [s.sortKey]
  }

  function TableOf(s: DatastoreSpec): Table {
    Table(
      KeySchema(s.partitionKey, if s.sortKey == "" then [] else [s.sortKey]),
      FlatMap(s.indexes, IndexOfTable),
      AddAll(AddAll([], TableKeys(s)), FlatMap(s.indexes, UsedFields)))
  }

  // Builds the indexes, adding the fields of each to the attribute names as it goes.
  method BuildGlobalSecondaryIndexes(indexes: seq<Index>, attributes: OrderedSet)
    returns (built: seq<SecondaryIndex>, skipped: seq<string>)
    requires attributes.Valid()
    modifies attributes
    ensures attributes.Valid() && attributes.order == AddAll(old(attributes.order), FlatMap(indexes, UsedFields))
    ensures built == FlatMap(indexes, IndexOfTable) && skipped == FlatMap(indexes, SkippedIndex)
  {
    built, skipped := [], [];
    for i := 0 to |indexes|
      invariant attributes.Valid() && attributes.order == AddAll(old(attributes.order), FlatMap(indexes[..i], UsedFields))
      invariant built == FlatMap(indexes[..i], IndexOfTable) && skipped == FlatMap(indexes[..i], SkippedIndex)
    {
      assert indexes[..i + 1][..i] == indexes[..i];
      var index := indexes[i];
      AddAllConcat(old(attributes.order), FlatMap(indexes[..i], UsedFields), UsedFields(index));
      if |index.fields| < 1 || |index.fields| > 2 {
        skipped := skipped + [index.name];
        continue;
      }
      var schema := BuildIndexSchema(index, attributes);
      built := built + [SecondaryIndex(index.name, schema)];
    }
    assert indexes[..|indexes|] == indexes;
  }

  method BuildIndexSchema(index: Index, attributes: OrderedSet) returns (schema: seq<KeyEntry>)
    requires Indexable(index) && attributes.Valid()
    modifies attributes
    ensures attributes.Valid() && attributes.order == AddAll(old(attributes.order), index.fields)
    ensures schema == KeySchema(index.fields[0], index.fields[1..])
  {
    schema := [];
    for j := 0 to |index.fields|
      invariant attributes.Valid() && attributes.order == AddAll(old(attributes.order), index.fields[..j])
      invariant schema == if j == 0 then [] else KeySchema(index.fields[0], index.fields[1..j])
    {
      assert index.fields[..j + 1][..j] == index.fields[..j];
      schema := schema + [KeyEntry(index.fields[j], if j == 0 then Hash else Range)];
      attributes.Add(index.fields[j]);
    }
    assert index.fields[..|index.fields|] == index.fields;
  }

  lemma TableKeysAdded(s: DatastoreSpec)
    ensures AddAll([], TableKeys(s)) ==
            if s.sortKey == "" then AddFirst([], s.partitionKey) else AddFirst(AddFirst([], s.partitionKey), s.sortKey)
  {
    var first := [s.partitionKey];
    assert first[..0] == [] && AddAll([], first) == AddFirst([], s.partitionKey);
    assert s.sortKey != "" ==> TableKeys(s)[..1] == first;
  }

  // Nothing is emitted for keys that are references, known only at deploy time.
  method EmitTable(s: DatastoreSpec, deferred: bool) returns (table: Option<Table>, skipped: seq<string>)
    ensures table == if deferred then None else Some(TableOf(s))
    ensures skipped == if deferred then [] else FlatMap(s.indexes, SkippedIndex)
  {
    if deferred {
      return None, [];
    }
    var attributes := new OrderedSet();
    var keySchema := BuildTableSchema(s, attributes);
    var built;
    built, skipped := BuildGlobalSecondaryIndexes(s.indexes, attributes);
    table := Some(Table(keySchema, built, attributes.order));
  }

  // The table's own keys, the first names added.
  method BuildTableSchema(s: DatastoreSpec, attributes: OrderedSet) returns (keySchema: seq<KeyEntry>)
    requires attributes.Valid() && attributes.order == []
    modifies attributes
    ensures attributes.Valid() && attributes.order == AddAll([], TableKeys(s))
    ensures keySchema == KeySchema(s.partitionKey, if s.sortKey == "" then [] else [s.sortKey])
  {
    keySchema := [KeyEntry(s.partitionKey, Hash)];
    attributes.Add(s.partitionKey);
    if s.sortKey != "" {
      keySchema := keySchema + [KeyEntry(s.sortKey, Range)];
      attributes.Add(s.sortKey);
    }
    TableKeysAdded(s);
  }

  // ---- What is declared ----

  function SchemaAttributes(schema: seq<KeyEntry>): seq<string> {
    Map(schema, (e: KeyEntry) => e.attribute)
  }

  // Some key schema of the table uses the attribute.
  ghost predicate Used(t: Table, name: string) {
    name in SchemaAttributes(t.keySchema) || exists i :: i in t.indexes && name in SchemaAttributes(i.keySchema)
  }

  // Where a list first names something.
  predicate FirstAt(names: seq<string>, name: string, k: nat) {
    k < |names| && names[k] == name && name !in names[..k]
  }

  // order lists the non-empty members of names once each, in order of first use.
  ghost predicate FirstUses(order: seq<string>, names: seq<string>) {
    (forall name :: name in order <==> name != "" && name in names) &&
    (forall i, j :: 0 <= i < j < |order| ==> order[i] != order[j]) &&
    (forall i, j, p: nat, q: nat :: 0 <= i < j < |order| && FirstAt(names, order[i], p) && FirstAt(names, order[j], q) ==> p < q)
  }

  lemma {:induction false} AddAllIsFirstUses(names: seq<string>)
    ensures FirstUses(AddAll([], names), names)
  {
    if names != [] {
      var n := |names| - 1;
      var before, order := AddAll([], names[..n]), AddAll([], names);
      AddAllIsFirstUses(names[..n]);
      assert names == names[..n] + [names[n]];
      forall i, j, p: nat, q: nat | 0 <= i < j < |order| && FirstAt(names, order[i], p) && FirstAt(names, order[j], q) ensures p < q {
        assert order[i] == before[i] && before[i] in before;
        FirstAtShorter(names, order[i], p);
        if j < |before| {
          assert before[j] in before;
          FirstAtShorter(names, order[j], q);
        } else {
          InPrefix(names, q, n);
        }
      }
    }
  }

  lemma InPrefix(names: seq<string>, j: nat, k: nat)
    requires j < |names| && k <= |names|
    ensures j < k ==> names[j] in names[..k]
  {
    assert j < k ==> names[..k][j] == names[j];
  }

  lemma FirstAtShorter(names: seq<string>, name: string, k: nat)
    requires names != [] && FirstAt(names, name, k) && name in names[..|names| - 1]
    ensures FirstAt(names[..|names| - 1], name, k)
  {
    var n := |names| - 1;
    var j := IndexOf(names[..n], name);
    InPrefix(names, j, k);
    assert names[..n][..k] == names[..k];
  }

  // The names in the order the key schemas are written.
  function UsedNames(s: DatastoreSpec): seq<string> {
    TableKeys(s) + FlatMap(s.indexes, UsedFields)
  }

  lemma KeySchemaAttributes(hash: string, sort: seq<string>)
    requires |sort| <= 1
    ensures SchemaAttributes(KeySchema(hash, sort)) == [hash] + sort
  {
  }

  lemma IndexAttributes(i: Index)
    requires Indexable(i)
    ensures SchemaAttributes(IndexOfTable(i)[0].keySchema) == i.fields
  {
    KeySchemaAttributes(i.fields[0], i.fields[1..]);
  }

  lemma UsedByIndexIffNamed(indexes: seq<Index>, name: string)
    ensures (exists i :: i in FlatMap(indexes, IndexOfTable) && name in SchemaAttributes(i.keySchema)) <==>
            name in FlatMap(indexes, UsedFields)
  {
    FlatMapMember(indexes, UsedFields, name);
    if i :| i in FlatMap(indexes, IndexOfTable) && name in SchemaAttributes(i.keySchema) {
      FlatMapMember(indexes, IndexOfTable, i);
      var x :| x in indexes && i in IndexOfTable(x);
      IndexAttributes(x);
      assert name in UsedFields(x);
    }
    if x :| x in indexes && name in UsedFields(x) {
      var i := IndexOfTable(x)[0];
      FlatMapMember(indexes, IndexOfTable, i);
      IndexAttributes(x);
    }
  }

  lemma UsedIffNamed(s: DatastoreSpec, name: string)
    ensures Used(TableOf(s), name) <==> name in UsedNames(s)
  {
    KeySchemaAttributes(s.partitionKey, if s.sortKey == "" then [] else [s.sortKey]);
    UsedByIndexIffNamed(s.indexes, name);
  }

  // The attribute definitions declare every attribute a key schema uses, once, in order of
  // first use, and no other. Only an empty name, which the source lets through for the
  // partition key and for an index field, is used without being declared.
  lemma AttributesExact(s: DatastoreSpec)
    ensures var t := TableOf(s);
            (forall name :: name in t.attributeDefinitions <==> name != "" && Used(t, name)) &&
            (forall i, j :: 0 <= i < j < |t.attributeDefinitions| ==> t.attributeDefinitions[i] != t.attributeDefinitions[j]) &&
            FirstUses(t.attributeDefinitions, UsedNames(s))
  {
    AddAllConcat([], TableKeys(s), FlatMap(s.indexes, UsedFields));
    AddAllIsFirstUses(UsedNames(s));
    forall name ensures Used(TableOf(s), name) <==> name in UsedNames(s) { UsedIffNamed(s, name); }
  }

  // ---- Skipped indexes ----

  function Kept(i: Index): seq<Index> {
    if Indexable(i) then [i] else []
  }

  lemma {:induction false} KeptSame(indexes: seq<Index>)
    ensures FlatMap(FlatMap(indexes, Kept), IndexOfTable) == FlatMap(indexes, IndexOfTable)
    ensures FlatMap(FlatMap(indexes, Kept), UsedFields) == FlatMap(indexes, UsedFields)
    ensures |FlatMap(indexes, SkippedIndex)| == |indexes| - |FlatMap(indexes, Kept)|
  {
    if indexes != [] {
      var n := |indexes| - 1;
      KeptSame(indexes[..n]);
      var kept := FlatMap(indexes[..n], Kept);
      if Indexable(indexes[n]) {
        assert (kept + [indexes[n]])[..|kept|] == kept;
        assert FlatMap(indexes, Kept) == kept + [indexes[n]];
      } else {
        assert FlatMap(indexes, Kept) == kept + [] == kept;
      }
    }
  }

  // An index of the wrong size leaves no trace in the table, and one error.
  lemma SkippedContributeNothing(s: DatastoreSpec)
    ensures TableOf(s) == TableOf(s.(indexes := FlatMap(s.indexes, Kept)))
    ensures |FlatMap(s.indexes, SkippedIndex)| == |s.indexes| - |TableOf(s).indexes|
  {
    KeptSame(s.indexes);
    var kept := FlatMap(s.indexes, Kept);
    forall i | i in kept ensures Indexable(i) {
      FlatMapMember(s.indexes, Kept, i);
    }
    BuiltCount(kept);
  }

  lemma {:induction false} BuiltCount(kept: seq<Index>)
    requires forall i :: i in kept ==> Indexable(i)
    ensures |FlatMap(kept, IndexOfTable)| == |kept|
  {
    if kept != [] {
      BuiltCount(kept[..|kept| - 1]);
    }
  }

  // A key schema is a hash key and, after it, an optional range key.
  predicate Keyed(schema: seq<KeyEntry>, hash: string, range: Option<string>) {
    && |schema| == (if range.Some? then 2 else 1)
    && schema[0].attribute == hash && schema[0].keyType == Hash
    && (range.Some? ==> schema[1].attribute == range.value && schema[1].keyType == Range)
  }

  // The table is keyed by the author's keys, and each index of one or two fields by its own,
  // in the author's order.
  lemma KeySchemasExact(s: DatastoreSpec)
    ensures var t := TableOf(s);
            Keyed(t.keySchema, s.partitionKey, if s.sortKey == "" then None else Some(s.sortKey)) && IndexesKeyed(t.indexes, s.indexes)
  {
    BuiltInOrder(s.indexes);
  }

  ghost predicate IndexesKeyed(built: seq<SecondaryIndex>, indexes: seq<Index>) {
    if indexes == [] then built == []
    else
      var last := indexes[|indexes| - 1];
      if |last.fields| == 1 || |last.fields| == 2 then
        && built != [] && built[|built| - 1].name == last.name
        && Keyed(built[|built| - 1].keySchema, last.fields[0], if |last.fields| == 2 then Some(last.fields[1]) else None)
        && IndexesKeyed(built[..|built| - 1], indexes[..|indexes| - 1])
      else IndexesKeyed(built, indexes[..|indexes| - 1])
  }

  lemma {:induction false} BuiltInOrder(indexes: seq<Index>)
    ensures IndexesKeyed(FlatMap(indexes, IndexOfTable), indexes)
  {
    if indexes != [] {
      var n := |indexes| - 1;
      var before, built := FlatMap(indexes[..n], IndexOfTable), FlatMap(indexes, IndexOfTable);
      BuiltInOrder(indexes[..n]);
      if Indexable(indexes[n]) {
        assert built[..|built| - 1] == before;
      } else {
        assert built == before;
      }
    }
  }
}
