/** Three-level grouping of information_schema.columns rows into databases, schemas, tables and columns. */
module Catalog {

  datatype Row = Row(database: string, schema: string, table: string, column: string, dtype: string, ordinal: int)

  datatype Column = Column(name: string, dtype: string)
  datatype Table = Table(name: string, columns: seq<Column>)
  datatype Schema = Schema(name: string, tables: seq<Table>)
  datatype Database = Database(name: string, schemas: seq<Schema>)

  datatype Level = ByDatabase | BySchema | ByTable

  function Key(r: Row, level: Level): string {
    match level case ByDatabase => r.database case BySchema => r.schema case ByTable => r.table
  }

  // ----- Reference definition -----

  /** The rows with one key, in order. */
  function Group(rows: seq<Row>, level: Level, k: string): seq<Row> {
    if rows == [] then [] else
    var last := rows[|rows| - 1];
    Group(rows[..|rows| - 1], level, k) + if Key(last, level) == k then [last] else []
  }

  /** Each key once, in first-seen order. */
  function Seen(rows: seq<Row>, level: Level): seq<string> {
    if rows == [] then [] else
    var before, k := Seen(rows[..|rows| - 1], level), Key(rows[|rows| - 1], level);
    if k in before then before else before + [k]
  }

  /** Stable insertion: after every row whose ordinal is no larger. */
  function Insert(rows: seq<Row>, r: Row): seq<Row> {
    if rows == [] then [r]
    else if rows[|rows| - 1].ordinal <= r.ordinal then rows + [r]
    else Insert(rows[..|rows| - 1], r) + [rows[|rows| - 1]]
  }

  /** sorted(..., key=ordinal_position) */
  function SortByOrdinal(rows: seq<Row>): seq<Row> {
    if rows == [] then [] else Insert(SortByOrdinal(rows[..|rows| - 1]), rows[|rows| - 1])
  }

  function Columns(rows: seq<Row>): seq<Column> {
    seq(|rows|, i requires 0 <= i < |rows| => Column(rows[i].column, rows[i].dtype))
  }

  function Tables(rows: seq<Row>, names: seq<string>): seq<Table> {
    if names == [] then [] else
    [Table(names[0], Columns(SortByOrdinal(Group(rows, ByTable, names[0]))))] + Tables(rows, names[1..])
  }

  function Schemas(rows: seq<Row>, names: seq<string>): seq<Schema> {
    if names == [] then [] else
    var group := Group(rows, BySchema, names[0]);
    [Schema(names[0], Tables(group, Seen(group, ByTable)))] + Schemas(rows, names[1..])
  }

  function Databases(rows: seq<Row>, names: seq<string>): seq<Database> {
    if names == [] then [] else
    var group := Group(rows, ByDatabase, names[0]);
    [Database(names[0], Schemas(group, Seen(group, BySchema)))] + Databases(rows, names[1..])
  }

  function CatalogOf(rows: seq<Row>): seq<Database> {
    Databases(rows, Seen(rows, ByDatabase))
  }

  // ----- The loop and the assembly -----

  type TableMap = map<string, seq<Row>>
  type SchemaMap = map<string, TableMap>
  type TableOrder = map<(string, string), seq<string>>

  function Get<K, V>(m: map<K, seq<V>>, k: K): seq<V> {
    if k in m then m[k] else []
  }

  /** The rows of one schema, as the innermost dictionary and its order list hold them. */
  ghost predicate TablesHeld(rows: seq<Row>, tables: TableMap, order: seq<string>) {
    && order == Seen(rows, ByTable)
    && (forall t :: t in tables <==> t in order)
    && (forall t :: t in tables ==> tables[t] == Group(rows, ByTable, t))
  }

  ghost predicate SchemasHeld(rows: seq<Row>, d: string, schemas: SchemaMap, order: seq<string>, tableOrder: TableOrder) {
    && order == Seen(rows, BySchema)
    && (forall s :: s in schemas <==> s in order)
    && (forall s :: (d, s) in tableOrder <==> s in schemas)
    && (forall s :: s in schemas ==> TablesHeld(Group(rows, BySchema, s), schemas[s], tableOrder[(d, s)]))
  }

  ghost predicate Held(rows: seq<Row>, databases: map<string, SchemaMap>, order: seq<string>,
                       schemaOrder: map<string, seq<string>>, tableOrder: TableOrder) {
    && order == Seen(rows, ByDatabase)
    && (forall d :: d in databases <==> d in order)
    && (forall d :: d in schemaOrder <==> d in databases)
    && (forall d, s :: (d, s) in tableOrder ==> d in databases)
    && (forall d :: d in databases ==>
          SchemasHeld(Group(rows, ByDatabase, d), d, databases[d], schemaOrder[d], tableOrder))
  }

  lemma {:induction false} SeenMeaning(rows: seq<Row>, level: Level)
    ensures forall k :: k in Seen(rows, level) <==> Group(rows, level, k) != []
    ensures forall i, j :: 0 <= i < j < |Seen(rows, level)| ==> Seen(rows, level)[i] != Seen(rows, level)[j]
    decreases |rows|
  {
    if rows == [] {
    } else {
      SeenMeaning(rows[..|rows| - 1], level);
    }
  }

  // ----- What the catalog lists -----

  lemma {:induction false} TablesListed(rows: seq<Row>, names: seq<string>)
    ensures |Tables(rows, names)| == |names|
    ensures forall i :: 0 <= i < |names| ==>
              Tables(rows, names)[i] == Table(names[i], Columns(SortByOrdinal(Group(rows, ByTable, names[i]))))
    decreases |names|
  {
    if names == [] {
    } else {
      TablesListed(rows, names[1..]);
    }
  }

  lemma {:induction false} SchemasListed(rows: seq<Row>, names: seq<string>)
    ensures |Schemas(rows, names)| == |names|
    ensures forall i :: 0 <= i < |names| ==>
              var group := Group(rows, BySchema, names[i]);
              Schemas(rows, names)[i] == Schema(names[i], Tables(group, Seen(group, ByTable)))
    decreases |names|
  {
    if names == [] {
    } else {
      SchemasListed(rows, names[1..]);
    }
  }

  lemma {:induction false} DatabasesListed(rows: seq<Row>, names: seq<string>)
    ensures |Databases(rows, names)| == |names|
    ensures forall i :: 0 <= i < |names| ==>
              var group := Group(rows, ByDatabase, names[i]);
              Databases(rows, names)[i] == Database(names[i], Schemas(group, Seen(group, BySchema)))
    decreases |names|
  {
    if names == [] {
    } else {
      DatabasesListed(rows, names[1..]);
    }
  }

  /** The names of a list of entries, once each in first-seen order of these rows. */
  ghost predicate Lists(names: seq<string>, rows: seq<Row>, level: Level) {
    && names == Seen(rows, level)
    && (forall i, j :: 0 <= i < j < |names| ==> names[i] != names[j])
    && forall i :: 0 <= i < |names| ==> Group(rows, level, names[i]) != []
  }

  function TableNames(tables: seq<Table>): seq<string> {
    seq(|tables|, i requires 0 <= i < |tables| => tables[i].name)
  }

  function SchemaNames(schemas: seq<Schema>): seq<string> {
    seq(|schemas|, i requires 0 <= i < |schemas| => schemas[i].name)
  }

  function DatabaseNames(databases: seq<Database>): seq<string> {
    seq(|databases|, i requires 0 <= i < |databases| => databases[i].name)
  }

  ghost predicate TablesTidy(tables: seq<Table>, rows: seq<Row>) {
    && Lists(TableNames(tables), rows, ByTable)
    && forall i :: 0 <= i < |tables| ==> |tables[i].columns| == |Group(rows, ByTable, tables[i].name)|
  }

  ghost predicate SchemasTidy(schemas: seq<Schema>, rows: seq<Row>) {
    && Lists(SchemaNames(schemas), rows, BySchema)
    && forall i :: 0 <= i < |schemas| ==> TablesTidy(schemas[i].tables, Group(rows, BySchema, schemas[i].name))
  }

  lemma SeenIsListed(names: seq<string>, rows: seq<Row>, level: Level)
    requires names == Seen(rows, level)
    ensures Lists(names, rows, level)
  {
    SeenMeaning(rows, level);
    assert forall i :: 0 <= i < |names| ==> names[i] in Seen(rows, level);
  }

  lemma ColumnsOfGroup(group: seq<Row>)
    ensures |Columns(SortByOrdinal(group))| == |group|
  {
    SortLength(group);
  }

  lemma {:induction false} SortLength(rows: seq<Row>)
    ensures |SortByOrdinal(rows)| == |rows|
    decreases |rows|
  {
    if rows == [] {
    } else {
      SortLength(rows[..|rows| - 1]);
      InsertLength(SortByOrdinal(rows[..|rows| - 1]), rows[|rows| - 1]);
    }
  }

  lemma {:induction false} InsertLength(rows: seq<Row>, r: Row)
    ensures |Insert(rows, r)| == |rows| + 1
    decreases |rows|
  {
    if rows == [] {
    } else {
      InsertLength(rows[..|rows| - 1], r);
    }
  }

  lemma TablesAreTidy(rows: seq<Row>)
    ensures TablesTidy(Tables(rows, Seen(rows, ByTable)), rows)
  {
    var names := Seen(rows, ByTable);
    TablesListed(rows, names);
    SeenIsListed(names, rows, ByTable);
    assert TableNames(Tables(rows, names)) == names;
    forall i | 0 <= i < |names| ensures |Tables(rows, names)[i].columns| == |Group(rows, ByTable, names[i])| {
      ColumnsOfGroup(Group(rows, ByTable, names[i]));
    }
  }

  lemma SchemasAreTidy(rows: seq<Row>)
    ensures SchemasTidy(Schemas(rows, Seen(rows, BySchema)), rows)
  {
    var names := Seen(rows, BySchema);
    SchemasListed(rows, names);
    SeenIsListed(names, rows, BySchema);
    assert SchemaNames(Schemas(rows, names)) == names;
    forall i | 0 <= i < |names|
      ensures TablesTidy(Schemas(rows, names)[i].tables, Group(rows, BySchema, names[i]))
    {
      TablesAreTidy(Group(rows, BySchema, names[i]));
    }
  }

  /** At every level the catalog lists the names that have rows and no others, once each, in first-seen order; every table
      has as many columns as it has rows, so nothing in it is empty. */
  lemma CatalogIsTidy(rows: seq<Row>)
    ensures Lists(DatabaseNames(CatalogOf(rows)), rows, ByDatabase)
    ensures forall i :: 0 <= i < |CatalogOf(rows)| ==>
              SchemasTidy(CatalogOf(rows)[i].schemas, Group(rows, ByDatabase, CatalogOf(rows)[i].name))
  {
    var names := Seen(rows, ByDatabase);
    DatabasesListed(rows, names);
    SeenIsListed(names, rows, ByDatabase);
    assert DatabaseNames(CatalogOf(rows)) == names;
    forall i | 0 <= i < |names|
      ensures SchemasTidy(Databases(rows, names)[i].schemas, Group(rows, ByDatabase, names[i]))
    {
      SchemasAreTidy(Group(rows, ByDatabase, names[i]));
    }
  }

  lemma GroupExtends(rows: seq<Row>, r: Row, level: Level)
    ensures forall k :: Group(rows + [r], level, k) == Group(rows, level, k) + if Key(r, level) == k then [r] else []
    ensures Seen(rows + [r], level) ==
            Seen(rows, level) + if Key(r, level) in Seen(rows, level) then [] else [Key(r, level)]
  {
    assert (rows + [r])[..|rows + [r]| - 1] == rows;
  }

  lemma TablesHeldNext(rows: seq<Row>, tables: TableMap, order: seq<string>, r: Row)
    requires TablesHeld(rows, tables, order)
    ensures TablesHeld(rows + [r], tables[r.table := Get(tables, r.table) + [r]],
                       order + if r.table in tables then [] else [r.table])
  {
    GroupExtends(rows, r, ByTable);
    SeenMeaning(rows, ByTable);
  }

  /** One level up: a schema's dictionary is replaced by one that holds its rows with r. */
  lemma SchemasHeldNext(rows: seq<Row>, d: string, schemas: SchemaMap, order: seq<string>, tableOrder: TableOrder, r: Row,
                        tables: TableMap, names: seq<string>)
    requires SchemasHeld(rows, d, schemas, order, tableOrder)
    requires TablesHeld(Group(rows, BySchema, r.schema) + [r], tables, names)
    ensures SchemasHeld(rows + [r], d, schemas[r.schema := tables],
                        order + (if r.schema in schemas then [] else [r.schema]), tableOrder[(d, r.schema) := names])
  {
    var s := r.schema;
    GroupExtends(rows, r, BySchema);
    forall x | x in schemas[s := tables]
      ensures TablesHeld(Group(rows + [r], BySchema, x), schemas[s := tables][x], tableOrder[(d, s) := names][(d, x)])
    {
      if x != s {
        assert Group(rows + [r], BySchema, x) == Group(rows, BySchema, x);
      }
    }
  }

  lemma SchemasElsewhere(rows: seq<Row>, d: string, schemas: SchemaMap, order: seq<string>, tableOrder: TableOrder,
                         k: (string, string), names: seq<string>)
    requires SchemasHeld(rows, d, schemas, order, tableOrder) && k.0 != d
    ensures SchemasHeld(rows, d, schemas, order, tableOrder[k := names])
  {
    forall s | s in schemas ensures TablesHeld(Group(rows, BySchema, s), schemas[s], tableOrder[k := names][(d, s)]) {
      assert tableOrder[k := names][(d, s)] == tableOrder[(d, s)];
    }
  }

  /** And one more level: a database's dictionary is replaced by one that holds its rows with r. */
  lemma HeldAbove(rows: seq<Row>, databases: map<string, SchemaMap>, order: seq<string>,
                  schemaOrder: map<string, seq<string>>, tableOrder: TableOrder, r: Row,
                  schemas: SchemaMap, schemaNames: seq<string>, tableNames: seq<string>)
    requires Held(rows, databases, order, schemaOrder, tableOrder)
    requires SchemasHeld(Group(rows, ByDatabase, r.database) + [r], r.database, schemas, schemaNames,
                         tableOrder[(r.database, r.schema) := tableNames])
    ensures Held(rows + [r], databases[r.database := schemas],
                 order + (if r.database in databases then [] else [r.database]),
                 schemaOrder[r.database := schemaNames], tableOrder[(r.database, r.schema) := tableNames])
  {
    var k := (r.database, r.schema);
    var dbs, so, to := databases[r.database := schemas], schemaOrder[r.database := schemaNames], tableOrder[k := tableNames];
    var names := order + if r.database in databases then [] else [r.database];
    GroupExtends(rows, r, ByDatabase);
    forall d | d in dbs ensures SchemasHeld(Group(rows + [r], ByDatabase, d), d, dbs[d], so[d], to) {
      if d != r.database {
        SchemasElsewhere(Group(rows, ByDatabase, d), d, databases[d], schemaOrder[d], tableOrder, k, tableNames);
        assert Group(rows + [r], ByDatabase, d) == Group(rows, ByDatabase, d);
      }
    }
    assert forall d :: d in dbs <==> d in names;
    assert forall d, s :: (d, s) in to ==> d in dbs;
    assert Held(rows + [r], dbs, names, so, to);
  }

  /** Nothing is held for a database that was not seen. */
  lemma HeldSchemas(rows: seq<Row>, databases: map<string, SchemaMap>, order: seq<string>,
                    schemaOrder: map<string, seq<string>>, tableOrder: TableOrder, d: string)
    requires Held(rows, databases, order, schemaOrder, tableOrder)
    ensures SchemasHeld(Group(rows, ByDatabase, d), d, if d in databases then databases[d] else map[],
                        Get(schemaOrder, d), tableOrder)
  {
    SeenMeaning(rows, ByDatabase);
  }

  lemma HeldTables(rows: seq<Row>, d: string, schemas: SchemaMap, order: seq<string>, tableOrder: TableOrder, s: string)
    requires SchemasHeld(rows, d, schemas, order, tableOrder)
    ensures TablesHeld(Group(rows, BySchema, s), if s in schemas then schemas[s] else map[], Get(tableOrder, (d, s)))
  {
    SeenMeaning(rows, BySchema);
  }

  /** The effect of one row on all dictionaries and lists. */
  lemma HeldNext(rows: seq<Row>, databases: map<string, SchemaMap>, order: seq<string>,
                 schemaOrder: map<string, seq<string>>, tableOrder: TableOrder, r: Row)
    requires Held(rows, databases, order, schemaOrder, tableOrder)
    ensures
      var d, s := r.database, r.schema;
      var schemas := if d in databases then databases[d] else map[];
      var tables := if s in schemas then schemas[s] else map[];
      Held(rows + [r], databases[d := schemas[s := tables[r.table := Get(tables, r.table) + [r]]]],
           order + (if d in databases then [] else [d]),
           schemaOrder[d := Get(schemaOrder, d) + if s in schemas then [] else [s]],
           tableOrder[(d, s) := Get(tableOrder, (d, s)) + if r.table in tables then [] else [r.table]])
  {
    var d, s := r.database, r.schema;
    var inDb := Group(rows, ByDatabase, d);
    var schemas := if d in databases then databases[d] else map[];
    var tables := if s in schemas then schemas[s] else map[];
    HeldSchemas(rows, databases, order, schemaOrder, tableOrder, d);
    HeldTables(inDb, d, schemas, Get(schemaOrder, d), tableOrder, s);
    TablesHeldNext(Group(inDb, BySchema, s), tables, Get(tableOrder, (d, s)), r);
    var newTables := tables[r.table := Get(tables, r.table) + [r]];
    var names := Get(tableOrder, (d, s)) + if r.table in tables then [] else [r.table];
    SchemasHeldNext(inDb, d, schemas, Get(schemaOrder, d), tableOrder, r, newTables, names);
    HeldAbove(rows, databases, order, schemaOrder, tableOrder, r, schemas[s := newTables],
              Get(schemaOrder, d) + if s in schemas then [] else [s], names);
  }

  function BuildTables(tables: TableMap, order: seq<string>): seq<Table> {
    if order == [] then [] else
    [Table(order[0], Columns(SortByOrdinal(Get(tables, order[0]))))] + BuildTables(tables, order[1..])
  }

  function BuildSchemas(d: string, schemas: SchemaMap, order: seq<string>, tableOrder: TableOrder): seq<Schema> {
    if order == [] then [] else
    var tables := if order[0] in schemas then schemas[order[0]] else map[];
    [Schema(order[0], BuildTables(tables, Get(tableOrder, (d, order[0]))))] + BuildSchemas(d, schemas, order[1..], tableOrder)
  }

  function Build(databases: map<string, SchemaMap>, order: seq<string>, schemaOrder: map<string, seq<string>>,
                 tableOrder: TableOrder): seq<Database> {
    if order == [] then [] else
    var schemas := if order[0] in databases then databases[order[0]] else map[];
    [Database(order[0], BuildSchemas(order[0], schemas, Get(schemaOrder, order[0]), tableOrder))] +
    Build(databases, order[1..], schemaOrder, tableOrder)
  }

  lemma {:induction false} BuildTablesMeaning(rows: seq<Row>, tables: TableMap, order: seq<string>)
    requires forall t :: t in order ==> t in tables && tables[t] == Group(rows, ByTable, t)
    ensures BuildTables(tables, order) == Tables(rows, order)
    decreases |order|
  {
    if order == [] {
    } else {
      BuildTablesMeaning(rows, tables, order[1..]);
    }
  }

  lemma {:induction false} BuildSchemasMeaning(
    rows: seq<Row>, d: string, schemas: SchemaMap, order: seq<string>, tableOrder: TableOrder)
    requires forall s :: s in order ==>
               s in schemas && (d, s) in tableOrder && TablesHeld(Group(rows, BySchema, s), schemas[s], tableOrder[(d, s)])
    ensures BuildSchemas(d, schemas, order, tableOrder) == Schemas(rows, order)
    decreases |order|
  {
    if order == [] {
    } else {
      var s := order[0];
      BuildTablesMeaning(Group(rows, BySchema, s), schemas[s], tableOrder[(d, s)]);
      BuildSchemasMeaning(rows, d, schemas, order[1..], tableOrder);
    }
  }

  lemma {:induction false} BuildMeaning(rows: seq<Row>, databases: map<string, SchemaMap>, order: seq<string>,
                                        schemaOrder: map<string, seq<string>>, tableOrder: TableOrder)
    requires forall d :: d in order ==>
               d in databases && d in schemaOrder &&
               SchemasHeld(Group(rows, ByDatabase, d), d, databases[d], schemaOrder[d], tableOrder)
    ensures Build(databases, order, schemaOrder, tableOrder) == Databases(rows, order)
    decreases |order|
  {
    if order == [] {
    } else {
      var d := order[0];
      BuildSchemasMeaning(Group(rows, ByDatabase, d), d, databases[d], schemaOrder[d], tableOrder);
      BuildMeaning(rows, databases, order[1..], schemaOrder, tableOrder);
    }
  }

  /** One pass over the rows filling nested dictionaries and order lists gives the reference catalog. */
  method IntrospectCatalog(rows: seq<Row>) returns (catalog: seq<Database>)
    ensures catalog == CatalogOf(rows)
  {
    var databases: map<string, SchemaMap> := map[];
    var databaseOrder: seq<string> := [];
    var schemaOrder: map<string, seq<string>> := map[];
    var tableOrder: TableOrder := map[];
    for i := 0 to |rows|
      invariant Held(rows[..i], databases, databaseOrder, schemaOrder, tableOrder)
    {
      var r := rows[i];
      HeldNext(rows[..i], databases, databaseOrder, schemaOrder, tableOrder, r);
      assert rows[..i + 1] == rows[..i] + [r];

      if r.database !in databases {
        databaseOrder := databaseOrder + [r.database];
      }
      var db := if r.database in databases then databases[r.database] else map[];
      schemaOrder := schemaOrder[r.database := Get(schemaOrder, r.database) + if r.schema in db then [] else [r.schema]];
      var schema := if r.schema in db then db[r.schema] else map[];
      var key := (r.database, r.schema);
      tableOrder := tableOrder[key := Get(tableOrder, key) + if r.table in schema then [] else [r.table]];
      databases := databases[r.database := db[r.schema := schema[r.table := Get(schema, r.table) + [r]]]];
    }
    assert rows[..|rows|] == rows;
    BuildMeaning(rows, databases, databaseOrder, schemaOrder, tableOrder);
    catalog := Build(databases, databaseOrder, schemaOrder, tableOrder);
  }

  // ----- The sort -----

  /** The rows with one ordinal, in order: what a stable sort must not disturb. */
  function WithOrdinal(rows: seq<Row>, o: int): seq<Row> {
    if rows == [] then [] else
    WithOrdinal(rows[..|rows| - 1], o) + if rows[|rows| - 1].ordinal == o then [rows[|rows| - 1]] else []
  }

  predicate Ordered(rows: seq<Row>) {
    forall i, j :: 0 <= i < j < |rows| ==> rows[i].ordinal <= rows[j].ordinal
  }

  lemma WithOrdinalExtends(rows: seq<Row>, r: Row, o: int)
    ensures WithOrdinal(rows + [r], o) == WithOrdinal(rows, o) + if r.ordinal == o then [r] else []
  {
    assert (rows + [r])[..|rows|] == rows;
  }

  lemma {:induction false} InsertKeeps(rows: seq<Row>, r: Row)
    ensures multiset(Insert(rows, r)) == multiset(rows) + multiset{r}
    decreases |rows|
  {
    if rows == [] {
    } else {
      assert rows == rows[..|rows| - 1] + [rows[|rows| - 1]];
      InsertKeeps(rows[..|rows| - 1], r);
    }
  }

  lemma {:induction false} InsertOrders(rows: seq<Row>, r: Row)
    requires Ordered(rows)
    ensures Ordered(Insert(rows, r))
    decreases |rows|
  {
    if rows == [] || rows[|rows| - 1].ordinal <= r.ordinal {
    } else {
      var n := |rows| - 1;
      InsertOrders(rows[..n], r);
      InsertKeeps(rows[..n], r);
      var inserted := Insert(rows[..n], r);
      forall i | 0 <= i < |inserted| ensures inserted[i].ordinal <= rows[n].ordinal {
        assert inserted[i] in multiset(inserted);
        assert inserted[i] == r || inserted[i] in rows[..n];
      }
    }
  }

  lemma {:induction false} InsertIsStable(rows: seq<Row>, r: Row, o: int)
    ensures WithOrdinal(Insert(rows, r), o) == WithOrdinal(rows, o) + if r.ordinal == o then [r] else []
    decreases |rows|
  {
    if rows == [] {
      assert [] + [r] == [r];
      WithOrdinalExtends([], r, o);
    } else if rows[|rows| - 1].ordinal <= r.ordinal {
      WithOrdinalExtends(rows, r, o);
    } else {
      InsertIsStable(rows[..|rows| - 1], r, o);
      InsertedBefore(rows[..|rows| - 1], rows[|rows| - 1], r, o);
      assert rows == rows[..|rows| - 1] + [rows[|rows| - 1]];
    }
  }

  /** A row inserted before a larger last one stays out of that row's ordinal. */
  lemma InsertedBefore(init: seq<Row>, last: Row, r: Row, o: int)
    requires last.ordinal > r.ordinal
    requires WithOrdinal(Insert(init, r), o) == WithOrdinal(init, o) + if r.ordinal == o then [r] else []
    ensures WithOrdinal(Insert(init, r) + [last], o) == WithOrdinal(init + [last], o) + if r.ordinal == o then [r] else []
  {
    WithOrdinalExtends(Insert(init, r), last, o);
    WithOrdinalExtends(init, last, o);
  }

  /** Columns come by ordinal, none lost or repeated, equal ordinals in row order. */
  lemma {:induction false} SortMeaning(rows: seq<Row>, o: int)
    ensures Ordered(SortByOrdinal(rows)) && multiset(SortByOrdinal(rows)) == multiset(rows)
    ensures WithOrdinal(SortByOrdinal(rows), o) == WithOrdinal(rows, o)
    decreases |rows|
  {
    if rows == [] {
    } else {
      var n := |rows| - 1;
      assert rows == rows[..n] + [rows[n]];
      SortMeaning(rows[..n], o);
      InsertKeeps(SortByOrdinal(rows[..n]), rows[n]);
      InsertOrders(SortByOrdinal(rows[..n]), rows[n]);
      InsertIsStable(SortByOrdinal(rows[..n]), rows[n], o);
    }
  }

  lemma {:induction false} SortKeepsOrdered(rows: seq<Row>)
    requires Ordered(rows)
    ensures SortByOrdinal(rows) == rows
    decreases |rows|
  {
    if rows == [] {
    } else {
      SortKeepsOrdered(rows[..|rows| - 1]);
      assert rows == rows[..|rows| - 1] + [rows[|rows| - 1]];
    }
  }

  // ----- Flattening gives the rows back -----

  /** A row as the catalog can still tell it: without its ordinal. */
  datatype Flat = Flat(database: string, schema: string, table: string, column: string, dtype: string)

  function Strip(rows: seq<Row>): seq<Flat> {
    seq(|rows|, i requires 0 <= i < |rows| =>
      Flat(rows[i].database, rows[i].schema, rows[i].table, rows[i].column, rows[i].dtype))
  }

  function FlattenTables(d: string, s: string, tables: seq<Table>): seq<Flat> {
    if tables == [] then [] else
    var t := tables[0];
    seq(|t.columns|, i requires 0 <= i < |t.columns| => Flat(d, s, t.name, t.columns[i].name, t.columns[i].dtype)) +
    FlattenTables(d, s, tables[1..])
  }

  function FlattenSchemas(d: string, schemas: seq<Schema>): seq<Flat> {
    if schemas == [] then [] else FlattenTables(d, schemas[0].name, schemas[0].tables) + FlattenSchemas(d, schemas[1..])
  }

  function Flatten(catalog: seq<Database>): seq<Flat> {
    if catalog == [] then [] else FlattenSchemas(catalog[0].name, catalog[0].schemas) + Flatten(catalog[1..])
  }

  /** Group, treat each group, and put the groups one after another. */
  function Regroup(rows: seq<Row>, level: Level, names: seq<string>, f: seq<Row> -> seq<Row>): seq<Row> {
    if names == [] then [] else f(Group(rows, level, names[0])) + Regroup(rows, level, names[1..], f)
  }

  function TablesOut(rows: seq<Row>): seq<Row> {
    Regroup(rows, ByTable, Seen(rows, ByTable), SortByOrdinal)
  }

  function SchemasOut(rows: seq<Row>): seq<Row> {
    Regroup(rows, BySchema, Seen(rows, BySchema), TablesOut)
  }

  function RowsOut(rows: seq<Row>): seq<Row> {
    Regroup(rows, ByDatabase, Seen(rows, ByDatabase), SchemasOut)
  }

  lemma {:induction false} GroupMembers(rows: seq<Row>, level: Level, k: string)
    ensures forall r :: r in Group(rows, level, k) <==> r in rows && Key(r, level) == k
    decreases |rows|
  {
    if rows == [] {
    } else {
      assert rows == rows[..|rows| - 1] + [rows[|rows| - 1]];
      GroupMembers(rows[..|rows| - 1], level, k);
    }
  }

  lemma SortMembers(rows: seq<Row>)
    ensures forall r :: r in SortByOrdinal(rows) <==> r in rows
  {
    SortMeaning(rows, 0);
    assert forall r :: r in SortByOrdinal(rows) <==> r in multiset(SortByOrdinal(rows));
    assert forall r :: r in rows <==> r in multiset(rows);
  }

  lemma StripAppend(a: seq<Row>, b: seq<Row>)
    ensures Strip(a + b) == Strip(a) + Strip(b)
  {
  }

  lemma FlattenOneTable(rows: seq<Row>, name: string, d: string, s: string)
    requires forall r :: r in rows ==> r.database == d && r.schema == s
    ensures FlattenTables(d, s, [Table(name, Columns(SortByOrdinal(Group(rows, ByTable, name))))]) ==
            Strip(SortByOrdinal(Group(rows, ByTable, name)))
  {
    var group := Group(rows, ByTable, name);
    GroupMembers(rows, ByTable, name);
    SortMembers(group);
    var sorted := SortByOrdinal(group);
    forall i | 0 <= i < |sorted| ensures sorted[i].database == d && sorted[i].schema == s && sorted[i].table == name {
      assert sorted[i] in sorted && sorted[i] in group && sorted[i] in rows;
    }
  }

  lemma FlattenTablesCons(d: string, s: string, t: Table, rest: seq<Table>)
    ensures FlattenTables(d, s, [t] + rest) == FlattenTables(d, s, [t]) + FlattenTables(d, s, rest)
  {
    assert ([t] + rest)[1..] == rest && [t][1..] == [];
  }

  lemma {:induction false} FlattenTablesMeaning(rows: seq<Row>, names: seq<string>, d: string, s: string)
    requires forall r :: r in rows ==> r.database == d && r.schema == s
    ensures FlattenTables(d, s, Tables(rows, names)) == Strip(Regroup(rows, ByTable, names, SortByOrdinal))
    decreases |names|
  {
    if names == [] {
    } else {
      FlattenTablesMeaning(rows, names[1..], d, s);
      FlattenOneTable(rows, names[0], d, s);
      FlattenTablesCons(d, s, Tables(rows, names)[0], Tables(rows, names[1..]));
      StripAppend(SortByOrdinal(Group(rows, ByTable, names[0])), Regroup(rows, ByTable, names[1..], SortByOrdinal));
    }
  }

  lemma {:induction false} FlattenSchemasMeaning(rows: seq<Row>, names: seq<string>, d: string)
    requires forall r :: r in rows ==> r.database == d
    ensures FlattenSchemas(d, Schemas(rows, names)) == Strip(Regroup(rows, BySchema, names, TablesOut))
    decreases |names|
  {
    if names == [] {
    } else {
      FlattenSchemasMeaning(rows, names[1..], d);
      var group := Group(rows, BySchema, names[0]);
      GroupMembers(rows, BySchema, names[0]);
      FlattenTablesMeaning(group, Seen(group, ByTable), d, names[0]);
      StripAppend(TablesOut(group), Regroup(rows, BySchema, names[1..], TablesOut));
      assert Schemas(rows, names)[1..] == Schemas(rows, names[1..]);
    }
  }

  lemma {:induction false} FlattenMeaning(rows: seq<Row>, names: seq<string>)
    ensures Flatten(Databases(rows, names)) == Strip(Regroup(rows, ByDatabase, names, SchemasOut))
    decreases |names|
  {
    if names == [] {
    } else {
      FlattenMeaning(rows, names[1..]);
      var group := Group(rows, ByDatabase, names[0]);
      GroupMembers(rows, ByDatabase, names[0]);
      FlattenSchemasMeaning(group, Seen(group, BySchema), names[0]);
      StripAppend(SchemasOut(group), Regroup(rows, ByDatabase, names[1..], SchemasOut));
      assert Databases(rows, names)[1..] == Databases(rows, names[1..]);
    }
  }

  // ----- Any order: nothing lost, nothing repeated -----

  function Among(rows: seq<Row>, level: Level, names: seq<string>): seq<Row> {
    if rows == [] then [] else
    Among(rows[..|rows| - 1], level, names) +
      if Key(rows[|rows| - 1], level) in names then [rows[|rows| - 1]] else []
  }

  lemma {:induction false} AmongSplit(rows: seq<Row>, level: Level, k: string, rest: seq<string>)
    requires k !in rest
    ensures multiset(Among(rows, level, [k] + rest)) == multiset(Group(rows, level, k)) + multiset(Among(rows, level, rest))
    decreases |rows|
  {
    if rows == [] {
    } else {
      AmongSplit(rows[..|rows| - 1], level, k, rest);
    }
  }

  lemma {:induction false} AmongAll(rows: seq<Row>, level: Level, names: seq<string>)
    requires forall i :: 0 <= i < |rows| ==> Key(rows[i], level) in names
    ensures Among(rows, level, names) == rows
    decreases |rows|
  {
    if rows == [] {
    } else {
      var n := |rows| - 1;
      AmongAll(rows[..n], level, names);
      assert Key(rows[n], level) in names;
      assert rows == rows[..n] + [rows[n]];
    }
  }

  ghost predicate KeepsRows(f: seq<Row> -> seq<Row>) {
    forall rows :: multiset(f(rows)) == multiset(rows)
  }

  lemma {:induction false} RegroupKeepsNamed(rows: seq<Row>, level: Level, names: seq<string>, f: seq<Row> -> seq<Row>)
    requires KeepsRows(f) && forall i, j :: 0 <= i < j < |names| ==> names[i] != names[j]
    ensures multiset(Regroup(rows, level, names, f)) == multiset(Among(rows, level, names))
    decreases |names|
  {
    if names == [] {
      AmongNone(rows, level);
    } else {
      RegroupKeepsNamed(rows, level, names[1..], f);
      AmongSplit(rows, level, names[0], names[1..]);
      assert names == [names[0]] + names[1..];
      assert multiset(f(Group(rows, level, names[0]))) == multiset(Group(rows, level, names[0]));
    }
  }

  lemma {:induction false} AmongNone(rows: seq<Row>, level: Level)
    ensures Among(rows, level, []) == []
    decreases |rows|
  {
    if rows == [] {
    } else {
      AmongNone(rows[..|rows| - 1], level);
    }
  }

  lemma RegroupKeeps(rows: seq<Row>, level: Level, f: seq<Row> -> seq<Row>)
    requires KeepsRows(f)
    ensures multiset(Regroup(rows, level, Seen(rows, level), f)) == multiset(rows)
  {
    SeenMeaning(rows, level);
    KeysAreSeen(rows, level);
    RegroupKeepsNamed(rows, level, Seen(rows, level), f);
    AmongAll(rows, level, Seen(rows, level));
  }

  lemma RowsOutKeeps(rows: seq<Row>)
    ensures multiset(RowsOut(rows)) == multiset(rows)
  {
    forall g ensures multiset(SortByOrdinal(g)) == multiset(g) { SortMeaning(g, 0); }
    forall g ensures multiset(TablesOut(g)) == multiset(g) { RegroupKeeps(g, ByTable, SortByOrdinal); }
    forall g ensures multiset(SchemasOut(g)) == multiset(g) { RegroupKeeps(g, BySchema, TablesOut); }
    RegroupKeeps(rows, ByDatabase, SchemasOut);
  }

  /** For rows in any order, flattening the catalog gives the input rows back, rearranged. */
  lemma CatalogKeepsRows(rows: seq<Row>) returns (rearranged: seq<Row>)
    ensures multiset(rearranged) == multiset(rows) && Flatten(CatalogOf(rows)) == Strip(rearranged)
  {
    rearranged := RowsOut(rows);
    RowsOutKeeps(rows);
    FlattenMeaning(rows, Seen(rows, ByDatabase));
  }

  // ----- ORDER BY order: the rows themselves -----

  predicate StringLe(a: string, b: string) {
    a == [] || (b != [] && (a[0] < b[0] || (a[0] == b[0] && StringLe(a[1..], b[1..]))))
  }

  lemma {:induction false} StringLeAntisymmetric(a: string, b: string)
    requires StringLe(a, b) && StringLe(b, a)
    ensures a == b
    decreases |a|
  {
    if a == [] {
    } else {
      StringLeAntisymmetric(a[1..], b[1..]);
      assert a == [a[0]] + a[1..] && b == [b[0]] + b[1..];
    }
  }

  /** ORDER BY database_name, schema_name, table_name, ordinal_position */
  predicate RowLe(a: Row, b: Row) {
    if a.database != b.database then StringLe(a.database, b.database)
    else if a.schema != b.schema then StringLe(a.schema, b.schema)
    else if a.table != b.table then StringLe(a.table, b.table)
    else a.ordinal <= b.ordinal
  }

  predicate Sorted(rows: seq<Row>) {
    forall i, j :: 0 <= i < j < |rows| ==> RowLe(rows[i], rows[j])
  }

  /** Rows with one key stand together. */
  predicate Contiguous(rows: seq<Row>, level: Level) {
    forall i, j, k :: 0 <= i < j < k < |rows| && Key(rows[i], level) == Key(rows[k], level) ==>
      Key(rows[j], level) == Key(rows[i], level)
  }

  /** All rows agree in the columns above a level. */
  predicate Alike(rows: seq<Row>, level: Level) {
    forall i, j :: 0 <= i < |rows| && 0 <= j < |rows| ==>
      && (level != ByDatabase ==> rows[i].database == rows[j].database)
      && (level == ByTable ==> rows[i].schema == rows[j].schema)
  }

  lemma SortedIsContiguous(rows: seq<Row>, level: Level)
    requires Sorted(rows) && Alike(rows, level)
    ensures Contiguous(rows, level)
  {
    forall i, j, k | 0 <= i < j < k < |rows| && Key(rows[i], level) == Key(rows[k], level)
      ensures Key(rows[j], level) == Key(rows[i], level)
    {
      assert RowLe(rows[i], rows[j]) && RowLe(rows[j], rows[k]);
      if Key(rows[j], level) != Key(rows[i], level) {
        StringLeAntisymmetric(Key(rows[i], level), Key(rows[j], level));
      }
    }
  }

  lemma {:induction false} GroupSorted(rows: seq<Row>, level: Level, k: string)
    requires Sorted(rows)
    ensures Sorted(Group(rows, level, k))
    decreases |rows|
  {
    if rows == [] {
    } else {
      var n := |rows| - 1;
      GroupSorted(rows[..n], level, k);
      GroupMembers(rows[..n], level, k);
      var before := Group(rows[..n], level, k);
      forall i | 0 <= i < |before| ensures RowLe(before[i], rows[n]) {
        assert before[i] in rows[..n];
      }
    }
  }

  /** Where a seen key was seen. */
  lemma FirstRow(rows: seq<Row>, level: Level, k: string) returns (i: nat)
    requires k in Seen(rows, level)
    ensures i < |rows| && Key(rows[i], level) == k
  {
    SeenMeaning(rows, level);
    GroupMembers(rows, level, k);
    var r := Group(rows, level, k)[0];
    assert r in Group(rows, level, k) && r in rows;
    i :| i < |rows| && rows[i] == r;
  }

  lemma {:induction false} LastSeen(rows: seq<Row>, level: Level)
    requires rows != [] && Contiguous(rows, level)
    ensures Seen(rows, level) != [] &&
            Seen(rows, level)[|Seen(rows, level)| - 1] == Key(rows[|rows| - 1], level)
    decreases |rows|
  {
    var n := |rows| - 1;
    var k := Key(rows[n], level);
    if k !in Seen(rows[..n], level) {
    } else {
      var i := FirstRow(rows[..n], level, k);
      assert Key(rows[n - 1], level) == k by {
        assert Key(rows[i], level) == k;
      }
      ContiguousPrefix(rows, level);
      LastSeen(rows[..n], level);
    }
  }

  lemma ContiguousPrefix(rows: seq<Row>, level: Level)
    requires rows != [] && Contiguous(rows, level)
    ensures Contiguous(rows[..|rows| - 1], level)
  {
  }

  /** The groups of some names, one after another. */
  function Gather(rows: seq<Row>, level: Level, names: seq<string>): seq<Row> {
    if names == [] then [] else
    Gather(rows, level, names[..|names| - 1]) + Group(rows, level, names[|names| - 1])
  }

  lemma {:induction false} GatherIgnores(rows: seq<Row>, r: Row, level: Level, names: seq<string>)
    requires Key(r, level) !in names
    ensures Gather(rows + [r], level, names) == Gather(rows, level, names)
    decreases |names|
  {
    if names == [] {
    } else {
      GatherIgnores(rows, r, level, names[..|names| - 1]);
      GroupExtends(rows, r, level);
    }
  }

  /** A last row adds itself at the end of a gathering whose last name is its key. */
  lemma GatherLast(init: seq<Row>, r: Row, level: Level, front: seq<string>)
    requires Key(r, level) !in front
    ensures Gather(init + [r], level, front + [Key(r, level)]) == Gather(init, level, front + [Key(r, level)]) + [r]
  {
    var names := front + [Key(r, level)];
    assert names[..|names| - 1] == front;
    GatherIgnores(init, r, level, front);
    GroupExtends(init, r, level);
  }

  /** When the last row's key is new, gathering without it or with its empty group is the same. */
  lemma GatherNew(init: seq<Row>, level: Level, names: seq<string>, k: string)
    requires Group(init, level, k) == []
    ensures Gather(init, level, names + [k]) == Gather(init, level, names)
  {
    assert (names + [k])[..|names|] == names;
  }

  /** The seen names end with the last row's key, which is either their new last name or already was. */
  lemma SeenEndsWithLast(init: seq<Row>, r: Row, level: Level) returns (front: seq<string>)
    requires Contiguous(init + [r], level)
    ensures Seen(init + [r], level) == front + [Key(r, level)] && Key(r, level) !in front
    ensures Seen(init, level) == front + [Key(r, level)] ||
            (Seen(init, level) == front && Group(init, level, Key(r, level)) == [])
  {
    var rows := init + [r];
    GroupExtends(init, r, level);
    SeenMeaning(rows, level);
    SeenMeaning(init, level);
    LastSeen(rows, level);
    var names := Seen(rows, level);
    front := names[..|names| - 1];
    assert names == front + [Key(r, level)];
  }

  lemma {:induction false} GatherIsIdentity(rows: seq<Row>, level: Level)
    requires Contiguous(rows, level)
    ensures Gather(rows, level, Seen(rows, level)) == rows
    decreases |rows|
  {
    if rows == [] {
    } else {
      var n := |rows| - 1;
      var init, r := rows[..n], rows[n];
      assert rows == init + [r];
      GatherIsIdentity(init, level);
      var front := SeenEndsWithLast(init, r, level);
      GatherLast(init, r, level, front);
      if Seen(init, level) == front {
        GatherNew(init, level, front, Key(r, level));
      }
    }
  }

  lemma {:induction false} GatherFirst(rows: seq<Row>, level: Level, names: seq<string>)
    requires names != []
    ensures Gather(rows, level, names) == Group(rows, level, names[0]) + Gather(rows, level, names[1..])
    decreases |names|
  {
    var n := |names| - 1;
    if n == 0 {
    } else {
      GatherFirst(rows, level, names[..n]);
      assert names[..n][1..] == names[1..][..n - 1] && names[1..][n - 1] == names[n];
      var first, middle, last :=
        Group(rows, level, names[0]), Gather(rows, level, names[1..][..n - 1]), Group(rows, level, names[n]);
      assert first + middle + last == first + (middle + last);
    }
  }

  lemma {:induction false} RegroupIsGather(rows: seq<Row>, level: Level, names: seq<string>, f: seq<Row> -> seq<Row>)
    requires forall k :: k in names ==> f(Group(rows, level, k)) == Group(rows, level, k)
    ensures Regroup(rows, level, names, f) == Gather(rows, level, names)
    decreases |names|
  {
    if names == [] {
    } else {
      RegroupIsGather(rows, level, names[1..], f);
      GatherFirst(rows, level, names);
    }
  }

  lemma GroupAlike(rows: seq<Row>, level: Level, k: string)
    requires Alike(rows, level)
    ensures level.ByDatabase? ==> Alike(Group(rows, level, k), BySchema)
    ensures level.BySchema? ==> Alike(Group(rows, level, k), ByTable)
    ensures level.ByTable? ==> Alike(Group(rows, level, k), ByTable)
    ensures forall r :: r in Group(rows, level, k) ==> Key(r, level) == k
  {
    GroupMembers(rows, level, k);
    var group := Group(rows, level, k);
    forall i | 0 <= i < |group| ensures group[i] in rows && Key(group[i], level) == k {
      assert group[i] in group;
    }
  }

  lemma TablesOutIdentity(rows: seq<Row>)
    requires Sorted(rows) && Alike(rows, ByTable)
    ensures TablesOut(rows) == rows
  {
    forall k ensures SortByOrdinal(Group(rows, ByTable, k)) == Group(rows, ByTable, k) {
      GroupSorted(rows, ByTable, k);
      GroupAlike(rows, ByTable, k);
      var group := Group(rows, ByTable, k);
      forall i, j | 0 <= i < j < |group| ensures group[i].ordinal <= group[j].ordinal {
        assert RowLe(group[i], group[j]) && group[i] in group && group[j] in group;
      }
      SortKeepsOrdered(group);
    }
    SortedIsContiguous(rows, ByTable);
    RegroupIsGather(rows, ByTable, Seen(rows, ByTable), SortByOrdinal);
    GatherIsIdentity(rows, ByTable);
  }

  lemma SchemasOutIdentity(rows: seq<Row>)
    requires Sorted(rows) && Alike(rows, BySchema)
    ensures SchemasOut(rows) == rows
  {
    forall k ensures TablesOut(Group(rows, BySchema, k)) == Group(rows, BySchema, k) {
      GroupSorted(rows, BySchema, k);
      GroupAlike(rows, BySchema, k);
      TablesOutIdentity(Group(rows, BySchema, k));
    }
    SortedIsContiguous(rows, BySchema);
    RegroupIsGather(rows, BySchema, Seen(rows, BySchema), TablesOut);
    GatherIsIdentity(rows, BySchema);
  }

  /** For rows in ORDER BY order, flattening the catalog gives back the input rows in order. */
  lemma CatalogRoundTrip(rows: seq<Row>)
    requires Sorted(rows)
    ensures Flatten(CatalogOf(rows)) == Strip(rows)
  {
    forall k ensures SchemasOut(Group(rows, ByDatabase, k)) == Group(rows, ByDatabase, k) {
      GroupSorted(rows, ByDatabase, k);
      GroupAlike(rows, ByDatabase, k);
      SchemasOutIdentity(Group(rows, ByDatabase, k));
    }
    SortedIsContiguous(rows, ByDatabase);
    RegroupIsGather(rows, ByDatabase, Seen(rows, ByDatabase), SchemasOut);
    GatherIsIdentity(rows, ByDatabase);
    FlattenMeaning(rows, Seen(rows, ByDatabase));
  }

  // ----- First-seen order -----

  /** Some row before index i has the key. */
  predicate SeenBefore(rows: seq<Row>, level: Level, k: string, i: nat)
    requires i <= |rows|
  {
    exists j :: 0 <= j < i && Key(rows[j], level) == k
  }

  lemma {:induction false} KeysAreSeen(rows: seq<Row>, level: Level)
    ensures forall x :: 0 <= x < |rows| ==> Key(rows[x], level) in Seen(rows, level)
    decreases |rows|
  {
    if rows == [] {
    } else {
      var n := |rows| - 1;
      KeysAreSeen(rows[..n], level);
      assert forall x :: 0 <= x < n ==> rows[..n][x] == rows[x];
    }
  }

  /** Names come in first-seen order: an earlier name was seen before any row of a later one. */
  lemma {:induction false} SeenIsFirstSeen(rows: seq<Row>, level: Level, a: nat, b: nat, i: nat)
    requires a < b < |Seen(rows, level)| && i < |rows| && Key(rows[i], level) == Seen(rows, level)[b]
    ensures SeenBefore(rows, level, Seen(rows, level)[a], i)
    decreases |rows|
  {
    var n := |rows| - 1;
    var before := Seen(rows[..n], level);
    if b < |before| {
      var first := i;
      if i == n {
        first := FirstRow(rows[..n], level, before[b]);
      }
      SeenIsFirstSeen(rows[..n], level, a, b, first);
      var j :| 0 <= j < first && Key(rows[..n][j], level) == before[a];
      assert Key(rows[j], level) == before[a];
    } else {
      KeysAreSeen(rows[..n], level);
      assert forall x :: 0 <= x < n ==> Key(rows[..n][x], level) == Key(rows[x], level);
      var j := FirstRow(rows[..n], level, before[a]);
      assert Key(rows[j], level) == before[a];
    }
  }
}
