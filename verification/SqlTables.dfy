/** The part of PostgreSQL's table definition statements that the deposit migrations use:
    what each statement does to columns, constraints, indexes and rows, and when it fails. */
module SqlTables {
  import opened Wrappers

  datatype TableName =
    | BridgeLinks | FincraLinks | DepositRoutes | BridgeWebhookEvents | WebhookEvents | OtherTable(name: string)

  /** Columns are told apart by a number, which the schema gives a name. */
  newtype Column = n: int | 0 <= n

  datatype IndexName =
    | RoutesUserIdIndex | BridgeEventIdIndex | EventIdIndex | EventProviderIndex | OtherIndex(name: string)

  datatype ConstraintName = PrimaryKey | ProviderCheck | KindCheck | UniqueKey | UserReference

  datatype Value = Null | Text(text: string) | Number(n: int) | Flag(b: bool) | Json(json: string)

  datatype ColumnType = TextType | NumberType | FlagType | JsonType

  datatype ColumnDef = ColumnDef(typ: ColumnType, notNull: bool, default: Value)

  datatype Constraint =
    | OneOf(column: Column, allowed: set<string>)
    | Unique(columns: set<Column>)
    | References(column: Column, table: TableName)
  {
    function Columns(): set<Column> {
      if Unique? then columns else {column}
    }

    /** A check holds of NULL; the keys are not a matter of one row. */
    predicate Admits(row: Row) {
      OneOf? && column in row && row[column].Text? ==> row[column].text in allowed
    }
  }

  type Row = map<Column, Value>

  datatype Table = Table(
    columns: map<Column, ColumnDef>, constraints: map<ConstraintName, Constraint>,
    indexes: map<IndexName, Column>, rows: map<string, Row>)
  {
    /** Nothing speaks of a column that is not there, and every row has every column. */
    ghost predicate Valid() {
      && (forall c | c in constraints :: constraints[c].Columns() <= columns.Keys)
      && (forall i | i in indexes :: indexes[i] in columns)
      && (forall r | r in rows :: rows[r].Keys == columns.Keys)
    }
  }

  type Db = map<TableName, Table>

  // ----- ALTER TABLE on one table -----

  datatype Alteration =
    | RenameColumn(from: Column, to: Column)
    | AddColumn(column: Column, def: ColumnDef)
    | DropColumnIfExists(column: Column)
    | DropConstraint(constraint: ConstraintName)
    | AddCheck(constraint: ConstraintName, column: Column, allowed: set<string>)

  function Renamed<C(==)>(c: C, from: C, to: C): C {
    if c == from then to else c
  }

  function RenameKey<C(==), V>(m: map<C, V>, from: C, to: C): map<C, V> {
    if from in m then (m - {from})[to := m[from]] else m
  }

  function RenameSet<C(==)>(s: set<C>, from: C, to: C): set<C> {
    if from in s then s - {from} + {to} else s
  }

  function RenameIn(c: Constraint, from: Column, to: Column): Constraint {
    match c
    case OneOf(column, allowed) => OneOf(Renamed(column, from, to), allowed)
    case Unique(columns) => Unique(RenameSet(columns, from, to))
    case References(column, table) => References(Renamed(column, from, to), table)
  }

  function RenameInAll(cs: map<ConstraintName, Constraint>, from: Column, to: Column): map<ConstraintName, Constraint> {
    map n | n in cs :: RenameIn(cs[n], from, to)
  }

  function RenameIndexed(xs: map<IndexName, Column>, from: Column, to: Column): map<IndexName, Column> {
    map i | i in xs :: Renamed(xs[i], from, to)
  }

  function RenameInRows(rows: map<string, Row>, from: Column, to: Column): map<string, Row> {
    map r | r in rows :: RenameKey(rows[r], from, to)
  }

  function SetInRows(rows: map<string, Row>, column: Column, v: Value): map<string, Row> {
    map r | r in rows :: rows[r][column := v]
  }

  function DropInRows(rows: map<string, Row>, column: Column): map<string, Row> {
    map r | r in rows :: rows[r] - {column}
  }

  function WithRenamed(t: Table, from: Column, to: Column): Table {
    Table(RenameKey(t.columns, from, to), RenameInAll(t.constraints, from, to),
          RenameIndexed(t.indexes, from, to), RenameInRows(t.rows, from, to))
  }

  function WithColumn(t: Table, column: Column, def: ColumnDef): Table {
    t.(columns := t.columns[column := def], rows := SetInRows(t.rows, column, def.default))
  }

  /** Dropping a column takes along the constraints and indexes on it. */
  function WithoutColumn(t: Table, column: Column): Table {
    Table(
      t.columns - {column},
      map n | n in t.constraints && column !in t.constraints[n].Columns() :: t.constraints[n],
      map i | i in t.indexes && t.indexes[i] != column :: t.indexes[i],
      DropInRows(t.rows, column))
  }

  function Alter(t: Table, a: Alteration): Option<Table> {
    match a
    case RenameColumn(from, to) =>
      if from in t.columns && to !in t.columns then Some(WithRenamed(t, from, to)) else None
    case AddColumn(column, def) =>
      if column in t.columns || (def.notNull && def.default == Null && t.rows != map[]) then None
      else Some(WithColumn(t, column, def))
    case DropColumnIfExists(column) =>
      Some(if column in t.columns then WithoutColumn(t, column) else t)
    case DropConstraint(n) =>
      if n in t.constraints then Some(t.(constraints := t.constraints - {n})) else None
    case AddCheck(n, column, allowed) =>
      if n in t.constraints || column !in t.columns then None
      else if exists r | r in t.rows :: !OneOf(column, allowed).Admits(t.rows[r]) then None
      else Some(t.(constraints := t.constraints[n := OneOf(column, allowed)]))
  }

  function AlterAll(t: Table, alterations: seq<Alteration>): Option<Table>
    decreases |alterations|
  {
    if alterations == [] then Some(t)
    else
      var t' := Alter(t, alterations[0]);
      if t'.None? then None else AlterAll(t'.value, alterations[1..])
  }

  // ----- Statements -----

  datatype Statement =
    | AlterTable(table: TableName, alteration: Alteration)
    | RenameTable(from: TableName, to: TableName)
    | DropIndexIfExists(index: IndexName)
    | CreateIndexIfNotExists(index: IndexName, table: TableName, column: Column)

  predicate HasIndex(db: Db, index: IndexName) {
    exists t | t in db :: index in db[t].indexes
  }

  function Step(db: Db, s: Statement): Option<Db> {
    match s
    case AlterTable(name, a) =>
      if name !in db then None
      else
        var t' := Alter(db[name], a);
        if t'.None? then None else Some(db[name := t'.value])
    case RenameTable(from, to) =>
      if from !in db || to in db then None else Some((db - {from})[to := db[from]])
    case DropIndexIfExists(index) =>
      Some(map t | t in db :: db[t].(indexes := db[t].indexes - {index}))
    case CreateIndexIfNotExists(index, name, column) =>
      if HasIndex(db, index) then Some(db)
      else if name !in db || column !in db[name].columns then None
      else Some(db[name := db[name].(indexes := db[name].indexes[index := column])])
  }

  /** A script stops at its first failing statement. */
  function Exec(db: Db, script: seq<Statement>): Option<Db>
    decreases |script|
  {
    if script == [] then Some(db)
    else
      var db' := Step(db, script[0]);
      if db'.None? then None else Exec(db'.value, script[1..])
  }

  lemma {:induction false} ExecAppend(db: Db, a: seq<Statement>, b: seq<Statement>)
    ensures Exec(db, a + b) == if Exec(db, a).None? then None else Exec(Exec(db, a).value, b)
    decreases |a|
  {
    if a == [] {
      assert a + b == b;
    } else {
      assert (a + b)[1..] == a[1..] + b;
      var db' := Step(db, a[0]);
      if db'.Some? {
        ExecAppend(db'.value, a[1..], b);
      }
    }
  }

  function Alters(name: TableName, alterations: seq<Alteration>): seq<Statement> {
    seq(|alterations|, i requires 0 <= i < |alterations| => AlterTable(name, alterations[i]))
  }

  /** A run of ALTER TABLE on one table touches nothing else. */
  lemma {:induction false} ExecAlters(db: Db, name: TableName, alterations: seq<Alteration>)
    requires name in db
    ensures var t' := AlterAll(db[name], alterations);
      Exec(db, Alters(name, alterations)) == if t'.None? then None else Some(db[name := t'.value])
    decreases |alterations|
  {
    var script := Alters(name, alterations);
    if alterations == [] {
      assert db[name := db[name]] == db;
    } else {
      assert script[1..] == Alters(name, alterations[1..]);
      var t' := Alter(db[name], alterations[0]);
      if t'.Some? {
        ExecAlters(db[name := t'.value], name, alterations[1..]);
        var t'' := AlterAll(t'.value, alterations[1..]);
        if t''.Some? {
          assert db[name := t'.value][name := t''.value] == db[name := t''.value];
        }
      }
    }
  }

  lemma {:induction false} AlterAllAppend(t: Table, a: seq<Alteration>, b: seq<Alteration>)
    ensures AlterAll(t, a + b) == if AlterAll(t, a).None? then None else AlterAll(AlterAll(t, a).value, b)
    decreases |a|
  {
    if a == [] {
      assert a + b == b;
    } else {
      assert (a + b)[1..] == a[1..] + b;
      var t' := Alter(t, a[0]);
      if t'.Some? {
        AlterAllAppend(t'.value, a[1..], b);
      }
    }
  }

  // ----- Which statements undo which -----

  lemma RenameKeyBack<C, V>(m: map<C, V>, from: C, to: C)
    requires to !in m
    ensures RenameKey(RenameKey(m, from, to), to, from) == m
  {
  }

  lemma RenameKeyPastSet<C, V>(m: map<C, V>, from: C, to: C, column: C, v: V)
    requires column != from && column != to
    ensures RenameKey(m[column := v], from, to) == RenameKey(m, from, to)[column := v]
  {
  }

  lemma RenameKeysCommute<C, V>(m: map<C, V>, a: C, b: C, c: C, d: C)
    requires a != c && b != c && a != d && b != d
    ensures RenameKey(RenameKey(m, a, b), c, d) == RenameKey(RenameKey(m, c, d), a, b)
  {
  }

  lemma RenameInBack(c: Constraint, from: Column, to: Column)
    requires to !in c.Columns()
    ensures RenameIn(RenameIn(c, from, to), to, from) == c
  {
    if c.Unique? && from in c.columns {
      assert c.columns - {from} + {to} - {to} + {from} == c.columns;
    }
  }

  lemma InRenameSet<C>(s: set<C>, from: C, to: C, x: C)
    ensures x in RenameSet(s, from, to) <==> (x in s && x != from) || (x == to && from in s)
  {
  }

  lemma RenameSetsCommute<C(!new)>(s: set<C>, a: C, b: C, c: C, d: C)
    requires a != c && b != c && a != d && b != d
    ensures RenameSet(RenameSet(s, a, b), c, d) == RenameSet(RenameSet(s, c, d), a, b)
  {
    hide RenameSet;
    var (l, r) := (RenameSet(RenameSet(s, a, b), c, d), RenameSet(RenameSet(s, c, d), a, b));
    forall x: C ensures x in l <==> x in r {
      InRenameSet(s, a, b, x);
      InRenameSet(s, c, d, x);
      InRenameSet(s, a, b, c);
      InRenameSet(s, c, d, a);
      InRenameSet(RenameSet(s, a, b), c, d, x);
      InRenameSet(RenameSet(s, c, d), a, b, x);
    }
  }

  lemma RenamesInCommute(k: Constraint, a: Column, b: Column, c: Column, d: Column)
    requires a != c && b != c && a != d && b != d
    ensures RenameIn(RenameIn(k, a, b), c, d) == RenameIn(RenameIn(k, c, d), a, b)
  {
    hide RenameSet;
    if k.Unique? {
      RenameSetsCommute(k.columns, a, b, c, d);
    }
  }

  lemma RenameInAllBack(cs: map<ConstraintName, Constraint>, from: Column, to: Column)
    requires forall n | n in cs :: to !in cs[n].Columns()
    ensures RenameInAll(RenameInAll(cs, from, to), to, from) == cs
  {
    forall n | n in cs ensures RenameIn(RenameIn(cs[n], from, to), to, from) == cs[n] {
      RenameInBack(cs[n], from, to);
    }
  }

  lemma RenameInRowsBack(rows: map<string, Row>, from: Column, to: Column)
    requires forall r | r in rows :: to !in rows[r]
    ensures RenameInRows(RenameInRows(rows, from, to), to, from) == rows
  {
    forall r | r in rows ensures RenameKey(RenameKey(rows[r], from, to), to, from) == rows[r] {
      RenameKeyBack(rows[r], from, to);
    }
  }

  lemma RenamesInAllCommute(cs: map<ConstraintName, Constraint>, a: Column, b: Column, c: Column, d: Column)
    requires a != c && b != c && a != d && b != d
    ensures RenameInAll(RenameInAll(cs, a, b), c, d) == RenameInAll(RenameInAll(cs, c, d), a, b)
  {
    forall n | n in cs ensures RenameIn(RenameIn(cs[n], a, b), c, d) == RenameIn(RenameIn(cs[n], c, d), a, b) {
      RenamesInCommute(cs[n], a, b, c, d);
    }
  }

  lemma RenamesInRowsCommute(rows: map<string, Row>, a: Column, b: Column, c: Column, d: Column)
    requires a != c && b != c && a != d && b != d
    ensures RenameInRows(RenameInRows(rows, a, b), c, d) == RenameInRows(RenameInRows(rows, c, d), a, b)
  {
    forall r | r in rows
      ensures RenameKey(RenameKey(rows[r], a, b), c, d) == RenameKey(RenameKey(rows[r], c, d), a, b)
    {
      RenameKeysCommute(rows[r], a, b, c, d);
    }
  }

  lemma RenameInRowsPastSet(rows: map<string, Row>, from: Column, to: Column, column: Column, v: Value)
    requires column != from && column != to
    ensures RenameInRows(SetInRows(rows, column, v), from, to) == SetInRows(RenameInRows(rows, from, to), column, v)
  {
    forall r | r in rows
      ensures RenameKey(rows[r][column := v], from, to) == RenameKey(rows[r], from, to)[column := v]
    {
      RenameKeyPastSet(rows[r], from, to, column, v);
    }
  }

  lemma DropInRowsUndoesSet(rows: map<string, Row>, column: Column, v: Value)
    requires forall r | r in rows :: column !in rows[r]
    ensures DropInRows(SetInRows(rows, column, v), column) == rows
  {
    assert forall r | r in rows :: rows[r][column := v] - {column} == rows[r];
  }

  lemma DropInRowsPastSet(rows: map<string, Row>, dropped: Column, column: Column, v: Value)
    requires dropped != column
    ensures DropInRows(SetInRows(rows, column, v), dropped) == SetInRows(DropInRows(rows, dropped), column, v)
  {
    assert forall r | r in rows :: rows[r][column := v] - {dropped} == (rows[r] - {dropped})[column := v];
  }

  lemma RenameKeyKeys<C, V>(m: map<C, V>, from: C, to: C)
    ensures RenameKey(m, from, to).Keys == RenameSet(m.Keys, from, to)
  {
  }

  lemma RenameInColumns(c: Constraint, from: Column, to: Column)
    ensures RenameIn(c, from, to).Columns() == RenameSet(c.Columns(), from, to)
  {
  }

  lemma RenameSetMonotone<C>(s: set<C>, t: set<C>, from: C, to: C)
    requires s <= t
    ensures RenameSet(s, from, to) <= RenameSet(t, from, to)
  {
  }

  lemma RenameValid(t: Table, from: Column, to: Column)
    requires t.Valid()
    ensures WithRenamed(t, from, to).Valid()
  {
    hide RenameKey, RenameIn, RenameSet;
    var t' := WithRenamed(t, from, to);
    RenameKeyKeys(t.columns, from, to);
    forall n | n in t'.constraints ensures t'.constraints[n].Columns() <= t'.columns.Keys {
      RenameInColumns(t.constraints[n], from, to);
      RenameSetMonotone(t.constraints[n].Columns(), t.columns.Keys, from, to);
    }
    forall i | i in t'.indexes ensures t'.indexes[i] in t'.columns {
      InRenameSet(t.columns.Keys, from, to, t'.indexes[i]);
    }
    forall r | r in t'.rows ensures t'.rows[r].Keys == t'.columns.Keys {
      RenameKeyKeys(t.rows[r], from, to);
    }
  }

  /** Renaming a column back restores the table with everything that speaks of it. */
  lemma RenameUndone(t: Table, from: Column, to: Column)
    requires t.Valid() && from in t.columns && to !in t.columns
    ensures WithRenamed(WithRenamed(t, from, to), to, from) == t
  {
    RenameKeyBack(t.columns, from, to);
    RenameInAllBack(t.constraints, from, to);
    RenameInRowsBack(t.rows, from, to);
    assert RenameIndexed(RenameIndexed(t.indexes, from, to), to, from) == t.indexes;
  }

  lemma AddValid(t: Table, column: Column, def: ColumnDef)
    requires t.Valid()
    ensures WithColumn(t, column, def).Valid()
  {
  }

  /** Dropping a column just added restores the table. */
  lemma AddUndone(t: Table, column: Column, def: ColumnDef)
    requires t.Valid() && column !in t.columns
    ensures WithoutColumn(WithColumn(t, column, def), column) == t
  {
    DropInRowsUndoesSet(t.rows, column, def.default);
    assert t.columns[column := def] - {column} == t.columns;
    assert WithoutColumn(t, column).constraints == t.constraints;
    assert WithoutColumn(t, column).indexes == t.indexes;
  }

  /** An index on a column goes with the column. */
  lemma DropTakesIndex(t: Table, column: Column, index: IndexName)
    requires index !in t.indexes
    ensures WithoutColumn(t.(indexes := t.indexes[index := column]), column) == WithoutColumn(t, column)
  {
    assert WithoutColumn(t.(indexes := t.indexes[index := column]), column).indexes == WithoutColumn(t, column).indexes;
  }

  lemma RenamePastAdd(t: Table, from: Column, to: Column, column: Column, def: ColumnDef)
    requires column != from && column != to
    ensures WithRenamed(WithColumn(t, column, def), from, to) == WithColumn(WithRenamed(t, from, to), column, def)
  {
    RenameKeyPastSet(t.columns, from, to, column, def);
    RenameInRowsPastSet(t.rows, from, to, column, def.default);
  }

  lemma DropPastAdd(t: Table, dropped: Column, column: Column, def: ColumnDef)
    requires dropped != column
    ensures WithoutColumn(WithColumn(t, column, def), dropped) == WithColumn(WithoutColumn(t, dropped), column, def)
  {
    DropInRowsPastSet(t.rows, dropped, column, def.default);
    assert t.columns[column := def] - {dropped} == (t.columns - {dropped})[column := def];
  }

  lemma RenamesCommute(t: Table, a: Column, b: Column, c: Column, d: Column)
    requires a != c && b != c && a != d && b != d
    ensures WithRenamed(WithRenamed(t, a, b), c, d) == WithRenamed(WithRenamed(t, c, d), a, b)
  {
    RenameKeysCommute(t.columns, a, b, c, d);
    RenamesInAllCommute(t.constraints, a, b, c, d);
    RenamesInRowsCommute(t.rows, a, b, c, d);
    assert RenameIndexed(RenameIndexed(t.indexes, a, b), c, d) == RenameIndexed(RenameIndexed(t.indexes, c, d), a, b);
  }

  // ----- Stepping through a script -----

  lemma {:induction false} AlterTrace(alterations: seq<Alteration>, tables: seq<Table>)
    requires |tables| == |alterations| + 1
    requires forall i | 0 <= i < |alterations| :: Alter(tables[i], alterations[i]) == Some(tables[i + 1])
    ensures AlterAll(tables[0], alterations) == Some(tables[|alterations|])
    decreases |alterations|
  {
    if alterations == [] {
    } else {
      AlterTrace(alterations[1..], tables[1..]);
    }
  }

  lemma SecondFails(t: Table, first: Alteration, second: Alteration, rest: seq<Alteration>)
    requires Alter(t, first).Some? && Alter(Alter(t, first).value, second).None?
    ensures AlterAll(t, [first, second] + rest).None?
  {
    var alterations := [first, second] + rest;
    assert alterations[1..] == [second] + rest;
    assert AlterAll(Alter(t, first).value, alterations[1..]).None?;
  }

  /** No table but `name` has the index. */
  ghost predicate OnlyIn(db: Db, index: IndexName, name: TableName) {
    forall t | t in db && t != name :: index !in db[t].indexes
  }

  lemma DropIndexEffect(db: Db, index: IndexName, name: TableName)
    requires name in db && OnlyIn(db, index, name)
    ensures Step(db, DropIndexIfExists(index)) == Some(db[name := db[name].(indexes := db[name].indexes - {index})])
  {
    var out := Step(db, DropIndexIfExists(index)).value;
    forall t | t in db && t != name ensures out[t] == db[t] {
      assert db[t].indexes - {index} == db[t].indexes;
    }
    assert out == db[name := db[name].(indexes := db[name].indexes - {index})];
  }

  lemma CreateIndexEffect(db: Db, index: IndexName, name: TableName, column: Column)
    requires name in db && OnlyIn(db, index, name) && index !in db[name].indexes && column in db[name].columns
    ensures Step(db, CreateIndexIfNotExists(index, name, column))
      == Some(db[name := db[name].(indexes := db[name].indexes[index := column])])
  {
    assert !HasIndex(db, index);
  }

  // ----- What every statement keeps -----

  lemma WithoutColumnValid(t: Table, column: Column)
    requires t.Valid()
    ensures WithoutColumn(t, column).Valid()
  {
    var t' := WithoutColumn(t, column);
    forall n | n in t'.constraints ensures t'.constraints[n].Columns() <= t'.columns.Keys {
      assert t.constraints[n].Columns() <= t.columns.Keys;
    }
  }

  /** No alteration leaves a constraint, an index or a row with a column too many or too few. */
  lemma AlterValid(t: Table, a: Alteration)
    requires t.Valid() && Alter(t, a).Some?
    ensures Alter(t, a).value.Valid()
  {
    match a
    case RenameColumn(from, to) => RenameValid(t, from, to);
    case AddColumn(column, def) => AddValid(t, column, def);
    case DropColumnIfExists(column) => WithoutColumnValid(t, column);
    case DropConstraint(_) =>
    case AddCheck(_, _, _) =>
  }

  ghost predicate AllValid(db: Db) {
    forall t | t in db :: db[t].Valid()
  }

  lemma StepValid(db: Db, s: Statement)
    requires AllValid(db) && Step(db, s).Some?
    ensures AllValid(Step(db, s).value)
  {
    match s
    case AlterTable(name, a) => AlterValid(db[name], a);
    case RenameTable(_, _) =>
    case DropIndexIfExists(index) =>
      forall t | t in db ensures db[t].(indexes := db[t].indexes - {index}).Valid() {
        assert db[t].Valid();
      }
    case CreateIndexIfNotExists(_, name, _) => assert name in db ==> db[name].Valid();
  }

  /** A script that runs through leaves every table valid. */
  lemma {:induction false} ExecValid(db: Db, script: seq<Statement>)
    requires AllValid(db) && Exec(db, script).Some?
    ensures AllValid(Exec(db, script).value)
    decreases |script|
  {
    if script == [] {
    } else {
      StepValid(db, script[0]);
      ExecValid(Step(db, script[0]).value, script[1..]);
    }
  }

  /** When the database answers a statement with an error. */
  predicate Fails(db: Db, s: Statement) {
    match s
    case RenameTable(from, to) => from !in db || to in db
    case DropIndexIfExists(_) => false
    case CreateIndexIfNotExists(index, name, column) =>
      (forall t | t in db :: index !in db[t].indexes) && (name in db ==> column !in db[name].columns)
    case AlterTable(name, a) =>
      name in db ==>
        var t := db[name];
        match a
        case RenameColumn(from, to) => from !in t.columns || to in t.columns
        case AddColumn(column, def) => column in t.columns || (def.notNull && def.default == Null && t.rows != map[])
        case DropColumnIfExists(_) => false
        case DropConstraint(n) => n !in t.constraints
        case AddCheck(n, column, allowed) =>
          || n in t.constraints || column !in t.columns
          || exists r | r in t.rows && column in t.rows[r] && t.rows[r][column].Text? ::
              t.rows[r][column].text !in allowed
  }

  // ----- A connection -----

  class Database {
    var tables: Db

    constructor (db: Db)
      ensures tables == db
    {
      tables := db;
    }

    method Execute(s: Statement) returns (ok: bool)
      modifies this
      ensures ok <==> Step(old(tables), s).Some?
      ensures tables == if ok then Step(old(tables), s).value else old(tables)
      ensures ok <==> !Fails(old(tables), s)
    {
      var out := Step(tables, s);
      ok := out.Some?;
      if ok {
        tables := out.value;
      }
    }

    /** A script in one transaction: all of it or nothing. */
    method RunInTransaction(script: seq<Statement>) returns (ok: bool)
      modifies this
      ensures ok <==> Exec(old(tables), script).Some?
      ensures tables == if ok then Exec(old(tables), script).value else old(tables)
      ensures AllValid(old(tables)) ==> AllValid(tables)
    {
      var before := tables;
      for i := 0 to |script|
        invariant Exec(tables, script[i..]) == Exec(before, script)
      {
        assert script[i..][1..] == script[i + 1..];
        ok := Execute(script[i]);
        if !ok {
          tables := before;
          return;
        }
      }
      assert script[|script|..] == [];
      ok := true;
      if AllValid(before) {
        ExecValid(before, script);
      }
    }
  }
}
