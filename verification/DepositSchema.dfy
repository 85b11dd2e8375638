/** Migrations 007 and 008 as a do and undo pair over the tables of migration 002. */
module DepositSchema {
  import opened Wrappers
  import opened SqlTables

  // ----- Columns -----

  const ID: Column := 0
  const USER_ID: Column := 1
  const BRIDGE_CUSTOMER_ID: Column := 2
  const BRIDGE_KYC_LINK_ID: Column := 3
  const FINCRA_CUSTOMER_ID: Column := 4
  const FINCRA_VIRTUAL_ACCOUNT_ID: Column := 5
  const ACCOUNT_NUMBER: Column := 6
  const ACCOUNT_NAME: Column := 7
  const BANK_NAME: Column := 8
  const PROVIDER: Column := 9
  const PROVIDER_ROUTE_ID: Column := 10
  const KIND: Column := 11
  const SOURCE_RAIL: Column := 12
  const SOURCE_CURRENCY: Column := 13
  const DESTINATION_RAIL: Column := 14
  const DESTINATION_CURRENCY: Column := 15
  const DESTINATION_ADDRESS_HASH: Column := 16
  const STATE: Column := 17
  const SOURCE_ADDRESS: Column := 18
  const PROVIDER_EVENT_ID: Column := 19
  const EVENT_TYPE: Column := 20
  const RAW_PAYLOAD: Column := 21
  const PROCESSED: Column := 22
  const CREATED_AT: Column := 23
  const UPDATED_AT: Column := 24

  // ----- Migration 002 -----

  function Required(typ: ColumnType): ColumnDef {
    ColumnDef(typ, true, Null)
  }

  const OPTIONAL_TEXT := ColumnDef(TextType, false, Null)

  const LINKS := Table(
    map[USER_ID := Required(TextType), BRIDGE_CUSTOMER_ID := OPTIONAL_TEXT, BRIDGE_KYC_LINK_ID := OPTIONAL_TEXT,
        CREATED_AT := Required(NumberType), UPDATED_AT := Required(NumberType)],
    map[PrimaryKey := Unique({USER_ID}), UserReference := References(USER_ID, OtherTable("users"))],
    map[], map[])

  const BRIDGE_ONLY := {"bridge"}
  const BRIDGE_KINDS := {"virtual_account", "liquidation_address"}

  const ROUTE_TEXTS := {
    ID, USER_ID, PROVIDER, PROVIDER_ROUTE_ID, KIND, SOURCE_RAIL, SOURCE_CURRENCY, DESTINATION_RAIL,
    DESTINATION_CURRENCY, DESTINATION_ADDRESS_HASH, STATE}

  const ROUTES := Table(
    map c | c in ROUTE_TEXTS + {CREATED_AT, UPDATED_AT} :: Required(if c in ROUTE_TEXTS then TextType else NumberType),
    map[PrimaryKey := Unique({ID}),
        ProviderCheck := OneOf(PROVIDER, BRIDGE_ONLY), KindCheck := OneOf(KIND, BRIDGE_KINDS),
        UniqueKey := Unique({PROVIDER, PROVIDER_ROUTE_ID}), UserReference := References(USER_ID, OtherTable("users"))],
    map[RoutesUserIdIndex := USER_ID], map[])

  const EVENTS := Table(
    map[ID := Required(TextType), PROVIDER_EVENT_ID := Required(TextType), EVENT_TYPE := Required(TextType),
        RAW_PAYLOAD := Required(JsonType), PROCESSED := ColumnDef(FlagType, true, Flag(false)),
        CREATED_AT := Required(NumberType)],
    map[PrimaryKey := Unique({ID}), UniqueKey := Unique({PROVIDER_EVENT_ID})],
    map[BridgeEventIdIndex := PROVIDER_EVENT_ID], map[])

  predicate Conforms(v: Value, def: ColumnDef) {
    match v
    case Null => !def.notNull
    case Text(_) => def.typ == TextType
    case Number(_) => def.typ == NumberType
    case Flag(_) => def.typ == FlagType
    case Json(_) => def.typ == JsonType
  }

  /** The table has this definition, and every row satisfies it. */
  ghost predicate Holds(t: Table, definition: Table) {
    && t.(rows := map[]) == definition
    && (forall r | r in t.rows :: t.rows[r].Keys == t.columns.Keys)
    && (forall r, c | r in t.rows && c in t.columns :: Conforms(t.rows[r][c], t.columns[c]))
    && (forall r, n | r in t.rows && n in t.constraints :: t.constraints[n].Admits(t.rows[r]))
  }

  /** The three tables as migration 002 left them, with any rows, beside any other tables. */
  ghost predicate From002(db: Db) {
    && BridgeLinks in db && Holds(db[BridgeLinks], LINKS)
    && DepositRoutes in db && Holds(db[DepositRoutes], ROUTES)
    && BridgeWebhookEvents in db && Holds(db[BridgeWebhookEvents], EVENTS)
    && FincraLinks !in db && WebhookEvents !in db
    && OnlyIn(db, BridgeEventIdIndex, BridgeWebhookEvents)
    && !HasIndex(db, EventIdIndex) && !HasIndex(db, EventProviderIndex)
  }

  // ----- Migrations 007 and 008 -----

  const BLANK := ColumnDef(TextType, true, Text(""))
  const BLOCKRADAR := ColumnDef(TextType, true, Text("blockradar"))

  const LINKS_UP := [
    RenameColumn(BRIDGE_CUSTOMER_ID, FINCRA_CUSTOMER_ID), RenameColumn(BRIDGE_KYC_LINK_ID, FINCRA_VIRTUAL_ACCOUNT_ID),
    AddColumn(ACCOUNT_NUMBER, BLANK), AddColumn(ACCOUNT_NAME, BLANK), AddColumn(BANK_NAME, BLANK)]

  const NAMES_DOWN := [
    RenameColumn(FINCRA_CUSTOMER_ID, BRIDGE_CUSTOMER_ID), RenameColumn(FINCRA_VIRTUAL_ACCOUNT_ID, BRIDGE_KYC_LINK_ID)]

  const DROPS_DOWN := [
    DropColumnIfExists(ACCOUNT_NUMBER), DropColumnIfExists(ACCOUNT_NAME), DropColumnIfExists(BANK_NAME)]

  const LINKS_DOWN := NAMES_DOWN + DROPS_DOWN

  const ROUTES_UP := [
    DropConstraint(ProviderCheck), AddCheck(ProviderCheck, PROVIDER, {"fincra", "blockradar"}),
    DropConstraint(KindCheck), AddCheck(KindCheck, KIND, {"virtual_account", "deposit_address"}),
    AddColumn(SOURCE_ADDRESS, BLANK)]

  const ROUTES_DOWN := [
    DropConstraint(ProviderCheck), AddCheck(ProviderCheck, PROVIDER, BRIDGE_ONLY),
    DropConstraint(KindCheck), AddCheck(KindCheck, KIND, BRIDGE_KINDS),
    DropColumnIfExists(SOURCE_ADDRESS)]

  const INDEXES_UP := [
    DropIndexIfExists(BridgeEventIdIndex),
    CreateIndexIfNotExists(EventIdIndex, WebhookEvents, PROVIDER_EVENT_ID),
    CreateIndexIfNotExists(EventProviderIndex, WebhookEvents, PROVIDER)]

  const INDEXES_DOWN := [
    DropIndexIfExists(EventIdIndex), DropIndexIfExists(EventProviderIndex),
    CreateIndexIfNotExists(BridgeEventIdIndex, BridgeWebhookEvents, PROVIDER_EVENT_ID)]

  function LinksUpScript(): seq<Statement> {
    [RenameTable(BridgeLinks, FincraLinks)] + Alters(FincraLinks, LINKS_UP)
  }

  function EventsUpScript(): seq<Statement> {
    [RenameTable(BridgeWebhookEvents, WebhookEvents)]
    + Alters(WebhookEvents, [AddColumn(PROVIDER, BLOCKRADAR)]) + INDEXES_UP
  }

  /** Migration 007. */
  function Up(): seq<Statement> {
    LinksUpScript() + Alters(DepositRoutes, ROUTES_UP) + EventsUpScript()
  }

  function LinksDownScript(): seq<Statement> {
    [RenameTable(FincraLinks, BridgeLinks)] + Alters(BridgeLinks, LINKS_DOWN)
  }

  function EventsDownScript(): seq<Statement> {
    [RenameTable(WebhookEvents, BridgeWebhookEvents)]
    + Alters(BridgeWebhookEvents, [DropColumnIfExists(PROVIDER)]) + INDEXES_DOWN
  }

  /** Migration 008. */
  function Down(): seq<Statement> {
    LinksDownScript() + Alters(DepositRoutes, ROUTES_DOWN) + EventsDownScript()
  }

  // ----- Links: renames and new columns -----

  function RenamedLinks(t: Table): Table {
    WithRenamed(WithRenamed(t, BRIDGE_CUSTOMER_ID, FINCRA_CUSTOMER_ID), BRIDGE_KYC_LINK_ID, FINCRA_VIRTUAL_ACCOUNT_ID)
  }

  function WithBankColumns(t: Table): Table {
    WithColumn(WithColumn(WithColumn(t, ACCOUNT_NUMBER, BLANK), ACCOUNT_NAME, BLANK), BANK_NAME, BLANK)
  }

  ghost predicate LinkColumns(t: Table) {
    && t.Valid()
    && BRIDGE_CUSTOMER_ID in t.columns && BRIDGE_KYC_LINK_ID in t.columns
    && FINCRA_CUSTOMER_ID !in t.columns && FINCRA_VIRTUAL_ACCOUNT_ID !in t.columns
    && ACCOUNT_NUMBER !in t.columns && ACCOUNT_NAME !in t.columns && BANK_NAME !in t.columns
  }

  /** Each statement finds the columns it needs and the names it takes free. */
  lemma LinksUpColumns(t: Table)
    requires LinkColumns(t)
    ensures var t1 := WithRenamed(t, BRIDGE_CUSTOMER_ID, FINCRA_CUSTOMER_ID);
      && BRIDGE_KYC_LINK_ID in t1.columns && FINCRA_VIRTUAL_ACCOUNT_ID !in t1.columns
      && var t2 := RenamedLinks(t);
        ACCOUNT_NUMBER !in t2.columns && ACCOUNT_NAME !in t2.columns && BANK_NAME !in t2.columns
  {
  }

  lemma RenameStep(t: Table, from: Column, to: Column)
    requires from in t.columns && to !in t.columns
    ensures Alter(t, RenameColumn(from, to)) == Some(WithRenamed(t, from, to))
  {
    hide WithRenamed;
  }

  lemma AddStep(t: Table, column: Column)
    requires column !in t.columns
    ensures Alter(t, AddColumn(column, BLANK)) == Some(WithColumn(t, column, BLANK))
    ensures WithColumn(t, column, BLANK).columns == t.columns[column := BLANK]
  {
  }

  lemma LinksUp(t: Table)
    requires LinkColumns(t)
    ensures AlterAll(t, LINKS_UP) == Some(WithBankColumns(RenamedLinks(t)))
  {
    var (t1, t2) := (WithRenamed(t, BRIDGE_CUSTOMER_ID, FINCRA_CUSTOMER_ID), RenamedLinks(t));
    LinksUpColumns(t);
    var t3 := WithColumn(t2, ACCOUNT_NUMBER, BLANK);
    var t4 := WithColumn(t3, ACCOUNT_NAME, BLANK);
    hide WithRenamed, WithColumn, Alter;
    RenameStep(t, BRIDGE_CUSTOMER_ID, FINCRA_CUSTOMER_ID);
    RenameStep(t1, BRIDGE_KYC_LINK_ID, FINCRA_VIRTUAL_ACCOUNT_ID);
    AddStep(t2, ACCOUNT_NUMBER);
    AddStep(t3, ACCOUNT_NAME);
    AddStep(t4, BANK_NAME);
    AlterTrace(LINKS_UP, [t, t1, t2, t3, t4, WithBankColumns(t2)]);
  }

  /** A rename moves past the three new columns. */
  lemma RenamePastBankColumns(t: Table, from: Column, to: Column)
    requires {from, to} !! {ACCOUNT_NUMBER, ACCOUNT_NAME, BANK_NAME}
    ensures WithRenamed(WithBankColumns(t), from, to) == WithBankColumns(WithRenamed(t, from, to))
  {
    var t1 := WithColumn(t, ACCOUNT_NUMBER, BLANK);
    RenamePastAdd(t, from, to, ACCOUNT_NUMBER, BLANK);
    RenamePastAdd(t1, from, to, ACCOUNT_NAME, BLANK);
    RenamePastAdd(WithColumn(t1, ACCOUNT_NAME, BLANK), from, to, BANK_NAME, BLANK);
  }

  lemma RenamesBack(t: Table)
    requires LinkColumns(t)
    ensures var t' := WithRenamed(RenamedLinks(t), FINCRA_CUSTOMER_ID, BRIDGE_CUSTOMER_ID);
      WithRenamed(t', FINCRA_VIRTUAL_ACCOUNT_ID, BRIDGE_KYC_LINK_ID) == t
  {
    var t1 := WithRenamed(t, BRIDGE_CUSTOMER_ID, FINCRA_CUSTOMER_ID);
    RenamesCommute(t1, BRIDGE_KYC_LINK_ID, FINCRA_VIRTUAL_ACCOUNT_ID, FINCRA_CUSTOMER_ID, BRIDGE_CUSTOMER_ID);
    RenameUndone(t, BRIDGE_CUSTOMER_ID, FINCRA_CUSTOMER_ID);
    RenameUndone(t, BRIDGE_KYC_LINK_ID, FINCRA_VIRTUAL_ACCOUNT_ID);
  }

  lemma DropBankColumns(t: Table)
    requires LinkColumns(t)
    ensures var t1 := WithColumn(WithColumn(t, ACCOUNT_NAME, BLANK), BANK_NAME, BLANK);
      && WithoutColumn(WithBankColumns(t), ACCOUNT_NUMBER) == t1
      && WithoutColumn(t1, ACCOUNT_NAME) == WithColumn(t, BANK_NAME, BLANK)
      && WithoutColumn(WithColumn(t, BANK_NAME, BLANK), BANK_NAME) == t
  {
    var a := WithColumn(t, ACCOUNT_NUMBER, BLANK);
    DropPastAdd(WithColumn(a, ACCOUNT_NAME, BLANK), ACCOUNT_NUMBER, BANK_NAME, BLANK);
    DropPastAdd(a, ACCOUNT_NUMBER, ACCOUNT_NAME, BLANK);
    AddUndone(t, ACCOUNT_NUMBER, BLANK);
    DropPastAdd(WithColumn(t, ACCOUNT_NAME, BLANK), ACCOUNT_NAME, BANK_NAME, BLANK);
    AddUndone(t, ACCOUNT_NAME, BLANK);
    AddUndone(t, BANK_NAME, BLANK);
  }

  lemma NamesDown(t: Table)
    requires LinkColumns(t)
    ensures AlterAll(WithBankColumns(RenamedLinks(t)), NAMES_DOWN) == Some(WithBankColumns(t))
  {
    var r := RenamedLinks(t);
    var r1 := WithRenamed(r, FINCRA_CUSTOMER_ID, BRIDGE_CUSTOMER_ID);
    var (b, b1) := (WithBankColumns(r), WithBankColumns(r1));
    assert FINCRA_CUSTOMER_ID in b.columns && BRIDGE_CUSTOMER_ID !in b.columns;
    assert FINCRA_VIRTUAL_ACCOUNT_ID in b1.columns && BRIDGE_KYC_LINK_ID !in b1.columns;
    RenamePastBankColumns(r, FINCRA_CUSTOMER_ID, BRIDGE_CUSTOMER_ID);
    RenamePastBankColumns(r1, FINCRA_VIRTUAL_ACCOUNT_ID, BRIDGE_KYC_LINK_ID);
    RenamesBack(t);
    hide LinkColumns, WithRenamed, WithBankColumns, RenamedLinks;
    AlterTrace(NAMES_DOWN, [b, b1, WithBankColumns(t)]);
  }

  lemma DropsDown(t: Table)
    requires LinkColumns(t)
    ensures AlterAll(WithBankColumns(t), DROPS_DOWN) == Some(t)
  {
    DropBankColumns(t);
    hide LinkColumns, WithoutColumn;
    var d := WithColumn(WithColumn(t, ACCOUNT_NAME, BLANK), BANK_NAME, BLANK);
    AlterTrace(DROPS_DOWN, [WithBankColumns(t), d, WithColumn(t, BANK_NAME, BLANK), t]);
  }

  lemma LinksDown(t: Table)
    requires LinkColumns(t)
    ensures AlterAll(WithBankColumns(RenamedLinks(t)), LINKS_DOWN) == Some(t)
  {
    NamesDown(t);
    DropsDown(t);
    hide *;
    AlterAllAppend(WithBankColumns(RenamedLinks(t)), NAMES_DOWN, DROPS_DOWN);
  }

  // ----- Routes: other checks -----

  function RoutesAfter(t: Table): Table {
    WithColumn(t.(constraints := t.constraints
      [ProviderCheck := OneOf(PROVIDER, {"fincra", "blockradar"})]
      [KindCheck := OneOf(KIND, {"virtual_account", "deposit_address"})]),
      SOURCE_ADDRESS, BLANK)
  }

  ghost predicate RouteChecks(t: Table) {
    && t.Valid()
    && PROVIDER in t.columns && KIND in t.columns && SOURCE_ADDRESS !in t.columns
    && ProviderCheck in t.constraints && t.constraints[ProviderCheck] == OneOf(PROVIDER, BRIDGE_ONLY)
    && KindCheck in t.constraints && t.constraints[KindCheck] == OneOf(KIND, BRIDGE_KINDS)
  }

  lemma RouteDefinition()
    ensures ROUTES.Valid() && RouteChecks(ROUTES)
  {
  }

  lemma RoutesOf002(t: Table)
    requires Holds(t, ROUTES)
    ensures RouteChecks(t)
  {
    assert t.columns == ROUTES.columns && t.constraints == ROUTES.constraints && t.indexes == ROUTES.indexes;
    RouteDefinition();
    hide ROUTES;
  }

  lemma ProviderIsBridge(t: Table, r: string)
    requires Holds(t, ROUTES) && RouteChecks(t) && r in t.rows
    ensures PROVIDER in t.rows[r] && t.rows[r][PROVIDER] == Text("bridge")
  {
    assert PROVIDER in t.columns && t.columns[PROVIDER] == Required(TextType);
    assert Conforms(t.rows[r][PROVIDER], t.columns[PROVIDER]);
    assert t.constraints[ProviderCheck].Admits(t.rows[r]);
  }

  lemma NoRouteIsFincra()
    ensures "bridge" !in {"fincra", "blockradar"}
  {
    assert "bridge"[0] != "fincra"[0] && |"bridge"| != |"blockradar"|;
  }

  lemma BridgeRowRejected(row: Row)
    requires PROVIDER in row && row[PROVIDER] == Text("bridge")
    ensures !OneOf(PROVIDER, {"fincra", "blockradar"}).Admits(row)
  {
    NoRouteIsFincra();
  }

  lemma BridgeRowStops(t: Table, r: string)
    requires RouteChecks(t) && r in t.rows && PROVIDER in t.rows[r] && t.rows[r][PROVIDER] == Text("bridge")
    ensures AlterAll(t, ROUTES_UP).None?
  {
    BridgeRowRejected(t.rows[r]);
    var newCheck := AddCheck(ProviderCheck, PROVIDER, {"fincra", "blockradar"});
    SecondFails(t, DropConstraint(ProviderCheck), newCheck, ROUTES_UP[2..]);
    assert ROUTES_UP == [ROUTES_UP[0], ROUTES_UP[1]] + ROUTES_UP[2..];
  }

  /** The new provider check fails on the first route there is. */
  lemma RoutesUpFails(t: Table)
    requires Holds(t, ROUTES) && t.rows != map[]
    ensures AlterAll(t, ROUTES_UP).None?
  {
    hide *;
    RoutesOf002(t);
    var r :| r in t.rows;
    ProviderIsBridge(t, r);
    BridgeRowStops(t, r);
  }

  /** On an empty table the two checks can be replaced by any others. */
  function ReplaceChecks(providers: set<string>, kinds: set<string>): seq<Alteration> {
    [DropConstraint(ProviderCheck), AddCheck(ProviderCheck, PROVIDER, providers),
     DropConstraint(KindCheck), AddCheck(KindCheck, KIND, kinds)]
  }

  function WithChecks(t: Table, providers: set<string>, kinds: set<string>): Table {
    t.(constraints := t.constraints[ProviderCheck := OneOf(PROVIDER, providers)][KindCheck := OneOf(KIND, kinds)])
  }

  lemma ChecksReplaced(t: Table, providers: set<string>, kinds: set<string>)
    requires PROVIDER in t.columns && KIND in t.columns && t.rows == map[]
    requires ProviderCheck in t.constraints && KindCheck in t.constraints
    ensures AlterAll(t, ReplaceChecks(providers, kinds)) == Some(WithChecks(t, providers, kinds))
  {
    var c0 := t.constraints - {ProviderCheck};
    var c1 := c0[ProviderCheck := OneOf(PROVIDER, providers)];
    var c2 := c1 - {KindCheck};
    var c3 := c2[KindCheck := OneOf(KIND, kinds)];
    assert c3 == WithChecks(t, providers, kinds).constraints;
    AlterTrace(ReplaceChecks(providers, kinds),
      [t, t.(constraints := c0), t.(constraints := c1), t.(constraints := c2), t.(constraints := c3)]);
  }

  lemma AlterOne(t: Table, a: Alteration)
    ensures AlterAll(t, [a]) == Alter(t, a)
  {
    assert [a][1..] == [];
  }

  lemma RoutesUp(t: Table)
    requires RouteChecks(t) && t.rows == map[]
    ensures AlterAll(t, ROUTES_UP) == Some(RoutesAfter(t))
  {
    var (providers, kinds) := ({"fincra", "blockradar"}, {"virtual_account", "deposit_address"});
    ChecksReplaced(t, providers, kinds);
    var u := WithChecks(t, providers, kinds);
    AlterOne(u, AddColumn(SOURCE_ADDRESS, BLANK));
    assert Alter(u, AddColumn(SOURCE_ADDRESS, BLANK)) == Some(RoutesAfter(t));
    hide AlterAll, Alter, RoutesAfter, WithChecks;
    AlterAllAppend(t, ReplaceChecks(providers, kinds), [AddColumn(SOURCE_ADDRESS, BLANK)]);
    assert ROUTES_UP == ReplaceChecks(providers, kinds) + [AddColumn(SOURCE_ADDRESS, BLANK)];
  }

  lemma RoutesDown(t: Table)
    requires RouteChecks(t) && t.rows == map[]
    ensures AlterAll(RoutesAfter(t), ROUTES_DOWN) == Some(t)
  {
    var u := RoutesAfter(t);
    ChecksReplaced(u, BRIDGE_ONLY, BRIDGE_KINDS);
    var back := WithChecks(u, BRIDGE_ONLY, BRIDGE_KINDS);
    assert back.constraints == t.constraints;
    assert back == WithColumn(t, SOURCE_ADDRESS, BLANK);
    AddUndone(t, SOURCE_ADDRESS, BLANK);
    AlterOne(back, DropColumnIfExists(SOURCE_ADDRESS));
    assert Alter(back, DropColumnIfExists(SOURCE_ADDRESS)) == Some(t);
    hide AlterAll, Alter, RoutesAfter, WithChecks;
    AlterAllAppend(u, ReplaceChecks(BRIDGE_ONLY, BRIDGE_KINDS), [DropColumnIfExists(SOURCE_ADDRESS)]);
    assert ROUTES_DOWN == ReplaceChecks(BRIDGE_ONLY, BRIDGE_KINDS) + [DropColumnIfExists(SOURCE_ADDRESS)];
  }

  // ----- Events: a new column and other indexes -----

  ghost predicate EventColumns(t: Table) {
    && t.Valid()
    && PROVIDER !in t.columns && PROVIDER_EVENT_ID in t.columns
    && t.indexes == map[BridgeEventIdIndex := PROVIDER_EVENT_ID]
  }

  function EventsAfter(t: Table): Table {
    WithColumn(t, PROVIDER, BLOCKRADAR)
      .(indexes := map[EventIdIndex := PROVIDER_EVENT_ID][EventProviderIndex := PROVIDER])
  }

  // ----- The tables of 002 have what the scripts ask for -----

  ghost predicate IndexesOnlyIn(db: Db, name: TableName) {
    OnlyIn(db, BridgeEventIdIndex, name) && OnlyIn(db, EventIdIndex, name) && OnlyIn(db, EventProviderIndex, name)
  }

  ghost predicate Ready(db: Db) {
    && BridgeLinks in db && LinkColumns(db[BridgeLinks])
    && DepositRoutes in db && RouteChecks(db[DepositRoutes])
    && BridgeWebhookEvents in db && EventColumns(db[BridgeWebhookEvents])
    && FincraLinks !in db && WebhookEvents !in db
    && IndexesOnlyIn(db, BridgeWebhookEvents)
  }

  lemma LinksOf002(t: Table)
    requires Holds(t, LINKS)
    ensures LinkColumns(t)
  {
    assert t.columns == LINKS.columns && t.constraints == LINKS.constraints && t.indexes == LINKS.indexes;
    assert LINKS.Valid() && LinkColumns(LINKS);
    hide LINKS;
  }

  lemma EventsOf002(t: Table)
    requires Holds(t, EVENTS)
    ensures EventColumns(t)
  {
    assert t.columns == EVENTS.columns && t.constraints == EVENTS.constraints && t.indexes == EVENTS.indexes;
    assert EVENTS.Valid() && EventColumns(EVENTS);
    hide EVENTS;
  }

  lemma ReadyAfter002(db: Db)
    requires From002(db)
    ensures Ready(db)
  {
    hide Holds, LinkColumns, RouteChecks, EventColumns;
    LinksOf002(db[BridgeLinks]);
    RoutesOf002(db[DepositRoutes]);
    EventsOf002(db[BridgeWebhookEvents]);
  }

  // ----- The parts of 007 -----

  lemma ExecOne(db: Db, s: Statement)
    ensures Exec(db, [s]) == Step(db, s)
  {
    assert [s][1..] == [];
  }

  /** A table is renamed and then altered under its new name. */
  lemma RenameAndAlter(db: Db, from: TableName, to: TableName, alterations: seq<Alteration>, t': Table)
    requires from in db && to !in db && AlterAll(db[from], alterations) == Some(t')
    ensures Exec(db, [RenameTable(from, to)] + Alters(to, alterations)) == Some((db - {from})[to := t'])
  {
    hide AlterAll;
    var db1 := (db - {from})[to := db[from]];
    ExecOne(db, RenameTable(from, to));
    ExecAppend(db, [RenameTable(from, to)], Alters(to, alterations));
    ExecAlters(db1, to, alterations);
    assert db1[to := t'] == (db - {from})[to := t'];
  }

  lemma {:induction false} ExecTrace(script: seq<Statement>, dbs: seq<Db>)
    requires |dbs| == |script| + 1
    requires forall i | 0 <= i < |script| :: Step(dbs[i], script[i]) == Some(dbs[i + 1])
    ensures Exec(dbs[0], script) == Some(dbs[|script|])
    decreases |script|
  {
    if script == [] {
    } else {
      ExecTrace(script[1..], dbs[1..]);
    }
  }

  lemma IndexSteps(db: Db, name: TableName, tables: seq<Table>, script: seq<Statement>)
    requires |tables| == |script| + 1 && name in db && db[name] == tables[0]
    requires forall i | 0 <= i < |script| :: Step(db[name := tables[i]], script[i]) == Some(db[name := tables[i + 1]])
    ensures Exec(db, script) == Some(db[name := tables[|script|]])
  {
    hide Step;
    var dbs := seq(|tables|, i requires 0 <= i < |tables| => db[name := tables[i]]);
    assert dbs[0] == db;
    ExecTrace(script, dbs);
  }

  lemma DropIndexStep(db: Db, name: TableName, t: Table, index: IndexName)
    requires name in db && OnlyIn(db, index, name)
    ensures Step(db[name := t], DropIndexIfExists(index)) == Some(db[name := t.(indexes := t.indexes - {index})])
  {
    var db1 := db[name := t];
    DropIndexEffect(db1, index, name);
    assert db1[name := t.(indexes := t.indexes - {index})] == db[name := t.(indexes := t.indexes - {index})];
  }

  lemma CreateIndexStep(db: Db, name: TableName, t: Table, index: IndexName, column: Column)
    requires name in db && OnlyIn(db, index, name) && index !in t.indexes && column in t.columns
    ensures Step(db[name := t], CreateIndexIfNotExists(index, name, column))
      == Some(db[name := t.(indexes := t.indexes[index := column])])
  {
    var db1 := db[name := t];
    CreateIndexEffect(db1, index, name, column);
    var t' := t.(indexes := t.indexes[index := column]);
    assert db1[name := t'] == db[name := t'];
  }

  lemma IndexesUp(db: Db, t: Table)
    requires EventColumns(t) && WebhookEvents in db && db[WebhookEvents] == WithColumn(t, PROVIDER, BLOCKRADAR)
    requires IndexesOnlyIn(db, WebhookEvents)
    ensures Exec(db, INDEXES_UP) == Some(db[WebhookEvents := EventsAfter(t)])
  {
    var e0 := db[WebhookEvents];
    var (e1, e2, e3) := (e0.(indexes := map[]), e0.(indexes := map[EventIdIndex := PROVIDER_EVENT_ID]), EventsAfter(t));
    assert e0.indexes - {BridgeEventIdIndex} == map[];
    assert e2.indexes == e1.indexes[EventIdIndex := PROVIDER_EVENT_ID];
    assert e3.indexes == e2.indexes[EventProviderIndex := PROVIDER];
    DropIndexStep(db, WebhookEvents, e0, BridgeEventIdIndex);
    CreateIndexStep(db, WebhookEvents, e1, EventIdIndex, PROVIDER_EVENT_ID);
    CreateIndexStep(db, WebhookEvents, e2, EventProviderIndex, PROVIDER);
    hide Step;
    IndexSteps(db, WebhookEvents, [e0, e1, e2, e3], INDEXES_UP);
  }

  lemma IndexesDown(db: Db, t: Table)
    requires EventColumns(t) && BridgeWebhookEvents in db
    requires db[BridgeWebhookEvents] == t.(indexes := map[EventIdIndex := PROVIDER_EVENT_ID])
    requires IndexesOnlyIn(db, BridgeWebhookEvents)
    ensures Exec(db, INDEXES_DOWN) == Some(db[BridgeWebhookEvents := t])
  {
    var e0 := db[BridgeWebhookEvents];
    var e1 := e0.(indexes := map[]);
    assert e0.indexes - {EventIdIndex} == map[] && e1.indexes - {EventProviderIndex} == map[];
    assert t.indexes == e1.indexes[BridgeEventIdIndex := PROVIDER_EVENT_ID];
    DropIndexStep(db, BridgeWebhookEvents, e0, EventIdIndex);
    DropIndexStep(db, BridgeWebhookEvents, e1, EventProviderIndex);
    CreateIndexStep(db, BridgeWebhookEvents, e1, BridgeEventIdIndex, PROVIDER_EVENT_ID);
    hide Step;
    IndexSteps(db, BridgeWebhookEvents, [e0, e1, e1, t], INDEXES_DOWN);
  }

  lemma EventsDown(t: Table)
    requires EventColumns(t)
    ensures AlterAll(EventsAfter(t), [DropColumnIfExists(PROVIDER)])
      == Some(t.(indexes := map[EventIdIndex := PROVIDER_EVENT_ID]))
  {
    var u := t.(indexes := map[EventIdIndex := PROVIDER_EVENT_ID]);
    var e := EventsAfter(t);
    assert PROVIDER in e.columns;
    ProviderDropped(t);
    hide EventsAfter, EventColumns, WithoutColumn;
    AlterTrace([DropColumnIfExists(PROVIDER)], [e, u]);
  }

  lemma ProviderDropped(t: Table)
    requires EventColumns(t)
    ensures WithoutColumn(EventsAfter(t), PROVIDER) == t.(indexes := map[EventIdIndex := PROVIDER_EVENT_ID])
  {
    var u := t.(indexes := map[EventIdIndex := PROVIDER_EVENT_ID]);
    AddUndone(u, PROVIDER, BLOCKRADAR);
    var v := WithColumn(u, PROVIDER, BLOCKRADAR);
    assert EventsAfter(t) == v.(indexes := v.indexes[EventProviderIndex := PROVIDER]);
    assert EventProviderIndex !in v.indexes;
    hide EventsAfter, EventColumns, WithColumn;
    DropTakesIndex(v, PROVIDER, EventProviderIndex);
  }

  /** The database without the tables that get another name, and with those names free. */
  function AfterLinks(db: Db): Db
    requires BridgeLinks in db
  {
    (db - {BridgeLinks})[FincraLinks := WithBankColumns(RenamedLinks(db[BridgeLinks]))]
  }

  function AfterEvents(db: Db): Db
    requires BridgeWebhookEvents in db
  {
    (db - {BridgeWebhookEvents})[WebhookEvents := EventsAfter(db[BridgeWebhookEvents])]
  }

  lemma LinksUpInDb(db: Db)
    requires BridgeLinks in db && LinkColumns(db[BridgeLinks]) && FincraLinks !in db
    ensures Exec(db, LinksUpScript()) == Some(AfterLinks(db))
  {
    LinksUp(db[BridgeLinks]);
    hide LinkColumns;
    RenameAndAlter(db, BridgeLinks, FincraLinks, LINKS_UP, WithBankColumns(RenamedLinks(db[BridgeLinks])));
  }

  lemma LinksDownInDb(db: Db, t: Table)
    requires LinkColumns(t) && FincraLinks in db && BridgeLinks !in db
    requires db[FincraLinks] == WithBankColumns(RenamedLinks(t))
    ensures Exec(db, LinksDownScript()) == Some((db - {FincraLinks})[BridgeLinks := t])
  {
    LinksDown(t);
    hide LinkColumns, WithBankColumns, RenamedLinks;
    RenameAndAlter(db, FincraLinks, BridgeLinks, LINKS_DOWN, t);
  }

  lemma EventsUpInDb(db: Db)
    requires BridgeWebhookEvents in db && EventColumns(db[BridgeWebhookEvents]) && WebhookEvents !in db
    requires IndexesOnlyIn(db, BridgeWebhookEvents)
    ensures Exec(db, EventsUpScript()) == Some(AfterEvents(db))
  {
    var t := db[BridgeWebhookEvents];
    var t1 := WithColumn(t, PROVIDER, BLOCKRADAR);
    AlterTrace([AddColumn(PROVIDER, BLOCKRADAR)], [t, t1]);
    RenameAndAlter(db, BridgeWebhookEvents, WebhookEvents, [AddColumn(PROVIDER, BLOCKRADAR)], t1);
    var db1 := (db - {BridgeWebhookEvents})[WebhookEvents := t1];
    IndexesUp(db1, t);
    assert db1[WebhookEvents := EventsAfter(t)] == AfterEvents(db);
    ExecAppend(db, [RenameTable(BridgeWebhookEvents, WebhookEvents)]
      + Alters(WebhookEvents, [AddColumn(PROVIDER, BLOCKRADAR)]), INDEXES_UP);
  }

  lemma EventsDownInDb(db: Db, t: Table)
    requires EventColumns(t) && WebhookEvents in db && BridgeWebhookEvents !in db && db[WebhookEvents] == EventsAfter(t)
    requires IndexesOnlyIn(db, WebhookEvents)
    ensures Exec(db, EventsDownScript()) == Some((db - {WebhookEvents})[BridgeWebhookEvents := t])
  {
    EventsDown(t);
    hide EventsAfter;
    var t1 := t.(indexes := map[EventIdIndex := PROVIDER_EVENT_ID]);
    RenameAndAlter(db, WebhookEvents, BridgeWebhookEvents, [DropColumnIfExists(PROVIDER)], t1);
    var db1 := (db - {WebhookEvents})[BridgeWebhookEvents := t1];
    IndexesDown(db1, t);
    assert db1[BridgeWebhookEvents := t] == (db - {WebhookEvents})[BridgeWebhookEvents := t];
    ExecAppend(db, [RenameTable(WebhookEvents, BridgeWebhookEvents)]
      + Alters(BridgeWebhookEvents, [DropColumnIfExists(PROVIDER)]), INDEXES_DOWN);
  }

  // ----- Both migrations -----

  function After007(db: Db): Db
    requires BridgeLinks in db && DepositRoutes in db && BridgeWebhookEvents in db
  {
    AfterEvents(AfterLinks(db)[DepositRoutes := RoutesAfter(db[DepositRoutes])])
  }

  lemma ExecThree(db: Db, a: seq<Statement>, b: seq<Statement>, c: seq<Statement>, db1: Db, db2: Db, db3: Db)
    requires Exec(db, a) == Some(db1) && Exec(db1, b) == Some(db2) && Exec(db2, c) == Some(db3)
    ensures Exec(db, a + b + c) == Some(db3)
  {
    ExecAppend(db, a, b);
    ExecAppend(db, a + b, c);
  }

  lemma LinksIndexes(t: Table)
    ensures WithBankColumns(RenamedLinks(t)).indexes.Keys == t.indexes.Keys
  {
  }

  lemma BeforeEventsUp(db: Db)
    requires Ready(db)
    ensures IndexesOnlyIn(AfterLinks(db)[DepositRoutes := RoutesAfter(db[DepositRoutes])], BridgeWebhookEvents)
  {
    LinksIndexes(db[BridgeLinks]);
    hide LinkColumns, RouteChecks, EventColumns, WithBankColumns, RenamedLinks;
  }

  lemma RoutesStage(db: Db)
    requires BridgeLinks in db && DepositRoutes in db
    ensures var (db1, t') := (AfterLinks(db), AlterAll(db[DepositRoutes], ROUTES_UP));
      Exec(db1, Alters(DepositRoutes, ROUTES_UP)) == if t'.None? then None else Some(db1[DepositRoutes := t'.value])
  {
    var db1 := AfterLinks(db);
    assert db1[DepositRoutes] == db[DepositRoutes];
    hide *;
    ExecAlters(db1, DepositRoutes, ROUTES_UP);
  }

  lemma EventsStage(db: Db)
    requires Ready(db)
    ensures Exec(AfterLinks(db)[DepositRoutes := RoutesAfter(db[DepositRoutes])], EventsUpScript())
      == Some(After007(db))
  {
    var db2 := AfterLinks(db)[DepositRoutes := RoutesAfter(db[DepositRoutes])];
    assert db2[BridgeWebhookEvents] == db[BridgeWebhookEvents] && WebhookEvents !in db2;
    assert After007(db) == AfterEvents(db2);
    BeforeEventsUp(db);
    hide *;
    EventsUpInDb(db2);
  }

  lemma UpInDb(db: Db)
    requires Ready(db) && AlterAll(db[DepositRoutes], ROUTES_UP) == Some(RoutesAfter(db[DepositRoutes]))
    ensures Exec(db, Up()) == Some(After007(db))
  {
    assert Up() == LinksUpScript() + Alters(DepositRoutes, ROUTES_UP) + EventsUpScript();
    assert BridgeLinks in db && LinkColumns(db[BridgeLinks]) && FincraLinks !in db && DepositRoutes in db;
    hide *;
    var db1 := AfterLinks(db);
    var db2 := db1[DepositRoutes := RoutesAfter(db[DepositRoutes])];
    LinksUpInDb(db);
    RoutesStage(db);
    EventsStage(db);
    ExecThree(db, LinksUpScript(), Alters(DepositRoutes, ROUTES_UP), EventsUpScript(), db1, db2, After007(db));
  }

  lemma UpStops(db: Db)
    requires Ready(db) && AlterAll(db[DepositRoutes], ROUTES_UP).None?
    ensures Exec(db, Up()).None?
  {
    assert Up() == LinksUpScript() + Alters(DepositRoutes, ROUTES_UP) + EventsUpScript();
    hide LinkColumns, RouteChecks, EventColumns, IndexesOnlyIn, AfterLinks;
    hide LinksUpScript, EventsUpScript, Exec, AlterAll, Up;
    LinksUpInDb(db);
    RoutesStage(db);
    ExecAppend(db, LinksUpScript(), Alters(DepositRoutes, ROUTES_UP));
    ExecAppend(db, LinksUpScript() + Alters(DepositRoutes, ROUTES_UP), EventsUpScript());
  }

  /** The way back: the links restored, then the routes, then the events. */
  lemma WayBack(db: Db)
    requires Ready(db)
    ensures var (db0, l, r, e) := (After007(db), db[BridgeLinks], db[DepositRoutes], db[BridgeWebhookEvents]);
      && FincraLinks in db0 && BridgeLinks !in db0 && db0[FincraLinks] == WithBankColumns(RenamedLinks(l))
      && var db1 := (db0 - {FincraLinks})[BridgeLinks := l];
      && DepositRoutes in db1 && db1[DepositRoutes] == RoutesAfter(r)
      && var db2 := db1[DepositRoutes := r];
      && db2 == (db - {BridgeWebhookEvents})[WebhookEvents := EventsAfter(e)]
  {
    hide LinkColumns, RouteChecks, EventColumns, WithBankColumns, RenamedLinks, RoutesAfter, EventsAfter;
  }

  lemma EventsRenamedBack(db: Db, e: Table)
    requires BridgeWebhookEvents in db && WebhookEvents !in db && IndexesOnlyIn(db, BridgeWebhookEvents)
    ensures var db' := (db - {BridgeWebhookEvents})[WebhookEvents := e];
      && IndexesOnlyIn(db', WebhookEvents)
      && (db' - {WebhookEvents})[BridgeWebhookEvents := db[BridgeWebhookEvents]] == db
  {
  }

  lemma DownInDb(db: Db)
    requires Ready(db) && AlterAll(RoutesAfter(db[DepositRoutes]), ROUTES_DOWN) == Some(db[DepositRoutes])
    ensures Exec(After007(db), Down()) == Some(db)
  {
    var (l, r, e) := (db[BridgeLinks], db[DepositRoutes], db[BridgeWebhookEvents]);
    var db0 := After007(db);
    var db1 := (db0 - {FincraLinks})[BridgeLinks := l];
    var db2 := db1[DepositRoutes := r];
    WayBack(db);
    hide After007, RoutesAfter, AlterAll, Exec, LinkColumns, RouteChecks, EventColumns;
    hide EventsAfter, RenamedLinks, WithBankColumns;
    EventsRenamedBack(db, EventsAfter(e));
    LinksDownInDb(db0, l);
    EventsDownInDb(db2, e);
    hide LinksDownScript, EventsDownScript, IndexesOnlyIn, Ready;
    ExecAlters(db1, DepositRoutes, ROUTES_DOWN);
    ExecThree(db0, LinksDownScript(), Alters(DepositRoutes, ROUTES_DOWN), EventsDownScript(), db1, db2, db);
  }

  /** 007 goes through exactly if there is no deposit route, and then 008 restores every
      table, column, check, index and row. */
  lemma DoThenUndo(db: Db)
    requires From002(db)
    ensures Exec(db, Up()).Some? <==> db[DepositRoutes].rows == map[]
    ensures Exec(db, Up()).Some? ==> Exec(Exec(db, Up()).value, Down()) == Some(db)
  {
    ReadyAfter002(db);
    var t := db[DepositRoutes];
    assert Holds(t, ROUTES) && RouteChecks(t);
    hide *;
    if t.rows == map[] {
      RoutesUp(t);
      RoutesDown(t);
      UpInDb(db);
      DownInDb(db);
    } else {
      RoutesUpFails(t);
      UpStops(db);
    }
  }

  // ----- What 007 makes of the tables -----

  /** A link under its new columns. */
  predicate LinkRow(before: Row, after: Row) {
    && {USER_ID, BRIDGE_CUSTOMER_ID, BRIDGE_KYC_LINK_ID, CREATED_AT, UPDATED_AT} <= before.Keys
    && after == map[
      USER_ID := before[USER_ID], FINCRA_CUSTOMER_ID := before[BRIDGE_CUSTOMER_ID],
      FINCRA_VIRTUAL_ACCOUNT_ID := before[BRIDGE_KYC_LINK_ID], CREATED_AT := before[CREATED_AT],
      UPDATED_AT := before[UPDATED_AT], ACCOUNT_NUMBER := Text(""), ACCOUNT_NAME := Text(""), BANK_NAME := Text("")]
  }

  ghost predicate LinksAfter007(before: Table, after: Table) {
    && after.columns == map[
      USER_ID := Required(TextType), FINCRA_CUSTOMER_ID := OPTIONAL_TEXT, FINCRA_VIRTUAL_ACCOUNT_ID := OPTIONAL_TEXT,
      CREATED_AT := Required(NumberType), UPDATED_AT := Required(NumberType),
      ACCOUNT_NUMBER := ColumnDef(TextType, true, Text("")), ACCOUNT_NAME := ColumnDef(TextType, true, Text("")),
      BANK_NAME := ColumnDef(TextType, true, Text(""))]
    && after.constraints == before.constraints && after.indexes == before.indexes
    && after.rows.Keys == before.rows.Keys
    && forall r | r in before.rows :: LinkRow(before.rows[r], after.rows[r])
  }

  ghost predicate RoutesAfter007(before: Table, after: Table) {
    && after.columns == before.columns[SOURCE_ADDRESS := ColumnDef(TextType, true, Text(""))]
    && after.constraints == before.constraints
      [ProviderCheck := OneOf(PROVIDER, {"fincra", "blockradar"})]
      [KindCheck := OneOf(KIND, {"virtual_account", "deposit_address"})]
    && after.indexes == before.indexes && after.rows == map[]
  }

  ghost predicate EventsAfter007(before: Table, after: Table) {
    && after.columns == before.columns[PROVIDER := ColumnDef(TextType, true, Text("blockradar"))]
    && after.constraints == before.constraints
    && after.indexes == map[EventIdIndex := PROVIDER_EVENT_ID, EventProviderIndex := PROVIDER]
    && after.rows.Keys == before.rows.Keys
    && forall r | r in before.rows :: after.rows[r] == before.rows[r][PROVIDER := Text("blockradar")]
  }

  /** Links get their new names and three blank columns, routes other checks and a blank
      column, events a provider and other indexes, and no other table changes. */
  ghost predicate Migrated(db: Db, db': Db)
    requires From002(db)
  {
    && db'.Keys == db.Keys - {BridgeLinks, BridgeWebhookEvents} + {FincraLinks, WebhookEvents}
    && LinksAfter007(db[BridgeLinks], db'[FincraLinks])
    && RoutesAfter007(db[DepositRoutes], db'[DepositRoutes])
    && EventsAfter007(db[BridgeWebhookEvents], db'[WebhookEvents])
    && forall t | t in db && t !in {BridgeLinks, DepositRoutes, BridgeWebhookEvents} :: db'[t] == db[t]
  }

  /** What the two renames and three additions do to one map over the columns. */
  function Moved<V>(m: map<Column, V>, blank: V): map<Column, V> {
    RenameKey(RenameKey(m, BRIDGE_CUSTOMER_ID, FINCRA_CUSTOMER_ID), BRIDGE_KYC_LINK_ID, FINCRA_VIRTUAL_ACCOUNT_ID)
      [ACCOUNT_NUMBER := blank][ACCOUNT_NAME := blank][BANK_NAME := blank]
  }

  lemma MovedIs<V>(m: map<Column, V>, blank: V)
    requires m.Keys == {USER_ID, BRIDGE_CUSTOMER_ID, BRIDGE_KYC_LINK_ID, CREATED_AT, UPDATED_AT}
    ensures Moved(m, blank) == map[
      USER_ID := m[USER_ID], FINCRA_CUSTOMER_ID := m[BRIDGE_CUSTOMER_ID],
      FINCRA_VIRTUAL_ACCOUNT_ID := m[BRIDGE_KYC_LINK_ID], CREATED_AT := m[CREATED_AT],
      UPDATED_AT := m[UPDATED_AT], ACCOUNT_NUMBER := blank, ACCOUNT_NAME := blank, BANK_NAME := blank]
  {
  }

  lemma LinksAre(t: Table)
    ensures var t' := WithBankColumns(RenamedLinks(t));
      && t'.columns == Moved(t.columns, BLANK) && t'.constraints == RenamedLinks(t).constraints
      && t'.indexes == RenamedLinks(t).indexes && t'.rows.Keys == t.rows.Keys
      && forall r | r in t.rows :: t'.rows[r] == Moved(t.rows[r], Text(""))
  {
    hide RenameKey, RenameIn;
  }

  lemma LinkRowMoved(row: Row)
    requires row.Keys == {USER_ID, BRIDGE_CUSTOMER_ID, BRIDGE_KYC_LINK_ID, CREATED_AT, UPDATED_AT}
    ensures LinkRow(row, Moved(row, Text("")))
  {
    MovedIs(row, Text(""));
    hide Moved;
  }

  lemma LinksMigrated(t: Table)
    requires Holds(t, LINKS)
    ensures LinksAfter007(t, WithBankColumns(RenamedLinks(t)))
  {
    assert t.columns == LINKS.columns && t.constraints == LINKS.constraints && t.indexes == map[];
    assert t.columns.Keys == {USER_ID, BRIDGE_CUSTOMER_ID, BRIDGE_KYC_LINK_ID, CREATED_AT, UPDATED_AT};
    LinksAre(t);
    LinkConstraints(t);
    MovedIs(t.columns, BLANK);
    hide Moved, WithBankColumns, RenamedLinks, LinkRow;
    forall r | r in t.rows ensures LinkRow(t.rows[r], WithBankColumns(RenamedLinks(t)).rows[r]) {
      LinkRowMoved(t.rows[r]);
    }
  }

  lemma LinkConstraints(t: Table)
    requires t.constraints == LINKS.constraints
    ensures RenamedLinks(t).constraints == t.constraints
    ensures t.indexes == map[] ==> RenamedLinks(t).indexes == map[]
  {
  }

  lemma RoutesMigrated(t: Table)
    requires Holds(t, ROUTES) && t.rows == map[]
    ensures RoutesAfter007(t, RoutesAfter(t))
  {
    hide ROUTES;
  }

  lemma EventsMigrated(t: Table)
    ensures EventsAfter007(t, EventsAfter(t))
  {
  }

  lemma PartsMigrated(db: Db)
    requires From002(db)
    requires LinksAfter007(db[BridgeLinks], WithBankColumns(RenamedLinks(db[BridgeLinks])))
    requires RoutesAfter007(db[DepositRoutes], RoutesAfter(db[DepositRoutes]))
    requires EventsAfter007(db[BridgeWebhookEvents], EventsAfter(db[BridgeWebhookEvents]))
    ensures Migrated(db, After007(db))
  {
    hide LinksAfter007, RoutesAfter007, EventsAfter007, Holds, After007, OnlyIn, HasIndex;
    After007Tables(db);
    hide WithBankColumns, RenamedLinks, RoutesAfter, EventsAfter;
  }

  lemma After007Tables(db: Db)
    requires BridgeLinks in db && DepositRoutes in db && BridgeWebhookEvents in db
    requires FincraLinks !in db && WebhookEvents !in db
    ensures var db' := After007(db);
      && db'.Keys == db.Keys - {BridgeLinks, BridgeWebhookEvents} + {FincraLinks, WebhookEvents}
      && db'[FincraLinks] == WithBankColumns(RenamedLinks(db[BridgeLinks]))
      && db'[DepositRoutes] == RoutesAfter(db[DepositRoutes])
      && db'[WebhookEvents] == EventsAfter(db[BridgeWebhookEvents])
      && forall t | t in db && t !in {BridgeLinks, DepositRoutes, BridgeWebhookEvents} :: db'[t] == db[t]
  {
    hide WithBankColumns, RenamedLinks, RoutesAfter, EventsAfter;
  }

  /** What 007 makes of the tables of 002 when there is no route. */
  lemma Up007(db: Db)
    requires From002(db) && db[DepositRoutes].rows == map[]
    ensures Exec(db, Up()).Some? && Migrated(db, Exec(db, Up()).value)
  {
    ReadyAfter002(db);
    assert Holds(db[DepositRoutes], ROUTES) && RouteChecks(db[DepositRoutes]) && Holds(db[BridgeLinks], LINKS);
    hide *;
    RoutesUp(db[DepositRoutes]);
    UpInDb(db);
    LinksMigrated(db[BridgeLinks]);
    RoutesMigrated(db[DepositRoutes]);
    EventsMigrated(db[BridgeWebhookEvents]);
    PartsMigrated(db);
  }

  /** 007 in its transaction and, if it went through, 008 in its own: the tables end as
      they were in either case. */
  method RunBoth(conn: Database) returns (ok: bool)
    requires From002(conn.tables)
    modifies conn
    ensures conn.tables == old(conn.tables)
    ensures ok <==> old(conn.tables)[DepositRoutes].rows == map[]
  {
    DoThenUndo(conn.tables);
    ok := conn.RunInTransaction(Up());
    if ok {
      ok := conn.RunInTransaction(Down());
    }
  }
}
