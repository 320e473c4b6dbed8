/** The on-device SQLite database: the tables the stores read and write, the statements they
    issue, and the two ways those statements are run (one by one, or inside a transaction).
    Tables are finite maps keyed by their primary key, so a key has at most one row. */
module Database {
  import opened Common

  datatype SyncStatus = Synced | Pending | Failed

  /** A row of `products`; the key of the map is the `id` column. `name` and `price` are
      NOT NULL, `updated_at` and `sync_status` may be NULL. */
  datatype ProductRow = ProductRow(name: string, price: int, updatedAt: Option<string>,
                                   syncStatus: Option<SyncStatus>)

  /** A row of `inventory_cache`; the key of the map is `product_id`. `stock` is NOT NULL. */
  datatype StockRow = StockRow(stock: int, updatedAt: Option<string>)

  /** The tables the stores touch: `products`, `inventory_cache` and `local_meta`. */
  datatype Db = Db(products: map<string, ProductRow>, inventory: map<string, StockRow>,
                   meta: map<string, string>)

  const EmptyDb := Db(map[], map[], map[])

  datatype DbError = ConstraintViolation | IoError

  datatype Result<T> = Ok(value: T) | Err(error: DbError)

  /** The SQL statements the stores issue. */
  datatype Stmt =
      /** A plain insert of a product row. */
    | InsertProductRow(id: string, row: ProductRow)
      /** A plain insert of a stock row. */
    | InsertStockRow(id: string, stockRow: StockRow)
      /** The edit of an existing product: the given fields, a timestamp, pending sync. */
    | UpdateProductRow(id: string, name: Option<string>, price: Option<int>, now: string)
      /** An insert-or-replace of a stock row. */
    | ReplaceStockRow(id: string, stockRow: StockRow)
      /** Deletion of a product's stock row. */
    | DeleteStockRow(id: string)
      /** Deletion of a product row. */
    | DeleteProductRow(id: string)
      /** An insert-or-replace of a `local_meta` entry. */
    | ReplaceMetaRow(key: string, value: string)

  /** One statement. A plain INSERT on a key that already has a row violates the primary
      key; every other statement succeeds (an UPDATE or DELETE matching no row changes
      nothing). */
  function Exec(db: Db, s: Stmt): (r: Result<Db>)
    ensures r.Err? <==> (s.InsertProductRow? && s.id in db.products)
                        || (s.InsertStockRow? && s.id in db.inventory)
    ensures r.Err? ==> r.error == ConstraintViolation
  {
    match s
    case InsertProductRow(id, row) =>
      if id in db.products then Err(ConstraintViolation)
      else Ok(db.(products := db.products[id := row]))
    case InsertStockRow(id, row) =>
      if id in db.inventory then Err(ConstraintViolation)
      else Ok(db.(inventory := db.inventory[id := row]))
    case UpdateProductRow(id, name, price, now) =>
      if id !in db.products then Ok(db)
      else
        var cur := db.products[id];
        Ok(db.(products := db.products[id := ProductRow(name.GetOr(cur.name), price.GetOr(cur.price),
                                                         Some(now), Some(Pending))]))
    case ReplaceStockRow(id, row) => Ok(db.(inventory := db.inventory[id := row]))
    case DeleteStockRow(id) => Ok(db.(inventory := db.inventory - {id}))
    case DeleteProductRow(id) => Ok(db.(products := db.products - {id}))
    case ReplaceMetaRow(key, value) => Ok(db.(meta := db.meta[key := value]))
  }

  /** What running a list of statements leaves behind: the database and the error, if any,
      that stopped the run. */
  datatype Run = Run(db: Db, error: Option<DbError>)

  /** The fault schedule seen by the rest of a run once its first statement has executed. */
  function Later(fault: Option<nat>): Option<nat>
  {
    if fault.Some? && fault.value > 0 then Some(fault.value - 1) else None
  }

  /** Statements run one after another outside a transaction (`runAsync` in sequence):
      the first failure stops the run and every earlier write stays. `fault == Some(k)`
      makes the `k`-th statement fail with an I/O error. */
  function RunAutocommit(db: Db, stmts: seq<Stmt>, fault: Option<nat>): (r: Run)
    ensures r.error == Some(IoError) ==> fault.Some? && fault.value < |stmts|
    ensures fault.None? ==> r.error.None? || r.error == Some(ConstraintViolation)
    ensures fault.Some? && fault.value < |stmts| ==> r.error.Some?
    decreases |stmts|
  {
    if |stmts| == 0 then Run(db, None)
    else if fault == Some(0) then Run(db, Some(IoError))
    else match Exec(db, stmts[0])
      case Err(e) => Run(db, Some(e))
      case Ok(next) => RunAutocommit(next, stmts[1..], Later(fault))
  }

  /** Statements run inside `withTransactionAsync`: all of them take effect or, on the first
      failure, none does (the error is returned and the caller keeps its database). */
  function RunTransaction(db: Db, stmts: seq<Stmt>, fault: Option<nat>): (r: Result<Db>)
    ensures r.Ok? <==> RunAutocommit(db, stmts, fault).error.None?
    ensures r.Ok? ==> r.value == RunAutocommit(db, stmts, None).db
  {
    var run := RunAutocommit(db, stmts, fault);
    FaultFreeRun(db, stmts, fault);
    if run.error.None? then Ok(run.db) else Err(run.error.value)
  }

  /** The database a store continues with after a transaction: the committed one, or the
      unchanged one after a rollback. */
  function After(db: Db, r: Result<Db>): (d: Db)
    ensures r.Err? ==> d == db
    ensures r.Ok? ==> d == r.value
  {
    if r.Ok? then r.value else db
  }

  /** A run that no error stopped ends where the fault-free run ends. */
  lemma {:induction false} FaultFreeRun(db: Db, stmts: seq<Stmt>, fault: Option<nat>)
    ensures RunAutocommit(db, stmts, fault).error.None? ==>
              RunAutocommit(db, stmts, fault).db == RunAutocommit(db, stmts, None).db
    decreases |stmts|
  {
    if |stmts| > 0 && fault != Some(0) && Exec(db, stmts[0]).Ok? {
      FaultFreeRun(Exec(db, stmts[0]).value, stmts[1..], Later(fault));
    }
  }

  /** A transaction of one statement commits iff no fault hits it and it succeeds. */
  lemma TransactionOfOne(db: Db, a: Stmt, fault: Option<nat>)
    ensures RunTransaction(db, [a], fault).Ok? <==> fault != Some(0) && Exec(db, a).Ok?
    ensures RunTransaction(db, [a], fault).Ok? ==> RunTransaction(db, [a], fault).value == Exec(db, a).value
  {
    assert [a][1..] == [];
    if Exec(db, a).Ok? {
      var d := Exec(db, a).value;
      assert RunAutocommit(db, [a], None) == RunAutocommit(d, [], None) == Run(d, None);
      if fault != Some(0) {
        assert RunAutocommit(db, [a], fault) == RunAutocommit(d, [], Later(fault)) == Run(d, None);
      }
    }
  }

  /** A transaction of two statements commits iff no fault hits either and both succeed,
      the second on the result of the first. */
  lemma TransactionOfTwo(db: Db, a: Stmt, b: Stmt, fault: Option<nat>)
    ensures RunTransaction(db, [a, b], fault).Ok? <==>
              && fault != Some(0) && fault != Some(1)
              && Exec(db, a).Ok? && Exec(Exec(db, a).value, b).Ok?
    ensures RunTransaction(db, [a, b], fault).Ok? ==>
              RunTransaction(db, [a, b], fault).value == Exec(Exec(db, a).value, b).value
  {
    assert [a, b][1..] == [b];
    assert [b][1..] == [];
    if Exec(db, a).Ok? {
      var d := Exec(db, a).value;
      assert RunAutocommit(db, [a, b], None) == RunAutocommit(d, [b], None);
      if fault != Some(0) {
        assert RunAutocommit(db, [a, b], fault) == RunAutocommit(d, [b], Later(fault));
      }
      if Exec(d, b).Ok? {
        var e := Exec(d, b).value;
        assert RunAutocommit(d, [b], None) == RunAutocommit(e, [], None) == Run(e, None);
        if fault != Some(0) && fault != Some(1) {
          assert Later(fault) != Some(0);
          assert RunAutocommit(d, [b], Later(fault)) == RunAutocommit(e, [], Later(Later(fault)));
        }
      }
    }
  }

  /** The two lemmas above, for a statement list of at most two statements. */
  lemma TransactionOfAtMostTwo(db: Db, stmts: seq<Stmt>, fault: Option<nat>)
    requires |stmts| <= 2
    ensures |stmts| == 0 ==> RunTransaction(db, stmts, fault) == Ok(db)
    ensures |stmts| == 1 ==>
              && (RunTransaction(db, stmts, fault).Ok? <==> fault != Some(0) && Exec(db, stmts[0]).Ok?)
              && (RunTransaction(db, stmts, fault).Ok? ==>
                    RunTransaction(db, stmts, fault).value == Exec(db, stmts[0]).value)
    ensures |stmts| == 2 ==>
              && (RunTransaction(db, stmts, fault).Ok? <==>
                    && fault != Some(0) && fault != Some(1)
                    && Exec(db, stmts[0]).Ok? && Exec(Exec(db, stmts[0]).value, stmts[1]).Ok?)
              && (RunTransaction(db, stmts, fault).Ok? ==>
                    RunTransaction(db, stmts, fault).value == Exec(Exec(db, stmts[0]).value, stmts[1]).value)
  {
    if |stmts| == 2 {
      assert stmts == [stmts[0], stmts[1]];
      TransactionOfTwo(db, stmts[0], stmts[1], fault);
    } else if |stmts| == 1 {
      assert stmts == [stmts[0]];
      TransactionOfOne(db, stmts[0], fault);
    }
  }

  /** An I/O fault on any statement of a transaction rolls the whole transaction back. */
  lemma {:induction false} FaultAbortsTransaction(db: Db, stmts: seq<Stmt>, k: nat)
    requires k < |stmts|
    ensures RunTransaction(db, stmts, Some(k)).Err?
    decreases |stmts|
  {
    if k > 0 && Exec(db, stmts[0]).Ok? {
      FaultAbortsTransaction(Exec(db, stmts[0]).value, stmts[1..], k - 1);
    }
  }

  /** Outside a transaction, an I/O fault on statement `k` leaves exactly the writes of the
      statements before it (when none of those failed on its own). */
  lemma {:induction false} AutocommitKeepsPrefix(db: Db, stmts: seq<Stmt>, k: nat)
    requires k < |stmts|
    requires RunAutocommit(db, stmts[..k], None).error.None?
    ensures RunAutocommit(db, stmts, Some(k)) == Run(RunAutocommit(db, stmts[..k], None).db, Some(IoError))
    decreases k
  {
    if k > 0 {
      assert stmts[..k][0] == stmts[0];
      assert stmts[..k][1..] == stmts[1..][..k - 1];
      AutocommitKeepsPrefix(Exec(db, stmts[0]).value, stmts[1..], k - 1);
    }
  }

  // ----- the declared schema (initDatabase) -----

  datatype SqlType = TextType | RealType | IntegerType

  datatype Column = Column(name: string, sqlType: SqlType, notNull: bool)

  /** `FOREIGN KEY (column) REFERENCES parent (...)`, with or without `ON DELETE CASCADE`. */
  datatype ForeignKey = ForeignKey(column: string, parent: string, cascadeOnDelete: bool)

  datatype Table = Table(name: string, primaryKey: string, columns: seq<Column>,
                         foreignKeys: seq<ForeignKey>)

  /** The tables `initDatabase` creates, in the order it creates them. */
  const Schema: seq<Table> := [
    Table("local_meta", "key",
          [Column("key", TextType, false), Column("value", TextType, false)], []),
    Table("products", "id",
          [Column("id", TextType, false), Column("name", TextType, true),
           Column("price", RealType, true), Column("updated_at", TextType, false),
           Column("sync_status", TextType, false)], []),
    Table("inventory_cache", "product_id",
          [Column("product_id", TextType, false), Column("stock", IntegerType, true),
           Column("updated_at", TextType, false)], []),
    Table("customers_cache", "id",
          [Column("id", TextType, false), Column("name", TextType, true),
           Column("phone", TextType, false), Column("updated_at", TextType, false)], []),
    Table("cart_draft", "id",
          [Column("id", TextType, false), Column("created_at", TextType, true)], []),
    Table("cart_items", "id",
          [Column("id", TextType, false), Column("cart_id", TextType, true),
           Column("product_id", TextType, true), Column("qty", IntegerType, true),
           Column("price", RealType, true)],
          [ForeignKey("cart_id", "cart_draft", true), ForeignKey("product_id", "products", false)]),
    Table("transactions_local", "id",
          [Column("id", TextType, false), Column("subtotal", RealType, true),
           Column("tax", RealType, true), Column("discount", RealType, true),
           Column("total", RealType, true), Column("status", TextType, true),
           Column("created_at", TextType, true), Column("sync_status", TextType, true),
           Column("server_id", TextType, false)], []),
    Table("transaction_items_local", "id",
          [Column("id", TextType, false), Column("transaction_id", TextType, true),
           Column("product_id", TextType, true), Column("qty", IntegerType, true),
           Column("price", RealType, true)],
          [ForeignKey("transaction_id", "transactions_local", true),
           ForeignKey("product_id", "products", false)]),
    Table("payment_attempts_local", "id",
          [Column("id", TextType, false), Column("transaction_id", TextType, true),
           Column("method", TextType, true), Column("status", TextType, true),
           Column("provider_ref", TextType, false), Column("sync_status", TextType, false)],
          [ForeignKey("transaction_id", "transactions_local", true)])
  ]

  /** The tables present in the database file, by name. */
  type Catalog = map<string, Table>

  /** `CREATE TABLE IF NOT EXISTS` for each table in turn: an existing table is left as it is. */
  function CreateAll(catalog: Catalog, tables: seq<Table>): Catalog
    decreases |tables|
  {
    if |tables| == 0 then catalog
    else
      var t := tables[0];
      CreateAll(if t.name in catalog then catalog else catalog[t.name := t], tables[1..])
  }

  /** `initDatabase`: afterwards every schema table exists, and tables that already existed
      are untouched. */
  function InitDatabase(catalog: Catalog): (r: Catalog)
    ensures forall i :: 0 <= i < |Schema| ==> Schema[i].name in r
    ensures forall n :: n in catalog ==> n in r && r[n] == catalog[n]
  {
    CreateAllFacts(catalog, Schema);
    CreateAll(catalog, Schema)
  }

  lemma {:induction false} CreateAllFacts(catalog: Catalog, tables: seq<Table>)
    ensures forall i :: 0 <= i < |tables| ==> tables[i].name in CreateAll(catalog, tables)
    ensures forall n :: n in catalog ==>
              (n in CreateAll(catalog, tables) && CreateAll(catalog, tables)[n] == catalog[n])
    decreases |tables|
  {
    if |tables| > 0 {
      var t := tables[0];
      var next := if t.name in catalog then catalog else catalog[t.name := t];
      CreateAllFacts(next, tables[1..]);
      forall i | 0 <= i < |tables|
        ensures tables[i].name in CreateAll(catalog, tables)
      {
        if i > 0 {
          assert tables[i] == tables[1..][i - 1];
        }
      }
    }
  }

  lemma {:induction false} CreateAllNoop(catalog: Catalog, tables: seq<Table>)
    requires forall i :: 0 <= i < |tables| ==> tables[i].name in catalog
    ensures CreateAll(catalog, tables) == catalog
    decreases |tables|
  {
    if |tables| > 0 {
      CreateAllNoop(catalog, tables[1..]);
    }
  }

  /** Running `initDatabase` on every launch is safe: a second run changes nothing. */
  lemma InitDatabaseIdempotent(catalog: Catalog)
    ensures InitDatabase(InitDatabase(catalog)) == InitDatabase(catalog)
  {
    CreateAllNoop(InitDatabase(catalog), Schema);
  }

  /** The tables among `tables` whose rows a deletion from `parent` is declared to cascade to. */
  function CascadeChildren(tables: seq<Table>, parent: string): set<string>
    decreases |tables|
  {
    if |tables| == 0 then {}
    else
      (if CascadesFrom(tables[0].foreignKeys, parent) then {tables[0].name} else {})
      + CascadeChildren(tables[1..], parent)
  }

  /** Some key of `fks` references `parent` with `ON DELETE CASCADE`. */
  predicate CascadesFrom(fks: seq<ForeignKey>, parent: string)
    decreases |fks|
  {
    |fks| > 0 && ((fks[0].parent == parent && fks[0].cascadeOnDelete) || CascadesFrom(fks[1..], parent))
  }

  /** The schema table called `name`, if any. */
  function TableNamed(tables: seq<Table>, name: string): Option<Table>
    decreases |tables|
  {
    if |tables| == 0 then None
    else if tables[0].name == name then Some(tables[0])
    else TableNamed(tables[1..], name)
  }

  /** Column `column` of `table` is declared NOT NULL. */
  predicate NotNull(table: string, column: string)
  {
    var t := TableNamed(Schema, table);
    t.Some? && exists j :: 0 <= j < |t.value.columns| && t.value.columns[j].name == column
                           && t.value.columns[j].notNull
  }

  /** The declared cascades: cart items go with their draft; transaction items and payment
      attempts go with their transaction; nothing cascades from `products`. These are
      declarations only: the file never enables `PRAGMA foreign_keys`. */
  lemma DeclaredCascades()
    ensures CascadeChildren(Schema, "cart_draft") == {"cart_items"}
    ensures CascadeChildren(Schema, "transactions_local")
              == {"transaction_items_local", "payment_attempts_local"}
    ensures CascadeChildren(Schema, "products") == {}
  {
    assert CascadeChildren(Schema[9..], "cart_draft") == {};
    assert CascadeChildren(Schema[8..], "cart_draft") == {};
    assert CascadeChildren(Schema[7..], "cart_draft") == {};
    assert CascadeChildren(Schema[6..], "cart_draft") == {};
    assert CascadeChildren(Schema[5..], "cart_draft") == {"cart_items"};
    assert CascadeChildren(Schema[4..], "cart_draft") == {"cart_items"};
    assert CascadeChildren(Schema[3..], "cart_draft") == {"cart_items"};
    assert CascadeChildren(Schema[2..], "cart_draft") == {"cart_items"};
    assert CascadeChildren(Schema[1..], "cart_draft") == {"cart_items"};
  }

  /** `inventory_cache` declares no foreign key, so a stock row may exist without a product. */
  lemma StockHasNoForeignKey()
    ensures TableNamed(Schema, "inventory_cache").Some?
    ensures TableNamed(Schema, "inventory_cache").value.foreignKeys == []
    ensures TableNamed(Schema, "inventory_cache").value.primaryKey == "product_id"
  {
  }

  /** The NOT NULL columns the stores' writes rely on. */
  lemma DeclaredNotNull()
    ensures NotNull("products", "name") && NotNull("products", "price")
    ensures NotNull("inventory_cache", "stock")
    ensures NotNull("cart_items", "qty") && NotNull("cart_items", "price")
    ensures !NotNull("products", "sync_status")
  {
    assert TableNamed(Schema, "products") == Some(Schema[1]);
    assert Schema[1].columns[1].name == "name";
    assert Schema[1].columns[2].name == "price";
    assert TableNamed(Schema, "inventory_cache") == Some(Schema[2]);
    assert Schema[2].columns[1].name == "stock";
    assert TableNamed(Schema, "cart_items") == Some(Schema[5]);
    assert Schema[5].columns[3].name == "qty";
    assert Schema[5].columns[4].name == "price";
  }
}
