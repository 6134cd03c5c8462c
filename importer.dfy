/**
 * The CSV import: each row is applied to the tables by a fixed sequence of
 * get-or-create upserts (customer, product group, product, order) and an
 * accumulating upsert of the order line. Rows are applied in file order and
 * the first malformed timestamp or quantity stops the import, leaving every
 * upsert made before it in place.
 */
module Importer {
  import opened Wrappers
  import opened Domain

  /**
   * The text parsers the importer relies on: integer parsing (`int`) and
   * timestamp parsing with the format `YYYY-MM-DD HH:MM:SS`. None means the
   * text is rejected.
   */
  datatype Parsers = Parsers(toInt: string -> Option<int>, toTime: string -> Option<Timestamp>)

  datatype ImportError = MalformedTimestamp(text: string) | MalformedQuantity(text: string)

  /** The tables after a row or a run of rows, and the error that stopped it, if any. */
  datatype StepResult = StepResult(tables: Tables, error: Option<ImportError>)

  /** Get-or-create: the entry for `k` is created from `v` only when there is none. */
  function GetOrCreate<K, V>(m: map<K, V>, k: K, v: V): (r: map<K, V>)
    ensures r.Keys == m.Keys + {k}
    ensures forall j :: j in m ==> r[j] == m[j]
    ensures k !in m ==> r[k] == v
  {
    if k in m then m else m[k := v]
  }

  /** The quantity recorded for `k`, zero when there is no such order line. */
  function QuantityOf(d: map<DetailKey, int>, k: DetailKey): int {
    if k in d then d[k] else 0
  }

  /** Create-or-accumulate of an order line. */
  function AddQuantity(d: map<DetailKey, int>, k: DetailKey, q: int): (r: map<DetailKey, int>)
    ensures r.Keys == d.Keys + {k}
    ensures r[k] == QuantityOf(d, k) + q
    ensures forall j :: j in d && j != k ==> r[j] == d[j]
  {
    if k in d then d[k := d[k] + q] else d[k := q]
  }

  /** A blank customer name is stored as no name. */
  function NameOrNone(name: string): Option<string> {
    if name == "" then None else Some(name)
  }

  /** A missing or unparsable unit price is 0. */
  function UnitPrice(row: Row, p: Parsers): (price: int)
    ensures row.unitPrice.None? ==> price == 0
    ensures row.unitPrice.Some? && p.toInt(row.unitPrice.value).None? ==> price == 0
    ensures row.unitPrice.Some? && p.toInt(row.unitPrice.value).Some? ==>
              price == p.toInt(row.unitPrice.value).value
  {
    match row.unitPrice
    case None => 0
    case Some(text) =>
      match p.toInt(text)
      case None => 0
      case Some(n) => n
  }

  function NewCustomer(row: Row): Customer {
    Customer(NameOrNone(row.customerName), row.segmentCode)
  }

  function NewProduct(row: Row, p: Parsers): Product {
    Product(row.productName, row.groupCode, UnitPrice(row, p))
  }

  function LineKey(row: Row): DetailKey {
    (row.orderCode, row.productCode)
  }

  /** A row imports without error exactly when its timestamp and quantity parse. */
  predicate WellFormed(row: Row, p: Parsers) {
    p.toTime(row.orderTime).Some? && p.toInt(row.quantity).Some?
  }

  /** The first three upserts of a row, which every row performs. */
  function UpsertEntities(t: Tables, row: Row, p: Parsers): (u: Tables)
    ensures u.orders == t.orders && u.details == t.details
  {
    t.(customers := GetOrCreate(t.customers, row.customerCode, NewCustomer(row)),
       groups := GetOrCreate(t.groups, row.groupCode, ProductGroup(row.groupName)),
       products := GetOrCreate(t.products, row.productCode, NewProduct(row, p)))
  }

  /** The effect of importing one row. */
  function Step(t: Tables, row: Row, p: Parsers): StepResult {
    var t1 := UpsertEntities(t, row, p);
    match p.toTime(row.orderTime)
    case None => StepResult(t1, Some(MalformedTimestamp(row.orderTime)))
    case Some(time) =>
      var t2 := t1.(orders := GetOrCreate(t.orders, row.orderCode, Order(row.customerCode, time)));
      match p.toInt(row.quantity)
      case None => StepResult(t2, Some(MalformedQuantity(row.quantity)))
      case Some(q) => StepResult(t2.(details := AddQuantity(t.details, LineKey(row), q)), None)
  }

  /** Importing rows in order, stopping at the first failing row. */
  function ApplyAll(t: Tables, rows: seq<Row>, p: Parsers): StepResult
    decreases |rows|
  {
    if rows == [] then StepResult(t, None)
    else
      var s := Step(t, rows[0], p);
      if s.error.Some? then s else ApplyAll(s.tables, rows[1..], p)
  }

  /** Every entity of `t` is still in `u` with the same value, and every order line still exists. */
  ghost predicate Extends(t: Tables, u: Tables) {
    && (forall c :: c in t.customers ==> c in u.customers && u.customers[c] == t.customers[c])
    && (forall c :: c in t.groups ==> c in u.groups && u.groups[c] == t.groups[c])
    && (forall c :: c in t.products ==> c in u.products && u.products[c] == t.products[c])
    && (forall c :: c in t.orders ==> c in u.orders && u.orders[c] == t.orders[c])
    && t.details.Keys <= u.details.Keys
  }

  // ---------------------------------------------------------------------
  // One row
  // ---------------------------------------------------------------------

  /**
   * The customer, group and product of a row are looked up or created
   * whatever happens later in the row; an existing one is never changed and a
   * new one is built from the row (a blank name as no name, a bad price as 0).
   */
  lemma StepUpsertsEntities(t: Tables, row: Row, p: Parsers)
    ensures var u := Step(t, row, p).tables;
      && u.customers[row.customerCode]
           == (if row.customerCode in t.customers then t.customers[row.customerCode]
               else Customer(NameOrNone(row.customerName), row.segmentCode))
      && u.groups[row.groupCode]
           == (if row.groupCode in t.groups then t.groups[row.groupCode]
               else ProductGroup(row.groupName))
      && u.products[row.productCode]
           == (if row.productCode in t.products then t.products[row.productCode]
               else Product(row.productName, row.groupCode, UnitPrice(row, p)))
      && u.customers.Keys == t.customers.Keys + {row.customerCode}
      && u.groups.Keys == t.groups.Keys + {row.groupCode}
      && u.products.Keys == t.products.Keys + {row.productCode}
      && Extends(t, u)
  {
    var u1 := UpsertEntities(t, row, p);
    assert Extends(t, u1);
    var u := Step(t, row, p).tables;
    assert u.customers == u1.customers && u.groups == u1.groups && u.products == u1.products;
    assert forall c :: c in t.orders ==> c in u.orders && u.orders[c] == t.orders[c];
  }

  /** A bad unit price never fails a row: the row's outcome does not depend on it. */
  lemma PriceNeverFails(t: Tables, row: Row, p: Parsers, other: Option<string>)
    ensures Step(t, row, p).error == Step(t, row.(unitPrice := other), p).error
    ensures (row.unitPrice.None? || p.toInt(row.unitPrice.value).None?) && row.productCode !in t.products
            ==> Step(t, row, p).tables.products[row.productCode].unitPrice == 0
  {
  }

  /**
   * The possible outcomes of a row: success exactly when it is well formed;
   * a timestamp failure stops before the order and the order line; a
   * quantity failure stops after the order but before the order line.
   */
  lemma StepOutcome(t: Tables, row: Row, p: Parsers)
    ensures var s := Step(t, row, p);
      && (s.error.None? <==> WellFormed(row, p))
      && (p.toTime(row.orderTime).None? ==>
            s.error == Some(MalformedTimestamp(row.orderTime))
            && s.tables.orders == t.orders && s.tables.details == t.details)
      && (p.toTime(row.orderTime).Some? && p.toInt(row.quantity).None? ==>
            s.error == Some(MalformedQuantity(row.quantity))
            && row.orderCode in s.tables.orders && s.tables.details == t.details)
  {
  }

  /**
   * After a well-formed row the order line (order, product) holds the old
   * quantity plus the row's, and no other order line changes.
   */
  lemma StepAccumulates(t: Tables, row: Row, p: Parsers)
    requires WellFormed(row, p)
    ensures var d := Step(t, row, p).tables.details;
      && d.Keys == t.details.Keys + {LineKey(row)}
      && d[LineKey(row)] == QuantityOf(t.details, LineKey(row)) + p.toInt(row.quantity).value
      && (forall k :: k in t.details && k != LineKey(row) ==> d[k] == t.details[k])
      && Step(t, row, p).tables.orders[row.orderCode]
           == (if row.orderCode in t.orders then t.orders[row.orderCode]
               else Order(row.customerCode, p.toTime(row.orderTime).value))
  {
  }

  /** A row keeps the references between entities intact, even when it fails part way. */
  lemma StepConsistent(t: Tables, row: Row, p: Parsers)
    requires Consistent(t)
    ensures Consistent(Step(t, row, p).tables)
  {
    var u1 := UpsertEntities(t, row, p);
    assert Consistent(u1);
    match p.toTime(row.orderTime)
    case None =>
    case Some(time) =>
      var u2 := u1.(orders := GetOrCreate(t.orders, row.orderCode, Order(row.customerCode, time)));
      assert Consistent(u2);
  }

  // ---------------------------------------------------------------------
  // A run of rows
  // ---------------------------------------------------------------------

  lemma ExtendsTransitive(t: Tables, u: Tables, v: Tables)
    requires Extends(t, u) && Extends(u, v)
    ensures Extends(t, v)
  {
  }

  /** An import never overwrites an existing customer, group, product or order. */
  lemma {:induction false} ImportNeverOverwrites(t: Tables, rows: seq<Row>, p: Parsers)
    ensures Extends(t, ApplyAll(t, rows, p).tables)
    decreases |rows|
  {
    if rows != [] {
      var s := Step(t, rows[0], p);
      StepUpsertsEntities(t, rows[0], p);
      if s.error.None? {
        ImportNeverOverwrites(s.tables, rows[1..], p);
        ExtendsTransitive(t, s.tables, ApplyAll(s.tables, rows[1..], p).tables);
      }
    }
  }

  /** An import keeps the references between entities intact. */
  lemma {:induction false} ImportConsistent(t: Tables, rows: seq<Row>, p: Parsers)
    requires Consistent(t)
    ensures Consistent(ApplyAll(t, rows, p).tables)
    decreases |rows|
  {
    if rows != [] {
      StepConsistent(t, rows[0], p);
      var s := Step(t, rows[0], p);
      if s.error.None? {
        ImportConsistent(s.tables, rows[1..], p);
      }
    }
  }

  /** An import succeeds exactly when every row is well formed. */
  lemma {:induction false} ImportSucceedsIff(t: Tables, rows: seq<Row>, p: Parsers)
    ensures ApplyAll(t, rows, p).error.None? <==> forall i :: 0 <= i < |rows| ==> WellFormed(rows[i], p)
    decreases |rows|
  {
    if rows != [] {
      StepOutcome(t, rows[0], p);
      if WellFormed(rows[0], p) {
        ImportCons(t, rows, p);
        ImportSucceedsIff(Step(t, rows[0], p).tables, rows[1..], p);
        assert forall i :: 1 <= i < |rows| ==> rows[i] == rows[1..][i - 1];
      }
    }
  }

  /** Importing `a + b` is importing `a` and then, if that succeeded, `b`. */
  lemma {:induction false} ImportAppend(t: Tables, a: seq<Row>, b: seq<Row>, p: Parsers)
    ensures ApplyAll(t, a + b, p)
            == (var s := ApplyAll(t, a, p); if s.error.Some? then s else ApplyAll(s.tables, b, p))
    decreases |a|
  {
    if a != [] {
      assert (a + b)[0] == a[0] && (a + b)[1..] == a[1..] + b;
      var s := Step(t, a[0], p);
      if s.error.None? {
        ImportAppend(s.tables, a[1..], b, p);
      }
    } else {
      assert a + b == b;
    }
  }

  /**
   * When row `n` is the first malformed one, the import fails with that
   * row's error: rows before it stay applied, the row's customer, group and
   * product are in place, and a bad timestamp leaves its order and order line
   * uncreated.
   */
  lemma FirstFailureStops(t: Tables, rows: seq<Row>, p: Parsers, n: nat)
    requires n < |rows| && !WellFormed(rows[n], p)
    requires forall i :: 0 <= i < n ==> WellFormed(rows[i], p)
    ensures var before := ApplyAll(t, rows[..n], p);
      var s := ApplyAll(t, rows, p);
      && before.error.None?
      && s == Step(before.tables, rows[n], p)
      && s.error.Some?
      && rows[n].customerCode in s.tables.customers
      && rows[n].groupCode in s.tables.groups
      && rows[n].productCode in s.tables.products
      && (p.toTime(rows[n].orderTime).None? ==>
            s.error == Some(MalformedTimestamp(rows[n].orderTime))
            && s.tables.orders == before.tables.orders
            && s.tables.details == before.tables.details)
  {
    var before := ApplyAll(t, rows[..n], p);
    ImportSucceedsIff(t, rows[..n], p);
    assert rows == rows[..n] + rows[n..];
    ImportAppend(t, rows[..n], rows[n..], p);
    StepOutcome(before.tables, rows[n], p);
  }

  // ---------------------------------------------------------------------
  // Importing the same rows twice
  // ---------------------------------------------------------------------

  /** The summed quantity of the rows of order line `k`. */
  function RowQuantity(rows: seq<Row>, p: Parsers, k: DetailKey): int
    requires forall i :: 0 <= i < |rows| ==> WellFormed(rows[i], p)
  {
    if rows == [] then 0
    else (if LineKey(rows[0]) == k then Quantity(rows[0], p) else 0)
         + RowQuantity(rows[1..], p, k)
  }

  function Quantity(row: Row, p: Parsers): int
    requires WellFormed(row, p)
  {
    p.toInt(row.quantity).value
  }

  function LineKeys(rows: seq<Row>): set<DetailKey> {
    set i | 0 <= i < |rows| :: LineKey(rows[i])
  }

  lemma LineKeysCons(rows: seq<Row>)
    requires rows != []
    ensures LineKeys(rows) == {LineKey(rows[0])} + LineKeys(rows[1..])
  {
    var rest := rows[1..];
    forall k | k in LineKeys(rows) ensures k in {LineKey(rows[0])} + LineKeys(rest) {
      var i :| 0 <= i < |rows| && LineKey(rows[i]) == k;
      if i > 0 { assert LineKey(rest[i - 1]) == k; }
    }
    forall k | k in LineKeys(rest) ensures k in LineKeys(rows) {
      var i :| 0 <= i < |rest| && LineKey(rest[i]) == k;
      assert LineKey(rows[i + 1]) == k;
    }
  }

  /**
   * A successful import adds each row's quantity to its order line: the
   * quantity of each order line afterwards is its old quantity plus the
   * quantities of the rows naming it.
   */
  lemma {:induction false} ImportQuantityAt(t: Tables, rows: seq<Row>, p: Parsers, k: DetailKey)
    requires forall i :: 0 <= i < |rows| ==> WellFormed(rows[i], p)
    ensures QuantityOf(ApplyAll(t, rows, p).tables.details, k)
            == QuantityOf(t.details, k) + RowQuantity(rows, p, k)
    decreases |rows|
  {
    if rows != [] {
      var rest := rows[1..];
      RestWellFormed(rows, p);
      StepAccumulates(t, rows[0], p);
      ImportQuantityAt(Step(t, rows[0], p).tables, rest, p, k);
    }
  }

  /** After a successful import the order lines are those before plus those the rows name. */
  lemma {:induction false} ImportLineKeys(t: Tables, rows: seq<Row>, p: Parsers)
    requires forall i :: 0 <= i < |rows| ==> WellFormed(rows[i], p)
    ensures ApplyAll(t, rows, p).tables.details.Keys == t.details.Keys + LineKeys(rows)
    decreases |rows|
  {
    if rows != [] {
      var rest := rows[1..];
      RestWellFormed(rows, p);
      StepAccumulates(t, rows[0], p);
      ImportLineKeys(Step(t, rows[0], p).tables, rest, p);
      LineKeysCons(rows);
    }
  }

  /** A well-formed first row is imported and the import goes on with the rest. */
  lemma ImportCons(t: Tables, rows: seq<Row>, p: Parsers)
    requires rows != [] && WellFormed(rows[0], p)
    ensures ApplyAll(t, rows, p) == ApplyAll(Step(t, rows[0], p).tables, rows[1..], p)
  {
    StepOutcome(t, rows[0], p);
  }

  /** The customer, group, product and order of `row` are all present in `u`. */
  ghost predicate Covers(u: Tables, row: Row) {
    && row.customerCode in u.customers && row.groupCode in u.groups
    && row.productCode in u.products && row.orderCode in u.orders
  }

  /** Every row after a well-formed first row is well-formed too. */
  lemma RestWellFormed(rows: seq<Row>, p: Parsers)
    requires rows != [] && forall i :: 0 <= i < |rows| ==> WellFormed(rows[i], p)
    ensures WellFormed(rows[0], p) && forall i :: 0 <= i < |rows[1..]| ==> WellFormed(rows[1..][i], p)
  {
    assert forall i :: 0 <= i < |rows[1..]| ==> rows[1..][i] == rows[i + 1];
  }

  /** After a successful import, the entities of the first row are present. */
  lemma ImportCoversFirst(t: Tables, rows: seq<Row>, p: Parsers)
    requires rows != [] && forall i :: 0 <= i < |rows| ==> WellFormed(rows[i], p)
    ensures Covers(ApplyAll(t, rows, p).tables, rows[0])
  {
    var s := Step(t, rows[0], p);
    RestWellFormed(rows, p);
    ImportCons(t, rows, p);
    StepUpsertsEntities(t, rows[0], p);
    StepAccumulates(t, rows[0], p);
    ImportNeverOverwrites(s.tables, rows[1..], p);
  }

  /** A successful import is importing the first `n` rows and then the rest. */
  lemma ImportSplit(t: Tables, rows: seq<Row>, p: Parsers, n: nat)
    requires n <= |rows|
    requires forall i :: 0 <= i < |rows| ==> WellFormed(rows[i], p)
    ensures ApplyAll(t, rows, p) == ApplyAll(ApplyAll(t, rows[..n], p).tables, rows[n..], p)
  {
    var before, after := rows[..n], rows[n..];
    assert rows == before + after;
    assert forall i :: 0 <= i < |before| ==> before[i] == rows[i];
    ImportSucceedsIff(t, before, p);
    ImportAppend(t, before, after, p);
  }

  /** After a successful import, the entities of every imported row are present. */
  lemma ImportCovers(t: Tables, rows: seq<Row>, p: Parsers, n: nat)
    requires n < |rows|
    requires forall i :: 0 <= i < |rows| ==> WellFormed(rows[i], p)
    ensures Covers(ApplyAll(t, rows, p).tables, rows[n])
  {
    var after := rows[n..];
    ImportSplit(t, rows, p, n);
    assert forall i :: 0 <= i < |after| ==> after[i] == rows[n + i];
    ImportCoversFirst(ApplyAll(t, rows[..n], p).tables, after, p);
  }

  /** Importing rows whose entities all exist already leaves every entity table as it is. */
  lemma {:induction false} ReimportKeepsEntities(t: Tables, rows: seq<Row>, p: Parsers)
    requires forall i :: 0 <= i < |rows| ==> WellFormed(rows[i], p)
    requires forall i :: 0 <= i < |rows| ==> Covers(t, rows[i])
    ensures var u := ApplyAll(t, rows, p).tables;
      u.customers == t.customers && u.groups == t.groups
      && u.products == t.products && u.orders == t.orders
    decreases |rows|
  {
    if rows != [] {
      var s := Step(t, rows[0], p);
      assert s.tables.customers == t.customers && s.tables.groups == t.groups;
      assert s.tables.products == t.products && s.tables.orders == t.orders;
      assert forall i :: 0 <= i < |rows| - 1 ==> rows[1..][i] == rows[i + 1];
      ReimportKeepsEntities(s.tables, rows[1..], p);
    }
  }

  /**
   * Importing the same well-formed rows a second time into tables that held
   * no order lines before the first import doubles every order line's
   * quantity and changes no entity.
   */
  lemma ReimportDoubles(t: Tables, rows: seq<Row>, p: Parsers)
    requires forall i :: 0 <= i < |rows| ==> WellFormed(rows[i], p)
    requires t.details == map[]
    ensures var once := ApplyAll(t, rows, p).tables;
      var twice := ApplyAll(once, rows, p);
      && twice.error.None?
      && twice.tables.details.Keys == once.details.Keys
      && (forall k :: k in once.details ==> twice.tables.details[k] == 2 * once.details[k])
      && twice.tables.customers == once.customers && twice.tables.groups == once.groups
      && twice.tables.products == once.products && twice.tables.orders == once.orders
  {
    var once := ApplyAll(t, rows, p).tables;
    ImportLineKeys(t, rows, p);
    ImportLineKeys(once, rows, p);
    forall k | k in once.details
      ensures ApplyAll(once, rows, p).tables.details[k] == 2 * once.details[k]
    {
      ImportQuantityAt(t, rows, p, k);
      ImportQuantityAt(once, rows, p, k);
    }
    ImportSucceedsIff(once, rows, p);
    forall i | 0 <= i < |rows| ensures Covers(once, rows[i]) {
      ImportCovers(t, rows, p, i);
    }
    ReimportKeepsEntities(once, rows, p);
  }

  // ---------------------------------------------------------------------
  // The store
  // ---------------------------------------------------------------------

  /** The persistent store the importer writes to, one map per table. */
  class Store {
    var customers: map<string, Customer>
    var groups: map<string, ProductGroup>
    var products: map<string, Product>
    var orders: map<string, Order>
    var details: map<DetailKey, int>

    function Tables(): Tables
      reads this
    {
      Domain.Tables(customers, groups, products, orders, details)
    }

    constructor ()
      ensures Tables() == EmptyTables
    {
      customers, groups, products, orders, details := map[], map[], map[], map[], map[];
    }

    /** Get-or-create of a customer. */
    method UpsertCustomer(code: string, c: Customer)
      modifies this`customers
      ensures customers == GetOrCreate(old(customers), code, c)
    {
      if code !in customers {
        customers := customers[code := c];
      }
    }

    /** Get-or-create of a product group. */
    method UpsertGroup(code: string, g: ProductGroup)
      modifies this`groups
      ensures groups == GetOrCreate(old(groups), code, g)
    {
      if code !in groups {
        groups := groups[code := g];
      }
    }

    /** Get-or-create of a product. */
    method UpsertProduct(code: string, product: Product)
      modifies this`products
      ensures products == GetOrCreate(old(products), code, product)
    {
      if code !in products {
        products := products[code := product];
      }
    }

    /** Get-or-create of an order. */
    method UpsertOrder(code: string, order: Order)
      modifies this`orders
      ensures orders == GetOrCreate(old(orders), code, order)
    {
      if code !in orders {
        orders := orders[code := order];
      }
    }

    /** Get-or-create of an order line, adding the quantity when it exists. */
    method AccumulateLine(key: DetailKey, quantity: int)
      modifies this`details
      ensures details == AddQuantity(old(details), key, quantity)
    {
      if key !in details {
        details := details[key := quantity];
      } else {
        details := details[key := details[key] + quantity];
      }
    }

    /** Imports one row: the upserts in order, stopping at a parse failure. */
    method ImportRow(row: Row, p: Parsers) returns (error: Option<ImportError>)
      modifies this
      ensures Tables() == Step(old(Tables()), row, p).tables
      ensures error == Step(old(Tables()), row, p).error
    {
      UpsertCustomer(row.customerCode, Customer(NameOrNone(row.customerName), row.segmentCode));
      UpsertGroup(row.groupCode, ProductGroup(row.groupName));
      var price := 0;
      if row.unitPrice.Some? {
        var parsed := p.toInt(row.unitPrice.value);
        if parsed.Some? {
          price := parsed.value;
        }
      }
      UpsertProduct(row.productCode, Product(row.productName, row.groupCode, price));
      assert Tables() == UpsertEntities(old(Tables()), row, p);
      var time := p.toTime(row.orderTime);
      if time.None? {
        return Some(MalformedTimestamp(row.orderTime));
      }
      UpsertOrder(row.orderCode, Order(row.customerCode, time.value));
      var quantity := p.toInt(row.quantity);
      if quantity.None? {
        return Some(MalformedQuantity(row.quantity));
      }
      AccumulateLine((row.orderCode, row.productCode), quantity.value);
      error := None;
    }

    /** Imports the rows in order and stops at the first row that fails. */
    method ImportAll(rows: seq<Row>, p: Parsers) returns (error: Option<ImportError>)
      modifies this
      ensures Tables() == ApplyAll(old(Tables()), rows, p).tables
      ensures error == ApplyAll(old(Tables()), rows, p).error
    {
      for i := 0 to |rows|
        invariant ApplyAll(old(Tables()), rows, p) == ApplyAll(Tables(), rows[i..], p)
      {
        assert rows[i..][1..] == rows[i + 1..];
        error := ImportRow(rows[i], p);
        if error.Some? {
          return;
        }
      }
      error := None;
    }
  }
}
