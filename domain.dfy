/**
 * The five entities of the sales dashboard (customers, product groups,
 * products, orders and order lines), keyed by their external codes, and the
 * records the importer reads and the reports read.
 */
module Domain {
  import opened Wrappers

  type Month = m: int | 1 <= m <= 12 witness 1
  type Day = d: int | 1 <= d <= 31 witness 1
  type Hour = h: int | 0 <= h <= 23
  /** The database's week-day numbering: 1 is Sunday, 7 is Saturday. */
  type Weekday = w: int | 1 <= w <= 7 witness 1

  /**
   * An order timestamp, already decomposed into the fields the reports
   * extract from it; `date` identifies the calendar date (year, month, day).
   */
  datatype Timestamp = Timestamp(
    year: int, month: Month, day: Day, hour: Hour, minute: int, second: int,
    weekday: Weekday, date: int)

  datatype Customer = Customer(name: Option<string>, segmentCode: string)
  datatype ProductGroup = ProductGroup(name: string)
  /** A product refers to its group by the group's code; the price is in minor units. */
  datatype Product = Product(name: string, groupCode: string, unitPrice: int)
  datatype Order = Order(customerCode: string, time: Timestamp)

  /** An order line is identified by (order code, product code). */
  type DetailKey = (string, string)

  /** The persistent tables, one map per entity keyed by its external code. */
  datatype Tables = Tables(
    customers: map<string, Customer>,
    groups: map<string, ProductGroup>,
    products: map<string, Product>,
    orders: map<string, Order>,
    details: map<DetailKey, int>)

  const EmptyTables := Tables(map[], map[], map[], map[], map[])

  /** Every reference between entities points at an existing entity. */
  ghost predicate Consistent(t: Tables) {
    && (forall c :: c in t.products ==> t.products[c].groupCode in t.groups)
    && (forall c :: c in t.orders ==> t.orders[c].customerCode in t.customers)
    && (forall k :: k in t.details ==> k.0 in t.orders && k.1 in t.products)
  }

  /**
   * One CSV row with its fields as text. `unitPrice` is None when the file
   * has no unit-price column.
   */
  datatype Row = Row(
    customerCode: string, customerName: string, segmentCode: string,
    groupCode: string, groupName: string,
    productCode: string, productName: string, unitPrice: Option<string>,
    orderCode: string, orderTime: string, quantity: string)

  /** An order line joined with its order, product, group and customer. */
  datatype Line = Line(
    orderCode: string, customerCode: string,
    groupCode: string, groupName: string,
    productCode: string, productName: string,
    quantity: int, unitPrice: int, time: Timestamp)

  /** An order as the order table lists it. */
  datatype OrderRow = OrderRow(code: string, customerCode: string, time: Timestamp)

  /** `line` is the join of the order line `k` of `t`. */
  ghost predicate JoinedLine(t: Tables, k: DetailKey, line: Line)
    requires Consistent(t) && k in t.details
  {
    var order := t.orders[k.0];
    var product := t.products[k.1];
    && line.orderCode == k.0 && line.productCode == k.1
    && line.customerCode == order.customerCode && line.time == order.time
    && line.productName == product.name && line.unitPrice == product.unitPrice
    && line.groupCode == product.groupCode
    && line.groupName == t.groups[product.groupCode].name
    && line.quantity == t.details[k]
  }

  /** `lines` lists every order line of `t` exactly once, joined. */
  ghost predicate LinesOf(t: Tables, lines: seq<Line>)
    requires Consistent(t)
  {
    && (forall i :: 0 <= i < |lines| ==>
          (lines[i].orderCode, lines[i].productCode) in t.details
          && JoinedLine(t, (lines[i].orderCode, lines[i].productCode), lines[i]))
    && (forall k :: k in t.details ==>
          exists i :: 0 <= i < |lines| && (lines[i].orderCode, lines[i].productCode) == k)
    && (forall i, j :: 0 <= i < j < |lines| ==>
          (lines[i].orderCode, lines[i].productCode) != (lines[j].orderCode, lines[j].productCode))
  }

  /** `orders` lists every order of `t` exactly once. */
  ghost predicate OrdersOf(t: Tables, orders: seq<OrderRow>) {
    && (forall i :: 0 <= i < |orders| ==>
          orders[i].code in t.orders
          && t.orders[orders[i].code] == Order(orders[i].customerCode, orders[i].time))
    && (forall c :: c in t.orders ==> exists i :: 0 <= i < |orders| && orders[i].code == c)
    && (forall i, j :: 0 <= i < j < |orders| ==> orders[i].code != orders[j].code)
  }
}
