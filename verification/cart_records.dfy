/**
 * The cart ("order") records served by `GET /cart/items`, as the kitchen
 * board and the table order list read them.
 *
 * A line item and a combo are both plain objects carrying `_id`, `name`,
 * `count` and `status`; the fields that only one of them has (price,
 * category, type, the sub-items of a combo) are kept together in
 * `Details`, which no operation of the model looks into.
 */
module CartRecords {

  const Served: string := "Served"
  const NotServed: string := "Not Served"

  /** One named part of a combo, shown as "name - quantity". */
  datatype SubItem = SubItem(name: string, quantity: int)

  /** Fields that are carried along unchanged by every operation. */
  datatype Details = Details(price: string, categoryName: string, kind: string, subItems: seq<SubItem>)

  /**
   * A line item or a combo of an order. A missing `name` is modelled as
   * the empty string: both are falsy and are treated alike.
   */
  datatype Entry = Entry(id: string, name: string, count: int, status: string, details: Details)

  /** A table's order: its line items and its combos, in server order. */
  datatype CartRecord = CartRecord(id: string, tableNumber: int, items: seq<Entry>, combos: seq<Entry>)

  predicate IsServed(e: Entry) {
    e.status == Served
  }

  /** The line items followed by the combos, as `[...item.items, ...item.combos]`. */
  function AllEntries(r: CartRecord): (es: seq<Entry>)
    ensures |es| == |r.items| + |r.combos|
    ensures forall e :: e in es <==> e in r.items || e in r.combos
  {
    r.items + r.combos
  }
}
