/**
 * The values the app stores and edits: line items and invoice records.
 * A JavaScript field that is absent and one that holds "" behave alike
 * wherever the app reads them (through `||` or a truthiness test), so
 * both are the empty string here.
 */
module Invoices {

  /** One row of the items list; `qty` and `price` are the numbers typed into the row. */
  datatype Item = Item(name: string, qty: real, price: real)

  /** An invoice record as saved to the store; `total` is the formatted text shown when it was saved. */
  datatype Invoice = Invoice(
    id: int,
    invoiceNumber: string,
    businessName: string,
    clientName: string,
    date: string,
    time: string,
    currency: string,
    items: seq<Item>,
    total: string)

  /** The `{}` that `addItemRow()` receives when called without data. */
  const NoData := Item("", 0.0, 0.0)

  /**
   * The item `addItemRow(data)` pushes: `name || ""`, `qty || 1`, `price || 0`.
   * A zero quantity is falsy and becomes 1; a zero price stays 0.
   */
  function WithDefaults(data: Item): (item: Item)
    ensures item.name == data.name && item.price == data.price
    ensures item.qty != 0.0
    ensures data.qty == 0.0 ==> item.qty == 1.0
    ensures data.qty != 0.0 <==> item == data
  {
    Item(data.name, if data.qty != 0.0 then data.qty else 1.0, data.price)
  }

  /** Every record sits under its own `id`: the store's key path is "id". */
  ghost predicate KeyedById(records: map<int, Invoice>) {
    forall k :: k in records ==> records[k].id == k
  }
}
