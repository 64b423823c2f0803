/** The printed receipt of an order: the money figures with their fallbacks to
    the values stored with the order, one row per ordered line, the receipt
    number and the payment-method caption. Everything here is computed from
    the order alone; there is no state. */
module Receipt {
  import opened Common
  import opened Cart

  /** The figures stored with an order when it was placed; each may be missing. */
  datatype StoredReceipt = StoredReceipt(receiptNumber: Option<string>, subtotal: Option<real>, tax: Option<real>, total: Option<real>)

  /** An order as the receipt reads it: its lines are cart lines. */
  datatype Order = Order(
    orderNumber: string,
    date: string,
    status: string,
    items: seq<CartItem>,
    receipt: Option<StoredReceipt>,
    paymentMethod: string,
    deliveryAddress: string)

  /** The sales tax rate, 5%. */
  const TaxRate: real := 0.05

  /** `order.receipt?.subtotal` (and likewise for the other two figures):
      missing when the order has no stored receipt or the receipt lacks it. */
  function StoredSubtotal(order: Order): Option<real> {
    if order.receipt.Some? then order.receipt.value.subtotal else None
  }

  function StoredTax(order: Order): Option<real> {
    if order.receipt.Some? then order.receipt.value.tax else None
  }

  function StoredTotal(order: Order): Option<real> {
    if order.receipt.Some? then order.receipt.value.total else None
  }

  /** `receipt?.subtotal ?? items.reduce((s, i) => s + i.qty * i.price, 0)` */
  function Subtotal(order: Order): real {
    StoredSubtotal(order).GetOr(TotalPrice(order.items))
  }

  /** `receipt?.tax ?? subtotal * 0.05` */
  function Tax(order: Order): real {
    StoredTax(order).GetOr(Subtotal(order) * TaxRate)
  }

  /** `receipt?.total ?? subtotal + tax` */
  function Total(order: Order): real {
    StoredTotal(order).GetOr(Subtotal(order) + Tax(order))
  }

  /** Without a stored receipt the subtotal is the sum of quantity times price
      over the lines, the tax 5% of it and the total 105% of it. */
  lemma UnstoredFigures(order: Order)
    requires order.receipt.None?
    ensures Subtotal(order) == TotalPrice(order.items)
    ensures Tax(order) == 0.05 * TotalPrice(order.items)
    ensures Total(order) == 1.05 * TotalPrice(order.items)
  {
  }

  /** Each stored figure is shown as stored, zero included, whatever the lines
      say: `??` only falls back on a missing value. */
  lemma StoredFiguresWin(order: Order)
    ensures order.receipt.Some? && order.receipt.value.subtotal.Some? ==> Subtotal(order) == order.receipt.value.subtotal.value
    ensures order.receipt.Some? && order.receipt.value.tax.Some? ==> Tax(order) == order.receipt.value.tax.value
    ensures order.receipt.Some? && order.receipt.value.total.Some? ==> Total(order) == order.receipt.value.total.value
  {
  }

  /** A stored zero subtotal is not replaced by the sum of the lines. */
  lemma StoredZeroSubtotal(order: Order)
    requires order.receipt.Some? && order.receipt.value.subtotal == Some(0.0)
    requires order.receipt.value.tax.None? && order.receipt.value.total.None?
    ensures Subtotal(order) == 0.0 && Tax(order) == 0.0 && Total(order) == 0.0
  {
  }

  /** A stored subtotal alone drives the derived tax and total. */
  lemma StoredSubtotalDrives(order: Order, s: real)
    requires order.receipt.Some? && order.receipt.value.subtotal == Some(s)
    requires order.receipt.value.tax.None? && order.receipt.value.total.None?
    ensures Tax(order) == 0.05 * s && Total(order) == 1.05 * s
  {
  }

  /** When no total is stored, the total is the shown subtotal plus the shown tax. */
  lemma TotalAddsUp(order: Order)
    requires StoredTotal(order).None?
    ensures Total(order) == Subtotal(order) + Tax(order)
  {
  }

  /** One row of the items table: name, quantity, unit price and line total. */
  datatype Row = Row(name: string, qty: int, price: real, lineTotal: real)

  /** `order.items.map(...)`: one row per line, in the order of the lines. */
  function Rows(items: seq<CartItem>): (r: seq<Row>)
    ensures |r| == |items|
    ensures forall k :: 0 <= k < |items| ==>
      r[k].name == items[k].name && r[k].qty == items[k].qty && r[k].price == items[k].price
      && r[k].lineTotal == items[k].qty as real * items[k].price
  {
    if items == [] then [] else [Row(items[0].name, items[0].qty, items[0].price, LineTotal(items[0]))] + Rows(items[1..])
  }

  /** The sum of the line-total column. */
  function RowsTotal(rows: seq<Row>): real {
    if rows == [] then 0.0 else rows[0].lineTotal + RowsTotal(rows[1..])
  }

  /** The line totals printed in the table add up to the cart total of the
      lines, hence to the subtotal when none is stored. */
  lemma {:induction false} RowsAddUp(items: seq<CartItem>)
    ensures RowsTotal(Rows(items)) == TotalPrice(items)
  {
    if items != [] {
      RowsAddUp(items[1..]);
      assert Rows(items)[1..] == Rows(items[1..]);
    }
  }

  lemma RowsAddUpToSubtotal(order: Order)
    requires StoredSubtotal(order).None?
    ensures RowsTotal(Rows(order.items)) == Subtotal(order)
  {
    RowsAddUp(order.items);
  }

  /** `paymentMethodLabels` */
  const PaymentLabels: map<string, string> := map[
    "card" := "Credit/Debit Card",
    "cash" := "Cash on Delivery",
    "mobile_money" := "Mobile Money"]

  /** `paymentMethodLabels[order.paymentMethod]`: `undefined` for an unknown key. */
  function PaymentLabel(key: string): Option<string> {
    if key in PaymentLabels then Some(PaymentLabels[key]) else None
  }

  /** The three known methods have their captions, every other key has none,
      and no two methods share a caption. */
  lemma PaymentLabelTable(key: string)
    ensures PaymentLabel("card") == Some("Credit/Debit Card")
    ensures PaymentLabel("cash") == Some("Cash on Delivery")
    ensures PaymentLabel("mobile_money") == Some("Mobile Money")
    ensures key != "card" && key != "cash" && key != "mobile_money" ==> PaymentLabel(key).None?
  {
  }

  lemma PaymentLabelsDistinct(m: string, n: string)
    requires PaymentLabel(m).Some? && PaymentLabel(m) == PaymentLabel(n)
    ensures m == n
  {
  }

  /** `Date.now().toString().slice(-6)`: the last six digits of the clock. */
  function ClockSuffix(now: nat): (r: string)
    ensures 1 <= |r| <= 6 && |r| <= |NatToDecimal(now)|
    ensures r == NatToDecimal(now)[|NatToDecimal(now)| - |r|..]
    ensures |NatToDecimal(now)| <= 6 ==> r == NatToDecimal(now)
    ensures |NatToDecimal(now)| > 6 ==> |r| == 6
  {
    var d := NatToDecimal(now);
    if |d| <= 6 then d else d[|d| - 6..]
  }

  /** `receipt?.receiptNumber || \`RCP-${...}\``: a stored number is shown
      unless it is missing or empty, in which case one is made from the clock. */
  function ReceiptNumber(order: Order, now: nat): (r: string)
    ensures order.receipt.Some? && order.receipt.value.receiptNumber.Some? && order.receipt.value.receiptNumber.value != []
            ==> r == order.receipt.value.receiptNumber.value
    ensures r != []
  {
    if order.receipt.Some? && order.receipt.value.receiptNumber.Some? && order.receipt.value.receiptNumber.value != []
    then order.receipt.value.receiptNumber.value
    else "RCP-" + ClockSuffix(now)
  }

  /** A made-up receipt number is "RCP-" followed by one to six digits. */
  lemma MadeUpReceiptNumber(order: Order, now: nat)
    requires order.receipt.None? || order.receipt.value.receiptNumber.None? || order.receipt.value.receiptNumber.value == []
    ensures var r := ReceiptNumber(order, now);
      r[..4] == "RCP-" && 5 <= |r| <= 10 && forall k :: 4 <= k < |r| ==> '0' <= r[k] <= '9'
  {
  }
}
