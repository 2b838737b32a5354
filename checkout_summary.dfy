// The order summary panel (components/checkout-summary.tsx): one row per cart
// line and a subtotal computed with a left fold over the cart.
module CheckoutSummary {
  import opened Common
  import opened Text
  import opened Products
  import opened Cart

  /** `cart.reduce((sum, item) => sum + price × quantity, acc)`: the fold, rows taken from the front. */
  function Reduce(acc: int, cart: seq<CartItem>): int
    decreases |cart|
  {
    if cart == [] then acc else Reduce(acc + LineTotal(cart[0]), cart[1..])
  }

  /** The subtotal shown under the rows. */
  function Subtotal(cart: seq<CartItem>): int
  {
    Reduce(0, cart)
  }

  /** The fold from acc ends at acc plus getCartTotal of the rows it reads. */
  lemma {:induction false} ReduceIsTotal(acc: int, cart: seq<CartItem>)
    ensures Reduce(acc, cart) == acc + Total(cart)
    decreases |cart|
  {
    if cart != [] {
      ReduceIsTotal(acc + LineTotal(cart[0]), cart[1..]);
      TotalsFromFront(cart);
    }
  }

  /** The summary's subtotal agrees with getCartTotal: Σ price × quantity, 0 for an empty cart. */
  lemma SubtotalIsCartTotal(cart: seq<CartItem>)
    ensures Subtotal(cart) == Total(cart)
    ensures cart == [] ==> Subtotal(cart) == 0
  {
    ReduceIsTotal(0, cart);
  }

  /** What one summary row shows. */
  datatype SummaryRow = SummaryRow(title: string, variant: string, quantityText: string, amountText: string)

  /** A row: title, variant, "Qty: q" and "$" followed by price × quantity to two decimals. */
  function RowOf(item: CartItem): (row: SummaryRow)
    ensures row.title == item.product.title && row.variant == item.product.variant
    ensures |row.quantityText| > 5 && row.quantityText[..5] == "Qty: " &&
            ParseInt(row.quantityText[5..]) == Some(item.quantity)
    ensures |row.amountText| > 1 && row.amountText[0] == '$' &&
            ParseCents(row.amountText[1..]) == Some(item.product.priceCents * item.quantity)
  {
    var q := "Qty: " + IntToString(item.quantity);
    var a := "$" + FormatCents(LineTotal(item));
    assert q[5..] == IntToString(item.quantity);
    IntToStringRoundTrip(item.quantity);
    assert a[1..] == FormatCents(LineTotal(item));
    FormatCentsRoundTrip(LineTotal(item));
    SummaryRow(item.product.title, item.product.variant, q, a)
  }

  /** `cart.map(...)`: exactly one row per cart item, in cart order. */
  function SummaryRows(cart: seq<CartItem>): (rows: seq<SummaryRow>)
    ensures |rows| == |cart|
    ensures forall i :: 0 <= i < |cart| ==> rows[i] == RowOf(cart[i])
  {
    if cart == [] then [] else [RowOf(cart[0])] + SummaryRows(cart[1..])
  }

  /** The total line: "$" and the subtotal to two decimals, then " CAD". */
  function TotalText(cart: seq<CartItem>): (s: string)
    ensures |s| > 5 && s[0] == '$' && s[|s| - 4..] == " CAD" &&
            ParseCents(s[1..|s| - 4]) == Some(Total(cart))
  {
    var s := "$" + FormatCents(Subtotal(cart)) + " CAD";
    SubtotalIsCartTotal(cart);
    assert s[1..|s| - 4] == FormatCents(Subtotal(cart));
    FormatCentsRoundTrip(Subtotal(cart));
    s
  }
}
