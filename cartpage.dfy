/** The cart page (src/pages/Cart.js). It renders the cart lines and wires
    each line's buttons to the cart provider's operations; the provider is
    not part of this model, so a button is modelled by the call it makes.
    The cart total comes from the provider (`getTotalPrice`) and is an
    input here. Amounts are integer cents. */
module CartPage {
  import opened CartLines
  import AppRoutes
  import Paths
  import Wrappers

  /** What a control of the page asks the cart provider or the router to do. */
  datatype Action =
    | UpdateQuantity(id: string, quantity: int)
    | RemoveFromCart(id: string)
    | ClearCart
    | Navigate(path: string)

  const ShopPath := "/products"
  const CheckoutPath := "/checkout"

  /** The minus button's new quantity: `Math.max(1, item.quantity - 1)`. */
  function Decremented(q: int): (r: int)
    ensures r >= 1
    ensures q > 1 ==> r == q - 1
    ensures q <= 1 ==> r == 1
  {
    if q - 1 > 1 then q - 1 else 1
  }

  /** The plus button's new quantity: `item.quantity + 1`. */
  function Incremented(q: int): (r: int)
    ensures r == q + 1
  {
    q + 1
  }

  /** Minus undoes plus; plus undoes minus above one. */
  lemma SteppingRoundTrips(q: int)
    ensures q >= 1 ==> Decremented(Incremented(q)) == q
    ensures q >= 2 ==> Incremented(Decremented(q)) == q
  {
  }

  /** One rendered line: the product page its image and name link to, its
      subtotal and the calls its three buttons make. */
  datatype Row = Row(line: CartLine, link: seq<string>, subtotal: int, minus: Action, plus: Action, remove: Action)

  /** `item.price * item.quantity`. */
  function Subtotal(line: CartLine): int {
    line.price * line.quantity
  }

  function RowFor(line: CartLine): Row {
    Row(line, AppRoutes.ProductLink(line.dbId), Subtotal(line),
        UpdateQuantity(line.dbId, Decremented(line.quantity)),
        UpdateQuantity(line.dbId, Incremented(line.quantity)),
        RemoveFromCart(line.dbId))
  }

  /** `items.map(item => ...)`. */
  function Rows(items: seq<CartLine>): (rows: seq<Row>)
    ensures |rows| == |items|
    ensures forall k | 0 <= k < |items| :: rows[k] == RowFor(items[k])
  {
    if items == [] then [] else [RowFor(items[0])] + Rows(items[1..])
  }

  /** Every row's buttons act on that row's line and on nothing else: minus
      and plus set its quantity (never below one), the bin removes it. */
  lemma RowButtonsTargetTheirLine(items: seq<CartLine>, k: int)
    requires 0 <= k < |items|
    ensures var row := Rows(items)[k];
      && row.minus.UpdateQuantity? && row.minus.id == items[k].dbId && row.minus.quantity >= 1
      && row.plus == UpdateQuantity(items[k].dbId, items[k].quantity + 1)
      && row.remove == RemoveFromCart(items[k].dbId)
      && row.subtotal == items[k].price * items[k].quantity
  {
  }

  /** The row of a line with a database id links to that product's page,
      with the id as the route parameter. */
  lemma RowLinksToProductPage(line: CartLine)
    requires line.dbId != ""
    ensures AppRoutes.Resolve(AppRoutes.Routes, RowFor(line).link) == Wrappers.Some(AppRoutes.Routes[5])
    ensures AppRoutes.Routes[5].page == AppRoutes.ProductDetailPage
    ensures Paths.Bound(AppRoutes.Routes[5].pattern, RowFor(line).link, "id") == Wrappers.Some(line.dbId)
  {
    AppRoutes.ProductLinkResolves(line.dbId);
  }

  /** Decrementing is never a removal: only the bin removes. */
  lemma MinusNeverRemoves(items: seq<CartLine>)
    ensures forall k | 0 <= k < |items| :: !Rows(items)[k].minus.RemoveFromCart?
    ensures forall k | 0 <= k < |items| :: Rows(items)[k].minus.quantity != 0
  {
  }

  datatype View =
    | EmptyView(shopPath: string)
    | ListView(itemCount: int, rows: seq<Row>, total: int, clear: Action, checkout: Action)

  /** The page for a cart and its total. */
  function CartView(items: seq<CartLine>, total: int): (v: View)
    ensures v.EmptyView? <==> |items| == 0
    ensures v.EmptyView? ==> v.shopPath == ShopPath
  {
    if |items| == 0 then EmptyView(ShopPath)
    else ListView(|items|, Rows(items), total, ClearCart, Navigate(CheckoutPath))
  }

  /** The way to checkout is offered exactly when the cart has lines, and
      the header counts lines, not units (one line holding two units of a
      product shows as one item). */
  lemma CheckoutOnlyWithLines(items: seq<CartLine>, total: int)
    ensures CartView(items, total).ListView? <==> |items| > 0
    ensures CartView(items, total).ListView? ==>
      CartView(items, total).checkout == Navigate(CheckoutPath) && CartView(items, total).itemCount == |items|
  {
  }
}
