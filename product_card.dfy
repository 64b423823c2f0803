/** The product card: which price a product sells at, what it hands to the
    cart, and the stock bar of the horizontal (flash-sale) variant. */
module ProductCard {
  import opened Common
  import opened Cart

  /** The fields of a catalogue product the card reads. The stock is a whole
      number of units in the catalogue; the image is an opaque asset handle. */
  datatype Product = Product(id: string, name: string, price: real, discountPrice: Option<real>, stock: int, image: string)

  /** The two layouts of the card. */
  datatype Variant = Grid | Horizontal

  /** `product.discountPrice || product.price`: an absent discount price and a
      discount price of zero both fall through to the list price. Nothing
      orders the two prices, so the result may lie above the list price. */
  function EffectivePrice(p: Product): (r: real)
    ensures r == p.price || (p.discountPrice.Some? && r == p.discountPrice.value)
    ensures p.discountPrice.Some? && p.discountPrice.value != 0.0 ==> r == p.discountPrice.value
    ensures p.discountPrice.None? || p.discountPrice.value == 0.0 ==> r == p.price
  {
    if p.discountPrice.Some? && p.discountPrice.value != 0.0 then p.discountPrice.value else p.price
  }

  /** The item `handleAddToCart` passes to `addToCart` (which adds one unit). */
  function CartEntry(p: Product): (r: NewLine)
    ensures r.id == p.id && r.name == p.name && r.image == Some(p.image)
    ensures r.price == EffectivePrice(p)
  {
    NewLine(p.id, p.name, EffectivePrice(p), Some(p.image))
  }

  /** The price printed on the card; both variants print the same expression. */
  function DisplayedPrice(p: Product, variant: Variant): (r: real)
    ensures r == CartEntry(p).price
  {
    match variant
    case Grid => EffectivePrice(p)
    case Horizontal => EffectivePrice(p)
  }

  /** `handleAddToCart()`: the "+" button of the grid card adds one unit of the product. */
  method HandleAddToCart(cart: CartStore, p: Product)
    requires cart.Valid()
    modifies cart
    ensures cart.Valid()
    ensures cart.items == AddLine(old(cart.items), CartEntry(p), 1)
  {
    cart.AddToCart(CartEntry(p));
  }

  /** Pressing "+" (on the grid card, the only one with that button) on a
      product not yet in the cart raises the cart total by exactly the price
      the card shows, which is also the price the horizontal card shows. */
  lemma AddRaisesTotalByShownPrice(items: seq<CartItem>, p: Product, variant: Variant)
    requires !HasLine(items, p.id)
    ensures TotalPrice(AddLine(items, CartEntry(p), 1)) == TotalPrice(items) + DisplayedPrice(p, variant)
    ensures TotalItems(AddLine(items, CartEntry(p), 1)) == TotalItems(items) + 1
  {
    AddNewTotals(items, CartEntry(p), 1);
  }

  /** The first catalogue product carries a discount price above its list
      price, and it is the higher price that reaches the cart. */
  lemma DiscountAboveListPrice()
    ensures var p := Product("1", "APPLE MACBOOK PRO 16 TOUCHBAR", 5937.0, Some(6500.0), 5, "MacBook.webp");
      EffectivePrice(p) == 6500.0 > p.price
  {
  }

  /** `Math.min(Math.max(x, lo), hi)` */
  function Clamp(x: real, lo: real, hi: real): (r: real)
    requires lo <= hi
    ensures lo <= r <= hi
    ensures lo <= x <= hi ==> r == x
  {
    if x < lo then lo else if x > hi then hi else x
  }

  /** The width of the stock bar, in percent: `(stock / 50) * 100` clamped to
      10..90, or 65 when the stock is zero (falsy). */
  function StockPercent(stock: int): real {
    if stock != 0 then Clamp(stock as real / 50.0 * 100.0, 10.0, 90.0) else 65.0
  }

  /** The bar is never empty nor full for a non-zero stock, sits at 65 for a
      zero stock and is twice the stock in between 5 and 45 units. */
  lemma StockPercentBounds(stock: int)
    ensures stock != 0 ==> 10.0 <= StockPercent(stock) <= 90.0
    ensures stock == 0 ==> StockPercent(stock) == 65.0
    ensures 5 <= stock <= 45 ==> StockPercent(stock) == 2.0 * stock as real
    ensures stock < 0 ==> StockPercent(stock) == 10.0
    ensures stock > 45 ==> StockPercent(stock) == 90.0
  {
  }

  /** A larger non-zero stock never gives a shorter bar. */
  lemma StockPercentMonotone(s: int, t: int)
    requires s != 0 && t != 0 && s <= t
    ensures StockPercent(s) <= StockPercent(t)
  {
  }

  /** The caption under the bar: ten units or more read "Selling Fast",
      fewer name the count, a negative one with its minus sign. */
  function StockLabel(stock: int): (r: string)
    ensures stock >= 10 ==> r == "Selling Fast"
    ensures stock < 10 ==> r == "Only " + IntToDecimal(stock) + " left"
  {
    if stock < 10 then "Only " + IntToDecimal(stock) + " left" else "Selling Fast"
  }

  /** The caption reads "Only ..." exactly when fewer than ten units are left. */
  lemma StockLabelWarns(stock: int)
    ensures StockLabel(stock)[..5] == "Only " <==> stock < 10
  {
    if stock >= 10 {
      assert StockLabel(stock)[0] == 'S';
    }
  }

  /** A negative stock is printed with its minus sign. */
  lemma NegativeStockLabel(stock: int)
    requires stock < 0
    ensures StockLabel(stock) == "Only -" + NatToDecimal(-stock) + " left"
  {
  }

  /** For a stock of 0 to 9 units the caption names that single digit. */
  lemma LowStockLabel(stock: int)
    requires 0 <= stock < 10
    ensures StockLabel(stock) == "Only " + [DigitChar(stock)] + " left"
  {
  }
}
