/** The customer-facing display: the totals of the mirrored cart and the
    cart lines joined with their catalogue products. */
module CustomerDisplay {
  import opened Wrappers
  import opened Types
  import opened Lists
  import opened CartStore
  import ProductsStore

  /** The sales tax rate the display applies. */
  const TaxRate: real := 0.08

  datatype Totals = Totals(subtotal: real, tax: real, total: real)

  /** The display's totals: the cart total, 8% tax on it, and their sum. */
  function ComputeTotals(cartItems: seq<OrderItem>): (t: Totals)
    ensures t.subtotal == Total(cartItems)
    ensures t.total == t.subtotal * 1.08 && t.total - t.subtotal == t.tax
    ensures cartItems == [] ==> t == Totals(0.0, 0.0, 0.0)
  {
    var sub := Total(cartItems);
    var taxAmount := sub * TaxRate;
    var totalAmount := sub + taxAmount;
    Totals(sub, taxAmount, totalAmount)
  }

  /** Lines with non-negative prices and quantities have a non-negative
      total, and then tax never lowers the amount due. */
  lemma {:induction false} TotalsNonNegative(cartItems: seq<OrderItem>)
    requires forall i :: 0 <= i < |cartItems| ==> cartItems[i].priceAtSale >= 0.0 && cartItems[i].quantity >= 0.0
    ensures Total(cartItems) >= 0.0
    ensures ComputeTotals(cartItems).tax >= 0.0 && ComputeTotals(cartItems).total >= ComputeTotals(cartItems).subtotal
  {
    if cartItems != [] {
      TotalsNonNegative(cartItems[1..]);
      var p, q := cartItems[0].priceAtSale, cartItems[0].quantity;
      assert p * q >= 0.0;
    }
  }

  /** A cart line with the catalogue product it refers to, if any. */
  datatype DisplayLine = DisplayLine(item: OrderItem, product: Option<Product>)

  /** The cart line has a product in the catalogue. */
  predicate HasProduct(products: seq<Product>, item: OrderItem) {
    ProductsStore.FindProduct(products, item.productID).Some?
  }

  /** `itemsWithProducts`: each cart line joined with its product, lines
      without one filtered out. */
  function ItemsWithProducts(cartItems: seq<OrderItem>, products: seq<Product>): (r: seq<DisplayLine>)
    ensures forall i :: 0 <= i < |r| ==>
              r[i].product.Some? && r[i].product == ProductsStore.FindProduct(products, r[i].item.productID)
  {
    var joined := Map(cartItems, (item: OrderItem) => DisplayLine(item, ProductsStore.FindProduct(products, item.productID)));
    Filter(joined, (line: DisplayLine) => line.product.Some?)
  }

  /** The items of display lines. */
  function LineItems(lines: seq<DisplayLine>): (r: seq<OrderItem>)
    ensures |r| == |lines| && forall i :: 0 <= i < |lines| ==> r[i] == lines[i].item
  {
    Map(lines, (line: DisplayLine) => line.item)
  }

  /** The displayed lines are exactly the cart lines that have a product,
      in cart order. */
  lemma {:induction false} DisplayedLines(cartItems: seq<OrderItem>, products: seq<Product>)
    ensures LineItems(ItemsWithProducts(cartItems, products)) ==
            Filter(cartItems, (item: OrderItem) => HasProduct(products, item))
  {
    var f := (item: OrderItem) => DisplayLine(item, ProductsStore.FindProduct(products, item.productID));
    var keep := (line: DisplayLine) => line.product.Some?;
    var has := (item: OrderItem) => HasProduct(products, item);
    if cartItems != [] {
      DisplayedLines(cartItems[1..], products);
      var joined := Map(cartItems, f);
      assert joined[1..] == Map(cartItems[1..], f);
      var rest := Filter(Map(cartItems[1..], f), keep);
      if has(cartItems[0]) {
        assert Filter(joined, keep) == [f(cartItems[0])] + rest;
        assert LineItems([f(cartItems[0])] + rest) == [cartItems[0]] + LineItems(rest);
      }
    }
  }

  /** The totals count every cart line, including lines whose product is
      not in the catalogue and so is not displayed. */
  lemma TotalsIncludeMissing(cartItems: seq<OrderItem>, products: seq<Product>)
    ensures ComputeTotals(cartItems).subtotal ==
            Total(LineItems(ItemsWithProducts(cartItems, products))) +
            Total(Filter(cartItems, (item: OrderItem) => !HasProduct(products, item)))
  {
    var has := (item: OrderItem) => HasProduct(products, item);
    DisplayedLines(cartItems, products);
    TotalPartition(cartItems, has);
    FilterCongruent(cartItems, (item: OrderItem) => !has(item), (item: OrderItem) => !HasProduct(products, item));
  }

  /** `itemTotal`: the amount a displayed line adds to the subtotal. */
  function LineTotal(line: DisplayLine): (r: real)
    ensures r == Total([line.item])
  {
    line.item.quantity * line.item.priceAtSale
  }
}
