/** The records the core works on. Optional properties (`unit?`, `recipe?`,
    ...) become `Option` fields; every number is a `real`. */
module Types {
  import opened Wrappers

  /** One requirement of a recipe: `quantity` of an inventory item per unit
      of product, in `unit` (absent means "units"). */
  datatype RecipeItem = RecipeItem(inventoryID: string, quantity: real, unit: Option<string>)

  datatype Product = Product(
    productID: string,
    name: string,
    description: string,
    price: real,
    categoryID: string,
    recipe: Option<seq<RecipeItem>>,
    image: Option<string>)

  /** A stocked raw material. `quantity` is in the stocking `unit`;
      `piecesPerUnit` says how many `baseUnit` one stocking unit holds. */
  datatype InventoryItem = InventoryItem(
    inventoryID: string,
    name: string,
    description: Option<string>,
    supplierID: string,
    categoryID: Option<string>,
    quantity: real,
    unit: Option<string>,
    baseUnit: Option<string>,
    piecesPerUnit: Option<real>,
    reorderPoint: Option<real>,
    lastUpdated: Option<string>)

  /** A cart or order line; the price is the one current when the line was
      created. */
  datatype OrderItem = OrderItem(productID: string, quantity: real, priceAtSale: real)

  datatype DiscountType = NoDiscount | Pwd | Senior
  datatype PaymentMethod = Cash | Card | EWallet
  datatype OrderStatus = Pending | Completed | Cancelled

  datatype Order = Order(
    orderID: string,
    orderDate: string,
    customerID: string,
    employeeID: string,
    items: seq<OrderItem>,
    subtotal: real,
    discountType: DiscountType,
    discountAmount: real,
    totalAmount: real,
    paymentMethod: PaymentMethod,
    transactionReference: Option<string>,
    amountTendered: Option<real>,
    change: Option<real>,
    status: OrderStatus)

  /** A supplier as the suppliers page builds it: an identity plus the two
      properties it edits, either of which may be left undefined. */
  datatype Supplier = Supplier(supplierID: string, name: Option<string>, contactInfo: Option<string>)

  /** JavaScript's `s || d` for an optional string: an absent or empty
      string falls back to `d`. */
  function OrDefault(s: Option<string>, d: string): (r: string)
    ensures s.Some? && s.value != "" ==> r == s.value
    ensures s.None? || s.value == "" ==> r == d
  {
    if s.Some? && s.value != "" then s.value else d
  }

  /** The key a new record is stored under: its own identity when it has
      one, otherwise a freshly generated key. */
  function StorageKey(id: string, freshKey: string): (k: string)
    ensures id != "" ==> k == id
    ensures id == "" ==> k == freshKey
  {
    if id != "" then id else freshKey
  }
}
