/** Checkout: an order is persisted, then every ingredient of every
    ordered product is taken out of stock through the inventory ledger,
    line by line and ingredient by ingredient, stopping at the first
    ingredient whose units do not convert. Also the newest-first order
    list. */
module OrdersStore {
  import opened Wrappers
  import opened Types
  import opened Rounding
  import opened UnitConverter
  import opened InventoryStore
  import opened ErrorHandler
  import ProductsStore

  /** The error thrown for an ingredient whose units do not convert. */
  function CannotConvertMessage(recipeUnit: string, inventoryUnit: string): string {
    "Cannot convert units: recipe uses \"" + recipeUnit + "\" but inventory uses \"" + inventoryUnit + "\". " +
    "Units must be compatible (same category: count, volume, or weight)."
  }

  /** The effect of consuming stock so far: the ledger reached and the
      message of the error that stopped consumption, if one did. */
  datatype Consumption = Consumption(ledger: Ledger, failure: Option<string>)

  /** Steps applied in order, each to the ledger the previous one left,
      up to and including the first that fails. */
  function Run<T>(l: Ledger, steps: seq<T>, step: (Ledger, T) -> Consumption): (c: Consumption)
    decreases |steps|
  {
    if steps == [] then Consumption(l, None)
    else
      var before := Run(l, steps[..|steps| - 1], step);
      if before.failure.Some? then before else step(before.ledger, steps[|steps| - 1])
  }

  /** Running two lists of steps is running the first, then, unless it
      failed, the second from where the first left off. */
  lemma {:induction false} RunAppend<T>(l: Ledger, a: seq<T>, b: seq<T>, step: (Ledger, T) -> Consumption)
    ensures var first := Run(l, a, step);
            Run(l, a + b, step) == if first.failure.Some? then first else Run(first.ledger, b, step)
    decreases |b|
  {
    if b == [] {
      assert a + b == a;
    } else {
      var last := b[|b| - 1];
      assert (a + b)[..|a + b| - 1] == a + b[..|b| - 1];
      RunAppend(l, a, b[..|b| - 1], step);
    }
  }

  /** The change `updateStock` is given to take `amount` out of stock. */
  function Withdrawal(amount: real): real {
    -amount
  }

  /** One step of the inner loop once `inventoryItem` has been looked up
      and `convertedQuantity` computed: an item that is not cached is
      skipped; a quantity that does not convert stops consumption with an
      error naming both units; otherwise the converted quantity times the
      line quantity, rounded to six places, is taken out of stock by
      `updateStock(inventoryID, -roundedConsumption)`. */
  function ApplyIngredient(l: Ledger, recipeItem: RecipeItem, inventoryItem: Option<InventoryItem>,
                           convertedQuantity: Option<real>, quantity: real, now: string): (c: Consumption)
    ensures inventoryItem.None? ==> c == Consumption(l, None)
  {
    if inventoryItem.None? then Consumption(l, None)
    else if convertedQuantity.None? then
      Consumption(l, Some(CannotConvertMessage(OrDefault(recipeItem.unit, "units"),
                                               OrDefault(inventoryItem.value.unit, "units"))))
    else
      var roundedConsumption := Round6(convertedQuantity.value * quantity);
      Consumption(UpdateStockSpec(l, recipeItem.inventoryID, Withdrawal(roundedConsumption), now), None)
  }

  /** The three outcomes of one step: it fails exactly when the item is
      cached and its quantity does not convert, a failed step leaves the
      ledger as it was, and a step that converts takes the rounded
      consumption out of the item's stock. */
  lemma ApplyIngredientOutcomes(l: Ledger, recipeItem: RecipeItem, inventoryItem: Option<InventoryItem>,
                                convertedQuantity: Option<real>, quantity: real, now: string)
    ensures var c := ApplyIngredient(l, recipeItem, inventoryItem, convertedQuantity, quantity, now);
            (c.failure.Some? <==> inventoryItem.Some? && convertedQuantity.None?) &&
            (c.failure.Some? ==> c.ledger == l) &&
            (inventoryItem.Some? && convertedQuantity.Some? ==>
               c.ledger == UpdateStockSpec(l, recipeItem.inventoryID,
                                           Withdrawal(Round6(convertedQuantity.value * quantity)), now))
  {
  }

  /** One recipe item of a line of `quantity` units, looked up in the
      cache and converted as the ledger stands. */
  function ConsumeIngredient(l: Ledger, recipeItem: RecipeItem, quantity: real, now: string): Consumption {
    ApplyIngredient(l, recipeItem, GetInventoryItem(l.cache, recipeItem.inventoryID),
                    ConvertRecipeToInventoryUnit(l.cache, recipeItem), quantity, now)
  }

  /** The inner loop: the recipe's items in recipe order. */
  function ConsumeRecipe(l: Ledger, recipe: seq<RecipeItem>, quantity: real, now: string): Consumption {
    Run(l, recipe, (l': Ledger, r: RecipeItem) => ConsumeIngredient(l', r, quantity, now))
  }

  /** The recipe an order line consumes: that of the first product with
      the line's ID, or nothing when there is no such product or it has
      no recipe or an empty one. */
  function LineRecipe(products: seq<Product>, line: OrderItem): (recipe: seq<RecipeItem>)
    ensures ProductsStore.FindProduct(products, line.productID).None? ==> recipe == []
    ensures var product := ProductsStore.FindProduct(products, line.productID);
            product.Some? && product.value.recipe.Some? ==> recipe == product.value.recipe.value
  {
    var product := ProductsStore.FindProduct(products, line.productID);
    if product.Some? && product.value.recipe.Some? && |product.value.recipe.value| > 0 then product.value.recipe.value
    else []
  }

  /** The outer loop: the order's lines in order, each consuming its
      product's recipe times the line quantity. */
  function ConsumeLines(l: Ledger, products: seq<Product>, items: seq<OrderItem>, now: string): Consumption {
    Run(l, items, (l': Ledger, line: OrderItem) => ConsumeRecipe(l', LineRecipe(products, line), line.quantity, now))
  }

  /** One more ingredient: consumed from where the recipe so far left
      off, unless that failed. */
  lemma RecipeSnoc(l: Ledger, recipe: seq<RecipeItem>, recipeItem: RecipeItem, quantity: real, now: string)
    ensures var before := ConsumeRecipe(l, recipe, quantity, now);
            ConsumeRecipe(l, recipe + [recipeItem], quantity, now) ==
              if before.failure.Some? then before else ConsumeIngredient(before.ledger, recipeItem, quantity, now)
  {
    assert (recipe + [recipeItem])[..|recipe|] == recipe;
  }

  /** One more line: consumed from where the lines so far left off,
      unless that failed. */
  lemma LinesSnoc(l: Ledger, products: seq<Product>, items: seq<OrderItem>, line: OrderItem, now: string)
    ensures var before := ConsumeLines(l, products, items, now);
            ConsumeLines(l, products, items + [line], now) ==
              if before.failure.Some? then before
              else ConsumeRecipe(before.ledger, LineRecipe(products, line), line.quantity, now)
  {
    assert (items + [line])[..|items|] == items;
  }

  /** A failure part-way through a recipe is the recipe's outcome. */
  lemma RecipeStops(l: Ledger, recipe: seq<RecipeItem>, j: nat, quantity: real, now: string)
    requires j <= |recipe| && ConsumeRecipe(l, recipe[..j], quantity, now).failure.Some?
    ensures ConsumeRecipe(l, recipe, quantity, now) == ConsumeRecipe(l, recipe[..j], quantity, now)
  {
    assert recipe[..j] + recipe[j..] == recipe;
    RunAppend(l, recipe[..j], recipe[j..], (l': Ledger, r: RecipeItem) => ConsumeIngredient(l', r, quantity, now));
  }

  /** A failure part-way through an order is the order's outcome: later
      lines consume nothing, and what was taken out stays out. */
  lemma LinesStop(l: Ledger, products: seq<Product>, items: seq<OrderItem>, i: nat, now: string)
    requires i <= |items| && ConsumeLines(l, products, items[..i], now).failure.Some?
    ensures ConsumeLines(l, products, items, now) == ConsumeLines(l, products, items[..i], now)
  {
    assert items[..i] + items[i..] == items;
    RunAppend(l, items[..i], items[i..],
              (l': Ledger, line: OrderItem) => ConsumeRecipe(l', LineRecipe(products, line), line.quantity, now));
  }

  /** Consumption is sequential: an order's lines are consumed in order,
      each starting from the stock the previous ones left. */
  lemma LinesInOrder(l: Ledger, products: seq<Product>, a: seq<OrderItem>, b: seq<OrderItem>, now: string)
    requires ConsumeLines(l, products, a, now).failure.None?
    ensures ConsumeLines(l, products, a + b, now) ==
            ConsumeLines(ConsumeLines(l, products, a, now).ledger, products, b, now)
  {
    RunAppend(l, a, b, (l': Ledger, line: OrderItem) => ConsumeRecipe(l', LineRecipe(products, line), line.quantity, now));
  }

  /** A line whose product is not in the catalogue, or has no recipe or
      an empty one, consumes nothing. */
  lemma NoRecipeConsumesNothing(l: Ledger, products: seq<Product>, line: OrderItem, now: string)
    requires var product := ProductsStore.FindProduct(products, line.productID);
             product.None? || product.value.recipe.None? || product.value.recipe.value == []
    ensures ConsumeLines(l, products, [line], now) == Consumption(l, None)
  {
    assert LineRecipe(products, line) == [];
    LinesSnoc(l, products, [], line, now);
    assert [] + [line] == [line];
  }

  /** An ingredient whose units do not convert stops consumption with an
      error naming the recipe's unit and the inventory item's unit, each
      defaulting to `units`, and changes no stock. */
  lemma ConversionFailure(l: Ledger, recipeItem: RecipeItem, inventoryItem: Option<InventoryItem>,
                          convertedQuantity: Option<real>, quantity: real, now: string)
    requires inventoryItem.Some? && convertedQuantity.None?
    ensures var c := ApplyIngredient(l, recipeItem, inventoryItem, convertedQuantity, quantity, now);
            c.ledger == l &&
            c.failure == Some(CannotConvertMessage(OrDefault(recipeItem.unit, "units"),
                                                   OrDefault(inventoryItem.value.unit, "units")))
  {
  }

  /** An ingredient that converts is a call of `updateStock` with the
      negated, rounded consumption. */
  lemma ConvertedStep(l: Ledger, recipeItem: RecipeItem, inventoryItem: Option<InventoryItem>,
                      convertedQuantity: Option<real>, quantity: real, now: string)
    requires inventoryItem.Some? && convertedQuantity.Some?
    ensures ApplyIngredient(l, recipeItem, inventoryItem, convertedQuantity, quantity, now) ==
            Consumption(UpdateStockSpec(l, recipeItem.inventoryID, Withdrawal(Round6(convertedQuantity.value * quantity)), now), None)
  {
  }

  /** Taking `consumed` out of a persisted item stores the clamped,
      rounded difference. */
  lemma TakeOut(l: Ledger, id: string, consumed: real, now: string)
    requires id in l.records
    ensures UpdateStockSpec(l, id, Withdrawal(consumed), now).records[id].quantity == StoredStock(l.records[id].quantity - consumed)
  {
  }

  /** An ingredient that converts takes the converted quantity times the
      line quantity, rounded to six places, out of the persisted stock,
      clamping at zero and rounding to cents; nothing is written for an
      item that is cached but not persisted. */
  lemma Decrement(l: Ledger, recipeItem: RecipeItem, inventoryItem: Option<InventoryItem>,
                  convertedQuantity: Option<real>, quantity: real, now: string)
    requires inventoryItem.Some? && convertedQuantity.Some?
    ensures var c := ApplyIngredient(l, recipeItem, inventoryItem, convertedQuantity, quantity, now);
            var id := recipeItem.inventoryID;
            var consumed := Round6(convertedQuantity.value * quantity);
            c.failure.None? &&
            (id in l.records ==> c.ledger.records[id].quantity == StoredStock(l.records[id].quantity - consumed)) &&
            (id !in l.records ==> c.ledger == l)
  {
    ConvertedStep(l, recipeItem, inventoryItem, convertedQuantity, quantity, now);
    if recipeItem.inventoryID in l.records {
      TakeOut(l, recipeItem.inventoryID, Round6(convertedQuantity.value * quantity), now);
    }
  }

  /** Every record keeps its key, and is either untouched or holds a
      stock that is not negative. */
  predicate StockKept(before: Ledger, after: Ledger) {
    after.records.Keys == before.records.Keys &&
    forall k :: k in before.records ==> after.records[k] == before.records[k] || after.records[k].quantity >= 0.0
  }

  /** One ingredient step keeps every record, never leaves a written
      stock negative, and leaves records of other IDs as they were. */
  lemma IngredientKeepsStock(l: Ledger, recipeItem: RecipeItem, inventoryItem: Option<InventoryItem>,
                             convertedQuantity: Option<real>, quantity: real, now: string)
    ensures var after := ApplyIngredient(l, recipeItem, inventoryItem, convertedQuantity, quantity, now).ledger;
            StockKept(l, after) &&
            forall k :: k in l.records && k != recipeItem.inventoryID ==> after.records[k] == l.records[k]
  {
  }

  /** Consuming a whole recipe keeps every record and never leaves a
      written stock negative, whatever the recipe asks for. */
  lemma {:induction false} RecipeKeepsStock(l: Ledger, recipe: seq<RecipeItem>, quantity: real, now: string)
    ensures StockKept(l, ConsumeRecipe(l, recipe, quantity, now).ledger)
    decreases |recipe|
  {
    if recipe != [] {
      var init := recipe[..|recipe| - 1];
      var last := recipe[|recipe| - 1];
      assert recipe == init + [last];
      RecipeKeepsStock(l, init, quantity, now);
      RecipeSnoc(l, init, last, quantity, now);
      var before := ConsumeRecipe(l, init, quantity, now);
      if before.failure.None? {
        IngredientKeepsStock(before.ledger, last, GetInventoryItem(before.ledger.cache, last.inventoryID),
                             ConvertRecipeToInventoryUnit(before.ledger.cache, last), quantity, now);
      }
    }
  }

  /** A record whose ID no ingredient of the recipe names is left
      exactly as it was. */
  lemma {:induction false} RecipeTouchesOnlyIngredients(l: Ledger, recipe: seq<RecipeItem>, quantity: real, now: string,
                                                        k: string)
    requires k in l.records && forall i :: 0 <= i < |recipe| ==> recipe[i].inventoryID != k
    ensures var after := ConsumeRecipe(l, recipe, quantity, now).ledger;
            k in after.records && after.records[k] == l.records[k]
    decreases |recipe|
  {
    if recipe != [] {
      var init := recipe[..|recipe| - 1];
      var last := recipe[|recipe| - 1];
      assert recipe == init + [last];
      RecipeTouchesOnlyIngredients(l, init, quantity, now, k);
      RecipeSnoc(l, init, last, quantity, now);
      var before := ConsumeRecipe(l, init, quantity, now);
      if before.failure.None? {
        IngredientKeepsStock(before.ledger, last, GetInventoryItem(before.ledger.cache, last.inventoryID),
                             ConvertRecipeToInventoryUnit(before.ledger.cache, last), quantity, now);
      }
    }
  }

  /** The example of 200 ml of milk per drink: two drinks on 1000 ml of
      stock leave 600 ml. */
  lemma MilkExample(now: string)
    ensures var milk := InventoryItem("milk", "Milk", None, "dairy", None, 1000.0, Some("ml"), None, None, None, None);
            var l := Ledger(map["milk" := milk], [milk]);
            var c := ConsumeIngredient(l, RecipeItem("milk", 200.0, Some("ml")), 2.0, now);
            c.failure.None? && c.ledger.records["milk"].quantity == 600.0
  {
    var milk := InventoryItem("milk", "Milk", None, "dairy", None, 1000.0, Some("ml"), None, None, None, None);
    var l := Ledger(map["milk" := milk], [milk]);
    var r := RecipeItem("milk", 200.0, Some("ml"));
    assert GetInventoryItem(l.cache, "milk") == Some(milk);
    assert ConvertRecipeToInventoryUnit(l.cache, r) == Some(200.0);
    Decrement(l, r, GetInventoryItem(l.cache, "milk"), ConvertRecipeToInventoryUnit(l.cache, r), 2.0, now);
    Round6OfMicros(400000000);
    assert Round6(200.0 * 2.0) == 400.0;
    Round2OfCents(60000);
    assert StoredStock(1000.0 - 400.0) == 600.0;
  }

  /** The order list is newest first: `timeOf` gives the time an order
      date stands for. */
  predicate NewestFirst(orders: seq<Order>, timeOf: string -> int) {
    forall i, j :: 0 <= i < j < |orders| ==> timeOf(orders[i].orderDate) >= timeOf(orders[j].orderDate)
  }

  /** `order` placed into a list: after every order at least as new as
      it, before the first older one. */
  function Insert(sorted: seq<Order>, order: Order, timeOf: string -> int): (r: seq<Order>)
    ensures multiset(r) == multiset(sorted) + multiset{order}
  {
    if sorted == [] then [order]
    else if timeOf(sorted[0].orderDate) < timeOf(order.orderDate) then [order] + sorted
    else
      assert sorted == [sorted[0]] + sorted[1..];
      [sorted[0]] + Insert(sorted[1..], order, timeOf)
  }

  /** Inserting into a newest-first list keeps it newest first. */
  lemma {:induction false} InsertKeepsOrder(sorted: seq<Order>, order: Order, timeOf: string -> int)
    requires NewestFirst(sorted, timeOf)
    ensures NewestFirst(Insert(sorted, order, timeOf), timeOf)
  {
    if sorted != [] && timeOf(sorted[0].orderDate) >= timeOf(order.orderDate) {
      var rest := Insert(sorted[1..], order, timeOf);
      InsertKeepsOrder(sorted[1..], order, timeOf);
      forall k | 0 <= k < |rest|
        ensures timeOf(rest[k].orderDate) <= timeOf(sorted[0].orderDate)
      {
        assert rest[k] in multiset(rest);
        assert rest[k] in multiset(sorted[1..]) || rest[k] == order;
        if rest[k] != order {
          var m :| 0 <= m < |sorted[1..]| && sorted[1..][m] == rest[k];
          assert sorted[m + 1] == rest[k];
        }
      }
    }
  }

  /** `orders.sort((a, b) => time(b) - time(a))`: the orders newest
      first, the same orders with the same multiplicities. */
  function SortNewestFirst(orders: seq<Order>, timeOf: string -> int): (r: seq<Order>)
    ensures NewestFirst(r, timeOf)
    ensures multiset(r) == multiset(orders)
    decreases |orders|
  {
    if orders == [] then []
    else
      var init := orders[..|orders| - 1];
      assert orders == init + [orders[|orders| - 1]];
      var sortedInit := SortNewestFirst(init, timeOf);
      InsertKeepsOrder(sortedInit, orders[|orders| - 1], timeOf);
      Insert(sortedInit, orders[|orders| - 1], timeOf)
  }

  /** One iteration of the inner loop of `createOrder`: the recipe item
      is looked up and skipped when it is not cached; its quantity is
      converted to the inventory unit, and when that fails the message is
      returned; otherwise the converted quantity times the line quantity,
      rounded to six places, is taken out of stock. */
  method ConsumeRecipeItem(inventory: Inventory, recipeItem: RecipeItem, quantity: real, now: string)
    returns (failure: Option<string>)
    requires inventory.Valid()
    modifies inventory
    ensures inventory.Valid()
    ensures Consumption(inventory.State(), failure) == ConsumeIngredient(old(inventory.State()), recipeItem, quantity, now)
  {
    ghost var before := inventory.State();
    var inventoryItem := GetInventoryItem(inventory.cache, recipeItem.inventoryID);
    if inventoryItem.None? {
      return None;
    }
    var convertedQuantity := ConvertRecipeToInventoryUnit(inventory.cache, recipeItem);
    if convertedQuantity.None? {
      var recipeUnit := OrDefault(recipeItem.unit, "units");
      var inventoryUnit := OrDefault(inventoryItem.value.unit, "units");
      ConversionFailure(before, recipeItem, inventoryItem, convertedQuantity, quantity, now);
      return Some(CannotConvertMessage(recipeUnit, inventoryUnit));
    }
    var totalConsumption := convertedQuantity.value * quantity;
    var roundedConsumption := Round6(totalConsumption);
    ConvertedStep(before, recipeItem, inventoryItem, convertedQuantity, quantity, now);
    var change := Withdrawal(roundedConsumption);
    inventory.UpdateStock(recipeItem.inventoryID, change, now);
    failure := None;
  }

  /** The inner loop of `createOrder`: every item of one product's recipe
      in order, stopping at the first whose units do not convert; the
      message of that error, if any, is returned. */
  method ConsumeProductRecipe(inventory: Inventory, recipe: seq<RecipeItem>, quantity: real, now: string)
    returns (failure: Option<string>)
    requires inventory.Valid()
    modifies inventory
    ensures inventory.Valid()
    ensures Consumption(inventory.State(), failure) == ConsumeRecipe(old(inventory.State()), recipe, quantity, now)
  {
    ghost var start := inventory.State();
    var j := 0;
    while j < |recipe|
      invariant 0 <= j <= |recipe|
      invariant inventory.Valid()
      invariant ConsumeRecipe(start, recipe[..j], quantity, now) == Consumption(inventory.State(), None)
    {
      var recipeItem := recipe[j];
      assert recipe[..j + 1] == recipe[..j] + [recipeItem];
      RecipeSnoc(start, recipe[..j], recipeItem, quantity, now);
      var stepFailure := ConsumeRecipeItem(inventory, recipeItem, quantity, now);
      if stepFailure.Some? {
        RecipeStops(start, recipe, j + 1, quantity, now);
        return stepFailure;
      }
      j := j + 1;
    }
    assert recipe[..j] == recipe;
    failure := None;
  }

  /** The outer loop of `createOrder`: the order's lines in order, each
      consuming the recipe of its product, if it has a non-empty one. */
  method ConsumeOrder(inventory: Inventory, products: seq<Product>, items: seq<OrderItem>, now: string)
    returns (failure: Option<string>)
    requires inventory.Valid()
    modifies inventory
    ensures inventory.Valid()
    ensures Consumption(inventory.State(), failure) == ConsumeLines(old(inventory.State()), products, items, now)
  {
    ghost var start := inventory.State();
    var i := 0;
    while i < |items|
      invariant 0 <= i <= |items|
      invariant inventory.Valid()
      invariant ConsumeLines(start, products, items[..i], now) == Consumption(inventory.State(), None)
    {
      var orderItem := items[i];
      assert items[..i + 1] == items[..i] + [orderItem];
      LinesSnoc(start, products, items[..i], orderItem, now);
      var product := ProductsStore.FindProduct(products, orderItem.productID);
      if product.Some? && product.value.recipe.Some? && |product.value.recipe.value| > 0 {
        var lineFailure := ConsumeProductRecipe(inventory, product.value.recipe.value, orderItem.quantity, now);
        if lineFailure.Some? {
          LinesStop(start, products, items, i + 1, now);
          return lineFailure;
        }
      } else {
        assert LineRecipe(products, orderItem) == [];
      }
      i := i + 1;
    }
    assert items[..i] == items;
    failure := None;
  }

  /** The orders store: the persisted orders, the local list and the last
      error shown. */
  class OrderBook {
    var records: map<string, Order>
    var orders: seq<Order>
    var error: Option<string>

    constructor()
      ensures records == map[] && orders == [] && error == None
    {
      records := map[];
      orders := [];
      error := None;
    }

    /** `fetchOrders`: the error is cleared and the fetched orders become
        the list, newest first. */
    method FetchOrders(fetched: seq<Order>, timeOf: string -> int)
      modifies this
      ensures records == old(records) && error == None
      ensures orders == SortNewestFirst(fetched, timeOf)
    {
      error := None;
      orders := SortNewestFirst(fetched, timeOf);
    }

    /** `createOrder`. `write` is how the storage write of the order ends
        and `products` the catalogue as it stands. When the write fails,
        nothing else happens. Otherwise the order is stored first, then
        consumed line by line; the first ingredient whose units do not
        convert stops consumption with an error, keeping the decrements
        already made; on success the order is put at the front of the
        list. An error is recorded, sanitised, and passed on. */
    method CreateOrder(order: Order, inventory: Inventory, products: seq<Product>, freshKey: string,
                       write: Outcome<Thrown>, now: string) returns (outcome: Outcome<Thrown>)
      requires inventory.Valid()
      modifies this, inventory
      ensures inventory.Valid()
      ensures write.Fail? ==>
                outcome == write && records == old(records) && orders == old(orders) &&
                error == Some(SanitizeError(write.error)) && inventory.State() == old(inventory.State())
      ensures write.Pass? ==>
                var key := StorageKey(order.orderID, freshKey);
                var c := ConsumeLines(old(inventory.State()), products, order.items, now);
                records == old(records)[key := order.(orderID := key)] && inventory.State() == c.ledger &&
                (c.failure.None? ==> outcome == Pass && orders == [order] + old(orders) && error == old(error)) &&
                (c.failure.Some? ==> outcome == Fail(ErrorObject(c.failure.value)) && orders == old(orders) &&
                                     error == Some(SanitizeError(ErrorObject(c.failure.value))))
    {
      if write.Fail? {
        error := Some(SanitizeError(write.error));
        return write;
      }
      var key := StorageKey(order.orderID, freshKey);
      records := records[key := order.(orderID := key)];
      var failure := ConsumeOrder(inventory, products, order.items, now);
      if failure.Some? {
        var thrown := ErrorObject(failure.value);
        error := Some(SanitizeError(thrown));
        return Fail(thrown);
      }
      orders := [order] + orders;
      outcome := Pass;
    }
  }
}
