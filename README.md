# cafeos inventory engine, in Dafny

A model of the recipe-driven inventory engine of the cafeos point-of-sale
system, together with the small list stores and validators around it:

- **Unit conversion** (`UnitConverter`).
  - The fixed table of eighteen units, each with its category (count, volume, weight) and its factor to the base unit of its category.
  - `getUnitCategory`, `areUnitsCompatible` and `convertUnit`.
  - `getBaseUnit` and `convertToInventoryUnit`, with the container rules driven by `piecesPerUnit`.
  - `getTotalBaseQuantity`, and the branch choice of `formatInventoryQuantity`.
- **Inventory ledger** (`InventoryStore`). The class `Inventory` holds two layers:
  - the persisted records, a map from inventory ID to item;
  - the cached `inventory` list.
  It models `addInventoryItem`, `updateStock`, `setStock` and `deleteInventoryItem` as methods. The pure functions `UpdateStockSpec` and `SetStockSpec` specify them. The read operations `getStockLevel`, `getInventoryItem`, `getInventoryItemByName` and `convertRecipeToInventoryUnit` are functions.
- **Product catalogue** (`ProductsStore`). The `isProductAvailable` predicate. The class `Catalogue` with `addProduct`, `updateProduct` and `deleteProduct`. The stored documents are cleaned of undefined properties (`Records`).
- **Checkout** (`OrdersStore`).
  - The consumption loops of `createOrder` are methods over an `Inventory`, each proved equal to a pure fold: `ConsumeIngredient`, `ConsumeRecipe` and `ConsumeLines`.
  - The class `OrderBook` models `createOrder` itself, including the storage write that precedes consumption and the error path.
  - `fetchOrders` sorts the orders newest first.
- **Cart** (`CartStore`): the class `Cart` with `addItem`, `removeItem`, `updateQuantity` and `clearCart`. The line-list functions specify them, and the totals `getTotal` and `getItemCount`.
- **Customer display** (`CustomerDisplay`): subtotal, 8% tax and total, and the join of the cart lines with their products.
- **Error sanitiser** (`ErrorHandler`): `sanitizeError`. This includes a deterministic leftmost matcher for the pattern `/Firebase:\s*Error\s*\(([^)]+)\)/i`.
- **Image validator** (`ImageUtils`): `validateImageFile`.
- **Supplier list** (`SuppliersStore`): the class `SupplierList` with `addSupplier`, `updateSupplier` and `deleteSupplier`.

How values are modelled:

- Numbers are `real`.
- `Math.round(x * k) / k` is `Floor(x * k + 1/2) / k`, which is JavaScript's round-half-up (`Rounding`).
- `toLowerCase` is ASCII lowering (`Text`).
- An absent optional property is `None`. JavaScript's `x || d` on an optional string is `OrDefault`.
- The current time is a parameter `now`, and so are the keys storage would generate (`freshKey`) and how a storage write ends (`write`).

The persisted collections are maps from an item's own ID to its record:

- New records are stored under `item[idField] || pushKey`.
- The store operations find a record by scanning for one whose ID field matches, then test the key found for truthiness.
- Under the invariant that every record sits under its own ID, and none under the empty key (a generated key is never empty), that scan-and-test is exactly `id in records`. Each class states this invariant as `Valid()`, and every method keeps it.

## Model

| member | source | states |
|---|---|---|
| Types.OrDefault | app/utils/unit-converter.ts:116 | `x \|\| d` on an optional string: the string when present and non-empty, the default otherwise |
| Types.StorageKey | app/utils/db-helpers.ts:43 | a new record's key is its own ID when it has one, otherwise the generated key |
| Rounding.ClampZero | app/store/inventory-store.ts:65 | `Math.max(0, x)` is never negative, never below `x`, and is `x` or 0 |
| Rounding.Round | app/store/inventory-store.ts:67 | `Math.round` lies within half a unit of its argument, rounding halves up |
| Rounding.Round2 | app/store/inventory-store.ts:67 | rounding to two decimals moves a value by at most half a cent and lands on the cent grid |
| Rounding.Round6 | app/store/orders-store.ts:72 | rounding to six decimals moves a value by at most half a micro-unit and lands on that grid |
| Rounding.RoundInt | app/store/inventory-store.ts:67 | an integer rounds to itself |
| Rounding.RoundMonotone | app/store/inventory-store.ts:67 | rounding is monotone |
| Rounding.Round2NonNegative | app/store/inventory-store.ts:65-67 | a clamped stock quantity stays non-negative after rounding |
| Rounding.Round2Idempotent | app/utils/unit-converter.ts:231-232 | rounding an already rounded value (the total base quantity rounded again) changes nothing |
| Rounding.Round2OfCents | app/store/inventory-store.ts:67 | values on the cent grid are fixed points of the two-decimal rounding |
| Rounding.Round6OfMicros | app/store/orders-store.ts:72 | values on the micro-unit grid are fixed points of the six-decimal rounding |
| Text.LowerChar | app/utils/unit-converter.ts:84-85 | lowering maps exactly the ASCII capitals to their small letters and leaves no capital |
| Text.Lower | app/utils/unit-converter.ts:84-85 | `toLowerCase` keeps the length and lowers character by character |
| Text.LowerIdempotent | app/utils/unit-converter.ts:65 | lowering twice is lowering once |
| Text.LowerOfLowerCase | app/utils/unit-converter.ts:7-31 | a name without capitals, like every table key, is its own lower case |
| Text.LowerAppend | app/utils/error-handler.ts:24 | lowering distributes over concatenation |
| Lists.Map | app/store/suppliers-store.ts:68-70 | `map` keeps the length and applies the function at every index |
| Lists.Filter | app/store/suppliers-store.ts:96 | `filter` keeps only elements of the input that pass the test, and every element that passes |
| Lists.FilterAppend | app/store/suppliers-store.ts:96 | filtering works element by element, so it keeps relative order |
| Lists.FilterKeepsAll | app/store/cart-store.ts:90 | a filter that every element passes returns its input unchanged |
| Lists.Find | app/store/inventory-store.ts:159 | `find` is `None` exactly when no element passes; otherwise it is an element that passes with none passing before it |
| Lists.FindFirst | app/store/inventory-store.ts:159 | the element found is the first one that passes |
| Lists.FindCongruent | app/store/inventory-store.ts:164 | two tests that agree on every element find the same element |
| Lists.FindMap | app/store/inventory-store.ts:74-80 | finding in a mapped list finds the image of the element found before |
| Lists.FindPointwise | app/store/inventory-store.ts:74-80 | tests that agree index by index on two lists of equal length stop at the same index |
| Lists.FilterCongruent | app/customer-display/page.tsx:50 | two tests that agree on every element filter alike |
| Records.Keys | app/utils/db-helpers.ts:27 | the property names are exactly those of the object's properties |
| Records.Get | app/utils/db-helpers.ts:28 | reading a property gives its value, or `undefined` when the object lacks it |
| Records.Defined | app/utils/db-helpers.ts:25-33 | the cleaned document holds a property exactly when its value is defined, with that value |
| Records.GetSnoc | app/utils/db-helpers.ts:27-31 | reading an object with one more, new property reads that property or the old object |
| Records.DefinedSnoc | app/utils/db-helpers.ts:27-31 | cleaning one more, new property adds it exactly when it is defined |
| Records.RemoveUndefined | app/utils/db-helpers.ts:25-33 | the cleaning loop builds the document holding exactly the defined properties |
| UnitConverter.TableWellFormed | app/utils/unit-converter.ts:35-59 | every unit of the table has a name and a positive factor |
| UnitConverter.CategoryTable | app/utils/unit-converter.ts:7-59 | eighteen units: six count units with factor 1, then eight volume and four weight units |
| UnitConverter.TableNamesDistinct | app/utils/unit-converter.ts:7-31 | no two table entries share a name |
| UnitConverter.Lookup | app/utils/unit-converter.ts:65 | the entry found carries the name asked for and a positive factor; `None` means no entry has that name |
| UnitConverter.Resolve | app/utils/unit-converter.ts:65 | a unit is looked up by its lower case; a unit found is non-empty and has a positive factor |
| UnitConverter.ResolveEntry | app/utils/unit-converter.ts:7-31 | every table unit is recognised under its own name |
| UnitConverter.TableNamesLowerCase | app/utils/unit-converter.ts:7-31 | every table name is already lower case, so lowering it changes nothing |
| UnitConverter.ResolveIgnoresCase | app/utils/unit-converter.ts:84-85 | units equal up to case resolve alike |
| UnitConverter.GetUnitCategory | app/utils/unit-converter.ts:64-66 | a category exactly for the units of the table, and then the unit's own category |
| UnitConverter.CategoryIgnoresCase | app/utils/unit-converter.ts:64-66 | the category does not depend on the case of the unit |
| UnitConverter.AreUnitsCompatible | app/utils/unit-converter.ts:71-75 | defines compatibility: the first unit has a category and the second has the same one (its properties are stated by CompatibilityProperties) |
| UnitConverter.CompatibilityProperties | app/utils/unit-converter.ts:71-75 | compatible iff both units have a category and the categories are equal; symmetric; false when either is unknown |
| UnitConverter.KnownRoundTrip | app/utils/unit-converter.ts:104-105 | scaling between two units there and back is the identity |
| UnitConverter.KnownSelf | app/utils/unit-converter.ts:104-105 | scaling a unit to itself is the identity |
| UnitConverter.KnownZero | app/utils/unit-converter.ts:104-105 | only zero scales to zero |
| UnitConverter.KnownLinear | app/utils/unit-converter.ts:104-105 | scaling is linear in the value |
| UnitConverter.KnownCompose | app/utils/unit-converter.ts:104-105 | scaling u to v and then v to w is scaling u to w |
| UnitConverter.ConvertUnit | app/utils/unit-converter.ts:81-106 | `None` for an empty unit; the value itself for units equal up to case, known or not; otherwise a result exactly when the units are compatible, and then value times factor over factor |
| UnitConverter.IncompatibleNeverConverts | app/utils/unit-converter.ts:91-101 | units of different categories, or with an unknown unit, never convert, unless equal up to case |
| UnitConverter.SameUnitKeepsValue | app/utils/unit-converter.ts:82-88 | units equal up to case give back the value even when they are not in the table |
| UnitConverter.ConvertRoundTrip | app/utils/unit-converter.ts:81-106 | between compatible units, converting there and back returns the value exactly |
| UnitConverter.ConvertCompose | app/utils/unit-converter.ts:81-106 | compatibility is transitive, and converting a to b to c is converting a to c |
| UnitConverter.ConvertZero | app/utils/unit-converter.ts:201-202 | a conversion that gives 0 was of 0, so the falsy fallback never replaces a different result |
| UnitConverter.GetBaseUnit | app/utils/unit-converter.ts:112-117 | the declared base unit when non-empty, else the stocking unit, else "units"; never empty |
| UnitConverter.StockingUnit | app/utils/unit-converter.ts:132 | defines an item's stocking unit: its unit, or "units" when it has none |
| UnitConverter.HasPiecesPerUnit | app/utils/unit-converter.ts:147 | defines when `piecesPerUnit` is truthy: present and not zero |
| UnitConverter.ContainerConvert | app/utils/unit-converter.ts:150-173 | defines the container arithmetic: pieces to containers divides by the container size, containers to pieces multiplies, otherwise both sides go through pieces (its cases are stated by ContainerConvertCases) |
| UnitConverter.ContainerConvertCases | app/utils/unit-converter.ts:150-173 | pieces become quantity/ppu containers, containers become quantity·ppu pieces, and container to container keeps the quantity |
| UnitConverter.ConvertToInventoryUnit | app/utils/unit-converter.ts:123-178 | absent units default to "units"; the quantity itself when the units are equal up to case; `None` when they are incompatible |
| UnitConverter.ContainerRules | app/utils/unit-converter.ts:147-174 | a count recipe unit with a non-zero container size follows the container rules |
| UnitConverter.LinearFallback | app/utils/unit-converter.ts:176-177 | without a container size, or for volume and weight, the result is `convertUnit` |
| UnitConverter.PiecesAndBags | app/utils/unit-converter.ts:9-12 | pieces and bags are count units, in any spelling, and compatible |
| UnitConverter.ResolvePieces | app/utils/unit-converter.ts:9 | "pieces" is the first count unit |
| UnitConverter.ResolveBags | app/utils/unit-converter.ts:12 | "bags" and "Bags" are the bag unit |
| UnitConverter.PiecesToBagsRule | app/utils/unit-converter.ts:150-155 | 150 pieces of an item stocked in bags of 100 take the pieces-to-containers rule |
| UnitConverter.PiecesToBagsExample | app/utils/unit-converter.ts:150-155 | 150 pieces with 100 pieces a bag is 1.5 bags |
| UnitConverter.BagsToPiecesRule | app/utils/unit-converter.ts:157-162 | two "Bags" of an item stocked in pieces take the containers-to-pieces rule |
| UnitConverter.BagsToPiecesExample | app/utils/unit-converter.ts:157-162 | two bags of 100 pieces are 200 pieces |
| UnitConverter.GetTotalBaseQuantity | app/utils/unit-converter.ts:184-208 | always on the cent grid; stock kept in the base unit comes back within rounding of the quantity |
| UnitConverter.BaseQuantity | app/utils/unit-converter.ts:184-204 | defines the unrounded base quantity: the stock as is in the base unit, times the container size for a count unit with a container, else converted (falling back to the stock when the conversion is missing or zero); its branches are stated by BaseQuantityInBase, BaseQuantityContainers and BaseQuantityConverted |
| UnitConverter.BaseQuantityInBase | app/utils/unit-converter.ts:192-193 | stock kept in its base unit is already the base quantity |
| UnitConverter.BaseQuantityContainers | app/utils/unit-converter.ts:196-198 | a count unit with a container size gives quantity times the container size |
| UnitConverter.BaseQuantityConverted | app/utils/unit-converter.ts:199-203 | otherwise the `convertUnit` result, or the quantity when the units do not convert |
| UnitConverter.FormatInventoryQuantity | app/utils/unit-converter.ts:214-234 | shows the rounded quantity; shows both units exactly when a base unit and a container size are declared and the stock is not in the base unit, and then the stocking unit with the rounded total in the base unit; otherwise one unit: the stocking unit ("units" when absent) without a declared base unit or container size, and the declared base unit's own spelling when the stock is already in it |
| InventoryStore.StoredStock | app/store/inventory-store.ts:64-67 | the stored stock is never negative and on the cent grid; 0 for a non-positive request, otherwise within rounding of it |
| InventoryStore.Restock | app/store/inventory-store.ts:68-71 | a write sets quantity and timestamp and keeps every other field |
| InventoryStore.RestockCache | app/store/inventory-store.ts:74-80 | the cache keeps its length and order; only entries with the ID take the new quantity and timestamp |
| InventoryStore.Write | app/store/inventory-store.ts:63-80 | a stock write restocks the record with the ID, leaves every other record, keeps the keys and restocks the cache alike |
| InventoryStore.UpdateStockSpec | app/store/inventory-store.ts:52-87 | no change at all without a record for the ID; otherwise a write of the clamped, rounded persisted stock plus the change |
| InventoryStore.SetStockSpec | app/store/inventory-store.ts:89-123 | no change at all without a record for the ID; otherwise a write of the clamped, rounded quantity, whatever the stock was |
| InventoryStore.UpdateStockNeverNegative | app/store/inventory-store.ts:64-80 | after `updateStock` the record and every cache entry with the ID hold the same non-negative stock |
| InventoryStore.UpdateIsSetOfSum | app/store/inventory-store.ts:64 | `updateStock` by a change is `setStock` to the persisted (not the cached) stock plus the change |
| InventoryStore.WriteIsLocal | app/store/inventory-store.ts:74-80 | a write changes only quantity and timestamp, and only of entries with the ID |
| InventoryStore.SetStockIdempotent | app/store/inventory-store.ts:89-116 | repeating the same `setStock` call gives the same state |
| InventoryStore.WriteKeepsKeys | app/store/inventory-store.ts:68-71 | stock writes keep every record under its own ID |
| InventoryStore.GetStockLevel | app/store/inventory-store.ts:151-155 | the first cached item's quantity, or 0 when no item has the ID |
| InventoryStore.GetInventoryItem | app/store/inventory-store.ts:157-160 | `None` exactly when no cached item has the ID; otherwise the first that does |
| InventoryStore.GetInventoryItemByName | app/store/inventory-store.ts:162-165 | the first cached item whose name equals the given one up to case |
| InventoryStore.ByNameIgnoresCase | app/store/inventory-store.ts:164 | the search by name does not depend on the case of the name asked for |
| InventoryStore.ConvertRecipeToInventoryUnit | app/store/inventory-store.ts:167-180 | `None` when the item is not cached, otherwise exactly `convertToInventoryUnit` on the cached item |
| InventoryStore.WriteKeepsLookup | app/store/inventory-store.ts:74-80 | after a stock write a lookup finds an item exactly when it did before, with the same units |
| InventoryStore.WriteKeepsConversions | app/store/inventory-store.ts:167-180 | a stock write does not change what any recipe item converts to |
| InventoryStore.UnitsOnly | app/utils/unit-converter.ts:123-178 | the conversion reads only the units and container size of the item, never its stock |
| InventoryStore.Inventory.constructor | app/store/inventory-store.ts:24 | an empty store, with the invariant holding |
| InventoryStore.Inventory.AddInventoryItem | app/store/inventory-store.ts:38-50 | the item is stored under its key with that key as its ID, and appended as given to the cache |
| InventoryStore.Inventory.UpdateStock | app/store/inventory-store.ts:52-87 | the new state is `UpdateStockSpec` of the old one; the invariant holds |
| InventoryStore.Inventory.SetStock | app/store/inventory-store.ts:89-123 | the new state is `SetStockSpec` of the old one, whatever the reason; the invariant holds |
| InventoryStore.Inventory.DeleteInventoryItem | app/store/inventory-store.ts:125-149 | nothing changes without a record; otherwise the record goes and the cache loses exactly the entries with the ID, keeping order |
| InventoryStore.DeleteKeepsLookups | app/store/inventory-store.ts:141 | after a delete nothing with the ID is found, and any other ID finds what it found before |
| ProductsStore.FindProduct | app/store/orders-store.ts:44 | `None` exactly when no product has the ID, otherwise the first product of the list with the ID |
| ProductsStore.IngredientAvailable | app/store/products-store.ts:110-124 | defines one recipe item as available: its item is cached, its quantity converts, and the stock covers the converted quantity |
| ProductsStore.IsProductAvailable | app/store/products-store.ts:102-125 | defines availability: no recipe or an empty one, or every recipe item available (stated by AvailableIff and NoRecipeAlwaysAvailable) |
| ProductsStore.NoRecipeAlwaysAvailable | app/store/products-store.ts:103-105 | a product without a recipe, or with an empty one, is available at any stock, none included |
| ProductsStore.AvailableIff | app/store/products-store.ts:102-125 | available iff every ingredient is cached, converts, and its stock covers the converted quantity; an uncached or unconvertible ingredient makes it unavailable |
| ProductsStore.IngredientMonotone | app/store/products-store.ts:110-124 | raising stock keeps an ingredient available |
| ProductsStore.AvailabilityMonotone | app/store/products-store.ts:123 | raising stock never makes an available product unavailable |
| ProductsStore.WithRecipe | app/store/products-store.ts:51 | `{ ...product, recipe }` sets the recipe and keeps every other field |
| ProductsStore.ProductObject | app/store/products-store.ts:78-85 | defines the product as the object written to storage, an absent recipe or image being `undefined` before cleaning |
| ProductsStore.ProductObjectDistinct | app/store/products-store.ts:81-85 | a product object has each property once |
| ProductsStore.ProductObjectKeys | app/types/product.ts:3-37 | a product object has exactly the product's seven properties |
| ProductsStore.ProductObjectReads | app/types/product.ts:3-37 | each property of a product object reads as the product's field, `undefined` when absent |
| ProductsStore.ProductDocumentFields | app/store/products-store.ts:80-86 | the stored document holds exactly the defined fields of the product with its recipe |
| ProductsStore.ProductDocumentID | app/utils/db-helpers.ts:45 | the stored document carries the product's ID |
| ProductsStore.ReplaceProduct | app/store/products-store.ts:89-93 | every product with the ID is replaced, the others stay in place, the length is kept |
| ProductsStore.Catalogue.constructor | app/store/products-store.ts:24 | an empty catalogue, with the invariant holding |
| ProductsStore.Catalogue.AddProduct | app/store/products-store.ts:49-62 | the recipe defaults to `[]`; the cleaned product is stored under its key and the product with its recipe is appended |
| ProductsStore.Catalogue.UpdateProduct | app/store/products-store.ts:64-100 | nothing changes without a record; otherwise the cleaned product with its recipe is stored and replaces every cached product with the ID |
| ProductsStore.Catalogue.DeleteProduct | app/store/products-store.ts:139-163 | nothing changes without a record; otherwise the record goes and the list loses exactly the products with the ID, keeping order |
| OrdersStore.Run | app/store/orders-store.ts:43-77 | defines the shape of both loops: steps in order, each from the ledger the last left, stopping after the first failure (stated by RunAppend) |
| OrdersStore.RunAppend | app/store/orders-store.ts:43-48 | running two lists of steps is running the first and, unless it failed, the second from where it left off |
| OrdersStore.ApplyIngredient | app/store/orders-store.ts:49-74 | an uncached ingredient is skipped without change |
| OrdersStore.ApplyIngredientOutcomes | app/store/orders-store.ts:49-74 | the step fails exactly when the item is cached and its quantity does not convert; a failed step leaves the ledger as it was; a converted step is `updateStock` of the negated product of the converted and line quantities, rounded to six places |
| OrdersStore.CannotConvertMessage | app/store/orders-store.ts:62-65 | defines the error text naming the recipe unit and the stocking unit |
| OrdersStore.ConsumeIngredient | app/store/orders-store.ts:49-74 | defines one step of the inner loop: the item looked up in the cache, the quantity converted, then ApplyIngredient |
| OrdersStore.ConsumeRecipe | app/store/orders-store.ts:48-75 | defines the inner loop as Run over the recipe items |
| OrdersStore.ConsumeLines | app/store/orders-store.ts:43-77 | defines the outer loop as Run over the order lines, each consuming its line's recipe times the line quantity |
| OrdersStore.LineRecipe | app/store/orders-store.ts:44-46 | an order line consumes the recipe of the first product with its ID, and nothing without one |
| OrdersStore.RecipeSnoc | app/store/orders-store.ts:48 | one more ingredient is consumed from where the recipe so far left off, unless it failed |
| OrdersStore.LinesSnoc | app/store/orders-store.ts:43 | one more line is consumed from where the lines so far left off, unless they failed |
| OrdersStore.RecipeStops | app/store/orders-store.ts:62 | a failure part-way through a recipe is the recipe's outcome |
| OrdersStore.LinesStop | app/store/orders-store.ts:62 | a failure part-way through an order is the order's outcome, later lines consuming nothing |
| OrdersStore.LinesInOrder | app/store/orders-store.ts:43-77 | consuming a + b is consuming a and then b from the ledger a left |
| OrdersStore.NoRecipeConsumesNothing | app/store/orders-store.ts:44-46 | a line whose product is missing or has no recipe, or an empty one, consumes nothing |
| OrdersStore.ConversionFailure | app/store/orders-store.ts:59-66 | an unconvertible ingredient changes nothing more and fails with the message naming both units, each defaulting to "units" |
| OrdersStore.ConvertedStep | app/store/orders-store.ts:69-74 | a convertible ingredient is an `updateStock` of minus the six-decimal rounding of converted quantity times line quantity |
| OrdersStore.TakeOut | app/store/inventory-store.ts:64-67 | taking an amount out stores the clamped, rounded difference |
| OrdersStore.Decrement | app/store/orders-store.ts:69-74 | a convertible ingredient never fails; it stores the persisted stock minus the rounded consumption, clamped and rounded, and changes nothing when the item is cached but not persisted |
| OrdersStore.IngredientKeepsStock | app/store/orders-store.ts:74 | one ingredient step keeps every record and leaves written stock non-negative |
| OrdersStore.RecipeKeepsStock | app/store/orders-store.ts:48-75 | consuming a recipe keeps every record and leaves written stock non-negative |
| OrdersStore.RecipeTouchesOnlyIngredients | app/store/orders-store.ts:48-75 | a record that no ingredient of the recipe names is left unchanged |
| OrdersStore.MilkExample | app/store/orders-store.ts:69-74 | 200 ml of milk per drink, two drinks, on 1000 ml of stock, leaves 600 ml |
| OrdersStore.NewestFirst | app/store/orders-store.ts:26-28 | defines newest first: no order is older than one after it, as the comparator orders them |
| OrdersStore.Insert | app/store/orders-store.ts:26-28 | inserting adds exactly the order to the list's multiset |
| OrdersStore.InsertKeepsOrder | app/store/orders-store.ts:26-28 | inserting into a newest-first list keeps it newest first |
| OrdersStore.SortNewestFirst | app/store/orders-store.ts:26-28 | the sorted list is newest first and a permutation of the fetched orders |
| OrdersStore.ConsumeRecipeItem | app/store/orders-store.ts:49-74 | one inner-loop iteration changes the ledger exactly as `ConsumeIngredient` says and reports its failure |
| OrdersStore.ConsumeProductRecipe | app/store/orders-store.ts:48-75 | the inner loop ends in the ledger and failure of the recipe's fold |
| OrdersStore.ConsumeOrder | app/store/orders-store.ts:43-77 | the outer loop ends in the ledger and failure of the order's fold |
| OrdersStore.OrderBook.constructor | app/store/orders-store.ts:17-19 | an empty order book without an error |
| OrdersStore.OrderBook.FetchOrders | app/store/orders-store.ts:21-33 | the error is cleared and the orders become the fetched ones, newest first |
| OrdersStore.OrderBook.CreateOrder | app/store/orders-store.ts:35-87 | a failed write changes nothing but the error; otherwise the order is stored before consumption; on success it is prepended; a failed conversion keeps decrements made, leaves the list, records the sanitised error and rethrows |
| CartStore.Total | app/store/cart-store.ts:123-126 | defines the total: the sum of price at sale times quantity over the lines (stated by TotalAppend) |
| CartStore.ItemCount | app/store/cart-store.ts:128-131 | defines the item count: the sum of the quantities (stated by TotalAppend) |
| CartStore.TotalAppend | app/store/cart-store.ts:123-131 | total and item count add up over concatenation |
| CartStore.TotalPartition | app/customer-display/page.tsx:32 | the total splits into the lines a test keeps and those it drops |
| CartStore.Increment | app/store/cart-store.ts:36 | one more unit, every other field kept |
| CartStore.AddLine | app/store/cart-store.ts:30-46 | an existing product's line gains one unit, others unchanged; a new product gets a line of one unit at the product's price, appended |
| CartStore.RemoveLines | app/store/cart-store.ts:61-65 | no line of the product remains and every other line does |
| CartStore.Adjust | app/store/cart-store.ts:83-89 | the product's line moves by delta but not below zero; other lines are untouched |
| CartStore.UpdateLines | app/store/cart-store.ts:80-93 | every remaining line has a positive quantity and is an adjusted line, and every adjusted line with a positive quantity remains |
| CartStore.AbsentQuantity | app/store/cart-store.ts:128-131 | a product without a line has no quantity |
| CartStore.UniqueQuantity | app/store/cart-store.ts:128-131 | with one line per product, the product's quantity is that line's |
| CartStore.IncrementCount | app/store/cart-store.ts:34-38 | incrementing the product's lines raises the count by one per line |
| CartStore.RemoveCount | app/store/cart-store.ts:61-65 | removing the product's lines lowers the count by their quantity |
| CartStore.AddRaisesCount | app/store/cart-store.ts:30-46 | `addItem` raises the item count by exactly one |
| CartStore.RemoveLowersCount | app/store/cart-store.ts:61-65 | `removeItem` lowers the item count by the removed line's quantity, or not at all |
| CartStore.AddKeepsUnique | app/store/cart-store.ts:32-43 | `addItem` keeps one line per product and every existing price |
| CartStore.FilterKeepsUnique | app/store/cart-store.ts:63 | filtering keeps one line per product |
| CartStore.UpdateKeepsUnique | app/store/cart-store.ts:82-90 | `updateQuantity` and `removeItem` keep one line per product |
| CartStore.Cart.constructor | app/store/cart-store.ts:25 | an empty cart, which keeps the one-line-per-product invariant `Valid` |
| CartStore.Cart.AddItem | app/store/cart-store.ts:30-46 | the lines become `AddLine` of the old lines; one line per product is kept |
| CartStore.Cart.RemoveItem | app/store/cart-store.ts:61-65 | the lines become `RemoveLines` of the old lines; one line per product is kept |
| CartStore.Cart.UpdateQuantity | app/store/cart-store.ts:80-93 | the lines become `UpdateLines` of the old lines; one line per product is kept |
| CartStore.Cart.ClearCart | app/store/cart-store.ts:108-109 | no lines, total 0, count 0; the invariant holds |
| CustomerDisplay.ComputeTotals | app/customer-display/page.tsx:31-40 | subtotal is the cart total over every line, total is 1.08 times it and the tax their difference; all zero for an empty cart |
| CustomerDisplay.TotalsNonNegative | app/customer-display/page.tsx:31-40 | non-negative prices and quantities give a non-negative subtotal and tax |
| CustomerDisplay.ItemsWithProducts | app/customer-display/page.tsx:43-51 | every displayed line carries a product, the one the catalogue lookup finds for its ID |
| CustomerDisplay.HasProduct | app/customer-display/page.tsx:45-50 | defines a displayed line: a catalogue product has the line's product ID |
| CustomerDisplay.LineItems | app/customer-display/page.tsx:43-51 | the lines' items, index by index |
| CustomerDisplay.DisplayedLines | app/customer-display/page.tsx:43-51 | the displayed lines are exactly the cart lines with a product, in cart order |
| CustomerDisplay.TotalsIncludeMissing | app/customer-display/page.tsx:31-51 | the subtotal is the displayed lines' total plus that of the lines whose product is missing |
| CustomerDisplay.LineTotal | app/customer-display/page.tsx:74 | a line's amount is its quantity times its price, its share of the total |
| ErrorHandler.AuthMessage | app/utils/error-handler.ts:30-55 | every authentication code gets one of the fixed messages |
| ErrorHandler.AuthFallback | app/utils/error-handler.ts:53-54 | exactly the unknown codes get the authentication fallback |
| ErrorHandler.SkipSpace | app/utils/error-handler.ts:20 | `\s*` runs to the first character that is not white space |
| ErrorHandler.SkipToParen | app/utils/error-handler.ts:20 | `[^)]*` runs to the first `)` |
| ErrorHandler.MatchAt | app/utils/error-handler.ts:20 | a capture is non-empty and holds no `)` |
| ErrorHandler.FirstFrom | app/utils/error-handler.ts:21 | a scan is `None` exactly when every attempt fails |
| ErrorHandler.FirstFromLeftmost | app/utils/error-handler.ts:21 | a scan finds the leftmost successful attempt |
| ErrorHandler.FirstMatch | app/utils/error-handler.ts:21 | `match` fails exactly when no position matches, otherwise captures at the leftmost match |
| ErrorHandler.MessageOf | app/utils/error-handler.ts:8-17 | only a value that is neither an Error, a string nor an object with a message has no text |
| ErrorHandler.CodeMessage | app/utils/error-handler.ts:24-64 | a matched code gets one of the fixed messages |
| ErrorHandler.TextMessage | app/utils/error-handler.ts:67-81 | unmatched text gets one of the fixed messages |
| ErrorHandler.SanitizeError | app/utils/error-handler.ts:6-82 | always one of the fixed messages, so never the raw text; the generic message for a value without text |
| ErrorHandler.MatchedCodes | app/utils/error-handler.ts:23-64 | a matched code is lowered; `auth/` codes go through the table, `database/` or `permission-denied` codes get the permissions message, others the generic one |
| ErrorHandler.UnmatchedFirebaseIsGeneric | app/utils/error-handler.ts:68-70 | unmatched text mentioning firebase in any case is generic, even if it mentions the network |
| ErrorHandler.UnmatchedText | app/utils/error-handler.ts:73-81 | other text mentioning network, fetch or connection in any case gets the network message, anything else the generic one |
| ErrorHandler.CanonicalMatch | app/utils/error-handler.ts:20-21 | the pattern matches Firebase's own rendering `Firebase: Error (code)` and captures the code |
| ErrorHandler.AuthErrorMessage | app/utils/error-handler.ts:20-55 | a rendered authentication error gets the table's message for its lowered code |
| ImageUtils.ValidateImageFile | app/utils/image-utils.ts:12-22 | a type not starting with `image/` is rejected as not an image; an image over 5 MiB is rejected as too large |
| ImageUtils.ValidIff | app/utils/image-utils.ts:12-22 | valid iff the type starts with `image/` and the size is at most 5242880, and valid iff no error |
| ImageUtils.TypeCheckedFirst | app/utils/image-utils.ts:13-19 | a non-image that is also too large reports the type error |
| ImageUtils.LimitInclusive | app/utils/image-utils.ts:17 | exactly 5 MiB is accepted and one byte more is not |
| SuppliersStore.SupplierObject | app/store/suppliers-store.ts:58-63 | defines the supplier as the object written to storage, an absent name or contact being `undefined` before cleaning |
| SuppliersStore.SupplierObjectDistinct | app/store/suppliers-store.ts:59-63 | a supplier object has each property once |
| SuppliersStore.SupplierDocumentFields | app/store/suppliers-store.ts:58-63 | the stored document holds the ID, and the name and contact details exactly when present |
| SuppliersStore.ReplaceSupplier | app/store/suppliers-store.ts:67-71 | every supplier with the ID is replaced, others stay in place, the length is kept |
| SuppliersStore.RemoveSupplier | app/store/suppliers-store.ts:95-97 | no supplier with the ID remains and every other one does |
| SuppliersStore.RemoveKeepsOrder | app/store/suppliers-store.ts:95-97 | deleting works element by element, so it keeps order |
| SuppliersStore.StoreKeepsKeyed | app/store/suppliers-store.ts:64 | storing a supplier's document under its ID keeps every document under its own ID |
| SuppliersStore.SupplierList.constructor | app/store/suppliers-store.ts:19-21 | an empty list, with the invariant holding |
| SuppliersStore.SupplierList.AddSupplier | app/store/suppliers-store.ts:33-43 | a failed write leaves list and records, records the sanitised error and rethrows; otherwise the cleaned supplier is stored and appended |
| SuppliersStore.SupplierList.UpdateSupplier | app/store/suppliers-store.ts:45-78 | nothing changes without a record; otherwise the cleaned supplier is stored and replaces every cached supplier with the ID |
| SuppliersStore.SupplierList.DeleteSupplier | app/store/suppliers-store.ts:80-104 | nothing changes without a record; otherwise the record goes and so does every cached supplier with the ID |

## Left out

- Firebase reads and writes are abstract. The persisted collections are maps, push-generated keys are a parameter, and a write either happens or (for `addSupplier` and `createOrder`) ends as the `write` parameter says. A failing storage read, or a failing write in the other operations, is not modelled.
- OrdersStore.OrderBook.FetchOrders: the orders `fetchOrders` reads from storage are its parameter `fetched`; the contract does not tie them to the orders the book has stored in `records`, because the storage read is abstract.
- The lookup of a persisted record by scanning the collection is modelled as `id in records`, under the invariant that every record sits under its own ID and none under the empty key.
- The `typeof window === 'undefined'` early returns: the model assumes it runs in the browser.
- The `snapshot.exists()` checks: an empty collection is an empty map, where no record is found anyway.
- Concurrency: calls are sequential, so the lost update between two terminals' `updateStock` calls is not modelled.
- Timestamps are a parameter `now`. The two `new Date()` calls of a stock write, one for the record and one for the cache, are taken as the same instant.
- The cart's broadcast to Firebase (`setPath`, `subscribeToCart`, `isSyncing`, the timers) is pub/sub and timing, and is left out. Only the local line list is modelled.
- Floating point: numbers are reals, so there is no IEEE drift and no NaN. As a consequence `quantity || 0` on a required number is the quantity itself.
- `toLowerCase` lowers ASCII letters only; Unicode case mapping is left out.
- The sanitiser's regular expression is a concrete leftmost matcher for this one pattern, not a regular-expression engine.
- Unit names JavaScript would find on `Object.prototype` (such as "constructor") are not in the modelled table, which is an explicit list of the eighteen units.
- Number-to-text rendering in `formatInventoryQuantity` is left out. The model returns the numbers and units it would show.
- `convertToBase64` uses the browser's FileReader and is left out.
- Order dates are read by a parameter `timeOf`, standing for `new Date(d).getTime()`. The stability of JavaScript's sort is not stated. The proved properties are that the result is newest first and a permutation of the fetched orders.
- Orders are stored as values; the undefined-property cleaning of an order document is not modelled.
- The loading flags and `console` output are left out.
- Fetch operations other than `fetchOrders` (inventory, products, categories, suppliers) and `addCategory` are left out: they copy storage into the cache.
- Discounts, cash tender and change are not computed by any modelled code, so they are not modelled.
- Supplier records are the ID, the name and the contact details, as the suppliers page builds them. The supplier type definition is not part of this model.
- UnitConverter.GetTotalBaseQuantity: its own contract states only the rounding and the base-unit case. The three branches are stated by BaseQuantityInBase, BaseQuantityContainers and BaseQuantityConverted about the unrounded base quantity.
- UnitConverter.ConvertToInventoryUnit: its own contract states the defaults, the equal-unit and the incompatible cases. The container and linear branches are stated by ContainerRules and LinearFallback.
