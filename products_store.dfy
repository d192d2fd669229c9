/** The product catalogue: the availability test that checks a product's
    recipe against the cached inventory, and the add/replace/delete
    operations on the persisted documents and the cached `products` list. */
module ProductsStore {
  import opened Wrappers
  import opened Types
  import opened Lists
  import opened Records
  import opened UnitConverter
  import opened InventoryStore

  /** `products.find(p => p.productID === productID)`: the first
      catalogue product with the ID. */
  function FindProduct(products: seq<Product>, productID: string): (r: Option<Product>)
    ensures r.None? <==> forall i :: 0 <= i < |products| ==> products[i].productID != productID
    ensures r.Some? ==> r.value in products && r.value.productID == productID
    ensures r.Some? ==> exists i :: 0 <= i < |products| && products[i] == r.value &&
                                    forall j :: 0 <= j < i ==> products[j].productID != productID
  {
    Find(products, (p: Product) => p.productID == productID)
  }

  /** One recipe item can be made from the cached inventory: its item is
      cached, its quantity converts into the item's stocking unit, and the
      stock covers the converted quantity. */
  predicate IngredientAvailable(cache: seq<InventoryItem>, recipeItem: RecipeItem) {
    var inventoryItem := GetInventoryItem(cache, recipeItem.inventoryID);
    if inventoryItem.None? then false
    else
      var convertedQuantity := ConvertRecipeToInventoryUnit(cache, recipeItem);
      if convertedQuantity.None? then false
      else inventoryItem.value.quantity >= convertedQuantity.value
  }

  /** `isProductAvailable`: a product without a recipe, or with an empty
      one, is always available; otherwise every recipe item must be
      available. */
  predicate IsProductAvailable(product: Product, cache: seq<InventoryItem>) {
    if product.recipe.None? || |product.recipe.value| == 0 then true
    else forall i :: 0 <= i < |product.recipe.value| ==> IngredientAvailable(cache, product.recipe.value[i])
  }

  /** A product without a recipe is available even with nothing in stock. */
  lemma NoRecipeAlwaysAvailable(product: Product, cache: seq<InventoryItem>)
    requires product.recipe.None? || product.recipe.value == []
    ensures IsProductAvailable(product, cache)
  {
  }

  /** Availability spelled out: the product is available exactly when
      every recipe item's inventory item is cached, its conversion
      succeeds, and the cached stock is at least the converted quantity.
      An uncached item or a failed conversion makes the product
      unavailable. */
  lemma AvailableIff(product: Product, cache: seq<InventoryItem>)
    requires product.recipe.Some? && product.recipe.value != []
    ensures IsProductAvailable(product, cache) <==>
              forall i :: 0 <= i < |product.recipe.value| ==>
                var r := product.recipe.value[i];
                GetInventoryItem(cache, r.inventoryID).Some? &&
                ConvertRecipeToInventoryUnit(cache, r).Some? &&
                GetInventoryItem(cache, r.inventoryID).value.quantity >= ConvertRecipeToInventoryUnit(cache, r).value
    ensures (exists i :: 0 <= i < |product.recipe.value| &&
              (GetInventoryItem(cache, product.recipe.value[i].inventoryID).None? ||
               ConvertRecipeToInventoryUnit(cache, product.recipe.value[i]).None?)) ==>
              !IsProductAvailable(product, cache)
  {
  }

  /** `more` holds the same items as `cache`, in the same order, each
      with at least as much stock. */
  predicate MoreStock(cache: seq<InventoryItem>, more: seq<InventoryItem>) {
    |more| == |cache| &&
    forall i :: 0 <= i < |cache| ==>
      more[i] == cache[i].(quantity := more[i].quantity) && more[i].quantity >= cache[i].quantity
  }

  /** Raising stock keeps an available recipe item available. */
  lemma {:induction false} IngredientMonotone(cache: seq<InventoryItem>, more: seq<InventoryItem>, r: RecipeItem)
    requires MoreStock(cache, more) && IngredientAvailable(cache, r)
    ensures IngredientAvailable(more, r)
  {
    var p := (item: InventoryItem) => item.inventoryID == r.inventoryID;
    FindPointwise(cache, more, p, p);
    var a := GetInventoryItem(cache, r.inventoryID);
    var i :| 0 <= i < |cache| && a.value == cache[i] && GetInventoryItem(more, r.inventoryID).value == more[i];
    UnitsOnly(r.quantity, r.unit, cache[i], more[i]);
  }

  /** Availability is monotone in stock: raising quantities never makes
      an available product unavailable. */
  lemma {:induction false} AvailabilityMonotone(product: Product, cache: seq<InventoryItem>, more: seq<InventoryItem>)
    requires MoreStock(cache, more) && IsProductAvailable(product, cache)
    ensures IsProductAvailable(product, more)
  {
    if product.recipe.Some? && |product.recipe.value| != 0 {
      forall i | 0 <= i < |product.recipe.value|
        ensures IngredientAvailable(more, product.recipe.value[i])
      {
        IngredientMonotone(cache, more, product.recipe.value[i]);
      }
    }
  }

  /** `{ ...product, recipe }` */
  function WithRecipe(product: Product, recipe: seq<RecipeItem>): (r: Product)
    ensures r.recipe == Some(recipe)
    ensures r.(recipe := product.recipe) == product
  {
    product.(recipe := Some(recipe))
  }

  /** A product as an object; an absent optional property reads as
      `undefined`. */
  function ProductObject(p: Product): Object {
    [Property("productID", Text(p.productID)),
     Property("name", Text(p.name)),
     Property("description", Text(p.description)),
     Property("price", Number(p.price)),
     Property("categoryID", Text(p.categoryID)),
     Property("recipe", if p.recipe.Some? then Recipe(p.recipe.value) else Undefined),
     Property("image", if p.image.Some? then Text(p.image.value) else Undefined)]
  }

  /** A product object has each property once. */
  lemma ProductObjectDistinct(p: Product)
    ensures DistinctKeys(ProductObject(p))
  {
  }

  /** The property names of a product object. */
  lemma ProductObjectKeys(p: Product)
    ensures Keys(ProductObject(p)) == {"productID", "name", "description", "price", "categoryID", "recipe", "image"}
  {
    var o := ProductObject(p);
    assert o[0].key == "productID" && o[1].key == "name" && o[2].key == "description";
    assert o[3].key == "price" && o[4].key == "categoryID" && o[5].key == "recipe" && o[6].key == "image";
  }

  /** Reading the properties of a product object. */
  lemma ProductObjectReads(p: Product)
    ensures var o := ProductObject(p);
            Get(o, "productID") == Text(p.productID) && Get(o, "name") == Text(p.name) &&
            Get(o, "description") == Text(p.description) && Get(o, "price") == Number(p.price) &&
            Get(o, "categoryID") == Text(p.categoryID) &&
            Get(o, "recipe") == (if p.recipe.Some? then Recipe(p.recipe.value) else Undefined) &&
            Get(o, "image") == (if p.image.Some? then Text(p.image.value) else Undefined)
  {
    var o := ProductObject(p);
    ProductObjectDistinct(p);
    assert o[0].key == "productID" && o[1].key == "name" && o[2].key == "description";
    assert o[3].key == "price" && o[4].key == "categoryID" && o[5].key == "recipe" && o[6].key == "image";
  }

  /** The document written for a product with its recipe holds exactly
      the defined properties: the five required ones and the recipe
      always, the image exactly when there is one, and nothing else. */
  lemma ProductDocumentFields(p: Product, recipe: seq<RecipeItem>)
    ensures var d := Defined(ProductObject(WithRecipe(p, recipe)));
            d.Keys <= {"productID", "name", "description", "price", "categoryID", "recipe", "image"} &&
            "productID" in d && "name" in d && "description" in d && "price" in d && "categoryID" in d && "recipe" in d &&
            ("image" in d <==> p.image.Some?) &&
            d["productID"] == Text(p.productID) && d["price"] == Number(p.price) &&
            d["recipe"] == Recipe(recipe) &&
            (p.image.Some? ==> d["image"] == Text(p.image.value))
  {
    var q := WithRecipe(p, recipe);
    ProductObjectKeys(q);
    ProductObjectReads(q);
  }

  /** The document written for a product carries the product's ID. */
  lemma ProductDocumentID(p: Product)
    ensures "productID" in Defined(ProductObject(p))
    ensures Defined(ProductObject(p))["productID"] == Text(p.productID)
  {
    ProductObjectDistinct(p);
    assert ProductObject(p)[0].key == "productID";
  }

  /** The cached list after `updateProduct`: every product with the ID is
      replaced wholesale, the others stay in place. */
  function ReplaceProduct(products: seq<Product>, product: Product): (r: seq<Product>)
    ensures |r| == |products|
    ensures forall i :: 0 <= i < |products| ==>
              r[i] == if products[i].productID == product.productID then product else products[i]
  {
    Map(products, (p: Product) => if p.productID == product.productID then product else p)
  }

  /** Every stored product document sits under its own ID. */
  predicate DocumentsKeyedById(records: map<string, Document>) {
    forall k :: k in records ==> "productID" in records[k] && records[k]["productID"] == Text(k)
  }

  /** The store: persisted product documents and the cached list. */
  class Catalogue {
    var records: map<string, Document>
    var products: seq<Product>

    /** Every record sits under its own ID, and none under the empty key:
        a generated key is never empty, so a lookup by key never finds a
        key that reads as false. */
    predicate Valid()
      reads this
    {
      DocumentsKeyedById(records) && "" !in records
    }

    constructor()
      ensures records == map[] && products == [] && Valid()
    {
      records := map[];
      products := [];
    }

    /** `addProduct`: the recipe defaults to `[]`; the product with its
        recipe is stored under its ID (or a fresh key that becomes its ID)
        and appended to the cached list. */
    method AddProduct(product: Product, recipe: Option<seq<RecipeItem>>, freshKey: string)
      requires Valid() && freshKey != ""
      modifies this
      ensures Valid()
      ensures var stored := WithRecipe(product, recipe.GetOr([]));
              var key := StorageKey(product.productID, freshKey);
              records == old(records)[key := Defined(ProductObject(stored.(productID := key)))] &&
              products == old(products) + [stored]
    {
      var productWithRecipe := WithRecipe(product, recipe.GetOr([]));
      var key := StorageKey(product.productID, freshKey);
      var stored := productWithRecipe.(productID := key);
      ProductObjectDistinct(stored);
      ProductDocumentID(stored);
      var cleaned := RemoveUndefined(ProductObject(stored));
      records := records[key := cleaned];
      products := products + [productWithRecipe];
    }

    /** `updateProduct`: nothing when no stored document carries the ID;
        otherwise the cleaned product-with-recipe replaces the document
        and every cached product with the ID. */
    method UpdateProduct(product: Product, recipe: Option<seq<RecipeItem>>)
      requires Valid()
      modifies this
      ensures Valid()
      ensures product.productID !in old(records) ==> records == old(records) && products == old(products)
      ensures product.productID in old(records) ==>
                var productWithRecipe := WithRecipe(product, recipe.GetOr([]));
                records == old(records)[product.productID := Defined(ProductObject(productWithRecipe))] &&
                products == ReplaceProduct(old(products), productWithRecipe)
    {
      if product.productID in records {
        var productWithRecipe := WithRecipe(product, recipe.GetOr([]));
        ProductObjectDistinct(productWithRecipe);
        ProductDocumentID(productWithRecipe);
        var cleanedProduct := RemoveUndefined(ProductObject(productWithRecipe));
        records := records[product.productID := cleanedProduct];
        products := ReplaceProduct(products, productWithRecipe);
      }
    }

    /** `deleteProduct`: nothing when no stored document carries the ID;
        otherwise the document goes and so does every cached product with
        the ID, the others keeping their order. */
    method DeleteProduct(productID: string)
      requires Valid()
      modifies this
      ensures Valid()
      ensures productID !in old(records) ==> records == old(records) && products == old(products)
      ensures productID in old(records) ==>
                records == old(records) - {productID} &&
                products == Filter(old(products), (p: Product) => p.productID != productID)
    {
      if productID in records {
        records := records - {productID};
        products := Filter(products, (p: Product) => p.productID != productID);
      }
    }
  }
}
