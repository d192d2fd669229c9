/** The inventory ledger: a persisted collection of inventory records and
    the cached `inventory` list the screens read. Stock changes read the
    persisted record, clamp at zero, round to cents and write both layers. */
module InventoryStore {
  import opened Wrappers
  import opened Text
  import opened Types
  import opened Rounding
  import opened Lists
  import opened UnitConverter

  /** Records are stored under `inventoryID || pushKey`, and that key is
      written back as the record's ID, so every record sits under its own
      ID and finding "the key whose record carries the ID" is a lookup. */
  predicate KeyedById(records: map<string, InventoryItem>) {
    forall k :: k in records ==> records[k].inventoryID == k
  }

  /** The stock a write stores for a requested quantity: never negative,
      rounded to cents (`Math.round(Math.max(0, q) * 100) / 100`). */
  function StoredStock(quantity: real): (q: real)
    ensures q >= 0.0 && Round2(q) == q
    ensures quantity >= 0.0 ==> quantity - 0.005 < q <= quantity + 0.005
    ensures quantity <= 0.0 ==> q == 0.0
  {
    var clamped := ClampZero(quantity);
    Round2NonNegative(clamped);
    Round2Idempotent(clamped);
    RoundInt(0);
    Round2(clamped)
  }

  /** The record or cache entry after a stock write: new quantity and
      timestamp, every other property kept. */
  function Restock(item: InventoryItem, quantity: real, now: string): (r: InventoryItem)
    ensures r.quantity == quantity && r.lastUpdated == Some(now)
    ensures r.inventoryID == item.inventoryID
    ensures r.(quantity := item.quantity, lastUpdated := item.lastUpdated) == item
  {
    item.(quantity := quantity, lastUpdated := Some(now))
  }

  /** The cache after a stock write: entries with the ID take the new
      quantity and timestamp; length, order and all other entries stay. */
  function RestockCache(cache: seq<InventoryItem>, id: string, quantity: real, now: string): (r: seq<InventoryItem>)
    ensures |r| == |cache|
    ensures forall i :: 0 <= i < |cache| && cache[i].inventoryID != id ==> r[i] == cache[i]
    ensures forall i :: 0 <= i < |cache| && cache[i].inventoryID == id ==>
              r[i] == Restock(cache[i], quantity, now)
  {
    Map(cache, (item: InventoryItem) => if item.inventoryID == id then Restock(item, quantity, now) else item)
  }

  /** Both layers of the store. */
  datatype Ledger = Ledger(records: map<string, InventoryItem>, cache: seq<InventoryItem>)

  /** A write of `quantity` (already clamped and rounded) to the record
      and the cache entries with the ID. */
  function Write(l: Ledger, id: string, quantity: real, now: string): (r: Ledger)
    requires id in l.records
    ensures r.records.Keys == l.records.Keys
    ensures r.records[id] == Restock(l.records[id], quantity, now)
    ensures forall k :: k in l.records && k != id ==> r.records[k] == l.records[k]
    ensures r.cache == RestockCache(l.cache, id, quantity, now)
  {
    Ledger(l.records[id := Restock(l.records[id], quantity, now)], RestockCache(l.cache, id, quantity, now))
  }

  /** `updateStock(id, change)`: nothing when no record carries the ID;
      otherwise the persisted stock plus the change, clamped and rounded,
      written to both layers. */
  function UpdateStockSpec(l: Ledger, id: string, change: real, now: string): (r: Ledger)
    ensures id !in l.records ==> r == l
    ensures id in l.records ==> r == Write(l, id, StoredStock(l.records[id].quantity + change), now)
  {
    if id in l.records then Write(l, id, StoredStock(l.records[id].quantity + change), now) else l
  }

  /** `setStock(id, quantity, reason)`: nothing when no record carries
      the ID; otherwise the quantity, clamped and rounded, written to both
      layers. The reason is not used. */
  function SetStockSpec(l: Ledger, id: string, quantity: real, now: string): (r: Ledger)
    ensures id !in l.records ==> r == l
    ensures id in l.records ==> r == Write(l, id, StoredStock(quantity), now)
  {
    if id in l.records then Write(l, id, StoredStock(quantity), now) else l
  }

  /** After `updateStock` the stored stock and every cached entry with the
      ID hold the clamped, rounded sum, which is never negative. */
  lemma UpdateStockNeverNegative(l: Ledger, id: string, change: real, now: string)
    requires id in l.records
    ensures var r := UpdateStockSpec(l, id, change, now);
            var q := r.records[id].quantity;
            q >= 0.0 && q == StoredStock(l.records[id].quantity + change) &&
            forall i :: 0 <= i < |r.cache| && r.cache[i].inventoryID == id ==> r.cache[i].quantity == q
  {
  }

  /** `updateStock` by a change is `setStock` to the persisted stock plus
      the change: the cached quantity plays no part. */
  lemma UpdateIsSetOfSum(l: Ledger, id: string, change: real, now: string)
    requires id in l.records
    ensures UpdateStockSpec(l, id, change, now) == SetStockSpec(l, id, l.records[id].quantity + change, now)
  {
  }

  /** A stock write changes only the record with the ID and the cache
      entries with the ID, and within them only quantity and timestamp. */
  lemma WriteIsLocal(l: Ledger, id: string, quantity: real, now: string)
    requires id in l.records
    ensures var r := Write(l, id, quantity, now);
            |r.cache| == |l.cache| &&
            (forall i :: 0 <= i < |l.cache| && l.cache[i].inventoryID != id ==> r.cache[i] == l.cache[i]) &&
            (forall i :: 0 <= i < |l.cache| ==>
               r.cache[i].(quantity := l.cache[i].quantity, lastUpdated := l.cache[i].lastUpdated) == l.cache[i]) &&
            (forall k :: k in l.records ==>
               r.records[k].(quantity := l.records[k].quantity, lastUpdated := l.records[k].lastUpdated) == l.records[k])
  {
  }

  /** Repeating the same `setStock` call gives the same state. */
  lemma {:induction false} SetStockIdempotent(l: Ledger, id: string, quantity: real, now: string)
    ensures SetStockSpec(SetStockSpec(l, id, quantity, now), id, quantity, now) == SetStockSpec(l, id, quantity, now)
  {
    if id in l.records {
      var q := StoredStock(quantity);
      var once := Write(l, id, q, now);
      var twice := Write(once, id, q, now);
      assert twice.records == once.records;
      assert twice.cache == once.cache by {
        forall i | 0 <= i < |once.cache|
          ensures twice.cache[i] == once.cache[i]
        {
        }
      }
    }
  }

  /** Stock writes keep every record under its own ID. */
  lemma WriteKeepsKeys(l: Ledger, id: string, quantity: real, now: string)
    requires id in l.records && KeyedById(l.records)
    ensures KeyedById(Write(l, id, quantity, now).records)
  {
  }

  /** `getStockLevel`: the quantity of the first cached item with the ID,
      or 0 when there is none. */
  function GetStockLevel(cache: seq<InventoryItem>, id: string): (r: real)
    ensures (forall i :: 0 <= i < |cache| ==> cache[i].inventoryID != id) ==> r == 0.0
    ensures forall i :: (0 <= i < |cache| && cache[i].inventoryID == id &&
                         forall j :: 0 <= j < i ==> cache[j].inventoryID != id) ==> r == cache[i].quantity
  {
    var item := GetInventoryItem(cache, id);
    if item.Some? then item.value.quantity else 0.0
  }

  /** `getInventoryItem`: the first cached item with the ID. */
  function GetInventoryItem(cache: seq<InventoryItem>, id: string): (r: Option<InventoryItem>)
    ensures r.None? <==> forall i :: 0 <= i < |cache| ==> cache[i].inventoryID != id
    ensures forall i :: (0 <= i < |cache| && cache[i].inventoryID == id &&
                         forall j :: 0 <= j < i ==> cache[j].inventoryID != id) ==> r == Some(cache[i])
  {
    FindFirst(cache, (item: InventoryItem) => item.inventoryID == id);
    Find(cache, (item: InventoryItem) => item.inventoryID == id)
  }

  /** `getInventoryItemByName`: the first cached item whose name equals
      `name` ignoring case. */
  function GetInventoryItemByName(cache: seq<InventoryItem>, name: string): (r: Option<InventoryItem>)
    ensures r.None? <==> forall i :: 0 <= i < |cache| ==> Lower(cache[i].name) != Lower(name)
    ensures forall i :: (0 <= i < |cache| && Lower(cache[i].name) == Lower(name) &&
                         forall j :: 0 <= j < i ==> Lower(cache[j].name) != Lower(name)) ==> r == Some(cache[i])
  {
    FindFirst(cache, (item: InventoryItem) => Lower(item.name) == Lower(name));
    Find(cache, (item: InventoryItem) => Lower(item.name) == Lower(name))
  }

  /** The search by name does not depend on the case of the name asked for. */
  lemma {:induction false} ByNameIgnoresCase(cache: seq<InventoryItem>, name: string)
    ensures GetInventoryItemByName(cache, Lower(name)) == GetInventoryItemByName(cache, name)
  {
    LowerIdempotent(name);
    FindCongruent(cache, (item: InventoryItem) => Lower(item.name) == Lower(Lower(name)),
                         (item: InventoryItem) => Lower(item.name) == Lower(name));
  }

  /** `convertRecipeToInventoryUnit`: `None` when the referenced item is
      not cached, otherwise the recipe quantity in that item's stocking
      unit (or `None` when the units do not convert). */
  function ConvertRecipeToInventoryUnit(cache: seq<InventoryItem>, recipeItem: RecipeItem): (r: Option<real>)
    ensures GetInventoryItem(cache, recipeItem.inventoryID).None? ==> r.None?
    ensures GetInventoryItem(cache, recipeItem.inventoryID).Some? ==>
              r == ConvertToInventoryUnit(recipeItem.quantity, recipeItem.unit,
                                          GetInventoryItem(cache, recipeItem.inventoryID).value)
  {
    var item := GetInventoryItem(cache, recipeItem.inventoryID);
    if item.None? then None
    else ConvertToInventoryUnit(recipeItem.quantity, recipeItem.unit, item.value)
  }

  /** A stock write does not change which item a lookup finds, except
      for its quantity and timestamp. */
  lemma WriteKeepsLookup(cache: seq<InventoryItem>, id: string, quantity: real, now: string, key: string)
    ensures var a := GetInventoryItem(RestockCache(cache, id, quantity, now), key);
            var b := GetInventoryItem(cache, key);
            (a.None? <==> b.None?) &&
            (b.Some? ==> a.value.unit == b.value.unit && a.value.baseUnit == b.value.baseUnit &&
                         a.value.piecesPerUnit == b.value.piecesPerUnit)
  {
    var g := (item: InventoryItem) => if item.inventoryID == id then Restock(item, quantity, now) else item;
    var p := (item: InventoryItem) => item.inventoryID == key;
    FindMap(cache, g, p, p);
  }

  /** A stock write does not change what any recipe converts to: the
      conversion reads only the units and container size of the cached
      item, never its quantity. */
  lemma {:induction false} WriteKeepsConversions(cache: seq<InventoryItem>, id: string, quantity: real, now: string,
                                                 recipeItem: RecipeItem)
    ensures ConvertRecipeToInventoryUnit(RestockCache(cache, id, quantity, now), recipeItem) ==
            ConvertRecipeToInventoryUnit(cache, recipeItem)
  {
    var after := RestockCache(cache, id, quantity, now);
    WriteKeepsLookup(cache, id, quantity, now, recipeItem.inventoryID);
    var b := GetInventoryItem(cache, recipeItem.inventoryID);
    if b.Some? {
      UnitsOnly(recipeItem.quantity, recipeItem.unit, b.value, GetInventoryItem(after, recipeItem.inventoryID).value);
    }
  }

  /** The conversion of a recipe quantity reads only the units and the
      container size of the item. */
  lemma UnitsOnly(quantity: real, unit: Option<string>, a: InventoryItem, b: InventoryItem)
    requires a.unit == b.unit && a.baseUnit == b.baseUnit && a.piecesPerUnit == b.piecesPerUnit
    ensures ConvertToInventoryUnit(quantity, unit, a) == ConvertToInventoryUnit(quantity, unit, b)
  {
    assert StockingUnit(a) == StockingUnit(b) && GetBaseUnit(a) == GetBaseUnit(b);
  }

  /** The store: the persisted records and the cached list. */
  class Inventory {
    var records: map<string, InventoryItem>
    var cache: seq<InventoryItem>

    function State(): Ledger
      reads this
    {
      Ledger(records, cache)
    }

    /** Every record sits under its own ID, and none under the empty key:
        a generated key is never empty, so a lookup by key never finds a
        key that reads as false. */
    predicate Valid()
      reads this
    {
      KeyedById(records) && "" !in records
    }

    constructor()
      ensures records == map[] && cache == [] && Valid()
    {
      records := map[];
      cache := [];
    }

    /** `addInventoryItem`: stores the item under its ID (or a fresh key
        that becomes its ID) and appends it, as given, to the cache. */
    method AddInventoryItem(item: InventoryItem, freshKey: string)
      requires Valid() && freshKey != ""
      modifies this
      ensures Valid()
      ensures var key := StorageKey(item.inventoryID, freshKey);
              records == old(records)[key := item.(inventoryID := key)]
      ensures cache == old(cache) + [item]
    {
      var key := StorageKey(item.inventoryID, freshKey);
      records := records[key := item.(inventoryID := key)];
      cache := cache + [item];
    }

    /** `updateStock` */
    method UpdateStock(id: string, change: real, now: string)
      requires Valid()
      modifies this
      ensures Valid()
      ensures State() == UpdateStockSpec(old(State()), id, change, now)
    {
      if id in records {
        var currentQuantity := records[id].quantity;
        var roundedQuantity := StoredStock(currentQuantity + change);
        WriteKeepsKeys(State(), id, roundedQuantity, now);
        records := records[id := Restock(records[id], roundedQuantity, now)];
        cache := RestockCache(cache, id, roundedQuantity, now);
      }
    }

    /** `setStock`; the reason is accepted and ignored. */
    method SetStock(id: string, quantity: real, reason: Option<string>, now: string)
      requires Valid()
      modifies this
      ensures Valid()
      ensures State() == SetStockSpec(old(State()), id, quantity, now)
    {
      if id in records {
        var roundedQuantity := StoredStock(quantity);
        WriteKeepsKeys(State(), id, roundedQuantity, now);
        records := records[id := Restock(records[id], roundedQuantity, now)];
        cache := RestockCache(cache, id, roundedQuantity, now);
      }
    }

    /** `deleteInventoryItem`: nothing when no record carries the ID;
        otherwise the record goes and so does every cached entry with the
        ID, the others keeping their order. */
    method DeleteInventoryItem(id: string)
      requires Valid()
      modifies this
      ensures Valid()
      ensures id !in old(records) ==> records == old(records) && cache == old(cache)
      ensures id in old(records) ==>
                records == old(records) - {id} &&
                cache == Filter(old(cache), (item: InventoryItem) => item.inventoryID != id)
    {
      if id in records {
        records := records - {id};
        cache := Filter(cache, (item: InventoryItem) => item.inventoryID != id);
      }
    }
  }

  /** After a delete no cached entry carries the ID, and looking up any
      other ID finds what it found before. */
  lemma {:induction false} DeleteKeepsLookups(cache: seq<InventoryItem>, id: string, other: string)
    ensures var after := Filter(cache, (item: InventoryItem) => item.inventoryID != id);
            GetInventoryItem(after, id).None? &&
            (other != id ==> GetInventoryItem(after, other) == GetInventoryItem(cache, other))
  {
    var p := (item: InventoryItem) => item.inventoryID != id;
    if cache != [] {
      DeleteKeepsLookups(cache[1..], id, other);
      var rest := Filter(cache[1..], p);
      if p(cache[0]) {
        assert Filter(cache, p) == [cache[0]] + rest;
        assert ([cache[0]] + rest)[1..] == rest;
      }
    }
  }
}
