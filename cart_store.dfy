/** The point-of-sale cart: a list of order lines, at most one per
    product, with the totals the register shows. */
module CartStore {
  import opened Wrappers
  import opened Types
  import opened Lists

  /** `getTotal`: the sum of price times quantity over the lines. */
  function Total(items: seq<OrderItem>): real {
    if items == [] then 0.0 else items[0].priceAtSale * items[0].quantity + Total(items[1..])
  }

  /** `getItemCount`: the sum of the quantities. */
  function ItemCount(items: seq<OrderItem>): real {
    if items == [] then 0.0 else items[0].quantity + ItemCount(items[1..])
  }

  /** The sum of the quantities of the lines for one product. */
  function QuantityOf(items: seq<OrderItem>, productID: string): real {
    if items == [] then 0.0
    else (if items[0].productID == productID then items[0].quantity else 0.0) + QuantityOf(items[1..], productID)
  }

  /** The number of lines for one product. */
  function Occurrences(items: seq<OrderItem>, productID: string): nat {
    if items == [] then 0
    else (if items[0].productID == productID then 1 else 0) + Occurrences(items[1..], productID)
  }

  /** At most one line per product. */
  predicate UniqueIds(items: seq<OrderItem>) {
    forall i, j :: 0 <= i < j < |items| ==> items[i].productID != items[j].productID
  }

  /** Totals add up over concatenation. */
  lemma {:induction false} TotalAppend(a: seq<OrderItem>, b: seq<OrderItem>)
    ensures Total(a + b) == Total(a) + Total(b)
    ensures ItemCount(a + b) == ItemCount(a) + ItemCount(b)
  {
    if a == [] {
      assert a + b == b;
    } else {
      assert (a + b)[1..] == a[1..] + b;
      TotalAppend(a[1..], b);
    }
  }

  /** The total splits into the lines a test keeps and the lines it drops. */
  lemma {:induction false} TotalPartition(items: seq<OrderItem>, p: OrderItem -> bool)
    ensures Total(items) == Total(Filter(items, p)) + Total(Filter(items, (item: OrderItem) => !p(item)))
  {
    if items != [] {
      var line, rest := items[0], items[1..];
      var q := (item: OrderItem) => !p(item);
      TotalPartition(rest, p);
      assert items == [line] + rest;
      TotalCons(line, rest);
      if p(line) {
        PartitionStep(line, rest, p, q);
      } else {
        PartitionStep(line, rest, q, p);
      }
    }
  }

  /** The line in front goes to the side whose test it passes. */
  lemma PartitionStep(line: OrderItem, rest: seq<OrderItem>, keep: OrderItem -> bool, drop: OrderItem -> bool)
    requires keep(line) && !drop(line)
    ensures Total(Filter([line] + rest, keep)) == line.priceAtSale * line.quantity + Total(Filter(rest, keep))
    ensures Filter([line] + rest, drop) == Filter(rest, drop)
  {
    assert ([line] + rest)[0] == line && ([line] + rest)[1..] == rest;
    TotalCons(line, Filter(rest, keep));
  }

  /** A line in front adds its amount to the total. */
  lemma TotalCons(line: OrderItem, rest: seq<OrderItem>)
    ensures Total([line] + rest) == line.priceAtSale * line.quantity + Total(rest)
  {
    assert ([line] + rest)[1..] == rest;
  }

  /** A line with one more unit. */
  function Increment(item: OrderItem): (r: OrderItem)
    ensures r.quantity == item.quantity + 1.0
    ensures r.(quantity := item.quantity) == item
  {
    item.(quantity := item.quantity + 1.0)
  }

  /** `addItem`: one more unit on the product's line if it has one,
      otherwise a new line of one unit at the product's current price. */
  function AddLine(items: seq<OrderItem>, product: Product): (r: seq<OrderItem>)
    ensures Find(items, (item: OrderItem) => item.productID == product.productID).Some? ==>
              |r| == |items| &&
              forall i :: 0 <= i < |items| ==>
                r[i] == if items[i].productID == product.productID then Increment(items[i]) else items[i]
    ensures Find(items, (item: OrderItem) => item.productID == product.productID).None? ==>
              r == items + [OrderItem(product.productID, 1.0, product.price)]
  {
    var existing := Find(items, (item: OrderItem) => item.productID == product.productID);
    if existing.Some? then
      Map(items, (item: OrderItem) => if item.productID == product.productID then Increment(item) else item)
    else
      items + [OrderItem(product.productID, 1.0, product.price)]
  }

  /** `removeItem`: drops every line of the product. */
  function RemoveLines(items: seq<OrderItem>, productID: string): (r: seq<OrderItem>)
    ensures forall i :: 0 <= i < |r| ==> r[i].productID != productID
    ensures forall i :: 0 <= i < |items| && items[i].productID != productID ==> items[i] in r
  {
    Filter(items, (item: OrderItem) => item.productID != productID)
  }

  /** The line after `updateQuantity`'s map step. */
  function Adjust(item: OrderItem, productID: string, delta: real): (r: OrderItem)
    ensures item.productID == productID ==>
              r.quantity >= 0.0 && (r.quantity == 0.0 || r.quantity == item.quantity + delta) &&
              (item.quantity + delta > 0.0 ==> r.quantity == item.quantity + delta)
    ensures item.productID != productID ==> r == item
    ensures r.(quantity := item.quantity) == item
  {
    if item.productID == productID then
      var newQty := if item.quantity + delta < 0.0 then 0.0 else item.quantity + delta;
      item.(quantity := newQty)
    else item
  }

  /** `updateQuantity`: moves the product's quantity by `delta`, not below
      zero, then drops every line whose quantity is not positive. */
  function UpdateLines(items: seq<OrderItem>, productID: string, delta: real): (r: seq<OrderItem>)
    ensures forall i :: 0 <= i < |r| ==> r[i].quantity > 0.0
    ensures forall i :: 0 <= i < |items| && Adjust(items[i], productID, delta).quantity > 0.0 ==>
              Adjust(items[i], productID, delta) in r
    ensures forall k :: 0 <= k < |r| ==> exists i :: 0 <= i < |items| && r[k] == Adjust(items[i], productID, delta)
  {
    var adjusted := Map(items, (item: OrderItem) => Adjust(item, productID, delta));
    Filter(adjusted, (item: OrderItem) => item.quantity > 0.0)
  }

  /** A product with no line has no quantity. */
  lemma {:induction false} AbsentQuantity(items: seq<OrderItem>, productID: string)
    requires forall i :: 0 <= i < |items| ==> items[i].productID != productID
    ensures QuantityOf(items, productID) == 0.0 && Occurrences(items, productID) == 0
  {
    if items != [] {
      AbsentQuantity(items[1..], productID);
    }
  }

  /** With one line per product, the product's quantity is its line's. */
  lemma {:induction false} UniqueQuantity(items: seq<OrderItem>, i: nat)
    requires UniqueIds(items) && i < |items|
    ensures QuantityOf(items, items[i].productID) == items[i].quantity
    ensures Occurrences(items, items[i].productID) == 1
  {
    if i == 0 {
      AbsentQuantity(items[1..], items[0].productID);
    } else {
      UniqueQuantity(items[1..], i - 1);
    }
  }

  /** Incrementing the product's lines raises the count by one per line. */
  lemma {:induction false} IncrementCount(items: seq<OrderItem>, productID: string)
    ensures var f := (item: OrderItem) => if item.productID == productID then Increment(item) else item;
            ItemCount(Map(items, f)) == ItemCount(items) + Occurrences(items, productID) as real
  {
    var f := (item: OrderItem) => if item.productID == productID then Increment(item) else item;
    if items != [] {
      IncrementCount(items[1..], productID);
      assert Map(items, f)[1..] == Map(items[1..], f);
    }
  }

  /** Removing the product's lines lowers the count by their quantity. */
  lemma {:induction false} RemoveCount(items: seq<OrderItem>, productID: string)
    ensures ItemCount(RemoveLines(items, productID)) == ItemCount(items) - QuantityOf(items, productID)
  {
    var p := (item: OrderItem) => item.productID != productID;
    if items != [] {
      RemoveCount(items[1..], productID);
      if p(items[0]) {
        assert Filter(items, p) == [items[0]] + Filter(items[1..], p);
        assert ([items[0]] + Filter(items[1..], p))[1..] == Filter(items[1..], p);
      }
    }
  }

  /** `addItem` raises the item count by exactly one. */
  lemma AddRaisesCount(items: seq<OrderItem>, product: Product)
    requires UniqueIds(items)
    ensures ItemCount(AddLine(items, product)) == ItemCount(items) + 1.0
  {
    var existing := Find(items, (item: OrderItem) => item.productID == product.productID);
    if existing.Some? {
      var i :| 0 <= i < |items| && items[i] == existing.value && items[i].productID == product.productID;
      UniqueQuantity(items, i);
      IncrementCount(items, product.productID);
    } else {
      TotalAppend(items, [OrderItem(product.productID, 1.0, product.price)]);
    }
  }

  /** `removeItem` lowers the item count by the removed line's quantity,
      and changes nothing when the product has no line. */
  lemma RemoveLowersCount(items: seq<OrderItem>, productID: string)
    requires UniqueIds(items)
    ensures forall i :: 0 <= i < |items| && items[i].productID == productID ==>
              ItemCount(RemoveLines(items, productID)) == ItemCount(items) - items[i].quantity
    ensures (forall i :: 0 <= i < |items| ==> items[i].productID != productID) ==>
              ItemCount(RemoveLines(items, productID)) == ItemCount(items)
  {
    RemoveCount(items, productID);
    forall i | 0 <= i < |items| && items[i].productID == productID
      ensures QuantityOf(items, productID) == items[i].quantity
    {
      UniqueQuantity(items, i);
    }
    if forall i :: 0 <= i < |items| ==> items[i].productID != productID {
      AbsentQuantity(items, productID);
    }
  }

  /** `addItem` keeps at most one line per product; an existing line
      keeps its price. */
  lemma AddKeepsUnique(items: seq<OrderItem>, product: Product)
    requires UniqueIds(items)
    ensures UniqueIds(AddLine(items, product))
    ensures forall i :: 0 <= i < |items| ==> AddLine(items, product)[i].priceAtSale == items[i].priceAtSale
  {
  }

  /** Filtering a list with one line per product keeps one line per
      product. */
  lemma {:induction false} FilterKeepsUnique(items: seq<OrderItem>, p: OrderItem -> bool)
    requires UniqueIds(items)
    ensures UniqueIds(Filter(items, p))
  {
    if items != [] {
      FilterKeepsUnique(items[1..], p);
      var rest := Filter(items[1..], p);
      if p(items[0]) {
        assert Filter(items, p) == [items[0]] + rest;
        forall i | 0 <= i < |rest|
          ensures rest[i].productID != items[0].productID
        {
          assert rest[i] in items[1..];
          var j :| 0 <= j < |items[1..]| && items[1..][j] == rest[i];
          assert items[j + 1] == rest[i];
        }
      }
    }
  }

  /** `updateQuantity` and `removeItem` keep at most one line per product. */
  lemma UpdateKeepsUnique(items: seq<OrderItem>, productID: string, delta: real)
    requires UniqueIds(items)
    ensures UniqueIds(UpdateLines(items, productID, delta))
    ensures UniqueIds(RemoveLines(items, productID))
  {
    var adjusted := Map(items, (item: OrderItem) => Adjust(item, productID, delta));
    assert UniqueIds(adjusted);
    FilterKeepsUnique(adjusted, (item: OrderItem) => item.quantity > 0.0);
    FilterKeepsUnique(items, (item: OrderItem) => item.productID != productID);
  }

  /** The register's cart. */
  class Cart {
    var items: seq<OrderItem>

    /** At most one line per product. */
    ghost predicate Valid()
      reads this
    {
      UniqueIds(items)
    }

    constructor()
      ensures Valid() && items == []
    {
      items := [];
    }

    /** `addItem` */
    method AddItem(product: Product)
      requires Valid()
      modifies this
      ensures Valid() && items == AddLine(old(items), product)
    {
      AddKeepsUnique(items, product);
      items := AddLine(items, product);
    }

    /** `removeItem` */
    method RemoveItem(productID: string)
      requires Valid()
      modifies this
      ensures Valid() && items == RemoveLines(old(items), productID)
    {
      UpdateKeepsUnique(items, productID, 0.0);
      items := RemoveLines(items, productID);
    }

    /** `updateQuantity` */
    method UpdateQuantity(productID: string, delta: real)
      requires Valid()
      modifies this
      ensures Valid() && items == UpdateLines(old(items), productID, delta)
    {
      UpdateKeepsUnique(items, productID, delta);
      items := UpdateLines(items, productID, delta);
    }

    /** `clearCart` */
    method ClearCart()
      modifies this
      ensures Valid() && items == [] && Total(items) == 0.0 && ItemCount(items) == 0.0
    {
      items := [];
    }
  }
}
