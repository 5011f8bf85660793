/**
 * The shopping cart of the storefront: a list of items, one per product id,
 * that add, remove and quantity updates replace as a whole. The item count
 * and the price total are reductions over the current list; the catalogue
 * the cart looks products up in is a parameter.
 */
module Cart {
  import opened Common
  import opened Sequences
  import opened Products

  /** One line of the cart. `addedAt` is the clock reading when the product was first added. */
  datatype CartItem = CartItem(productId: ProductId, quantity: int, addedAt: nat)

  /** A cart item joined with its catalogue entry, as `getCartProducts` returns it. */
  datatype CartLine = CartLine(product: Product, quantity: int, addedAt: nat)

  predicate HasProduct(items: seq<CartItem>, id: ProductId) {
    exists item :: item in items && item.productId == id
  }

  /** No two items share a product id. */
  predicate UniqueIds(items: seq<CartItem>) {
    forall i, j :: 0 <= i < j < |items| ==> items[i].productId != items[j].productId
  }

  /** No item has a negative quantity. */
  predicate NoNegativeQuantity(items: seq<CartItem>) {
    forall item :: item in items ==> item.quantity >= 0
  }

  /**
   * `totalItems`: the sum of the quantities, 0 for an empty cart
   * (`TotalItemsBound`: never negative, and at least each item's quantity,
   * when no quantity is negative).
   */
  function TotalItems(items: seq<CartItem>): (r: int)
    ensures items == [] ==> r == 0
  {
    if items == [] then 0 else items[0].quantity + TotalItems(items[1..])
  }

  /** With no negative quantity, `totalItems` is never negative and is at least each item's quantity. */
  lemma {:induction false} TotalItemsBound(items: seq<CartItem>)
    requires NoNegativeQuantity(items)
    ensures TotalItems(items) >= 0
    ensures forall i :: 0 <= i < |items| ==> 0 <= items[i].quantity <= TotalItems(items)
  {
    if items != [] {
      assert NoNegativeQuantity(items[1..]) by {
        forall item | item in items[1..] ensures item.quantity >= 0 { assert item in items; }
      }
      TotalItemsBound(items[1..]);
      assert items[0] in items;
      forall i | 1 <= i < |items| ensures items[i].quantity <= TotalItems(items) {
        assert items[i] == items[1..][i - 1];
      }
    }
  }

  /** How many items hold `id`. */
  function ItemsFor(items: seq<CartItem>, id: ProductId): nat {
    if items == [] then 0 else (if items[0].productId == id then 1 else 0) + ItemsFor(items[1..], id)
  }

  /** The summed quantity of the items holding `id`. */
  function QuantityOf(items: seq<CartItem>, id: ProductId): int {
    if items == [] then 0
    else (if items[0].productId == id then items[0].quantity else 0) + QuantityOf(items[1..], id)
  }

  /** The item of `id`, if any, with `q` added to its quantity. */
  function Bump(id: ProductId, q: int): CartItem -> CartItem {
    (item: CartItem) => if item.productId == id then item.(quantity := item.quantity + q) else item
  }

  /** The item of `id`, if any, with its quantity set to `q`. */
  function SetTo(id: ProductId, q: int): CartItem -> CartItem {
    (item: CartItem) => if item.productId == id then item.(quantity := q) else item
  }

  /** The items `removeFromCart(id)` keeps. */
  function Keeps(id: ProductId): CartItem -> bool {
    (item: CartItem) => item.productId != id
  }

  /**
   * `addToCart(id, quantity)`: an absent quantity means 1. A product already
   * in the cart has the quantity added to its item, in place; a new product
   * is appended as one item stamped with `now`.
   */
  function Added(items: seq<CartItem>, id: ProductId, quantity: Option<int>, now: nat): (r: seq<CartItem>)
    ensures !HasProduct(items, id) ==> r == items + [CartItem(id, quantity.GetOr(1), now)]
    ensures HasProduct(items, id) ==> |r| == |items|
    ensures HasProduct(items, id) ==>
              forall i :: 0 <= i < |items| ==>
                && r[i].productId == items[i].productId
                && r[i].addedAt == items[i].addedAt
                && r[i].quantity == items[i].quantity + (if items[i].productId == id then quantity.GetOr(1) else 0)
    ensures HasProduct(r, id)
  {
    var q := quantity.GetOr(1);
    if HasProduct(items, id) then
      var r := MapSeq(items, Bump(id, q));
      assert HasProduct(r, id) by {
        var item :| item in items && item.productId == id;
        var k :| 0 <= k < |items| && items[k] == item;
        assert r[k] in r;
      }
      r
    else
      var r := items + [CartItem(id, q, now)];
      assert r[|items|] in r;
      r
  }

  /** `removeFromCart(id)`: every item of `id` dropped, the others kept in order. */
  function Removed(items: seq<CartItem>, id: ProductId): (r: seq<CartItem>)
    ensures !HasProduct(r, id)
    ensures forall item :: item in r <==> item in items && item.productId != id
    ensures |r| <= |items|
  {
    Filter(items, Keeps(id))
  }

  /**
   * `updateQuantity(id, quantity)`: a quantity of zero or less removes the
   * product; otherwise the product's item, if any, gets that quantity in place.
   */
  function Requantified(items: seq<CartItem>, id: ProductId, quantity: int): (r: seq<CartItem>)
    ensures quantity <= 0 ==> r == Removed(items, id)
    ensures quantity > 0 ==> |r| == |items|
    ensures quantity > 0 ==>
              forall i :: 0 <= i < |items| ==>
                && r[i].productId == items[i].productId
                && r[i].addedAt == items[i].addedAt
                && r[i].quantity == (if items[i].productId == id then quantity else items[i].quantity)
  {
    if quantity <= 0 then Removed(items, id) else MapSeq(items, SetTo(id, quantity))
  }

  lemma UniqueIdsCons(items: seq<CartItem>)
    requires items != []
    ensures UniqueIds(items) <==> !HasProduct(items[1..], items[0].productId) && UniqueIds(items[1..])
  {
    if UniqueIds(items) {
      forall item | item in items[1..] ensures item.productId != items[0].productId {
        var k :| 0 <= k < |items[1..]| && items[1..][k] == item;
        assert items[k + 1] == item;
      }
    }
    if !HasProduct(items[1..], items[0].productId) && UniqueIds(items[1..]) {
      forall i, j | 0 <= i < j < |items| ensures items[i].productId != items[j].productId {
        if i == 0 {
          assert items[j] == items[1..][j - 1] && items[j] in items[1..];
        } else {
          assert items[i] == items[1..][i - 1] && items[j] == items[1..][j - 1];
        }
      }
    }
  }

  /** Ids that only move or get dropped stay unique. */
  lemma {:induction false} RemovedUniqueIds(items: seq<CartItem>, p: CartItem -> bool)
    requires UniqueIds(items)
    ensures UniqueIds(Filter(items, p))
  {
    if items != [] {
      UniqueIdsCons(items);
      RemovedUniqueIds(items[1..], p);
      var rest := Filter(items[1..], p);
      assert Filter(items, p) == (if p(items[0]) then [items[0]] else []) + rest;
      if p(items[0]) {
        UniqueIdsCons([items[0]] + rest);
        assert ([items[0]] + rest)[1..] == rest;
      }
    }
  }

  /** A map that keeps every product id keeps the ids unique. */
  lemma MappedUniqueIds(items: seq<CartItem>, f: CartItem -> CartItem)
    requires UniqueIds(items)
    requires forall item :: f(item).productId == item.productId
    ensures UniqueIds(MapSeq(items, f))
  {
  }

  /** Adding, removing and re-quantifying keep at most one item per product. */
  lemma UpdatesKeepUniqueIds(items: seq<CartItem>, id: ProductId, quantity: Option<int>, q: int, now: nat)
    requires UniqueIds(items)
    ensures UniqueIds(Added(items, id, quantity, now))
    ensures UniqueIds(Removed(items, id))
    ensures UniqueIds(Requantified(items, id, q))
  {
    if HasProduct(items, id) {
      MappedUniqueIds(items, Bump(id, quantity.GetOr(1)));
    } else {
      var r := items + [CartItem(id, quantity.GetOr(1), now)];
      forall i, j | 0 <= i < j < |r| ensures r[i].productId != r[j].productId {
        if j == |items| {
          assert r[i] == items[i] && r[i] in items;
        }
      }
    }
    RemovedUniqueIds(items, Keeps(id));
    if q > 0 {
      MappedUniqueIds(items, SetTo(id, q));
    }
  }

  lemma {:induction false} TotalItemsAppend(items: seq<CartItem>, more: seq<CartItem>)
    ensures TotalItems(items + more) == TotalItems(items) + TotalItems(more)
  {
    if items != [] {
      assert (items + more)[0] == items[0] && (items + more)[1..] == items[1..] + more;
      TotalItemsAppend(items[1..], more);
    } else {
      assert items + more == more;
    }
  }

  /** Bumping the items of `id` by `q` adds `q` to that product's quantity and to the total, per item of `id`. */
  lemma BumpSums(items: seq<CartItem>, id: ProductId, q: int, other: ProductId)
    ensures TotalItems(MapSeq(items, Bump(id, q))) == TotalItems(items) + q * ItemsFor(items, id)
    ensures QuantityOf(MapSeq(items, Bump(id, q)), other)
         == QuantityOf(items, other) + (if other == id then q * ItemsFor(items, id) else 0)
  {
    BumpTotal(items, id, q);
    BumpQuantity(items, id, q, other);
  }

  lemma {:induction false} BumpTotal(items: seq<CartItem>, id: ProductId, q: int)
    ensures TotalItems(MapSeq(items, Bump(id, q))) == TotalItems(items) + q * ItemsFor(items, id)
  {
    if items != [] {
      var m := MapSeq(items, Bump(id, q));
      MapSeqCons(items, Bump(id, q));
      assert m[1..] == MapSeq(items[1..], Bump(id, q));
      BumpTotal(items[1..], id, q);
      var n := ItemsFor(items[1..], id);
      var hit := items[0].productId == id;
      if hit {
        assert ItemsFor(items, id) == n + 1;
        MulSucc(q, n);
      }
      ShiftedSum(TotalItems(m), TotalItems(items), m[0].quantity, items[0].quantity,
                 TotalItems(m[1..]), TotalItems(items[1..]), q * n, q * ItemsFor(items, id), if hit then q else 0);
    }
  }

  lemma {:induction false} BumpQuantity(items: seq<CartItem>, id: ProductId, q: int, other: ProductId)
    ensures QuantityOf(MapSeq(items, Bump(id, q)), other)
         == QuantityOf(items, other) + (if other == id then q * ItemsFor(items, id) else 0)
  {
    if items != [] {
      var m := MapSeq(items, Bump(id, q));
      MapSeqCons(items, Bump(id, q));
      assert m[1..] == MapSeq(items[1..], Bump(id, q));
      BumpQuantity(items[1..], id, q, other);
      var n := ItemsFor(items[1..], id);
      if items[0].productId == id {
        assert ItemsFor(items, id) == n + 1;
        MulSucc(q, n);
      }
    }
  }

  /** One step of a running sum whose every term may be shifted: linear bookkeeping only. */
  lemma ShiftedSum(whole': int, whole: int, head': int, head: int, rest': int, rest: int, shift: int, shift': int, d: int)
    requires whole' == head' + rest' && whole == head + rest
    requires rest' == rest + shift && head' == head + d && shift' == shift + d
    ensures whole' == whole + shift'
  {
  }

  lemma MulSucc(q: int, n: nat)
    ensures q * (n + 1) == q * n + q
  {
  }

  /** With unique ids a product present in the cart has exactly one item. */
  lemma {:induction false} OneItemPerProduct(items: seq<CartItem>, id: ProductId)
    requires UniqueIds(items)
    ensures ItemsFor(items, id) == if HasProduct(items, id) then 1 else 0
  {
    if items != [] {
      UniqueIdsCons(items);
      OneItemPerProduct(items[1..], id);
      assert HasProduct(items, id) <==> items[0].productId == id || HasProduct(items[1..], id) by {
        assert items == [items[0]] + items[1..];
      }
    }
  }

  /**
   * `addToCart(id, q)` raises `totalItems` by exactly `q` (1 when absent),
   * and the product's own quantity by the same amount; every other product's
   * quantity is unchanged.
   */
  lemma AddedSums(items: seq<CartItem>, id: ProductId, quantity: Option<int>, now: nat, other: ProductId)
    requires UniqueIds(items)
    ensures TotalItems(Added(items, id, quantity, now)) == TotalItems(items) + quantity.GetOr(1)
    ensures QuantityOf(Added(items, id, quantity, now), other)
         == QuantityOf(items, other) + (if other == id then quantity.GetOr(1) else 0)
  {
    var q := quantity.GetOr(1);
    if HasProduct(items, id) {
      BumpSums(items, id, q, other);
      OneItemPerProduct(items, id);
    } else {
      var item := CartItem(id, q, now);
      TotalItemsAppend(items, [item]);
      QuantityOfAppend(items, [item], other);
      assert [item][1..] == [];
    }
  }

  lemma {:induction false} QuantityOfAppend(items: seq<CartItem>, more: seq<CartItem>, id: ProductId)
    ensures QuantityOf(items + more, id) == QuantityOf(items, id) + QuantityOf(more, id)
  {
    if items != [] {
      assert (items + more)[0] == items[0] && (items + more)[1..] == items[1..] + more;
      QuantityOfAppend(items[1..], more, id);
    } else {
      assert items + more == more;
    }
  }

  /**
   * `removeFromCart(id)` takes exactly the product's quantity off
   * `totalItems`, leaves none of it, and keeps every other product's quantity.
   */
  lemma {:induction false} RemovedSums(items: seq<CartItem>, id: ProductId, other: ProductId)
    ensures TotalItems(Removed(items, id)) == TotalItems(items) - QuantityOf(items, id)
    ensures QuantityOf(Removed(items, id), other) == if other == id then 0 else QuantityOf(items, other)
  {
    if items != [] {
      RemovedSums(items[1..], id, other);
      RemovedCons(items, id);
    }
  }

  /** `Removed` on a non-empty cart: the first item if it is kept, then the rest with `id` removed. */
  lemma RemovedCons(items: seq<CartItem>, id: ProductId)
    requires items != []
    ensures items[0].productId == id ==> Removed(items, id) == Removed(items[1..], id)
    ensures items[0].productId != id ==>
              && Removed(items, id) != []
              && Removed(items, id)[0] == items[0]
              && Removed(items, id)[1..] == Removed(items[1..], id)
  {
    FilterCons(items, Keeps(id));
    var rest := Removed(items[1..], id);
    if items[0].productId == id {
      assert [] + rest == rest;
    } else {
      assert ([items[0]] + rest)[1..] == rest;
    }
  }

  /** Removing a product the cart does not hold changes nothing. */
  lemma RemovedAbsent(items: seq<CartItem>, id: ProductId)
    requires !HasProduct(items, id)
    ensures Removed(items, id) == items
  {
    forall i | 0 <= i < |items| ensures Keeps(id)(items[i]) {
      assert items[i] in items;
    }
    FilterKeepsAll(items, Keeps(id));
  }

  /**
   * `updateQuantity(id, q)` with `q > 0` on a product in the cart makes its
   * quantity `q` and moves `totalItems` by the difference; other products
   * keep their quantities.
   */
  lemma RequantifiedSums(items: seq<CartItem>, id: ProductId, q: int, other: ProductId)
    requires q > 0 && UniqueIds(items) && HasProduct(items, id)
    ensures QuantityOf(Requantified(items, id, q), other) == if other == id then q else QuantityOf(items, other)
    ensures TotalItems(Requantified(items, id, q)) == TotalItems(items) - QuantityOf(items, id) + q
  {
    SetToSums(items, id, q, other);
    OneItemPerProduct(items, id);
  }

  /** Setting the items of `id` to `q` replaces that product's quantity by `q` per item of `id`. */
  lemma SetToSums(items: seq<CartItem>, id: ProductId, q: int, other: ProductId)
    ensures QuantityOf(MapSeq(items, SetTo(id, q)), other)
         == if other == id then q * ItemsFor(items, id) else QuantityOf(items, other)
    ensures TotalItems(MapSeq(items, SetTo(id, q))) == TotalItems(items) - QuantityOf(items, id) + q * ItemsFor(items, id)
  {
    SetToQuantity(items, id, q, other);
    SetToTotal(items, id, q);
  }

  lemma {:induction false} SetToQuantity(items: seq<CartItem>, id: ProductId, q: int, other: ProductId)
    ensures QuantityOf(MapSeq(items, SetTo(id, q)), other)
         == if other == id then q * ItemsFor(items, id) else QuantityOf(items, other)
  {
    if items != [] {
      var m := MapSeq(items, SetTo(id, q));
      MapSeqCons(items, SetTo(id, q));
      assert m[1..] == MapSeq(items[1..], SetTo(id, q));
      SetToQuantity(items[1..], id, q, other);
      var n := ItemsFor(items[1..], id);
      if items[0].productId == id {
        assert ItemsFor(items, id) == n + 1;
        MulSucc(q, n);
      }
    }
  }

  lemma {:induction false} SetToTotal(items: seq<CartItem>, id: ProductId, q: int)
    ensures TotalItems(MapSeq(items, SetTo(id, q))) == TotalItems(items) - QuantityOf(items, id) + q * ItemsFor(items, id)
  {
    if items != [] {
      var m := MapSeq(items, SetTo(id, q));
      MapSeqCons(items, SetTo(id, q));
      assert m[1..] == MapSeq(items[1..], SetTo(id, q));
      SetToTotal(items[1..], id, q);
      var n := ItemsFor(items[1..], id);
      var hit := items[0].productId == id;
      if hit {
        assert ItemsFor(items, id) == n + 1;
        MulSucc(q, n);
      }
      ShiftedSum(TotalItems(m), TotalItems(items) - QuantityOf(items, id), m[0].quantity,
                 items[0].quantity - (if hit then items[0].quantity else 0),
                 TotalItems(m[1..]), TotalItems(items[1..]) - QuantityOf(items[1..], id),
                 q * n, q * ItemsFor(items, id), if hit then q else 0);
    }
  }

  /** `products.find(p => p.id === id)`: the first catalogue entry with that id. */
  function FindProduct(catalog: seq<Product>, id: ProductId): (r: Option<Product>)
    ensures r.Some? <==> exists p :: p in catalog && p.id == id
    ensures r.Some? ==> r.value in catalog && r.value.id == id
  {
    if catalog == [] then None
    else if catalog[0].id == id then Some(catalog[0])
    else
      assert (exists p :: p in catalog && p.id == id) <==> (exists p :: p in catalog[1..] && p.id == id) by {
        assert catalog == [catalog[0]] + catalog[1..];
      }
      FindProduct(catalog[1..], id)
  }

  /** The entry found is the first with that id. */
  lemma {:induction false} FindProductFirst(catalog: seq<Product>, id: ProductId, k: nat)
    requires k < |catalog| && catalog[k].id == id
    requires forall j :: 0 <= j < k ==> catalog[j].id != id
    ensures FindProduct(catalog, id) == Some(catalog[k])
  {
    if k > 0 {
      assert catalog[1..][k - 1] == catalog[k];
      FindProductFirst(catalog[1..], id, k - 1);
    }
  }

  /** `getCartProducts`: each item joined with its product, in cart order; an item whose product is unknown is dropped. */
  function GetCartProducts(catalog: seq<Product>, items: seq<CartItem>): (r: seq<CartLine>)
    ensures |r| <= |items|
    ensures forall line :: line in r ==> line.product in catalog
    ensures NoNegativeQuantity(items) ==> forall line :: line in r ==> line.quantity >= 0
  {
    if items == [] then []
    else
      assert forall item :: item in items[1..] ==> item in items;
      var rest := GetCartProducts(catalog, items[1..]);
      match FindProduct(catalog, items[0].productId)
      case None => rest
      case Some(p) => [CartLine(p, items[0].quantity, items[0].addedAt)] + rest
  }

  /** When every product is known, each item yields exactly its line, in order. */
  lemma {:induction false} CartProductsAllKnown(catalog: seq<Product>, items: seq<CartItem>)
    requires forall item :: item in items ==> FindProduct(catalog, item.productId).Some?
    ensures |GetCartProducts(catalog, items)| == |items|
    ensures forall i :: 0 <= i < |items| ==>
              GetCartProducts(catalog, items)[i]
              == CartLine(FindProduct(catalog, items[i].productId).value, items[i].quantity, items[i].addedAt)
  {
    if items != [] {
      assert items[0] in items;
      CartProductsAllKnown(catalog, items[1..]);
    }
  }

  /** An item whose product is not in the catalogue contributes nothing: the lines are those of the cart without it. */
  lemma {:induction false} CartProductsSkipUnknown(catalog: seq<Product>, items: seq<CartItem>, id: ProductId)
    requires FindProduct(catalog, id).None?
    ensures GetCartProducts(catalog, items) == GetCartProducts(catalog, Removed(items, id))
  {
    if items != [] {
      CartProductsSkipUnknown(catalog, items[1..], id);
      RemovedCons(items, id);
    }
  }

  /** `item.price * item.quantity`. */
  function LinePrice(price: real, quantity: int): (r: real)
    ensures price >= 0.0 && quantity >= 0 ==> r >= 0.0
  {
    price * quantity as real
  }

  lemma LinePriceAdd(price: real, q: int, a: int, b: int)
    requires q == a + b
    ensures LinePrice(price, q) == LinePrice(price, a) + LinePrice(price, b)
  {
  }

  /** The price of the lines: `price * quantity`, summed. */
  function LinesTotal(lines: seq<CartLine>): (r: real)
    ensures (forall line :: line in lines ==> line.product.price >= 0.0 && line.quantity >= 0) ==> r >= 0.0
  {
    if lines == [] then 0.0
    else
      assert forall line :: line in lines[1..] ==> line in lines;
      LinePrice(lines[0].product.price, lines[0].quantity) + LinesTotal(lines[1..])
  }

  /**
   * `totalPrice`: the price of the lines `getCartProducts` returns. An empty
   * cart costs nothing, and with no negative price or quantity the total is
   * never negative.
   */
  function TotalPrice(catalog: seq<Product>, items: seq<CartItem>): (r: real)
    ensures items == [] ==> r == 0.0
    ensures (forall p :: p in catalog ==> p.price >= 0.0) && NoNegativeQuantity(items) ==> r >= 0.0
  {
    LinesTotal(GetCartProducts(catalog, items))
  }

  /** The price of an item's line, or nothing when its product is unknown. */
  function ItemPrice(catalog: seq<Product>, item: CartItem): real {
    match FindProduct(catalog, item.productId)
    case None => 0.0
    case Some(p) => LinePrice(p.price, item.quantity)
  }

  /** `totalPrice` of a non-empty cart: the first item's price, then the rest. */
  lemma TotalPriceCons(catalog: seq<Product>, items: seq<CartItem>)
    requires items != []
    ensures TotalPrice(catalog, items) == ItemPrice(catalog, items[0]) + TotalPrice(catalog, items[1..])
  {
    var rest := GetCartProducts(catalog, items[1..]);
    match FindProduct(catalog, items[0].productId)
    case None =>
    case Some(p) =>
      assert ([CartLine(p, items[0].quantity, items[0].addedAt)] + rest)[1..] == rest;
  }

  /**
   * Removing a product from the cart takes its price times its quantity off
   * `totalPrice`.
   */
  lemma {:induction false} RemovedPrice(catalog: seq<Product>, items: seq<CartItem>, id: ProductId, p: Product)
    requires FindProduct(catalog, id) == Some(p)
    ensures TotalPrice(catalog, Removed(items, id)) == TotalPrice(catalog, items) - LinePrice(p.price, QuantityOf(items, id))
  {
    var goal := TotalPrice(catalog, items) - LinePrice(p.price, QuantityOf(items, id));
    if items == [] {
      assert LinePrice(p.price, 0) == 0.0;
    } else {
      RemovedPrice(catalog, items[1..], id, p);
      RemovedCons(items, id);
      TotalPriceCons(catalog, items);
      var head, tail := items[0].quantity, QuantityOf(items[1..], id);
      if items[0].productId != id {
        TotalPriceCons(catalog, Removed(items, id));
        assert QuantityOf(items, id) == tail;
        assert TotalPrice(catalog, Removed(items, id)) == goal;
      } else {
        assert QuantityOf(items, id) == head + tail;
        assert ItemPrice(catalog, items[0]) == LinePrice(p.price, head);
        LinePriceAdd(p.price, QuantityOf(items, id), head, tail);
        var removed, kept := LinePrice(p.price, head), LinePrice(p.price, tail);
        assert LinePrice(p.price, QuantityOf(items, id)) == removed + kept;
        assert TotalPrice(catalog, items) == removed + TotalPrice(catalog, items[1..]);
        assert TotalPrice(catalog, Removed(items, id)) == TotalPrice(catalog, items[1..]) - kept;
      }
    }
  }

  /** The cart store: `cartItems` and the updates that replace it. */
  class CartStore {
    var items: seq<CartItem>

    ghost predicate Valid()
      reads this
    {
      UniqueIds(items)
    }

    /** The cart starts empty. */
    constructor ()
      ensures items == [] && Valid()
    {
      items := [];
    }

    /** `addToCart`: `now` is the clock reading that stamps a new item. */
    method AddToCart(productId: ProductId, quantity: Option<int>, now: nat)
      requires Valid()
      modifies this
      ensures items == Added(old(items), productId, quantity, now)
      ensures Valid()
    {
      UpdatesKeepUniqueIds(items, productId, quantity, 0, now);
      items := Added(items, productId, quantity, now);
    }

    method RemoveFromCart(productId: ProductId)
      requires Valid()
      modifies this
      ensures items == Removed(old(items), productId)
      ensures Valid()
    {
      UpdatesKeepUniqueIds(items, productId, None, 0, 0);
      items := Removed(items, productId);
    }

    method UpdateQuantity(productId: ProductId, quantity: int)
      requires Valid()
      modifies this
      ensures items == Requantified(old(items), productId, quantity)
      ensures Valid()
    {
      if quantity <= 0 {
        RemoveFromCart(productId);
        return;
      }
      UpdatesKeepUniqueIds(items, productId, None, quantity, 0);
      items := MapSeq(items, SetTo(productId, quantity));
    }

    method ClearCart()
      modifies this
      ensures items == [] && Valid()
      ensures TotalItems(items) == 0
    {
      items := [];
    }
  }
}
