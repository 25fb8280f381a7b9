/** The shopping cart kept by the application shell: adding a product either
    bumps the quantity of the item with the same id or appends a new item, and
    the navbar shows the sum of the quantities. */
module Cart {
  import opened Common

  /** A product as the catalogue hands it to `addToCart`. */
  datatype CatalogItem = CatalogItem(id: string, name: string, price: real, weight: string, image: string)

  /** `{ ...product, quantity }`. */
  datatype CartItem = CartItem(product: CatalogItem, quantity: nat)

  function Ids(cart: seq<CartItem>): (ids: seq<string>)
    ensures |ids| == |cart|
    ensures forall i :: 0 <= i < |cart| ==> ids[i] == cart[i].product.id
  {
    seq(|cart|, i requires 0 <= i < |cart| => cart[i].product.id)
  }

  predicate DistinctIds(cart: seq<CartItem>) {
    forall i, j :: 0 <= i < j < |cart| ==> cart[i].product.id != cart[j].product.id
  }

  /** `prev.find(item => item.id === id)`. */
  function Find(cart: seq<CartItem>, id: string): (r: Option<CartItem>)
    ensures r.Some? <==> id in Ids(cart)
    ensures r.Some? ==> r.value in cart && r.value.product.id == id
  {
    if |cart| == 0 then None
    else if cart[0].product.id == id then Some(cart[0])
    else
      var r := Find(cart[1..], id);
      assert Ids(cart) == [cart[0].product.id] + Ids(cart[1..]);
      r
  }

  /** `prev.map(item => item.id === id ? { ...item, quantity: item.quantity + 1 } : item)`. */
  function Bump(cart: seq<CartItem>, id: string): (r: seq<CartItem>)
    ensures |r| == |cart|
    ensures forall i :: 0 <= i < |cart| ==>
      r[i].product == cart[i].product &&
      r[i].quantity == cart[i].quantity + (if cart[i].product.id == id then 1 else 0)
  {
    if |cart| == 0 then []
    else
      var head := if cart[0].product.id == id then cart[0].(quantity := cart[0].quantity + 1) else cart[0];
      [head] + Bump(cart[1..], id)
  }

  /** `addToCart`. An item already in the cart keeps its own copy of the
      product: only its quantity changes. */
  function AddToCart(cart: seq<CartItem>, p: CatalogItem): (r: seq<CartItem>)
    ensures |r| == |cart| + (if p.id in Ids(cart) then 0 else 1)
    ensures forall i :: 0 <= i < |cart| ==>
      r[i].product == cart[i].product &&
      r[i].quantity == cart[i].quantity + (if cart[i].product.id == p.id then 1 else 0)
    ensures p.id !in Ids(cart) ==> r[|cart|] == CartItem(p, 1)
  {
    match Find(cart, p.id)
    case Some(_) => Bump(cart, p.id)
    case None => cart + [CartItem(p, 1)]
  }

  /** Adding keeps ids pairwise distinct, and never moves an item. */
  lemma AddKeepsIdsDistinct(cart: seq<CartItem>, p: CatalogItem)
    requires DistinctIds(cart)
    ensures DistinctIds(AddToCart(cart, p))
    ensures Ids(AddToCart(cart, p))[..|cart|] == Ids(cart)
  {
    var r := AddToCart(cart, p);
    if p.id !in Ids(cart) {
      forall i | 0 <= i < |cart| ensures r[i].product.id != r[|cart|].product.id {
        assert Ids(cart)[i] == cart[i].product.id;
      }
    }
  }

  /** The cart after adding the products one after another, starting empty. */
  function AddAll(products: seq<CatalogItem>): (cart: seq<CartItem>)
    ensures DistinctIds(cart)
    decreases |products|
  {
    if |products| == 0 then []
    else
      var before := AddAll(products[..|products| - 1]);
      AddKeepsIdsDistinct(before, products[|products| - 1]);
      AddToCart(before, products[|products| - 1])
  }

  /** `cart.reduce((acc, item) => acc + item.quantity, 0)`. */
  function CartCount(cart: seq<CartItem>): (n: nat)
    ensures forall i :: 0 <= i < |cart| ==> cart[i].quantity <= n
    ensures (forall i :: 0 <= i < |cart| ==> cart[i].quantity >= 1) ==> n >= |cart|
  {
    if |cart| == 0 then 0 else cart[0].quantity + CartCount(cart[1..])
  }

  lemma {:induction false} CountAppend(cart: seq<CartItem>, x: CartItem)
    ensures CartCount(cart + [x]) == CartCount(cart) + x.quantity
  {
    if |cart| > 0 {
      assert (cart + [x])[1..] == cart[1..] + [x];
      CountAppend(cart[1..], x);
    }
  }

  lemma {:induction false} CountBump(cart: seq<CartItem>, id: string)
    requires DistinctIds(cart)
    ensures CartCount(Bump(cart, id)) == CartCount(cart) + (if id in Ids(cart) then 1 else 0)
  {
    if |cart| > 0 {
      assert Ids(cart) == [cart[0].product.id] + Ids(cart[1..]);
      assert Bump(cart, id)[1..] == Bump(cart[1..], id);
      CountBump(cart[1..], id);
      if cart[0].product.id == id {
        assert id !in Ids(cart[1..]) by {
          forall k | 0 <= k < |cart| - 1 ensures Ids(cart[1..])[k] != id {
            assert cart[1..][k] == cart[k + 1];
          }
        }
      }
    }
  }

  /** Every addition raises the count shown in the navbar by exactly one. */
  lemma CountAfterAdd(cart: seq<CartItem>, p: CatalogItem)
    requires DistinctIds(cart)
    ensures CartCount(AddToCart(cart, p)) == CartCount(cart) + 1
  {
    if p.id in Ids(cart) {
      CountBump(cart, p.id);
    } else {
      CountAppend(cart, CartItem(p, 1));
    }
  }

  /** So the count is always the number of additions made. */
  lemma {:induction false} CountIsAdditions(products: seq<CatalogItem>)
    ensures CartCount(AddAll(products)) == |products|
    decreases |products|
  {
    if |products| > 0 {
      CountIsAdditions(products[..|products| - 1]);
      CountAfterAdd(AddAll(products[..|products| - 1]), products[|products| - 1]);
    }
  }
}
