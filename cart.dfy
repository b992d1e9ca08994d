/** The shopping-cart store of the storefront: an ordered list of line items, unique by
    product id, mirrored to the `@RocketShoes:cart` storage slot and changed only by
    addProduct, removeProduct and updateProductAmount under the stock rules. */
module Cart {
  import opened Wrappers

  /** A line item: the catalogue record of a product and the quantity in the cart.
      `title`, `price` and `image` are carried along and never inspected. */
  datatype Product = Product(id: int, title: string, price: real, image: string, amount: int)

  /** The units available for a product id, as the stock lookup returns them. */
  datatype Stock = Stock(id: int, amount: int)

  /** What an operation reports; it stands in for the toast notifications.
      `NoOp` is the silent path of adding a new product whose stock is zero. */
  datatype Outcome = Ok | NoOp | StockInsufficient | AddFailed | RemoveFailed | UpdateFailed

  // ---------------------------------------------------------------------------
  // Cart values

  predicate InCart(cart: seq<Product>, id: int) {
    exists i :: 0 <= i < |cart| && cart[i].id == id
  }

  predicate UniqueIds(cart: seq<Product>) {
    forall i, j :: 0 <= i < j < |cart| ==> cart[i].id != cart[j].id
  }

  /** The cart invariant: ids are unique and every line item holds at least one unit. */
  predicate WellFormed(cart: seq<Product>) {
    UniqueIds(cart) && forall i :: 0 <= i < |cart| ==> cart[i].amount >= 1
  }

  /** `cart.find(product => product.id === id)`: the first line item with this id. */
  function Find(cart: seq<Product>, id: int): (r: Option<Product>)
    ensures r.None? <==> !InCart(cart, id)
    ensures r.Some? ==> exists k :: 0 <= k < |cart| && cart[k] == r.value && r.value.id == id &&
                                    forall j :: 0 <= j < k ==> cart[j].id != id
  {
    if |cart| == 0 then None
    else if cart[0].id == id then Some(cart[0])
    else
      var r := Find(cart[1..], id);
      assert InCart(cart, id) ==> InCart(cart[1..], id) by {
        if InCart(cart, id) {
          var i :| 0 <= i < |cart| && cart[i].id == id;
          assert cart[1..][i - 1].id == id;
        }
      }
      assert r.Some? ==> exists k :: 0 <= k < |cart| && cart[k] == r.value && r.value.id == id &&
                                     forall j :: 0 <= j < k ==> cart[j].id != id by {
        if r.Some? {
          var k :| 0 <= k < |cart| - 1 && cart[1..][k] == r.value && r.value.id == id &&
                   forall j :: 0 <= j < k ==> cart[1..][j].id != id;
          assert cart[k + 1] == r.value;
          assert forall j :: 0 <= j < k + 1 ==> cart[j].id != id by {
            forall j | 0 <= j < k + 1 ensures cart[j].id != id {
              if j > 0 { assert cart[j] == cart[1..][j - 1]; }
            }
          }
        }
      }
      r
  }

  /** The `cart.map` of addProduct's existing-item branch (lines 47-52) as the stock guard
      intends it: every line item with this id gets one more unit.
      Line 50 as written does something else; see IncrementAsWritten. */
  function Increment(cart: seq<Product>, id: int): seq<Product> {
    seq(|cart|, i requires 0 <= i < |cart| =>
      if cart[i].id == id then cart[i].(amount := cart[i].amount + 1) else cart[i])
  }

  /** Line 50 as written, `{...product, amount: product.amount++}`: a postfix increment
      yields the value BEFORE it increments, so the copy keeps the old amount (the increment
      lands on the object of the old cart, which is then discarded). */
  function IncrementAsWritten(cart: seq<Product>, id: int): seq<Product> {
    seq(|cart|, i requires 0 <= i < |cart| =>
      if cart[i].id == id then cart[i].(amount := cart[i].amount) else cart[i])
  }

  /** The `cart.map` of updateProductAmount (lines 116-121): every line item with this id
      gets exactly `amount` units. */
  function WithAmount(cart: seq<Product>, id: int, amount: int): seq<Product> {
    seq(|cart|, i requires 0 <= i < |cart| =>
      if cart[i].id == id then cart[i].(amount := amount) else cart[i])
  }

  /** `cart.filter(product => product.id !== id)`. */
  function RemoveId(cart: seq<Product>, id: int): (r: seq<Product>)
    ensures forall p :: p in r <==> p in cart && p.id != id
    ensures |r| <= |cart|
    ensures InCart(cart, id) ==> |r| < |cart|
  {
    if |cart| == 0 then []
    else
      var rest := RemoveId(cart[1..], id);
      assert InCart(cart, id) && cart[0].id != id ==> InCart(cart[1..], id) by {
        if InCart(cart, id) && cart[0].id != id {
          var i :| 0 <= i < |cart| && cart[i].id == id;
          assert cart[1..][i - 1].id == id;
        }
      }
      assert forall p :: p in cart <==> p == cart[0] || p in cart[1..] by {
        assert cart == [cart[0]] + cart[1..];
      }
      if cart[0].id == id then rest else [cart[0]] + rest
  }

  /** The useState initialiser (lines 25-35): the stored cart, or the empty cart when the
      slot is absent. */
  function LoadCart(slot: Option<seq<Product>>): seq<Product> {
    slot.GetOr([])
  }

  // ---------------------------------------------------------------------------
  // Properties of the cart values

  /** With unique ids, `find` returns the one line item that carries the id. */
  lemma FindAt(cart: seq<Product>, id: int, k: nat)
    requires UniqueIds(cart) && k < |cart| && cart[k].id == id
    ensures Find(cart, id) == Some(cart[k])
  {
  }

  /** With unique ids, the increment changes the one line item carrying the id, raising its
      amount by one, and leaves every other line item, the length and the order as they were. */
  lemma IncrementAt(cart: seq<Product>, id: int, k: nat)
    requires UniqueIds(cart) && k < |cart| && cart[k].id == id
    ensures Increment(cart, id) == cart[k := cart[k].(amount := cart[k].amount + 1)]
  {
  }

  /** With unique ids, updating the amount sets the one line item carrying the id to exactly
      `amount` and leaves every other line item, the length and the order as they were. */
  lemma WithAmountAt(cart: seq<Product>, id: int, amount: int, k: nat)
    requires UniqueIds(cart) && k < |cart| && cart[k].id == id
    ensures WithAmount(cart, id, amount) == cart[k := cart[k].(amount := amount)]
  {
  }

  /** Filtering out an id that is absent keeps the cart as it is. */
  lemma {:induction false} RemoveAbsent(cart: seq<Product>, id: int)
    requires !InCart(cart, id)
    ensures RemoveId(cart, id) == cart
  {
    if |cart| > 0 {
      assert !InCart(cart[1..], id) by {
        forall i | 0 <= i < |cart| - 1 ensures cart[1..][i].id != id {
          assert cart[1..][i] == cart[i + 1];
        }
      }
      RemoveAbsent(cart[1..], id);
      assert cart[0].id != id;
      assert cart == [cart[0]] + cart[1..];
    }
  }

  /** Dropping the first line item keeps ids unique. */
  lemma TailUnique(cart: seq<Product>)
    requires UniqueIds(cart) && |cart| > 0
    ensures UniqueIds(cart[1..])
  {
  }

  /** With unique ids, the id of the first line item occurs nowhere after it. */
  lemma HeadNotInTail(cart: seq<Product>)
    requires UniqueIds(cart) && |cart| > 0
    ensures !InCart(cart[1..], cart[0].id)
  {
  }

  /** One step of the filter: a line item without the id is kept in front of the rest. */
  lemma RemoveKeepsHead(cart: seq<Product>, id: int)
    requires |cart| > 0 && cart[0].id != id
    ensures RemoveId(cart, id) == [cart[0]] + RemoveId(cart[1..], id)
  {
  }

  /** Cutting index k out of a cart is keeping its head and cutting index k - 1 out of its tail. */
  lemma CutAfterHead(cart: seq<Product>, k: nat)
    requires 0 < k < |cart|
    ensures [cart[0]] + (cart[1..][..k - 1] + cart[1..][k..]) == cart[..k] + cart[k + 1..]
  {
  }

  /** With unique ids, removing an id that is present takes out exactly that one line item and
      keeps the others in their relative order. */
  lemma {:induction false} RemoveAt(cart: seq<Product>, id: int, k: nat)
    requires UniqueIds(cart) && k < |cart| && cart[k].id == id
    ensures RemoveId(cart, id) == cart[..k] + cart[k + 1..]
  {
    if k == 0 {
      HeadNotInTail(cart);
      RemoveAbsent(cart[1..], id);
      assert cart[..0] + cart[1..] == cart[1..];
    } else {
      assert cart[0].id != cart[k].id;
      TailUnique(cart);
      assert cart[1..][k - 1] == cart[k];
      RemoveAt(cart[1..], id, k - 1);
      RemoveKeepsHead(cart, id);
      CutAfterHead(cart, k);
    }
  }

  /** Adding a product that is not yet in the cart, with one unit, keeps the cart invariant. */
  lemma AppendPreserves(cart: seq<Product>, p: Product)
    requires WellFormed(cart) && !InCart(cart, p.id)
    ensures WellFormed(cart + [p.(amount := 1)])
  {
  }

  /** Raising an amount by one keeps the cart invariant. */
  lemma IncrementPreserves(cart: seq<Product>, id: int)
    requires WellFormed(cart)
    ensures WellFormed(Increment(cart, id))
  {
  }

  /** Setting an amount of at least one keeps the cart invariant. */
  lemma WithAmountPreserves(cart: seq<Product>, id: int, amount: int)
    requires WellFormed(cart) && amount >= 1
    ensures WellFormed(WithAmount(cart, id, amount))
  {
  }

  /** Dropping the first line item keeps the cart invariant. */
  lemma TailPreserves(cart: seq<Product>)
    requires WellFormed(cart) && |cart| > 0
    ensures WellFormed(cart[1..])
  {
  }

  /** Putting in front a line item whose id no other line item carries keeps the invariant. */
  lemma ConsPreserves(x: Product, rest: seq<Product>)
    requires WellFormed(rest) && x.amount >= 1
    requires forall p :: p in rest ==> p.id != x.id
    ensures WellFormed([x] + rest)
  {
  }

  /** Filtering keeps the cart invariant. */
  lemma {:induction false} RemovePreserves(cart: seq<Product>, id: int)
    requires WellFormed(cart)
    ensures WellFormed(RemoveId(cart, id))
  {
    if |cart| > 0 {
      var tail := cart[1..];
      TailPreserves(cart);
      RemovePreserves(tail, id);
      if cart[0].id != id {
        forall p | p in RemoveId(tail, id) ensures p.id != cart[0].id {
          var m :| 0 <= m < |tail| && tail[m] == p;
          assert cart[m + 1] == p;
        }
        ConsPreserves(cart[0], RemoveId(tail, id));
      }
    }
  }

  /** Line 50 as written: bumping an existing item leaves the cart exactly as it was, which is
      not what the guard at line 46 lets through to happen. */
  lemma AsWrittenAddKeepsAmount(cart: seq<Product>, id: int)
    requires InCart(cart, id)
    ensures IncrementAsWritten(cart, id) == cart
    ensures IncrementAsWritten(cart, id) != Increment(cart, id)
  {
  }

  // ---------------------------------------------------------------------------
  // The store

  /** The state behind CartProvider: the in-memory cart and the storage slot it is mirrored
      to. `stored == None` means the slot is absent. */
  class CartStore {
    var cart: seq<Product>
    ghost var stored: Option<seq<Product>>

    /** A store initialised afresh from the slot would see exactly the in-memory cart. */
    ghost predicate Synced()
      reads this
    {
      LoadCart(stored) == cart
    }

    /** The useState initialiser: read the slot once; an absent slot gives the empty cart. */
    constructor (slot: Option<seq<Product>>)
      ensures stored == slot && cart == LoadCart(slot) && Synced()
      ensures slot.None? ==> cart == []
      ensures slot.Some? ==> cart == slot.value
    {
      cart := LoadCart(slot);
      stored := slot;
    }

    /** The commit pair: `setCart(next)` followed by writing `next` to the slot. */
    method Commit(next: seq<Product>)
      modifies this
      ensures cart == next && stored == Some(next) && Synced()
    {
      cart := next;
      stored := Some(next);
    }

    /** addProduct. `product` and `stock` are the results of the two lookups, `None` when a
        lookup threw. */
    method AddProduct(productId: int, product: Option<Product>, stock: Option<Stock>) returns (o: Outcome)
      requires Synced()
      modifies this
      ensures Synced()
      ensures product.None? || stock.None? ==> o == AddFailed && unchanged(this)
      ensures product.Some? && stock.Some? && InCart(old(cart), productId) ==>
        if stock.value.amount > Find(old(cart), productId).value.amount
        then o == Ok && cart == Increment(old(cart), productId) && stored == Some(cart)
        else o == StockInsufficient && unchanged(this)
      ensures product.Some? && stock.Some? && !InCart(old(cart), productId) ==>
        if stock.value.amount > 0
        then o == Ok && cart == old(cart) + [product.value.(amount := 1)] && stored == Some(cart)
        else o == NoOp && unchanged(this)
      ensures o != Ok ==> unchanged(this)
      ensures old(WellFormed(cart)) && (product.Some? ==> product.value.id == productId) ==>
        WellFormed(cart) &&
        (o == Ok ==> Find(cart, productId).Some? && Find(cart, productId).value.amount <= stock.value.amount)
    {
      if product.None? || stock.None? {
        return AddFailed;
      }
      var p, s := product.value, stock.value;
      var existing := Find(cart, productId);
      if existing.Some? {
        if s.amount > existing.value.amount {
          ghost var before := cart;
          Commit(Increment(cart, productId));
          o := Ok;
          if WellFormed(before) {
            IncrementPreserves(before, productId);
            var k :| 0 <= k < |before| && before[k] == existing.value && before[k].id == productId &&
                     forall j :: 0 <= j < k ==> before[j].id != productId;
            IncrementAt(before, productId, k);
            FindAt(cart, productId, k);
          }
        } else {
          o := StockInsufficient;
        }
      } else {
        if s.amount > 0 {
          ghost var before := cart;
          Commit(cart + [p.(amount := 1)]);
          o := Ok;
          if WellFormed(before) && p.id == productId {
            AppendPreserves(before, p);
            FindAt(cart, productId, |before|);
          }
        } else {
          o := NoOp;
        }
      }
    }

    /** removeProduct. */
    method RemoveProduct(productId: int) returns (o: Outcome)
      requires Synced()
      modifies this
      ensures Synced()
      ensures InCart(old(cart), productId) ==>
        o == Ok && cart == RemoveId(old(cart), productId) && stored == Some(cart)
      ensures !InCart(old(cart), productId) ==> o == RemoveFailed && unchanged(this)
      ensures !InCart(cart, productId)
      ensures old(WellFormed(cart)) ==> WellFormed(cart)
      ensures old(UniqueIds(cart)) && o == Ok ==>
        exists k :: 0 <= k < |old(cart)| && old(cart)[k].id == productId &&
                    cart == old(cart)[..k] + old(cart)[k + 1..]
    {
      var existing := Find(cart, productId);
      if existing.Some? {
        ghost var before := cart;
        Commit(RemoveId(cart, productId));
        o := Ok;
        if WellFormed(before) { RemovePreserves(before, productId); }
        if UniqueIds(before) {
          var k :| 0 <= k < |before| && before[k].id == productId;
          RemoveAt(before, productId, k);
        }
        assert !InCart(cart, productId) by {
          forall i | 0 <= i < |cart| ensures cart[i].id != productId {
            assert cart[i] in cart;
          }
        }
      } else {
        o := RemoveFailed;
      }
    }

    /** updateProductAmount. `stock` is the result of the stock lookup, `None` when it threw;
        the lookup runs before the amount checks, which run before the cart is searched. */
    method UpdateProductAmount(productId: int, amount: int, stock: Option<Stock>) returns (o: Outcome)
      requires Synced()
      modifies this
      ensures Synced()
      ensures stock.None? ==> o == UpdateFailed && unchanged(this)
      ensures stock.Some? && (amount < 1 || stock.value.amount < amount) ==>
        o == StockInsufficient && unchanged(this)
      ensures stock.Some? && 1 <= amount <= stock.value.amount ==>
        if InCart(old(cart), productId)
        then o == Ok && cart == WithAmount(old(cart), productId, amount) && stored == Some(cart)
        else o == UpdateFailed && unchanged(this)
      ensures o != Ok ==> unchanged(this)
      ensures old(WellFormed(cart)) ==> WellFormed(cart)
      ensures old(UniqueIds(cart)) && o == Ok ==>
        Find(cart, productId) == Some(Find(old(cart), productId).value.(amount := amount))
    {
      if stock.None? {
        return UpdateFailed;
      }
      var s := stock.value;
      if amount < 1 {
        return StockInsufficient;
      }
      if s.amount < amount {
        return StockInsufficient;
      }
      var existing := Find(cart, productId);
      if existing.Some? {
        ghost var before := cart;
        Commit(WithAmount(cart, productId, amount));
        o := Ok;
        if WellFormed(before) { WithAmountPreserves(before, productId, amount); }
        if UniqueIds(before) {
          var k :| 0 <= k < |before| && before[k] == existing.value && before[k].id == productId;
          FindAt(before, productId, k);
          WithAmountAt(before, productId, amount, k);
          assert UniqueIds(cart) by {
            forall i, j | 0 <= i < j < |cart| ensures cart[i].id != cart[j].id {
              assert cart[i].id == before[i].id && cart[j].id == before[j].id;
            }
          }
          FindAt(cart, productId, k);
        }
      } else {
        o := UpdateFailed;
      }
    }
  }

  /** The walk-through of the storefront: one product with five units in stock is added twice,
      set to five, refused at six and removed. */
  method Walkthrough(shoe: Product)
    requires shoe.id == 1
  {
    var stock := Some(Stock(1, 5));
    var store := new CartStore(None);
    var o := store.AddProduct(1, Some(shoe), stock);
    assert o == Ok && store.cart == [shoe.(amount := 1)];
    assert Find(store.cart, 1) == Some(shoe.(amount := 1));
    o := store.AddProduct(1, Some(shoe), stock);
    IncrementAt([shoe.(amount := 1)], 1, 0);
    assert o == Ok && store.cart == [shoe.(amount := 2)];
    assert Find(store.cart, 1) == Some(shoe.(amount := 2));
    o := store.UpdateProductAmount(1, 5, stock);
    WithAmountAt([shoe.(amount := 2)], 1, 5, 0);
    assert o == Ok && store.cart == [shoe.(amount := 5)];
    o := store.UpdateProductAmount(1, 6, stock);
    assert o == StockInsufficient && store.cart == [shoe.(amount := 5)];
    assert InCart(store.cart, 1) by { assert store.cart[0].id == 1; }
    o := store.RemoveProduct(1);
    RemoveAt([shoe.(amount := 5)], 1, 0);
    assert o == Ok && store.cart == [];
  }
}
