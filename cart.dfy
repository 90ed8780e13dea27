/** The shopping-cart line-item store of the marketplace app: an ordered list
    of products with quantities, and the three operations that change it
    (add to cart, increment, decrement). */
module Cart {

  /** One cart line. `price` is never computed with, so it is kept opaque. */
  datatype Product = Product(id: string, title: string, imageUrl: string, price: int, quantity: nat)

  /** What `addToCart` receives: a product without its quantity. */
  datatype NewProduct = NewProduct(id: string, title: string, imageUrl: string, price: int)

  /** Result of an operation that may fail with an error message. The store's
      methods return a `Result<()>`. */
  datatype Result<T> = Ok(value: T) | Failure(error: string)

  /** The message thrown by increment and decrement for an unknown id. */
  const NotFoundMessage: string := "Product Id not found"

  // ---------------------------------------------------------------------
  // Predicates about a cart

  predicate HasId(s: seq<Product>, id: string) {
    exists k :: 0 <= k < |s| && s[k].id == id
  }

  /** `i` is the index of the first entry whose id is `id`. */
  predicate FirstMatch(s: seq<Product>, id: string, i: int) {
    0 <= i < |s| && s[i].id == id && forall k :: 0 <= k < i ==> s[k].id != id
  }

  /** No two entries share an id. */
  predicate UniqueIds(s: seq<Product>) {
    forall i, j :: 0 <= i < j < |s| ==> s[i].id != s[j].id
  }

  /** Every entry has quantity at least 1. */
  predicate AllPositive(s: seq<Product>) {
    forall k :: 0 <= k < |s| ==> s[k].quantity >= 1
  }

  // ---------------------------------------------------------------------
  // Specification of the operations

  /** The index `find` followed by `indexOf` yields: the first entry with the
      id, or -1 when there is none. */
  function IndexOf(s: seq<Product>, id: string): (r: int)
    ensures -1 <= r < |s|
    ensures r == -1 <==> !HasId(s, id)
    ensures r != -1 ==> FirstMatch(s, id, r)
  {
    if s == [] then -1
    else if s[0].id == id then 0
    else
      var r := IndexOf(s[1..], id);
      if r == -1 then
        assert forall k :: 1 <= k < |s| ==> s[k] == s[1..][k - 1];
        -1
      else
        assert forall k :: 1 <= k <= r + 1 ==> s[k] == s[1..][k - 1];
        r + 1
  }

  /** The entry stored for an item newly put in the cart. */
  function Fresh(item: NewProduct): (p: Product) {
    Product(item.id, item.title, item.imageUrl, item.price, 1)
  }

  /** The entry with its quantity one higher; every other field kept. */
  function Bumped(p: Product): (q: Product) {
    p.(quantity := p.quantity + 1)
  }

  /** The cart after `addToCart(item)`: the id is then in the cart, the cart
      grows only when the id was new, and entries with other ids keep their
      place. */
  function Added(s: seq<Product>, item: NewProduct): (r: seq<Product>)
    ensures |r| == if HasId(s, item.id) then |s| else |s| + 1
    ensures HasId(r, item.id)
    ensures forall k :: 0 <= k < |s| && s[k].id != item.id ==> r[k] == s[k]
  {
    var i := IndexOf(s, item.id);
    if i == -1 then
      var r := s + [Fresh(item)];
      assert r[|s|].id == item.id;
      r
    else
      var r := s[i := Bumped(s[i])];
      assert r[i].id == item.id;
      r
  }

  /** The cart after `increment(id)`, or the not-found failure. */
  function Incremented(s: seq<Product>, id: string): (r: Result<seq<Product>>)
    ensures r.Failure? <==> !HasId(s, id)
    ensures r.Failure? ==> r.error == NotFoundMessage
  {
    var i := IndexOf(s, id);
    if i == -1 then Failure(NotFoundMessage) else Ok(s[i := Bumped(s[i])])
  }

  /** The cart after `decrement(id)`, or the not-found failure. An entry whose
      quantity is not above 1 is removed rather than lowered. */
  function Decremented(s: seq<Product>, id: string): (r: Result<seq<Product>>)
    ensures r.Failure? <==> !HasId(s, id)
    ensures r.Failure? ==> r.error == NotFoundMessage
  {
    var i := IndexOf(s, id);
    if i == -1 then Failure(NotFoundMessage)
    else if s[i].quantity > 1 then Ok(s[i := s[i].(quantity := s[i].quantity - 1)])
    else Ok(s[..i] + s[i + 1..])
  }

  /** The cart after adding each of `items` in turn. */
  function AddedAll(s: seq<Product>, items: seq<NewProduct>): (r: seq<Product>)
    decreases |items|
  {
    if items == [] then s else AddedAll(Added(s, items[0]), items[1..])
  }

  // ---------------------------------------------------------------------
  // addToCart

  /** A new id appends exactly one entry, with the supplied fields and
      quantity 1; earlier entries are kept in order. */
  lemma AddedAbsent(s: seq<Product>, item: NewProduct)
    requires !HasId(s, item.id)
    ensures |Added(s, item)| == |s| + 1
    ensures Added(s, item)[..|s|] == s
    ensures Added(s, item)[|s|] == Fresh(item)
  {
  }

  /** A known id keeps the length, bumps the first matching entry's quantity
      by one, keeps that entry's stored fields and changes no other index. */
  lemma AddedPresent(s: seq<Product>, item: NewProduct, i: int)
    requires FirstMatch(s, item.id, i)
    ensures |Added(s, item)| == |s|
    ensures Added(s, item)[i].quantity == s[i].quantity + 1
    ensures Added(s, item)[i].id == s[i].id && Added(s, item)[i].title == s[i].title
    ensures Added(s, item)[i].imageUrl == s[i].imageUrl && Added(s, item)[i].price == s[i].price
    ensures forall k :: 0 <= k < |s| && k != i ==> Added(s, item)[k] == s[k]
  {
  }

  /** Adding keeps ids unique. */
  lemma AddedKeepsUnique(s: seq<Product>, item: NewProduct)
    requires UniqueIds(s)
    ensures UniqueIds(Added(s, item))
  {
  }

  /** Adding keeps every quantity at least 1. */
  lemma AddedKeepsPositive(s: seq<Product>, item: NewProduct)
    requires AllPositive(s)
    ensures AllPositive(Added(s, item))
  {
  }

  /** Any sequence of additions to a cart with unique ids and positive
      quantities leaves ids unique and quantities positive. */
  lemma {:induction false} AddedAllKeepsInvariant(s: seq<Product>, items: seq<NewProduct>)
    requires UniqueIds(s) && AllPositive(s)
    ensures UniqueIds(AddedAll(s, items)) && AllPositive(AddedAll(s, items))
    decreases |items|
  {
    if items != [] {
      AddedKeepsUnique(s, items[0]);
      AddedKeepsPositive(s, items[0]);
      AddedAllKeepsInvariant(Added(s, items[0]), items[1..]);
    }
  }

  /** Adding a new item twice yields one entry with quantity 2. */
  lemma AddedTwice(s: seq<Product>, item: NewProduct)
    requires !HasId(s, item.id)
    ensures Added(Added(s, item), item) == s + [Fresh(item).(quantity := 2)]
  {
  }

  /** On a known id, adding is the same as incrementing. */
  lemma AddedPresentIsIncrement(s: seq<Product>, item: NewProduct)
    requires HasId(s, item.id)
    ensures Incremented(s, item.id) == Ok(Added(s, item))
  {
  }

  // ---------------------------------------------------------------------
  // increment

  /** An unknown id fails with the not-found message (a corollary of the
      contract of `Incremented`, stated as a single equation). */
  lemma IncrementedAbsent(s: seq<Product>, id: string)
    requires !HasId(s, id)
    ensures Incremented(s, id) == Failure(NotFoundMessage)
  {
  }

  /** A known id bumps the first matching entry's quantity by one at the same
      index and leaves every other entry and the length unchanged. */
  lemma IncrementedPresent(s: seq<Product>, id: string, i: int)
    requires FirstMatch(s, id, i)
    ensures Incremented(s, id).Ok?
    ensures |Incremented(s, id).value| == |s|
    ensures Incremented(s, id).value[i] == s[i].(quantity := s[i].quantity + 1)
    ensures forall k :: 0 <= k < |s| && k != i ==> Incremented(s, id).value[k] == s[k]
  {
  }

  /** Incrementing keeps ids unique and quantities positive. */
  lemma IncrementedKeepsInvariant(s: seq<Product>, id: string)
    requires UniqueIds(s) && AllPositive(s)
    requires Incremented(s, id).Ok?
    ensures UniqueIds(Incremented(s, id).value) && AllPositive(Incremented(s, id).value)
  {
  }

  // ---------------------------------------------------------------------
  // decrement

  /** An unknown id fails with the not-found message (a corollary of the
      contract of `Decremented`, stated as a single equation). */
  lemma DecrementedAbsent(s: seq<Product>, id: string)
    requires !HasId(s, id)
    ensures Decremented(s, id) == Failure(NotFoundMessage)
  {
  }

  /** A first match with quantity above 1 is lowered by exactly one; nothing
      else changes. */
  lemma DecrementedAboveOne(s: seq<Product>, id: string, i: int)
    requires FirstMatch(s, id, i) && s[i].quantity > 1
    ensures Decremented(s, id).Ok?
    ensures |Decremented(s, id).value| == |s|
    ensures Decremented(s, id).value[i] == s[i].(quantity := s[i].quantity - 1)
    ensures forall k :: 0 <= k < |s| && k != i ==> Decremented(s, id).value[k] == s[k]
  {
  }

  /** A first match with quantity at most 1 is removed: the length drops by
      one and the other entries keep their relative order. */
  lemma DecrementedRemoves(s: seq<Product>, id: string, i: int)
    requires FirstMatch(s, id, i) && s[i].quantity <= 1
    ensures Decremented(s, id) == Ok(s[..i] + s[i + 1..])
    ensures |Decremented(s, id).value| == |s| - 1
    ensures forall k :: 0 <= k < i ==> Decremented(s, id).value[k] == s[k]
    ensures forall k :: i < k < |s| ==> Decremented(s, id).value[k - 1] == s[k]
  {
  }

  /** Decrementing keeps ids unique and quantities positive. */
  lemma DecrementedKeepsInvariant(s: seq<Product>, id: string)
    requires UniqueIds(s) && AllPositive(s)
    requires Decremented(s, id).Ok?
    ensures UniqueIds(Decremented(s, id).value) && AllPositive(Decremented(s, id).value)
  {
  }

  /** On a cart whose quantities are all at least 1, decrementing undoes an
      increment. (An entry stored with quantity 0 is bumped to 1 and then
      removed instead.) */
  lemma DecrementUndoesIncrement(s: seq<Product>, id: string)
    requires AllPositive(s) && Incremented(s, id).Ok?
    ensures Decremented(Incremented(s, id).value, id) == Ok(s)
  {
    var i := IndexOf(s, id);
    var t := Incremented(s, id).value;
    assert FirstMatch(t, id, i) by {
      assert forall k :: 0 <= k < i ==> t[k] == s[k];
    }
    FirstMatchUnique(t, id, i, IndexOf(t, id));
    assert t[i := t[i].(quantity := t[i].quantity - 1)] == s;
  }

  /** Decrementing a just-added new item removes it again. */
  lemma DecrementUndoesFreshAdd(s: seq<Product>, item: NewProduct)
    requires !HasId(s, item.id)
    ensures Decremented(Added(s, item), item.id) == Ok(s)
  {
    var t := Added(s, item);
    FirstMatchUnique(t, item.id, |s|, IndexOf(t, item.id));
    assert t[..|s|] + t[|s| + 1..] == s;
  }

  /** The first match is unique. */
  lemma FirstMatchUnique(s: seq<Product>, id: string, i: int, j: int)
    requires FirstMatch(s, id, i) && FirstMatch(s, id, j)
    ensures i == j
  {
  }

  // ---------------------------------------------------------------------
  // The store

  /** The cart provider's state: the current list of products, changed in
      place by the three operations. */
  class CartStore {
    var products: seq<Product>

    ghost predicate Valid()
      reads this
    {
      UniqueIds(products) && AllPositive(products)
    }

    constructor ()
      ensures products == [] && Valid()
    {
      products := [];
    }

    /** The linear search by id behind `find` and `indexOf`. */
    method FindIndex(id: string) returns (i: int)
      ensures i == IndexOf(products, id)
    {
      i := 0;
      while i < |products| && products[i].id != id
        invariant 0 <= i <= |products|
        invariant forall k :: 0 <= k < i ==> products[k].id != id
      {
        i := i + 1;
      }
      if i == |products| {
        i := -1;
      }
    }

    method AddToCart(item: NewProduct)
      modifies this
      ensures products == Added(old(products), item)
      ensures old(Valid()) ==> Valid()
    {
      var i := FindIndex(item.id);
      if i != -1 {
        products := products[i := Bumped(products[i])];
      } else {
        products := products + [Fresh(item)];
      }
      if old(Valid()) {
        AddedKeepsUnique(old(products), item);
        AddedKeepsPositive(old(products), item);
      }
    }

    method Increment(id: string) returns (status: Result<()>)
      modifies this
      ensures Incremented(old(products), id).Failure? ==>
                status == Failure(NotFoundMessage) && products == old(products)
      ensures Incremented(old(products), id).Ok? ==>
                status == Ok(()) && products == Incremented(old(products), id).value
      ensures old(Valid()) ==> Valid()
    {
      var i := FindIndex(id);
      if i == -1 {
        return Failure(NotFoundMessage);
      }
      products := products[i := Bumped(products[i])];
      status := Ok(());
      if old(Valid()) {
        IncrementedKeepsInvariant(old(products), id);
      }
    }

    method Decrement(id: string) returns (status: Result<()>)
      modifies this
      ensures Decremented(old(products), id).Failure? ==>
                status == Failure(NotFoundMessage) && products == old(products)
      ensures Decremented(old(products), id).Ok? ==>
                status == Ok(()) && products == Decremented(old(products), id).value
      ensures old(Valid()) ==> Valid()
    {
      var i := FindIndex(id);
      if i == -1 {
        return Failure(NotFoundMessage);
      }
      if products[i].quantity > 1 {
        products := products[i := products[i].(quantity := products[i].quantity - 1)];
      } else {
        products := products[..i] + products[i + 1..];
      }
      status := Ok(());
      if old(Valid()) {
        DecrementedKeepsInvariant(old(products), id);
      }
    }
  }
}
