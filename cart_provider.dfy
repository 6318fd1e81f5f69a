/** The cart provider: the state that holds the committed cart, the entry points that
    change it, and the pass that writes it to the browser's storage when it changed. */
module CartStore {
  import opened CartLogic

  /** What the storage holds under the cart key: nothing (or an empty string), a
      snapshot that parses as a list of line items, or text that does not parse. */
  datatype Stored = Absent | Snapshot(items: seq<Product>) | Unreadable

  /** The key the cart snapshot is stored under. */
  const CartKey := "@RocketShoes:cart"

  /** The initial cart: the stored snapshot, or the empty cart when nothing is stored.
      Text that does not parse gives no cart at all: the parse error is not caught. */
  function LoadCart(stored: Stored): (r: Option<seq<Product>>)
    ensures r.None? <==> stored.Unreadable?
    ensures stored.Absent? ==> r == Some([])
    ensures forall c :: stored == Snapshot(c) ==> r == Some(c)
  {
    match stored
    case Absent => Some([])
    case Snapshot(items) => Some(items)
    case Unreadable => None
  }

  /** `findIndex` on the cart: the position of the first line with the id, -1 if none. */
  method FindIndex(items: seq<Product>, id: int) returns (index: int)
    ensures index == FirstIndex(items, id)
    ensures index >= 0 <==> InCart(items, id)
  {
    index := 0;
    while index < |items| && items[index].id != id
      invariant 0 <= index <= |items|
      invariant forall k :: 0 <= k < index ==> items[k].id != id
    {
      index := index + 1;
    }
    if index == |items| {
      index := -1;
    }
  }

  class CartProvider {
    /** The committed cart, as consumers see it. */
    var cart: seq<Product>
    /** The cart as it was at the previous persistence pass. */
    var lastPersisted: seq<Product>
    /** Whether a commit happened since the previous pass. Every commit hands over a new
        array, so the pass's reference comparison sees a change exactly then. */
    var committed: bool
    /** What the storage holds under CartKey. */
    var storage: Stored

    /** The storage holds, readably, the cart as of the previous persistence pass, and
        the cart can only differ from that one through a commit. */
    ghost predicate Valid()
      reads this
    {
      && LoadCart(storage) == Some(lastPersisted)
      && (!committed ==> cart == lastPersisted)
    }

    /** Starts from the stored cart, or the empty cart when nothing is stored. The first
        pass has nothing to compare with, so it treats the loaded cart as persisted. */
    constructor (stored: Stored)
      requires !stored.Unreadable?
      ensures Some(cart) == LoadCart(stored)
      ensures lastPersisted == cart && storage == stored && !committed
      ensures Valid()
    {
      cart := LoadCart(stored).value;
      lastPersisted := LoadCart(stored).value;
      committed := false;
      storage := stored;
    }

    /** addProduct, given the answers of the stock lookup and of the product lookup. */
    method AddProduct(productId: int, stock: Option<int>, fetched: Option<Product>) returns (outcome: Outcome)
      requires Valid()
      modifies this`cart, this`committed
      ensures Valid()
      ensures Step(cart, outcome) == Add(old(cart), productId, stock, fetched)
      ensures committed <==> old(committed) || outcome == Ok
    {
      var updatedCart := cart;
      var index := FindIndex(updatedCart, productId);
      if stock.None? {
        return AddFailed;
      }
      var currentAmount := if index >= 0 then updatedCart[index].amount else 0;
      var amount := currentAmount + 1;
      if amount > stock.value {
        return OutOfStock;
      }
      if index >= 0 {
        updatedCart := updatedCart[index := updatedCart[index].(amount := amount)];
      } else {
        if fetched.None? {
          return AddFailed;
        }
        updatedCart := updatedCart + [fetched.value.(amount := 1)];
      }
      cart, committed := updatedCart, true;
      outcome := Ok;
    }

    /** removeProduct. */
    method RemoveProduct(productId: int) returns (outcome: Outcome)
      requires Valid()
      modifies this`cart, this`committed
      ensures Valid()
      ensures Step(cart, outcome) == Remove(old(cart), productId)
      ensures committed <==> old(committed) || outcome == Ok
    {
      var updatedCart := cart;
      var index := FindIndex(updatedCart, productId);
      if index >= 0 {
        updatedCart := updatedCart[..index] + updatedCart[index + 1..];
        cart, committed := updatedCart, true;
        outcome := Ok;
      } else {
        outcome := RemoveFailed;
      }
    }

    /** updateProductAmount, given the answer of the stock lookup (not consulted when
        `amount` is not positive). Ignoring a non-positive amount commits nothing. */
    method UpdateProductAmount(productId: int, amount: int, stock: Option<int>) returns (outcome: Outcome)
      requires Valid()
      modifies this`cart, this`committed
      ensures Valid()
      ensures Step(cart, outcome) == UpdateAmount(old(cart), productId, amount, stock)
      ensures committed <==> old(committed) || (outcome == Ok && amount > 0)
    {
      if amount <= 0 {
        return Ok;
      }
      if stock.None? {
        return UpdateFailed;
      }
      if amount > stock.value {
        return OutOfStock;
      }
      var updatedCart := cart;
      var index := FindIndex(updatedCart, productId);
      if index >= 0 {
        updatedCart := updatedCart[index := updatedCart[index].(amount := amount)];
        cart, committed := updatedCart, true;
        outcome := Ok;
      } else {
        outcome := UpdateFailed;
      }
    }

    /** The persistence pass: write the cart when a commit handed over a new array since
        the previous pass, even one with the same contents, then remember the cart.
        Afterwards the storage reloads to the cart. */
    method PersistIfChanged() returns (written: bool)
      requires Valid()
      modifies this`lastPersisted, this`storage, this`committed
      ensures written <==> old(committed)
      ensures storage == if written then Snapshot(cart) else old(storage)
      ensures lastPersisted == cart && !committed
      ensures Valid() && LoadCart(storage) == Some(cart)
    {
      written := committed;
      if written {
        storage := Snapshot(cart);
      }
      lastPersisted, committed := cart, false;
    }
  }

  /** One line of product 2 with quantity 3 is stored; removing product 2 empties the
      cart, and the next pass stores the empty cart. */
  method ScenarioRemoveAndPersist(p: Product) returns (outcome: Outcome, written: bool, stored: Stored)
    requires p.id == 2 && p.amount == 3
    ensures outcome == Ok && written && stored == Snapshot([])
  {
    var provider := new CartProvider(Snapshot([p]));
    outcome := provider.RemoveProduct(2);
    written := provider.PersistIfChanged();
    stored := provider.storage;
  }

  /** Setting a line to the quantity it already has commits an equal cart, and the next
      pass writes it again. */
  method ScenarioUpdateSameAmount(p: Product) returns (outcome: Outcome, cart: seq<Product>, written: bool)
    requires p.id == 1 && p.amount == 2
    ensures outcome == Ok && cart == [p] && written
  {
    var provider := new CartProvider(Snapshot([p]));
    outcome := provider.UpdateProductAmount(1, 2, Some(5));
    cart := provider.cart;
    written := provider.PersistIfChanged();
  }

  /** Three adds of a new product with 1 unit in stock: a failed product lookup commits
      nothing, the next add commits one unit, the last one is out of stock. */
  method ScenarioAddTwice(p: Product) returns (outcomes: seq<Outcome>, cart: seq<Product>)
    requires p.id == 1
    ensures outcomes == [AddFailed, Ok, OutOfStock] && cart == [p.(amount := 1)]
  {
    var provider := new CartProvider(Absent);
    var first := provider.AddProduct(1, Some(1), None);
    var second := provider.AddProduct(1, Some(1), Some(p));
    var third := provider.AddProduct(1, Some(1), Some(p));
    outcomes, cart := [first, second, third], provider.cart;
  }
}
