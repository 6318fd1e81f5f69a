/** What the three cart transitions promise: the shape of each successful change, the
    error paths, the stock ceiling, the consistency rules they keep, and how they undo
    one another. */
module CartProperties {
  import opened CartLogic

  /** The three operation-specific failures and the shared out-of-stock failure are told
      apart by their messages. */
  lemma MessagesDistinct(o1: Outcome, o2: Outcome)
    requires o1 != Ok && o2 != Ok && o1 != o2
    ensures Message(o1).Some? && Message(o2).Some? && Message(o1) != Message(o2)
  {
  }

  /** A failed stock lookup fails the whole add or update, whatever else was known. */
  lemma LookupFailureChangesNothing(cart: seq<Product>, productId: int, amount: int, fetched: Option<Product>)
    ensures Add(cart, productId, None, fetched) == Step(cart, AddFailed)
    ensures amount > 0 ==> UpdateAmount(cart, productId, amount, None) == Step(cart, UpdateFailed)
  {
  }

  // ----- addProduct -----

  /** When one more unit than the cart already holds (0 if absent) exceeds the stock,
      add reports out of stock and leaves the cart as it was. */
  lemma AddOutOfStock(cart: seq<Product>, productId: int, stock: int, fetched: Option<Product>)
    requires CurrentAmount(cart, productId) + 1 > stock
    ensures Add(cart, productId, Some(stock), fetched) == Step(cart, OutOfStock)
  {
  }

  /** Adding a product already in the cart bumps its first line by one; the length,
      the order of ids and every other line stay as they were, and no product lookup
      is consulted. */
  lemma AddExisting(cart: seq<Product>, productId: int, stock: int, fetched: Option<Product>)
    requires InCart(cart, productId)
    requires CurrentAmount(cart, productId) + 1 <= stock
    ensures var r := Add(cart, productId, Some(stock), fetched);
      var i := FirstIndex(cart, productId);
      && r.outcome == Ok
      && |r.cart| == |cart|
      && Ids(r.cart) == Ids(cart)
      && r.cart[i] == cart[i].(amount := cart[i].amount + 1)
      && (forall k :: 0 <= k < |cart| && k != i ==> r.cart[k] == cart[k])
      && r == Add(cart, productId, Some(stock), None)
  {
  }

  /** Adding a product not yet in the cart appends the fetched product, with quantity 1,
      after every existing line; a failed product lookup is an add failure instead. */
  lemma AddNew(cart: seq<Product>, productId: int, stock: int, fetched: Option<Product>)
    requires !InCart(cart, productId)
    requires 1 <= stock
    ensures fetched.None? ==> Add(cart, productId, Some(stock), fetched) == Step(cart, AddFailed)
    ensures fetched.Some? ==>
      var r := Add(cart, productId, Some(stock), fetched);
      && r.outcome == Ok
      && r.cart[..|cart|] == cart
      && r.cart == cart + [fetched.value.(amount := 1)]
      && r.cart[|cart|].amount == 1
  {
  }

  // ----- removeProduct -----

  /** Removing an id in the cart drops exactly its first line: the lines before it and
      the lines after it keep their order, and nothing else is lost. */
  lemma RemoveFirstMatch(cart: seq<Product>, productId: int)
    requires InCart(cart, productId)
    ensures var r := Remove(cart, productId);
      var i := FirstIndex(cart, productId);
      && r.outcome == Ok
      && cart[i].id == productId
      && (forall k :: 0 <= k < i ==> cart[k].id != productId)
      && |r.cart| == |cart| - 1
      && (forall k :: 0 <= k < i ==> r.cart[k] == cart[k])
      && (forall k :: i <= k < |r.cart| ==> r.cart[k] == cart[k + 1])
      && multiset(r.cart) + multiset{cart[i]} == multiset(cart)
  {
    var i := FirstIndex(cart, productId);
    assert cart == cart[..i] + [cart[i]] + cart[i + 1..];
  }

  /** In a cart with distinct ids, a removed product is gone entirely. */
  lemma RemoveLeavesNoMatch(cart: seq<Product>, productId: int)
    requires UniqueIds(cart)
    ensures !InCart(Remove(cart, productId).cart, productId)
  {
  }

  // ----- updateProductAmount -----

  /** A quantity of zero or less is ignored without an error, whatever the stock
      lookup would have said (it is never made). */
  lemma UpdateNonPositiveIgnored(cart: seq<Product>, productId: int, amount: int, stock: Option<int>)
    requires amount <= 0
    ensures UpdateAmount(cart, productId, amount, stock) == Step(cart, Ok)
  {
  }

  /** For a positive quantity the stock ceiling is checked first, so an absent line asked
      for beyond stock reports out of stock, not an update failure; within stock an absent
      line is an update failure and a present one gets exactly the quantity asked for. */
  lemma UpdateDecisionOrder(cart: seq<Product>, productId: int, amount: int, stock: int)
    requires amount > 0
    ensures amount > stock ==> UpdateAmount(cart, productId, amount, Some(stock)) == Step(cart, OutOfStock)
    ensures amount <= stock && !InCart(cart, productId) ==>
      UpdateAmount(cart, productId, amount, Some(stock)) == Step(cart, UpdateFailed)
    ensures amount <= stock && InCart(cart, productId) ==>
      var r := UpdateAmount(cart, productId, amount, Some(stock));
      var i := FirstIndex(cart, productId);
      && r.outcome == Ok
      && |r.cart| == |cart|
      && Ids(r.cart) == Ids(cart)
      && r.cart[i] == cart[i].(amount := amount)
      && (forall k :: 0 <= k < |cart| && k != i ==> r.cart[k] == cart[k])
  {
  }

  // ----- the stock ceiling -----

  /** Every line of `after` that is new or differs from the line at the same place in
      `before` asks for at most `stock` units. */
  predicate ChangedWithin(before: seq<Product>, after: seq<Product>, stock: int) {
    forall k :: 0 <= k < |after| && (k >= |before| || after[k] != before[k]) ==> after[k].amount <= stock
  }

  /** A successful add commits only quantities within the stock it just observed, and
      grows the cart by at most one line. */
  lemma AddWithinStock(cart: seq<Product>, productId: int, stock: Option<int>, fetched: Option<Product>)
    requires Add(cart, productId, stock, fetched).outcome == Ok
    ensures var r := Add(cart, productId, stock, fetched);
      stock.Some? && ChangedWithin(cart, r.cart, stock.value) && |cart| <= |r.cart| <= |cart| + 1
  {
  }

  /** A successful update commits only the quantity asked for, and only within the stock
      it just observed. */
  lemma UpdateWithinStock(cart: seq<Product>, productId: int, amount: int, stock: Option<int>)
    requires UpdateAmount(cart, productId, amount, stock).outcome == Ok
    requires amount > 0
    ensures var r := UpdateAmount(cart, productId, amount, stock);
      && stock.Some? && ChangedWithin(cart, r.cart, stock.value) && |r.cart| == |cart|
      && forall k :: 0 <= k < |cart| && r.cart[k] != cart[k] ==> r.cart[k].amount == amount
  {
  }

  // ----- the consistency rules -----

  /** The product lookup answers with the product that was asked for. */
  predicate CatalogAnswers(productId: int, fetched: Option<Product>) {
    fetched.Some? ==> fetched.value.id == productId
  }

  lemma AddPreservesWellFormed(cart: seq<Product>, productId: int, stock: Option<int>, fetched: Option<Product>)
    requires WellFormed(cart)
    requires CatalogAnswers(productId, fetched)
    ensures WellFormed(Add(cart, productId, stock, fetched).cart)
  {
  }

  lemma RemovePreservesWellFormed(cart: seq<Product>, productId: int)
    requires WellFormed(cart)
    ensures WellFormed(Remove(cart, productId).cart)
  {
  }

  lemma UpdatePreservesWellFormed(cart: seq<Product>, productId: int, amount: int, stock: Option<int>)
    requires WellFormed(cart)
    ensures WellFormed(UpdateAmount(cart, productId, amount, stock).cart)
  {
  }

  // ----- undoing a change -----

  /** Removing a product that was just added as a new line gives back the cart from
      before the add. */
  lemma AddThenRemove(cart: seq<Product>, productId: int, stock: Option<int>, fetched: Option<Product>)
    requires !InCart(cart, productId)
    requires CatalogAnswers(productId, fetched)
    requires Add(cart, productId, stock, fetched).outcome == Ok
    ensures Remove(Add(cart, productId, stock, fetched).cart, productId) == Step(cart, Ok)
  {
    var added := Add(cart, productId, stock, fetched).cart;
    assert added == cart + [fetched.value.(amount := 1)];
    assert added[|cart|].id == productId;
    assert forall k :: 0 <= k < |cart| ==> added[k].id != productId by {
      assert FirstIndex(cart, productId) == -1;
    }
    assert FirstIndex(added, productId) == |cart|;
    assert added[..|cart|] == cart;
  }

  /** Setting a line back to the quantity it had undoes an update. */
  lemma UpdateThenRestore(cart: seq<Product>, productId: int, amount: int, stock: int)
    requires InCart(cart, productId)
    requires 0 < amount <= stock
    requires 0 < CurrentAmount(cart, productId) <= stock
    ensures var r := UpdateAmount(cart, productId, amount, Some(stock));
      r.outcome == Ok &&
      UpdateAmount(r.cart, productId, CurrentAmount(cart, productId), Some(stock)) == Step(cart, Ok)
  {
    var i := FirstIndex(cart, productId);
    var r := UpdateAmount(cart, productId, amount, Some(stock)).cart;
    assert r == cart[i := cart[i].(amount := amount)];
    assert FirstIndex(r, productId) == i by {
      assert r[i].id == productId;
      assert forall k :: 0 <= k < i ==> r[k].id != productId;
    }
    assert r[i := r[i].(amount := cart[i].amount)] == cart;
  }

  /** Updating to the same quantity twice is the same as updating once. */
  lemma UpdateIdempotent(cart: seq<Product>, productId: int, amount: int, stock: Option<int>)
    ensures var r := UpdateAmount(cart, productId, amount, stock);
      UpdateAmount(r.cart, productId, amount, stock) == Step(r.cart, r.outcome)
  {
    var r := UpdateAmount(cart, productId, amount, stock);
    if r.cart != cart {
      var i := FirstIndex(cart, productId);
      assert r.cart == cart[i := cart[i].(amount := amount)];
      assert FirstIndex(r.cart, productId) == i by {
        assert r.cart[i].id == productId;
        assert forall k :: 0 <= k < i ==> r.cart[k].id != productId;
      }
      assert r.cart[i := r.cart[i].(amount := amount)] == r.cart;
    }
  }

  // ----- any sequence of operations -----

  /** One call of an entry point, with the answers its remote lookups got. */
  datatype Request =
    | AddRequest(productId: int, stock: Option<int>, fetched: Option<Product>)
    | RemoveRequest(productId: int)
    | UpdateRequest(productId: int, amount: int, stock: Option<int>)

  function Apply(cart: seq<Product>, req: Request): Step {
    match req
    case AddRequest(id, stock, fetched) => Add(cart, id, stock, fetched)
    case RemoveRequest(id) => Remove(cart, id)
    case UpdateRequest(id, amount, stock) => UpdateAmount(cart, id, amount, stock)
  }

  /** The cart after running the requests one after another. */
  function Run(cart: seq<Product>, reqs: seq<Request>): seq<Product>
    decreases |reqs|
  {
    if reqs == [] then cart else Run(Apply(cart, reqs[0]).cart, reqs[1..])
  }

  predicate Answered(req: Request) {
    req.AddRequest? ==> CatalogAnswers(req.productId, req.fetched)
  }

  /** Starting from a consistent cart, no sequence of operations breaks id uniqueness or
      produces a line with fewer than one unit. */
  lemma {:induction false} RunPreservesWellFormed(cart: seq<Product>, reqs: seq<Request>)
    requires WellFormed(cart)
    requires forall k :: 0 <= k < |reqs| ==> Answered(reqs[k])
    ensures WellFormed(Run(cart, reqs))
    decreases |reqs|
  {
    if reqs != [] {
      var req := reqs[0];
      match req {
        case AddRequest(id, stock, fetched) => AddPreservesWellFormed(cart, id, stock, fetched);
        case RemoveRequest(id) => RemovePreservesWellFormed(cart, id);
        case UpdateRequest(id, amount, stock) => UpdatePreservesWellFormed(cart, id, amount, stock);
      }
      RunPreservesWellFormed(Apply(cart, req).cart, reqs[1..]);
    }
  }

  /** A run in which every request fails leaves the cart exactly as it was. */
  lemma {:induction false} FailedRunChangesNothing(cart: seq<Product>, reqs: seq<Request>)
    requires forall k :: 0 <= k < |reqs| ==> Apply(cart, reqs[k]).outcome != Ok
    ensures Run(cart, reqs) == cart
    decreases |reqs|
  {
    if reqs != [] {
      FailedRunChangesNothing(cart, reqs[1..]);
    }
  }

  // ----- worked scenarios -----

  /** An empty cart and 5 units in stock: adding product 1 gives one line of it. */
  lemma ScenarioAddToEmpty(p: Product)
    requires p.id == 1
    ensures Add([], 1, Some(5), Some(p)) == Step([p.(amount := 1)], Ok)
  {
  }

  /** One unit in the cart and one in stock: adding another is out of stock. */
  lemma ScenarioAddBeyondStock(p: Product)
    requires p.id == 1 && p.amount == 1
    ensures Add([p], 1, Some(1), None) == Step([p], OutOfStock)
  {
  }

  /** Setting a quantity of 0 changes nothing and reports nothing. */
  lemma ScenarioUpdateToZero(p: Product, stock: Option<int>)
    requires p.id == 1 && p.amount == 2
    ensures UpdateAmount([p], 1, 0, stock) == Step([p], Ok)
  {
  }

  /** Removing the only line empties the cart. */
  lemma ScenarioRemoveLast(p: Product)
    requires p.id == 2 && p.amount == 3
    ensures Remove([p], 2) == Step([], Ok)
  {
  }
}
