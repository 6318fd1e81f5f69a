/** The cart of the RocketShoes store front and the three transitions that change it.

    A cart is an ordered sequence of line items. Each transition takes the cart it
    starts from and the results of the remote lookups it needs (`None` when a lookup
    failed), and yields the cart to commit together with the outcome the user is
    notified of. Items are values: a transition builds a new cart and never alters
    the one it was given.
 */
module CartLogic {

  datatype Option<T> = None | Some(value: T)

  /** One line of the cart: a catalogue product and the quantity wanted.
      `title` and `image` stand for the catalogue data copied verbatim. */
  datatype Product = Product(id: int, title: string, image: string, amount: int)

  /** What the user is told after an operation; every failure has its own toast. */
  datatype Outcome = Ok | OutOfStock | AddFailed | RemoveFailed | UpdateFailed

  /** The cart to commit and the outcome of one operation. */
  datatype Step = Step(cart: seq<Product>, outcome: Outcome)

  const OutOfStockMessage := "Quantidade solicitada fora de estoque"
  const AddFailedMessage := "Erro na adição do produto"
  const RemoveFailedMessage := "Erro na remoção do produto"
  const UpdateFailedMessage := "Erro na alteração de quantidade do produto"

  /** The toast shown for an outcome; a successful operation shows none. */
  function Message(o: Outcome): (m: Option<string>)
    ensures m.None? <==> o == Ok
  {
    match o
    case Ok => None
    case OutOfStock => Some(OutOfStockMessage)
    case AddFailed => Some(AddFailedMessage)
    case RemoveFailed => Some(RemoveFailedMessage)
    case UpdateFailed => Some(UpdateFailedMessage)
  }

  /** Index of the first line with the given id, or -1 when there is none
      (the value `findIndex` gives; `find` returns the line at this index). */
  function FirstIndex(cart: seq<Product>, id: int): (i: int)
    ensures -1 <= i < |cart|
    ensures i == -1 <==> forall k :: 0 <= k < |cart| ==> cart[k].id != id
    ensures 0 <= i ==> cart[i].id == id && forall k :: 0 <= k < i ==> cart[k].id != id
  {
    if cart == [] then -1
    else if cart[0].id == id then 0
    else
      var j := FirstIndex(cart[1..], id);
      if j < 0 then -1 else j + 1
  }

  predicate InCart(cart: seq<Product>, id: int) {
    exists k :: 0 <= k < |cart| && cart[k].id == id
  }

  /** The quantity of the product already in the cart, 0 when it is absent. */
  function CurrentAmount(cart: seq<Product>, id: int): (n: int)
    ensures !InCart(cart, id) ==> n == 0
    ensures InCart(cart, id) ==>
      exists k :: 0 <= k < |cart| && cart[k].id == id && cart[k].amount == n &&
        forall j :: 0 <= j < k ==> cart[j].id != id
  {
    var i := FirstIndex(cart, id);
    if i >= 0 then cart[i].amount else 0
  }

  /** The ids of the cart, in cart order. */
  function Ids(cart: seq<Product>): seq<int> {
    seq(|cart|, k requires 0 <= k < |cart| => cart[k].id)
  }

  /** No two lines share an id. */
  predicate UniqueIds(cart: seq<Product>) {
    forall i, j :: 0 <= i < j < |cart| ==> cart[i].id != cart[j].id
  }

  /** Every line asks for at least one unit. */
  predicate PositiveAmounts(cart: seq<Product>) {
    forall k :: 0 <= k < |cart| ==> cart[k].amount >= 1
  }

  /** The consistency rules every cart reachable from a consistent one keeps. */
  predicate WellFormed(cart: seq<Product>) {
    UniqueIds(cart) && PositiveAmounts(cart)
  }

  /** The same cart with the quantity of line `i` replaced. */
  function SetAmount(cart: seq<Product>, i: int, amount: int): seq<Product>
    requires 0 <= i < |cart|
  {
    cart[i := cart[i].(amount := amount)]
  }

  /** addProduct: `stock` is the stock lookup for `productId`, `fetched` the product lookup
      (only consulted when the product is not yet in the cart). */
  function Add(cart: seq<Product>, productId: int, stock: Option<int>, fetched: Option<Product>): (r: Step)
    ensures r.outcome in {Ok, OutOfStock, AddFailed}
    ensures r.outcome != Ok ==> r.cart == cart
  {
    var i := FirstIndex(cart, productId);
    if stock.None? then Step(cart, AddFailed)
    else
      var amount := (if i >= 0 then cart[i].amount else 0) + 1;
      if amount > stock.value then Step(cart, OutOfStock)
      else if i >= 0 then Step(SetAmount(cart, i, amount), Ok)
      else if fetched.None? then Step(cart, AddFailed)
      else Step(cart + [fetched.value.(amount := 1)], Ok)
  }

  /** removeProduct: drops the first line with the id; an absent id is an error. */
  function Remove(cart: seq<Product>, productId: int): (r: Step)
    ensures r.outcome in {Ok, RemoveFailed}
    ensures r.outcome != Ok ==> r.cart == cart
    ensures r.outcome == Ok <==> InCart(cart, productId)
  {
    var i := FirstIndex(cart, productId);
    if i >= 0 then Step(cart[..i] + cart[i + 1..], Ok) else Step(cart, RemoveFailed)
  }

  /** updateProductAmount: a non-positive amount is ignored before any lookup; the stock
      ceiling is checked before the line is looked for. */
  function UpdateAmount(cart: seq<Product>, productId: int, amount: int, stock: Option<int>): (r: Step)
    ensures r.outcome in {Ok, OutOfStock, UpdateFailed}
    ensures r.outcome != Ok ==> r.cart == cart
  {
    if amount <= 0 then Step(cart, Ok)
    else if stock.None? then Step(cart, UpdateFailed)
    else if amount > stock.value then Step(cart, OutOfStock)
    else
      var i := FirstIndex(cart, productId);
      if i >= 0 then Step(SetAmount(cart, i, amount), Ok) else Step(cart, UpdateFailed)
  }
}
