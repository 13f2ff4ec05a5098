/** The cart provider: one state field, `cart`, replaced as a whole by
    addProduct, removeProduct and updateProductAmount. The answers of the stock
    and product services are parameters, and the notice an operation shows is
    its returned Outcome. */
module CartProvider {
  import opened CartLines

  /** The stock service's answer for one product: the quantity available.
      `id` mirrors the answer's shape; the operations read only `amount`. */
  datatype Stock = Stock(id: int, amount: int)

  /** What an operation reports: Ok and NoOp show nothing, the others name the
      error notice shown (out of stock, or the removal failure). */
  datatype Outcome = Ok | OutOfStock | RemoveError | NoOp

  /** The cart after an operation, with what the operation reported. */
  datatype Step = Step(cart: seq<Product>, outcome: Outcome)

  /** addProduct: `stock` is the stock service's answer, `fetched` the product
      service's record, which is consulted only when the id is new. */
  function Add(cart: seq<Product>, productId: int, stock: Stock, fetched: Product): (r: Step)
    ensures r.outcome == Ok || r.outcome == OutOfStock
    ensures r.outcome == OutOfStock ==> r.cart == cart
    ensures r.outcome == Ok ==> |r.cart| == |cart| + (if HasId(cart, productId) then 0 else 1)
    ensures r.outcome == Ok ==> 0 < stock.amount
  {
    var found := Find(cart, productId);
    if found.Some? && found.value.amount >= stock.amount then Step(cart, OutOfStock)
    else if stock.amount <= 0 then Step(cart, OutOfStock)
    else if HasId(cart, productId) then Step(Incremented(cart, productId), Ok)
    else Step(cart + [fetched.(amount := 1)], Ok)
  }

  /** removeProduct. */
  function Remove(cart: seq<Product>, productId: int): (r: Step)
    ensures r.outcome == Ok || r.outcome == RemoveError
    ensures r.outcome == RemoveError <==> !HasId(cart, productId)
    ensures r.outcome == RemoveError ==> r.cart == cart
    ensures |r.cart| <= |cart|
  {
    match Find(cart, productId)
    case Some(line) => Step(Without(cart, line.id), Ok)
    case None => Step(cart, RemoveError)
  }

  /** updateProductAmount: `stock` is the stock service's answer. */
  function Update(cart: seq<Product>, productId: int, amount: int, stock: Stock): (r: Step)
    ensures r.outcome == NoOp <==> amount <= 0
    ensures r.outcome == Ok ==> 0 < amount <= stock.amount
    ensures r.outcome != Ok ==> r.cart == cart
    ensures |r.cart| == |cart|
  {
    if amount <= 0 then Step(cart, NoOp)
    else if amount > stock.amount then Step(cart, OutOfStock)
    else Step(WithAmount(cart, productId, amount), Ok)
  }

  /** addProduct is refused, with the out-of-stock notice and the cart
      untouched, exactly when the line already holds at least the stock or
      there is no stock at all; otherwise it succeeds. */
  lemma AddRejects(cart: seq<Product>, productId: int, stock: Stock, fetched: Product)
    ensures var s := Add(cart, productId, stock, fetched);
            (s.outcome == OutOfStock <==>
               (HasId(cart, productId) && cart[IndexOf(cart, productId)].amount >= stock.amount)
               || stock.amount <= 0)
            && (s.outcome == OutOfStock ==> s.cart == cart)
            && (s.outcome != OutOfStock ==> s.outcome == Ok)
  {
  }

  /** addProduct on a present id below its stock increments that line by one,
      so it stays within the stock, and changes nothing else. */
  lemma {:induction false} AddIncrementsPresent(cart: seq<Product>, productId: int, stock: Stock, fetched: Product)
    requires HasId(cart, productId)
    requires cart[IndexOf(cart, productId)].amount < stock.amount
    requires stock.amount > 0
    ensures var s := Add(cart, productId, stock, fetched);
            var k := IndexOf(cart, productId);
            s.outcome == Ok && |s.cart| == |cart|
            && s.cart[k] == cart[k].(amount := cart[k].amount + 1)
            && s.cart[k].amount <= stock.amount
            && (forall i :: 0 <= i < |cart| && cart[i].id != productId ==> s.cart[i] == cart[i])
            && (UniqueIds(cart) ==> forall i :: 0 <= i < |cart| && i != k ==> s.cart[i] == cart[i])
  {
    var s := Add(cart, productId, stock, fetched);
    assert s.cart == Incremented(cart, productId);
    forall i | 0 <= i < |cart|
      ensures cart[i].id != productId ==> s.cart[i] == cart[i]
      ensures i == IndexOf(cart, productId) ==> s.cart[i] == cart[i].(amount := cart[i].amount + 1)
    {
      IncrementedAt(cart, productId, i);
    }
  }

  /** addProduct on a new id with stock appends one line, the fetched record
      with amount 1, after the unchanged earlier lines. */
  lemma AddAppendsAbsent(cart: seq<Product>, productId: int, stock: Stock, fetched: Product)
    requires !HasId(cart, productId)
    requires stock.amount > 0
    ensures var s := Add(cart, productId, stock, fetched);
            s.outcome == Ok && |s.cart| == |cart| + 1 && s.cart[..|cart|] == cart
            && s.cart[|cart|].id == fetched.id && s.cart[|cart|].details == fetched.details
            && s.cart[|cart|].amount == 1 <= stock.amount
  {
  }

  /** removeProduct on an absent id reports the removal error and keeps the
      cart. On a present id it drops every line with that id and keeps every
      other line, as often as it occurred: the lines before the first match are
      kept in place and the rest is filtered in order. */
  lemma RemoveOutcome(cart: seq<Product>, productId: int)
    ensures var s := Remove(cart, productId);
            (!HasId(cart, productId) ==> s == Step(cart, RemoveError))
            && (HasId(cart, productId) ==>
                  var k := IndexOf(cart, productId);
                  s.outcome == Ok && !HasId(s.cart, productId)
                  && s.cart == cart[..k] + Without(cart[k + 1..], productId)
                  && forall p :: multiset(s.cart)[p] == if p.id == productId then 0 else multiset(cart)[p])
  {
    var s := Remove(cart, productId);
    if HasId(cart, productId) {
      assert s.cart == Without(cart, productId);
      WithoutMembers(cart, productId);
      WithoutCount(cart, productId);
      WithoutSplit(cart, productId);
      forall i | 0 <= i < |s.cart| ensures s.cart[i].id != productId {
        assert s.cart[i] in s.cart;
      }
    }
  }

  /** In a cart with unique ids, removing a present id deletes exactly its one
      line and keeps the other lines in their order. */
  lemma RemoveDeletesLine(cart: seq<Product>, productId: int)
    requires UniqueIds(cart)
    requires HasId(cart, productId)
    ensures var s := Remove(cart, productId);
            var k := IndexOf(cart, productId);
            s.outcome == Ok && s.cart == cart[..k] + cart[k + 1..] && |s.cart| == |cart| - 1
  {
    WithoutUnique(cart, productId);
  }

  /** updateProductAmount with a non-positive amount changes nothing and shows
      nothing; with an amount above the stock it shows the out-of-stock notice
      and keeps the cart. */
  lemma UpdateRejects(cart: seq<Product>, productId: int, amount: int, stock: Stock)
    ensures var s := Update(cart, productId, amount, stock);
            (amount <= 0 ==> s == Step(cart, NoOp))
            && (0 < amount && stock.amount < amount ==> s == Step(cart, OutOfStock))
            && (0 < amount <= stock.amount ==> s.outcome == Ok)
  {
  }

  /** updateProductAmount with an amount in 1..stock gives every line of the id
      exactly that amount and changes no other line. */
  lemma {:induction false} UpdateSetsAmount(cart: seq<Product>, productId: int, amount: int, stock: Stock)
    requires 0 < amount <= stock.amount
    ensures var s := Update(cart, productId, amount, stock);
            s.outcome == Ok && |s.cart| == |cart|
            && (forall i :: 0 <= i < |cart| && cart[i].id == productId ==>
                  s.cart[i] == cart[i].(amount := amount) && s.cart[i].amount <= stock.amount)
            && (forall i :: 0 <= i < |cart| && cart[i].id != productId ==> s.cart[i] == cart[i])
  {
    var s := Update(cart, productId, amount, stock);
    forall i | 0 <= i < |cart|
      ensures s.cart[i] == if cart[i].id == productId then cart[i].(amount := amount) else cart[i]
    {
      WithAmountAt(cart, productId, amount, i);
    }
  }

  /** updateProductAmount on an id the cart does not hold leaves the cart as it was. */
  lemma UpdateAbsentUnchanged(cart: seq<Product>, productId: int, amount: int, stock: Stock)
    requires !HasId(cart, productId)
    ensures Update(cart, productId, amount, stock).cart == cart
  {
    WithAmountAbsent(cart, productId, amount);
  }

  /** addProduct keeps ids unique and amounts positive, provided the product
      service answers with the record of the requested id. */
  lemma AddPreservesWellFormed(cart: seq<Product>, productId: int, stock: Stock, fetched: Product)
    requires WellFormed(cart)
    requires fetched.id == productId
    ensures WellFormed(Add(cart, productId, stock, fetched).cart)
  {
    var s := Add(cart, productId, stock, fetched);
    if s.outcome == Ok && HasId(cart, productId) {
      forall i | 0 <= i < |cart|
        ensures s.cart[i].id == cart[i].id && s.cart[i].amount >= cart[i].amount
      {
        IncrementedAt(cart, productId, i);
      }
    }
  }

  /** removeProduct keeps ids unique and amounts positive. */
  lemma RemovePreservesWellFormed(cart: seq<Product>, productId: int)
    requires WellFormed(cart)
    ensures WellFormed(Remove(cart, productId).cart)
  {
    if HasId(cart, productId) {
      var k := IndexOf(cart, productId);
      RemoveDeletesLine(cart, productId);
      DeleteAtWellFormed(cart, k);
    }
  }

  /** updateProductAmount keeps ids unique and amounts positive. */
  lemma UpdatePreservesWellFormed(cart: seq<Product>, productId: int, amount: int, stock: Stock)
    requires WellFormed(cart)
    ensures WellFormed(Update(cart, productId, amount, stock).cart)
  {
    var s := Update(cart, productId, amount, stock);
    if s.outcome == Ok {
      forall i | 0 <= i < |cart|
        ensures s.cart[i].id == cart[i].id && s.cart[i].amount >= 1
      {
        WithAmountAt(cart, productId, amount, i);
      }
    }
  }

  /** The `cart.map` callback of addProduct, which increments the matching
      lines and raises the `cartContains` flag when it meets one. */
  method IncrementMatching(cart: seq<Product>, productId: int) returns (newCart: seq<Product>, cartContains: bool)
    ensures newCart == Incremented(cart, productId)
    ensures cartContains <==> HasId(cart, productId)
  {
    newCart := [];
    cartContains := false;
    var i := 0;
    while i < |cart|
      invariant 0 <= i <= |cart|
      invariant |newCart| == i
      invariant forall j :: 0 <= j < i ==>
                  newCart[j] == if cart[j].id == productId then cart[j].(amount := cart[j].amount + 1) else cart[j]
      invariant cartContains <==> exists j :: 0 <= j < i && cart[j].id == productId
    {
      var item := cart[i];
      if item.id == productId {
        cartContains := true;
        newCart := newCart + [item.(amount := item.amount + 1)];
      } else {
        newCart := newCart + [item];
      }
      i := i + 1;
    }
    forall j | 0 <= j < |cart| ensures newCart[j] == Incremented(cart, productId)[j] {
      IncrementedAt(cart, productId, j);
    }
  }

  /** The provider's state: the list of cart lines. */
  class Cart {
    var cart: seq<Product>

    /** The initial cart: the parsed stored cart when storage holds one, the
        empty cart otherwise. */
    constructor (stored: Option<seq<Product>>)
      ensures cart == if stored.Some? then stored.value else []
      ensures stored.None? ==> WellFormed(cart)
    {
      cart := if stored.Some? then stored.value else [];
    }

    method AddProduct(productId: int, stock: Stock, fetched: Product) returns (outcome: Outcome)
      modifies this
      ensures Step(cart, outcome) == Add(old(cart), productId, stock, fetched)
      ensures outcome != Ok ==> cart == old(cart)
      ensures old(WellFormed(cart)) && fetched.id == productId ==> WellFormed(cart)
    {
      ghost var before := cart;
      var product := Find(cart, productId);
      if product.Some? && product.value.amount >= stock.amount {
        return OutOfStock;
      }
      if stock.amount <= 0 {
        return OutOfStock;
      }
      // `snapshot` is the cart the callbacks captured before the first setCart.
      var snapshot := cart;
      var newCart, cartContains := IncrementMatching(snapshot, productId);
      cart := newCart;
      if !cartContains {
        cart := snapshot + [fetched.(amount := 1)];
      }
      outcome := Ok;
      if WellFormed(before) && fetched.id == productId {
        AddPreservesWellFormed(before, productId, stock, fetched);
      }
    }

    method RemoveProduct(productId: int) returns (outcome: Outcome)
      modifies this
      ensures Step(cart, outcome) == Remove(old(cart), productId)
      ensures outcome != Ok ==> cart == old(cart)
      ensures old(WellFormed(cart)) ==> WellFormed(cart)
    {
      ghost var before := cart;
      var index := Find(cart, productId);
      if index.Some? {
        cart := Without(cart, index.value.id);
        outcome := Ok;
      } else {
        outcome := RemoveError;
      }
      if WellFormed(before) {
        RemovePreservesWellFormed(before, productId);
      }
    }

    method UpdateProductAmount(productId: int, amount: int, stock: Stock) returns (outcome: Outcome)
      modifies this
      ensures Step(cart, outcome) == Update(old(cart), productId, amount, stock)
      ensures outcome != Ok ==> cart == old(cart)
      ensures old(WellFormed(cart)) ==> WellFormed(cart)
    {
      ghost var before := cart;
      if amount <= 0 {
        return NoOp;
      }
      if amount > stock.amount {
        outcome := OutOfStock;
      } else {
        cart := WithAmount(cart, productId, amount);
        outcome := Ok;
      }
      if WellFormed(before) {
        UpdatePreservesWellFormed(before, productId, amount, stock);
      }
    }
  }
}
