/** Cart lines and the list operations (find, map, filter) from which the cart
    provider computes every new cart. Each operation is a recursive function
    over the sequence of lines; what it computes is proved in lemmas beside it. */
module CartLines {

  datatype Option<+T> = None | Some(value: T)

  /** Product metadata that the cart carries along and never inspects. */
  datatype Details = Details(title: string, price: real, image: string)

  /** One cart line: a product record whose `amount` is the requested quantity. */
  datatype Product = Product(id: int, amount: int, details: Details)

  /** Some line of the cart has this id. */
  predicate HasId(cart: seq<Product>, id: int) {
    exists i :: 0 <= i < |cart| && cart[i].id == id
  }

  /** At most one line per id. */
  predicate UniqueIds(cart: seq<Product>) {
    forall i, j :: 0 <= i < j < |cart| ==> cart[i].id != cart[j].id
  }

  /** Every line asks for at least one unit. */
  predicate AmountsPositive(cart: seq<Product>) {
    forall i :: 0 <= i < |cart| ==> cart[i].amount >= 1
  }

  /** The cart invariant the three operations keep. */
  predicate WellFormed(cart: seq<Product>) {
    UniqueIds(cart) && AmountsPositive(cart)
  }

  /** Position of the first line with this id, or |cart| when there is none. */
  function IndexOf(cart: seq<Product>, id: int): (k: nat)
    ensures k <= |cart|
    ensures k < |cart| ==> cart[k].id == id
    ensures forall j :: 0 <= j < k ==> cart[j].id != id
    ensures k < |cart| <==> HasId(cart, id)
  {
    if cart == [] then 0
    else if cart[0].id == id then 0
    else 1 + IndexOf(cart[1..], id)
  }

  /** `cart.find(p => p.id === id)`: the first line with this id, if any. */
  function Find(cart: seq<Product>, id: int): (r: Option<Product>)
    ensures r.Some? <==> HasId(cart, id)
    ensures r.Some? ==> r.value.id == id
    ensures r.Some? ==> exists i :: 0 <= i < |cart| && cart[i] == r.value &&
                          forall j :: 0 <= j < i ==> cart[j].id != id
  {
    var k := IndexOf(cart, id);
    if k < |cart| then Some(cart[k]) else None
  }

  /** The `cart.map` of addProduct: each line with this id gets one more unit. */
  function Incremented(cart: seq<Product>, id: int): (r: seq<Product>)
    ensures |r| == |cart|
  {
    if cart == [] then []
    else
      var head := if cart[0].id == id then cart[0].(amount := cart[0].amount + 1) else cart[0];
      [head] + Incremented(cart[1..], id)
  }

  /** The `cart.map` of updateProductAmount: each line with this id gets `amount`. */
  function WithAmount(cart: seq<Product>, id: int, amount: int): (r: seq<Product>)
    ensures |r| == |cart|
  {
    if cart == [] then []
    else
      var head := if cart[0].id == id then cart[0].(amount := amount) else cart[0];
      [head] + WithAmount(cart[1..], id, amount)
  }

  /** The `cart.filter` of removeProduct: the lines whose id differs, in order. */
  function Without(cart: seq<Product>, id: int): (r: seq<Product>)
    ensures |r| <= |cart|
  {
    if cart == [] then []
    else
      (if cart[0].id == id then [] else [cart[0]]) + Without(cart[1..], id)
  }

  /** A line of the incremented cart keeps its id and details; it gains one
      unit exactly when its id is the one incremented. */
  lemma {:induction false} IncrementedAt(cart: seq<Product>, id: int, i: int)
    requires 0 <= i < |cart|
    ensures Incremented(cart, id)[i].id == cart[i].id
    ensures Incremented(cart, id)[i].details == cart[i].details
    ensures Incremented(cart, id)[i].amount ==
            if cart[i].id == id then cart[i].amount + 1 else cart[i].amount
  {
    if i > 0 {
      IncrementedAt(cart[1..], id, i - 1);
    }
  }

  /** A line of the updated cart keeps its id and details; its amount is
      `amount` exactly when its id is the one updated. */
  lemma {:induction false} WithAmountAt(cart: seq<Product>, id: int, amount: int, i: int)
    requires 0 <= i < |cart|
    ensures WithAmount(cart, id, amount)[i].id == cart[i].id
    ensures WithAmount(cart, id, amount)[i].details == cart[i].details
    ensures WithAmount(cart, id, amount)[i].amount ==
            if cart[i].id == id then amount else cart[i].amount
  {
    if i > 0 {
      WithAmountAt(cart[1..], id, amount, i - 1);
    }
  }

  /** Mapping over a cart that has no line with the id gives back the same cart. */
  lemma {:induction false} WithAmountAbsent(cart: seq<Product>, id: int, amount: int)
    requires !HasId(cart, id)
    ensures WithAmount(cart, id, amount) == cart
  {
    if cart != [] {
      assert cart[0].id != id;
      AbsentTail(cart, id);
      WithAmountAbsent(cart[1..], id, amount);
    }
  }

  /** Filtering out a present id keeps the lines before its first occurrence
      in place, drops that line, and filters the rest. */
  lemma WithoutSplit(cart: seq<Product>, id: int)
    requires HasId(cart, id)
    ensures Without(cart, id) == cart[..IndexOf(cart, id)] + Without(cart[IndexOf(cart, id) + 1..], id)
  {
    WithoutSplitAt(cart, id, IndexOf(cart, id));
  }

  /** WithoutSplit, for a position `k` holding the first line with the id. */
  lemma {:induction false} WithoutSplitAt(cart: seq<Product>, id: int, k: nat)
    requires k < |cart| && cart[k].id == id
    requires forall j :: 0 <= j < k ==> cart[j].id != id
    ensures Without(cart, id) == cart[..k] + Without(cart[k + 1..], id)
  {
    if k > 0 {
      var t := cart[1..];
      WithoutSplitAt(t, id, k - 1);
      assert cart[..k] == [cart[0]] + t[..k - 1];
      assert cart[k + 1..] == t[k..];
    }
  }

  /** Filtering a one-line cart keeps the line exactly when its id differs. */
  lemma WithoutSingle(p: Product, id: int)
    ensures Without([p], id) == if p.id == id then [] else [p]
  {
    assert [p][1..] == [];
  }

  /** In a cart with unique ids, filtering out a present id deletes exactly the
      line at its position and keeps the others in order. */
  lemma WithoutUnique(cart: seq<Product>, id: int)
    requires UniqueIds(cart)
    requires HasId(cart, id)
    ensures Without(cart, id) == cart[..IndexOf(cart, id)] + cart[IndexOf(cart, id) + 1..]
  {
    var k := IndexOf(cart, id);
    var after := cart[k + 1..];
    WithoutSplit(cart, id);
    assert !HasId(after, id) by {
      forall j | 0 <= j < |after| ensures after[j].id != id {
        assert after[j] == cart[k + 1 + j];
      }
    }
    WithoutAbsent(after, id);
  }

  /** An id absent from a cart is absent from its tail. */
  lemma AbsentTail(cart: seq<Product>, id: int)
    requires cart != [] && !HasId(cart, id)
    ensures !HasId(cart[1..], id)
  {
    forall j | 0 <= j < |cart| - 1 ensures cart[1..][j].id != id {
      assert cart[1..][j] == cart[j + 1];
    }
  }

  /** Deleting one line of a well-formed cart leaves a well-formed cart. */
  lemma DeleteAtWellFormed(cart: seq<Product>, k: int)
    requires WellFormed(cart)
    requires 0 <= k < |cart|
    ensures WellFormed(cart[..k] + cart[k + 1..])
  {
    var r := cart[..k] + cart[k + 1..];
    assert forall i :: 0 <= i < |r| ==> r[i] == cart[if i < k then i else i + 1];
  }

  /** The filtered cart holds exactly the lines whose id differs from `id`. */
  lemma {:induction false} WithoutMembers(cart: seq<Product>, id: int)
    ensures forall p :: p in Without(cart, id) <==> p in cart && p.id != id
  {
    if cart != [] {
      WithoutMembers(cart[1..], id);
      assert cart == [cart[0]] + cart[1..];
    }
  }

  /** The filter distributes over concatenation: filtering a cart split in two
      keeps the surviving lines of the first part before those of the second,
      each part in its own order. */
  lemma {:induction false} WithoutConcat(a: seq<Product>, b: seq<Product>, id: int)
    ensures Without(a + b, id) == Without(a, id) + Without(b, id)
  {
    if a == [] {
      assert a + b == b;
    } else {
      assert (a + b)[1..] == a[1..] + b;
      WithoutConcat(a[1..], b, id);
    }
  }

  /** The filter drops every occurrence of a line with the id and keeps every
      occurrence of any other line. */
  lemma {:induction false} WithoutCount(cart: seq<Product>, id: int)
    ensures forall p :: multiset(Without(cart, id))[p] == if p.id == id then 0 else multiset(cart)[p]
  {
    if cart != [] {
      WithoutCount(cart[1..], id);
      assert cart == [cart[0]] + cart[1..];
      assert multiset(cart) == multiset{cart[0]} + multiset(cart[1..]);
    }
  }

  /** Filtering out an id no line has gives back the same cart. */
  lemma {:induction false} WithoutAbsent(cart: seq<Product>, id: int)
    requires !HasId(cart, id)
    ensures Without(cart, id) == cart
  {
    if cart != [] {
      assert cart[0].id != id;
      AbsentTail(cart, id);
      WithoutAbsent(cart[1..], id);
    }
  }
}
