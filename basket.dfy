/**
 * The basket: adding a product (merging into its line or appending a new
 * line), removing a line, and the running total.
 */
module Basket {
  import opened Domain
  import opened Seqs

  function LineAmount(item: CartItem): int {
    item.product.price * item.quantity
  }

  /** `cart.reduce((acc, item) => acc + item.price * item.quantity, 0)`, folded from the left. */
  function CartTotal(cart: seq<CartItem>): int {
    if cart == [] then 0 else CartTotal(cart[..|cart| - 1]) + LineAmount(cart[|cart| - 1])
  }

  function Ids(cart: seq<CartItem>): set<Id> {
    set i | 0 <= i < |cart| :: cart[i].product.id
  }

  /** No two lines of the basket are for the same product id. */
  predicate DistinctIds(cart: seq<CartItem>) {
    forall i, j :: 0 <= i < j < |cart| ==> cart[i].product.id != cart[j].product.id
  }

  predicate PositiveQuantities(cart: seq<CartItem>) {
    forall i :: 0 <= i < |cart| ==> cart[i].quantity >= 1
  }

  /** `cart.find(item => item.id === id)`, as the index of the first such line. */
  function Find(cart: seq<CartItem>, id: Id): (r: Option<nat>)
    ensures r.Some? ==> r.value < |cart| && cart[r.value].product.id == id
    ensures r.Some? ==> forall j :: 0 <= j < r.value ==> cart[j].product.id != id
    ensures r.None? <==> id !in Ids(cart)
  {
    if cart == [] then None
    else if cart[0].product.id == id then Some(0)
    else match Find(cart[1..], id)
      case None => None
      case Some(k) => Some(k + 1)
  }

  /** `cart.map(item => item.id === id ? {...item, quantity: item.quantity + 1} : item)`. */
  function IncrementLines(cart: seq<CartItem>, id: Id): seq<CartItem> {
    seq(|cart|, i requires 0 <= i < |cart| =>
      if cart[i].product.id == id then cart[i].(quantity := cart[i].quantity + 1) else cart[i])
  }

  /** The add button of a product: merge into its line, or append a fresh line of quantity 1. */
  function AddToCart(cart: seq<CartItem>, p: Product): seq<CartItem> {
    if Find(cart, p.id).Some? then IncrementLines(cart, p.id) else cart + [CartItem(p, 1)]
  }

  /** After adding, the basket has a line for the product's id, and no other new id. */
  lemma AddToCartIds(cart: seq<CartItem>, p: Product)
    ensures Ids(AddToCart(cart, p)) == Ids(cart) + {p.id}
  {
    var r := AddToCart(cart, p);
    if Find(cart, p.id).Some? {
      assert forall i :: 0 <= i < |cart| ==> r[i].product == cart[i].product;
      assert Ids(r) == Ids(cart);
    } else {
      assert r[|cart|].product.id == p.id;
      assert forall i :: 0 <= i < |cart| ==> r[i] == cart[i];
    }
  }

  /**
   * Adding a product whose id already has a line keeps the length, raises that
   * line's quantity by one and leaves its stored product (and so its price) as
   * it was; every other line is untouched.
   */
  lemma AddToCartMerges(cart: seq<CartItem>, p: Product, i: nat)
    requires DistinctIds(cart)
    requires i < |cart| && cart[i].product.id == p.id
    ensures |AddToCart(cart, p)| == |cart|
    ensures AddToCart(cart, p)[i] == CartItem(cart[i].product, cart[i].quantity + 1)
    ensures forall j :: 0 <= j < |cart| && j != i ==> AddToCart(cart, p)[j] == cart[j]
  {
    assert p.id in Ids(cart);
  }

  /** Adding a product with no line appends one line of quantity 1 after the others. */
  lemma AddToCartAppends(cart: seq<CartItem>, p: Product)
    requires p.id !in Ids(cart)
    ensures AddToCart(cart, p) == cart + [CartItem(p, 1)]
  {
  }

  /** Adding never produces two lines for one id and never a quantity below 1. */
  lemma AddToCartKeepsInvariant(cart: seq<CartItem>, p: Product)
    requires DistinctIds(cart) && PositiveQuantities(cart)
    ensures DistinctIds(AddToCart(cart, p)) && PositiveQuantities(AddToCart(cart, p))
  {
    var r := AddToCart(cart, p);
    if Find(cart, p.id).Some? {
      assert forall i :: 0 <= i < |cart| ==> r[i].product == cart[i].product;
    } else {
      assert forall i :: 0 <= i < |cart| ==> r[i] == cart[i] && cart[i].product.id in Ids(cart);
    }
  }

  /** The total of two baskets side by side is the sum of their totals. */
  lemma {:induction false} CartTotalAppend(a: seq<CartItem>, b: seq<CartItem>)
    ensures CartTotal(a + b) == CartTotal(a) + CartTotal(b)
    decreases |b|
  {
    if b == [] {
      assert a + b == a;
    } else {
      var b' := b[..|b| - 1];
      CartTotalAppend(a, b');
      assert (a + b)[..|a + b| - 1] == a + b';
    }
  }

  /** The total of a basket whose line `i` is replaced by `x` changes by the difference of the two lines. */
  lemma CartTotalReplace(cart: seq<CartItem>, i: nat, x: CartItem)
    requires i < |cart|
    ensures CartTotal(cart[i := x]) == CartTotal(cart) - LineAmount(cart[i]) + LineAmount(x)
  {
    CartTotalSplit(cart, i);
    CartTotalSplit(cart[i := x], i);
    assert cart[i := x][..i] == cart[..i];
    assert cart[i := x][i + 1..] == cart[i + 1..];
  }

  /**
   * Adding raises the total by the price stored on the affected line: the
   * line's own snapshot price when it merges, the product's price when it
   * appends.
   */
  lemma AddToCartTotal(cart: seq<CartItem>, p: Product)
    requires DistinctIds(cart)
    ensures CartTotal(AddToCart(cart, p)) ==
      CartTotal(cart) + match Find(cart, p.id) case Some(i) => cart[i].product.price case None => p.price
  {
    match Find(cart, p.id)
    case Some(i) => MergeTotal(cart, p, i);
    case None => AppendTotal(cart, p);
  }

  lemma MergeTotal(cart: seq<CartItem>, p: Product, i: nat)
    requires DistinctIds(cart)
    requires i < |cart| && cart[i].product.id == p.id
    ensures CartTotal(AddToCart(cart, p)) == CartTotal(cart) + cart[i].product.price
  {
    AddToCartMerges(cart, p, i);
    BumpTotal(AddToCart(cart, p), cart, i);
  }

  /** A basket equal to another except that line `i` has one more unit costs one more unit of that line. */
  lemma BumpTotal(r: seq<CartItem>, cart: seq<CartItem>, i: nat)
    requires i < |cart| && |r| == |cart|
    requires r[i] == CartItem(cart[i].product, cart[i].quantity + 1)
    requires forall j :: 0 <= j < |cart| && j != i ==> r[j] == cart[j]
    ensures CartTotal(r) == CartTotal(cart) + cart[i].product.price
  {
    assert r == cart[i := r[i]];
    CartTotalReplace(cart, i, r[i]);
    OneMoreUnit(cart[i].product.price, cart[i].quantity);
  }

  lemma OneMoreUnit(price: int, quantity: int)
    ensures price * (quantity + 1) == price * quantity + price
  {
  }

  lemma AppendTotal(cart: seq<CartItem>, p: Product)
    requires p.id !in Ids(cart)
    ensures CartTotal(AddToCart(cart, p)) == CartTotal(cart) + p.price
  {
    AddToCartAppends(cart, p);
    CartTotalAppend(cart, [CartItem(p, 1)]);
    assert [CartItem(p, 1)][..0] == [];
  }

  /** Adding the same product `n` times in a row. */
  function AddTimes(cart: seq<CartItem>, p: Product, n: nat): seq<CartItem> {
    if n == 0 then cart else AddToCart(AddTimes(cart, p, n - 1), p)
  }

  /** Adding a new product `n >= 1` times leaves one line for it, with quantity `n`, at the end. */
  lemma {:induction false} AddTimesSingleLine(cart: seq<CartItem>, p: Product, n: nat)
    requires DistinctIds(cart)
    requires p.id !in Ids(cart)
    requires n >= 1
    ensures AddTimes(cart, p, n) == cart + [CartItem(p, n)]
  {
    if n > 1 {
      AddTimesSingleLine(cart, p, n - 1);
      var prev := cart + [CartItem(p, n - 1)];
      AppendNewKeepsDistinct(cart, CartItem(p, n - 1));
      AddToCartMerges(prev, p, |cart|);
      assert AddTimes(cart, p, n) == prev[|cart| := CartItem(p, n)];
    }
  }

  /** Appending a line for an id the basket does not have keeps the ids distinct. */
  lemma AppendNewKeepsDistinct(cart: seq<CartItem>, x: CartItem)
    requires DistinctIds(cart) && x.product.id !in Ids(cart)
    ensures DistinctIds(cart + [x])
  {
    assert forall i :: 0 <= i < |cart| ==> (cart + [x])[i] == cart[i] && cart[i].product.id in Ids(cart);
  }

  /** The delete button of a basket line: keep the lines whose id differs. */
  function RemoveLine(cart: seq<CartItem>, id: Id): seq<CartItem> {
    Select(cart, (item: CartItem) => item.product.id != id)
  }

  /** Removing a line keeps the other lines, in order, and drops exactly that id; an absent id changes nothing. */
  lemma RemoveLineSpec(cart: seq<CartItem>, id: Id)
    ensures IsSubsequence(RemoveLine(cart, id), cart)
    ensures Ids(RemoveLine(cart, id)) == Ids(cart) - {id}
    ensures id !in Ids(cart) ==> RemoveLine(cart, id) == cart
  {
    var keep := (item: CartItem) => item.product.id != id;
    SelectIsSubsequence(cart, keep);
    SelectMembers(cart, keep);
    var r := RemoveLine(cart, id);
    forall x | x in Ids(r) ensures x in Ids(cart) - {id} {
      var k :| 0 <= k < |r| && r[k].product.id == x;
      assert r[k] in r;
    }
    forall x | x in Ids(cart) - {id} ensures x in Ids(r) {
      var k :| 0 <= k < |cart| && cart[k].product.id == x;
      assert cart[k] in r;
      var j :| 0 <= j < |r| && r[j] == cart[k];
    }
    if id !in Ids(cart) {
      SelectKeepsAll(cart, keep);
    }
  }

  /** With distinct ids, removing the id of line `i` removes that line and only it. */
  lemma RemoveLineAt(cart: seq<CartItem>, i: nat)
    requires DistinctIds(cart)
    requires i < |cart|
    ensures RemoveLine(cart, cart[i].product.id) == cart[..i] + cart[i + 1..]
  {
    var id := cart[i].product.id;
    var keep := (item: CartItem) => item.product.id != id;
    var pre, post := cart[..i], cart[i + 1..];
    assert cart == (pre + [cart[i]]) + post;
    forall j | 0 <= j < |pre| ensures keep(pre[j]) {
      assert pre[j] == cart[j];
    }
    forall j | 0 <= j < |post| ensures keep(post[j]) {
      assert post[j] == cart[i + 1 + j];
    }
    calc {
      Select(cart, keep);
      { SelectAppend(pre + [cart[i]], post, keep); }
      Select(pre + [cart[i]], keep) + Select(post, keep);
      { SelectAppend(pre, [cart[i]], keep); }
      Select(pre, keep) + Select([cart[i]], keep) + Select(post, keep);
      { SelectKeepsAll(pre, keep); SelectKeepsAll(post, keep); }
      pre + Select([cart[i]], keep) + post;
      { assert [cart[i]][1..] == []; }
      pre + post;
    }
  }

  /** The total is the total before line `i`, plus line `i`, plus the total after it. */
  lemma CartTotalSplit(cart: seq<CartItem>, i: nat)
    requires i < |cart|
    ensures CartTotal(cart) == CartTotal(cart[..i]) + LineAmount(cart[i]) + CartTotal(cart[i + 1..])
  {
    var pre, post := cart[..i], cart[i + 1..];
    assert cart == pre + [cart[i]] + post;
    CartTotalAppend(pre + [cart[i]], post);
    CartTotalAppend(pre, [cart[i]]);
    assert CartTotal([cart[i]]) == LineAmount(cart[i]) by { assert [cart[i]][..0] == []; }
  }

  /** With distinct ids, removing line `i` lowers the total by exactly that line's amount. */
  lemma RemoveLineTotal(cart: seq<CartItem>, i: nat)
    requires DistinctIds(cart)
    requires i < |cart|
    ensures CartTotal(RemoveLine(cart, cart[i].product.id)) == CartTotal(cart) - LineAmount(cart[i])
  {
    RemoveLineAt(cart, i);
    CartTotalAppend(cart[..i], cart[i + 1..]);
    CartTotalSplit(cart, i);
  }

  /** Removing a line keeps the basket free of duplicate ids and zero quantities. */
  lemma RemoveLineKeepsInvariant(cart: seq<CartItem>, id: Id)
    requires DistinctIds(cart) && PositiveQuantities(cart)
    ensures DistinctIds(RemoveLine(cart, id)) && PositiveQuantities(RemoveLine(cart, id))
  {
    var keep := (item: CartItem) => item.product.id != id;
    SelectIsSubsequence(cart, keep);
    SubsequenceKeepsInvariant(RemoveLine(cart, id), cart);
  }

  lemma {:induction false} SubsequenceKeepsInvariant(r: seq<CartItem>, s: seq<CartItem>)
    requires IsSubsequence(r, s)
    requires DistinctIds(s) && PositiveQuantities(s)
    ensures DistinctIds(r) && PositiveQuantities(r)
    ensures Ids(r) <= Ids(s)
    decreases |s|
  {
    if r != [] {
      assert DistinctIds(s[1..]) && PositiveQuantities(s[1..]);
      if r[0] == s[0] && IsSubsequence(r[1..], s[1..]) {
        SubsequenceKeepsInvariant(r[1..], s[1..]);
        assert forall k :: 1 <= k < |r| ==> r[k] == r[1..][k - 1] && r[k].product.id in Ids(s[1..]);
        assert forall k :: 0 <= k < |s| - 1 ==> s[1..][k] == s[k + 1];
        assert forall x :: x in Ids(s[1..]) ==> x != s[0].product.id;
      } else {
        SubsequenceKeepsInvariant(r, s[1..]);
      }
      forall x | x in Ids(r) ensures x in Ids(s) {
        var k :| 0 <= k < |r| && r[k].product.id == x;
      }
    }
  }
}
