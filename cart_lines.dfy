/**
 * The cart as a keyed list of lines (App.tsx): adding merges into the line with
 * the same id or appends one, quantity changes clamp at zero and drop empty
 * lines, removal filters by id, and the totals are sums over the lines.
 */
module CartLines {
  import opened Types
  import Seqs

  /** No two lines share a menu id. */
  predicate UniqueIds(cart: seq<CartItem>)
  {
    forall i, j :: 0 <= i < j < |cart| ==> cart[i].Id() != cart[j].Id()
  }

  predicate IsPositive(line: CartItem) { line.quantity > 0 }

  /** Every line holds at least one unit. */
  predicate AllPositive(cart: seq<CartItem>)
  {
    forall i :: 0 <= i < |cart| ==> IsPositive(cart[i])
  }

  /** The invariant the cart keeps when quantities added are positive. */
  predicate WellFormed(cart: seq<CartItem>)
  {
    UniqueIds(cart) && AllPositive(cart)
  }

  /** `cart.find(i => i.id === id)`, as the index where the search stops. */
  function FindIndex(cart: seq<CartItem>, id: string): (r: Option<nat>)
    ensures r.Some? ==> r.value < |cart| && cart[r.value].Id() == id
    ensures r.Some? ==> forall j :: 0 <= j < r.value ==> cart[j].Id() != id
    ensures r.None? ==> forall j :: 0 <= j < |cart| ==> cart[j].Id() != id
  {
    if cart == [] then None
    else if cart[0].Id() == id then Some(0)
    else match FindIndex(cart[1..], id)
      case None => None
      case Some(k) => Some(k + 1)
  }

  predicate HasId(cart: seq<CartItem>, id: string)
  {
    FindIndex(cart, id).Some?
  }

  /** Under unique ids, the line found is the only line with that id. */
  lemma OnlyLineWithId(cart: seq<CartItem>, id: string, k: nat)
    requires UniqueIds(cart) && k < |cart| && cart[k].Id() == id
    ensures FindIndex(cart, id) == Some(k)
    ensures forall j :: 0 <= j < |cart| && j != k ==> cart[j].Id() != id
  {
  }

  /** The `map` step of addToCart: every line with `id` gains `quantity`. */
  function AddQuantity(cart: seq<CartItem>, id: string, quantity: int): seq<CartItem>
  {
    seq(|cart|, i requires 0 <= i < |cart| =>
      if cart[i].Id() == id then cart[i].(quantity := cart[i].quantity + quantity) else cart[i])
  }

  /** addToCart: merge into the existing line with the item's id, else append a new line. */
  function AddToCart(cart: seq<CartItem>, item: MenuItem, quantity: int): (r: seq<CartItem>)
    ensures HasId(cart, item.id) ==> |r| == |cart|
    ensures !HasId(cart, item.id) ==> |r| == |cart| + 1 && r[|cart|] == CartItem(item, quantity)
    ensures forall i :: 0 <= i < |cart| ==> r[i].item == cart[i].item
    ensures forall i :: 0 <= i < |cart| && cart[i].Id() != item.id ==> r[i] == cart[i]
    ensures HasId(r, item.id)
  {
    if HasId(cart, item.id) then AddQuantity(cart, item.id, quantity)
    else cart + [CartItem(item, quantity)]
  }

  /** Adding to an id already present changes that one line's quantity and nothing else. */
  lemma AddToExistingLine(cart: seq<CartItem>, item: MenuItem, quantity: int, k: nat)
    requires UniqueIds(cart) && k < |cart| && cart[k].Id() == item.id
    ensures AddToCart(cart, item, quantity)
         == cart[k := cart[k].(quantity := cart[k].quantity + quantity)]
  {
    OnlyLineWithId(cart, item.id, k);
  }

  /** Adding a new id appends exactly one line at the end. */
  lemma AddNewLine(cart: seq<CartItem>, item: MenuItem, quantity: int)
    requires forall j :: 0 <= j < |cart| ==> cart[j].Id() != item.id
    ensures AddToCart(cart, item, quantity) == cart + [CartItem(item, quantity)]
  {
  }

  /** addToCart never creates a second line for an id, and with a positive amount keeps quantities positive. */
  lemma AddPreservesWellFormed(cart: seq<CartItem>, item: MenuItem, quantity: int)
    requires UniqueIds(cart)
    ensures UniqueIds(AddToCart(cart, item, quantity))
    ensures WellFormed(cart) && quantity > 0 ==> WellFormed(AddToCart(cart, item, quantity))
  {
    var r := AddToCart(cart, item, quantity);
    if !HasId(cart, item.id) {
      forall i, j | 0 <= i < j < |r|
        ensures r[i].Id() != r[j].Id()
      {
        if j == |cart| {
          assert r[i] == cart[i];
        }
      }
    }
  }

  /** The `map` step of updateQuantity: the line with `id` becomes max(0, quantity + delta). */
  function ShiftQuantity(cart: seq<CartItem>, id: string, delta: int): seq<CartItem>
  {
    seq(|cart|, i requires 0 <= i < |cart| =>
      if cart[i].Id() == id then Shifted(cart[i], delta) else cart[i])
  }

  /** updateQuantity: shift the quantity of `id`'s line, clamped at zero, then drop empty lines. */
  function UpdateQuantity(cart: seq<CartItem>, id: string, delta: int): (r: seq<CartItem>)
    ensures AllPositive(r)
    ensures |r| <= |cart|
    ensures Seqs.IsSubsequence(r, ShiftQuantity(cart, id, delta))
    ensures forall line :: line in r && line.Id() != id ==> line in cart
    ensures forall line :: line in cart && line.Id() != id && line.quantity > 0 ==> line in r
  {
    var shifted := ShiftQuantity(cart, id, delta);
    var r := Seqs.Filter(shifted, IsPositive);
    assert forall i :: 0 <= i < |r| ==> r[i] in r;
    forall line | line in cart && line.Id() != id && line.quantity > 0
      ensures line in shifted
    {
      var i :| 0 <= i < |cart| && cart[i] == line;
      assert shifted[i] == line;
    }
    forall line | line in shifted && line.Id() != id
      ensures line in cart
    {
      var i :| 0 <= i < |shifted| && shifted[i] == line;
      assert cart[i].Id() != id;
    }
    r
  }

  /** The line of `id` after the shift, clamped at zero. */
  function Shifted(line: CartItem, delta: int): CartItem
  {
    line.(quantity := if line.quantity + delta > 0 then line.quantity + delta else 0)
  }

  /** Under unique ids, the shift touches only the line at `k`. */
  lemma ShiftOnlyAt(cart: seq<CartItem>, id: string, delta: int, k: nat)
    requires UniqueIds(cart) && k < |cart| && cart[k].Id() == id
    ensures ShiftQuantity(cart, id, delta) == cart[..k] + [Shifted(cart[k], delta)] + cart[k + 1..]
  {
    OnlyLineWithId(cart, id, k);
  }

  /** Both sides of a positive cart around `k` are positive. */
  lemma PositiveAround(cart: seq<CartItem>, k: nat)
    requires AllPositive(cart) && k < |cart|
    ensures forall y :: y in cart[..k] ==> IsPositive(y)
    ensures forall y :: y in cart[k + 1..] ==> IsPositive(y)
  {
    forall y | y in cart[k + 1..] ensures IsPositive(y) {
      var j :| 0 <= j < |cart| - k - 1 && cart[k + 1..][j] == y;
      assert y == cart[k + 1 + j];
    }
  }

  /** On a well-formed cart, updateQuantity rewrites the one line of `id` or drops it when it reaches zero. */
  lemma UpdateExistingLine(cart: seq<CartItem>, id: string, delta: int, k: nat)
    requires WellFormed(cart) && k < |cart| && cart[k].Id() == id
    ensures cart[k].quantity + delta > 0 ==>
      UpdateQuantity(cart, id, delta) == cart[k := cart[k].(quantity := cart[k].quantity + delta)]
    ensures cart[k].quantity + delta <= 0 ==>
      UpdateQuantity(cart, id, delta) == cart[..k] + cart[k + 1..]
  {
    var x := Shifted(cart[k], delta);
    ShiftOnlyAt(cart, id, delta, k);
    PositiveAround(cart, k);
    Seqs.FilterSplice(cart[..k], x, cart[k + 1..], IsPositive);
    if cart[k].quantity + delta > 0 {
      assert cart[k := x] == cart[..k] + [x] + cart[k + 1..];
    } else {
      assert cart[..k] + [] + cart[k + 1..] == cart[..k] + cart[k + 1..];
    }
  }

  /** updateQuantity on an id not in a well-formed cart changes nothing. */
  lemma UpdateAbsentLine(cart: seq<CartItem>, id: string, delta: int)
    requires WellFormed(cart) && !HasId(cart, id)
    ensures UpdateQuantity(cart, id, delta) == cart
  {
    assert ShiftQuantity(cart, id, delta) == cart;
    Seqs.FilterKeepsAll(cart, IsPositive);
  }

  /** updateQuantity keeps a well-formed cart well formed. */
  lemma UpdatePreservesWellFormed(cart: seq<CartItem>, id: string, delta: int)
    requires WellFormed(cart)
    ensures WellFormed(UpdateQuantity(cart, id, delta))
  {
    match FindIndex(cart, id)
    case None => UpdateAbsentLine(cart, id, delta);
    case Some(k) => UpdateExistingLine(cart, id, delta, k);
  }

  function WithoutId(id: string): CartItem -> bool
  {
    (line: CartItem) => line.Id() != id
  }

  /** removeFromCart: the lines whose id differs, in their original order. */
  function RemoveFromCart(cart: seq<CartItem>, id: string): (r: seq<CartItem>)
    ensures forall i :: 0 <= i < |r| ==> r[i].Id() != id
    ensures forall line :: line in cart && line.Id() != id ==> line in r
    ensures Seqs.IsSubsequence(r, cart)
  {
    var r := Seqs.Filter(cart, WithoutId(id));
    assert forall i :: 0 <= i < |r| ==> r[i] in r;
    r
  }

  /** On unique ids, removing drops exactly the one line found. */
  lemma RemoveExistingLine(cart: seq<CartItem>, id: string, k: nat)
    requires UniqueIds(cart) && k < |cart| && cart[k].Id() == id
    ensures RemoveFromCart(cart, id) == cart[..k] + cart[k + 1..]
  {
    OnlyLineWithId(cart, id, k);
    assert cart == cart[..k] + [cart[k]] + cart[k + 1..];
    Seqs.FilterConcat(cart[..k] + [cart[k]], cart[k + 1..], WithoutId(id));
    Seqs.FilterConcat(cart[..k], [cart[k]], WithoutId(id));
    Seqs.FilterKeepsAll(cart[..k], WithoutId(id));
    Seqs.FilterKeepsAll(cart[k + 1..], WithoutId(id));
  }

  /** Taking one line out keeps a well-formed cart well formed. */
  lemma DropPreservesWellFormed(cart: seq<CartItem>, k: nat)
    requires WellFormed(cart) && k < |cart|
    ensures WellFormed(cart[..k] + cart[k + 1..])
  {
    var r := cart[..k] + cart[k + 1..];
    assert forall i :: 0 <= i < |r| ==> r[i] == cart[if i < k then i else i + 1];
  }

  /** removeFromCart keeps a well-formed cart well formed. */
  lemma RemovePreservesWellFormed(cart: seq<CartItem>, id: string)
    requires WellFormed(cart)
    ensures WellFormed(RemoveFromCart(cart, id))
  {
    match FindIndex(cart, id)
    case None =>
      Seqs.FilterKeepsAll(cart, WithoutId(id));
    case Some(k) =>
      RemoveExistingLine(cart, id, k);
      DropPreservesWellFormed(cart, k);
  }

  /** totalItems: the number of units in the cart. */
  function TotalItems(cart: seq<CartItem>): int
  {
    if cart == [] then 0 else cart[0].quantity + TotalItems(cart[1..])
  }

  function LinePrice(line: CartItem): real
  {
    line.item.price * line.quantity as real
  }

  /** totalPrice (and the checkout subtotal): the sum of price × quantity. */
  function TotalPrice(cart: seq<CartItem>): real
  {
    if cart == [] then 0.0 else LinePrice(cart[0]) + TotalPrice(cart[1..])
  }

  /** Both totals add up over a split of the cart. */
  lemma {:induction false} TotalsSplit(a: seq<CartItem>, b: seq<CartItem>)
    ensures TotalItems(a + b) == TotalItems(a) + TotalItems(b)
    ensures TotalPrice(a + b) == TotalPrice(a) + TotalPrice(b)
  {
    if a != [] {
      assert (a + b)[0] == a[0] && (a + b)[1..] == a[1..] + b;
      TotalsSplit(a[1..], b);
    } else {
      assert a + b == b;
    }
  }

  /** The totals of a cart with one line replaced. */
  lemma TotalsReplace(cart: seq<CartItem>, k: nat, line: CartItem)
    requires k < |cart|
    ensures TotalItems(cart[k := line]) == TotalItems(cart) - cart[k].quantity + line.quantity
    ensures TotalPrice(cart[k := line]) == TotalPrice(cart) - LinePrice(cart[k]) + LinePrice(line)
  {
    var pre, post := cart[..k], cart[k + 1..];
    assert cart == pre + [cart[k]] + post;
    assert cart[k := line] == pre + [line] + post;
    TotalsSplit(pre + [cart[k]], post);
    TotalsSplit(pre, [cart[k]]);
    TotalsSplit(pre + [line], post);
    TotalsSplit(pre, [line]);
  }

  /** The totals of a cart with one line taken out. */
  lemma TotalsDrop(cart: seq<CartItem>, k: nat)
    requires k < |cart|
    ensures TotalItems(cart[..k] + cart[k + 1..]) == TotalItems(cart) - cart[k].quantity
    ensures TotalPrice(cart[..k] + cart[k + 1..]) == TotalPrice(cart) - LinePrice(cart[k])
  {
    var pre, post := cart[..k], cart[k + 1..];
    assert cart == pre + [cart[k]] + post;
    TotalsSplit(pre + [cart[k]], post);
    TotalsSplit(pre, [cart[k]]);
    TotalsSplit(pre, post);
  }

  /** The unit price addToCart charges: the existing line's price, else the item's. */
  function UnitPrice(cart: seq<CartItem>, item: MenuItem): real
  {
    match FindIndex(cart, item.id)
    case Some(k) => cart[k].item.price
    case None => item.price
  }

  /**
   * Adding `quantity` units raises totalItems by exactly `quantity`, and totalPrice
   * by that many times the price on the cart line (the item's own price for a new line).
   */
  lemma AddToCartTotals(cart: seq<CartItem>, item: MenuItem, quantity: int)
    requires UniqueIds(cart)
    ensures TotalItems(AddToCart(cart, item, quantity)) == TotalItems(cart) + quantity
    ensures TotalPrice(AddToCart(cart, item, quantity)) == TotalPrice(cart) + quantity as real * UnitPrice(cart, item)
  {
    var f := FindIndex(cart, item.id);
    if f.Some? {
      var k := f.value;
      var line := cart[k].(quantity := cart[k].quantity + quantity);
      AddToExistingLine(cart, item, quantity, k);
      TotalsReplace(cart, k, line);
      assert LinePrice(line) - LinePrice(cart[k]) == quantity as real * cart[k].item.price;
    } else {
      TotalsSplit(cart, [CartItem(item, quantity)]);
    }
  }

  /** A decrease below one unit removes the line; otherwise totalItems moves by exactly delta. */
  lemma UpdateQuantityTotals(cart: seq<CartItem>, id: string, delta: int, k: nat)
    requires WellFormed(cart) && k < |cart| && cart[k].Id() == id
    ensures TotalItems(UpdateQuantity(cart, id, delta))
         == TotalItems(cart) + (if cart[k].quantity + delta > 0 then delta else -cart[k].quantity)
  {
    UpdateExistingLine(cart, id, delta, k);
    if cart[k].quantity + delta > 0 {
      TotalsReplace(cart, k, cart[k].(quantity := cart[k].quantity + delta));
    } else {
      TotalsDrop(cart, k);
    }
  }

  /** With positive quantities and non-negative prices, the totals are non-negative. */
  lemma {:induction false} TotalsNonNegative(cart: seq<CartItem>)
    requires AllPositive(cart)
    requires forall i :: 0 <= i < |cart| ==> cart[i].item.price >= 0.0
    ensures TotalItems(cart) >= |cart|
    ensures TotalPrice(cart) >= 0.0
  {
    if cart != [] {
      assert IsPositive(cart[0]);
      TotalsNonNegative(cart[1..]);
    }
  }
}
