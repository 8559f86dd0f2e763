/**
 * The menu section (components/Menu.tsx): a category filter combined with a
 * case-insensitive search over name and description, and the +/- controls that
 * read and change the cart.
 */
module Menu {
  import opened Types
  import Seqs
  import CartLines
  import App

  /** The category tabs: 'all' or one category. */
  datatype CategoryFilter = AllCategories | Only(category: Category)

  /** `toLowerCase` on ASCII letters. */
  function LowerChar(c: char): char
  {
    if 'A' <= c <= 'Z' then (c as int + 32) as char else c
  }

  function ToLower(s: string): string
  {
    seq(|s|, i requires 0 <= i < |s| => LowerChar(s[i]))
  }

  /** `needle` occurs in `haystack` at position `i`. */
  ghost predicate OccursAt(haystack: string, needle: string, i: int)
  {
    0 <= i <= |haystack| - |needle| && haystack[i..i + |needle|] == needle
  }

  /** `haystack.includes(needle)`: a left-to-right scan for an occurrence. */
  function Includes(haystack: string, needle: string): (r: bool)
    ensures r <==> exists i :: OccursAt(haystack, needle, i)
    decreases |haystack|
  {
    if |needle| > |haystack| then false
    else if haystack[..|needle|] == needle then
      assert OccursAt(haystack, needle, 0);
      true
    else
      var rest := Includes(haystack[1..], needle);
      assert forall i :: OccursAt(haystack[1..], needle, i) <==> OccursAt(haystack, needle, i + 1) by {
        forall i ensures OccursAt(haystack[1..], needle, i) <==> OccursAt(haystack, needle, i + 1) {
          if 0 <= i <= |haystack| - 1 - |needle| {
            assert haystack[1..][i..i + |needle|] == haystack[i + 1..i + 1 + |needle|];
          }
        }
      }
      assert !OccursAt(haystack, needle, 0);
      assert (exists i :: OccursAt(haystack, needle, i)) ==> exists i :: OccursAt(haystack[1..], needle, i) by {
        if exists i :: OccursAt(haystack, needle, i) {
          var i :| OccursAt(haystack, needle, i);
          assert OccursAt(haystack[1..], needle, i - 1);
        }
      }
      rest
  }

  /** The search condition: an empty query matches everything. */
  predicate MatchesQuery(item: MenuItem, query: string)
  {
    query == ""
    || Includes(ToLower(item.name), ToLower(query))
    || Includes(ToLower(item.description), ToLower(query))
  }

  predicate MatchesCategory(item: MenuItem, category: CategoryFilter)
  {
    category.AllCategories? || item.category == category.category
  }

  function Matches(category: CategoryFilter, query: string): MenuItem -> bool
  {
    (item: MenuItem) => MatchesCategory(item, category) && MatchesQuery(item, query)
  }

  /**
   * filteredItems: exactly the menu items passing both the category and the
   * search condition, in menu order.
   */
  function FilteredItems(items: seq<MenuItem>, category: CategoryFilter, query: string): (r: seq<MenuItem>)
    ensures Seqs.IsSubsequence(r, items)
    ensures category.Only? ==> forall x :: x in r ==> x.category == category.category
    ensures query != "" ==> forall x :: x in r ==>
      (exists i :: OccursAt(ToLower(x.name), ToLower(query), i))
      || (exists i :: OccursAt(ToLower(x.description), ToLower(query), i))
    ensures forall x :: x in items && MatchesCategory(x, category) && MatchesQuery(x, query) ==> x in r
  {
    var r := Seqs.Filter(items, Matches(category, query));
    assert forall x :: x in r ==> MatchesCategory(x, category) && MatchesQuery(x, query);
    r
  }

  /** With the 'all' tab and an empty search every item is shown. */
  lemma NoFilterShowsAll(items: seq<MenuItem>)
    ensures FilteredItems(items, AllCategories, "") == items
  {
    Seqs.FilterKeepsAll(items, Matches(AllCategories, ""));
  }

  /** The cart's search is the library `find` with the id test. */
  lemma {:induction false} FindIndexIsFind(cart: seq<CartItem>, id: string)
    ensures CartLines.FindIndex(cart, id) == Seqs.FindFirst(cart, (line: CartItem) => line.Id() == id)
  {
    if cart != [] && cart[0].Id() != id {
      FindIndexIsFind(cart[1..], id);
    }
  }

  /**
   * getItemQuantity: the quantity on the first cart line with the id, else 0;
   * on a positive cart it is positive exactly when the item is in the cart.
   */
  function GetItemQuantity(cart: seq<CartItem>, id: string): (r: int)
    ensures !CartLines.HasId(cart, id) ==> r == 0
    ensures CartLines.AllPositive(cart) ==> (r > 0 <==> CartLines.HasId(cart, id))
    ensures CartLines.AllPositive(cart) ==> r >= 0
  {
    match CartLines.FindIndex(cart, id)
    case Some(k) => cart[k].quantity
    case None => 0
  }

  /** The + control raises the quantity shown for the item by exactly one. */
  lemma IncreaseAddsOne(cart: seq<CartItem>, item: MenuItem)
    ensures GetItemQuantity(CartLines.AddToCart(cart, item, 1), item.id) == GetItemQuantity(cart, item.id) + 1
  {
    var r := CartLines.AddToCart(cart, item, 1);
    var before := CartLines.FindIndex(cart, item.id);
    var after := CartLines.FindIndex(r, item.id);
    if before.Some? {
      assert after == before;
    } else {
      assert after == Some(|cart|);
    }
  }

  /** A line taken out of a cart with unique ids leaves no unit of its item. */
  lemma DroppedLineShowsZero(cart: seq<CartItem>, id: string, k: nat)
    requires CartLines.UniqueIds(cart) && k < |cart| && cart[k].Id() == id
    ensures GetItemQuantity(cart[..k] + cart[k + 1..], id) == 0
  {
    CartLines.OnlyLineWithId(cart, id, k);
    var r := cart[..k] + cart[k + 1..];
    forall j | 0 <= j < |r|
      ensures r[j].Id() != id
    {
      if j < k {
        assert r[j] == cart[j];
      } else {
        assert r[j] == cart[j + 1];
      }
    }
  }

  /** A line whose quantity is replaced shows the new quantity. */
  lemma ReplacedLineShowsQuantity(cart: seq<CartItem>, id: string, k: nat, quantity: int)
    requires CartLines.UniqueIds(cart) && k < |cart| && cart[k].Id() == id
    ensures GetItemQuantity(cart[k := cart[k].(quantity := quantity)], id) == quantity
  {
    var r := cart[k := cart[k].(quantity := quantity)];
    assert forall j :: 0 <= j < |r| ==> r[j].Id() == cart[j].Id();
    CartLines.OnlyLineWithId(r, id, k);
  }

  /** On a well-formed cart the - control lowers the quantity shown by one, never below zero. */
  lemma DecreaseRemovesOne(cart: seq<CartItem>, id: string)
    requires CartLines.WellFormed(cart)
    ensures var before := GetItemQuantity(cart, id);
      GetItemQuantity(CartLines.UpdateQuantity(cart, id, -1), id) == if before > 0 then before - 1 else 0
  {
    match CartLines.FindIndex(cart, id)
    case None =>
      CartLines.UpdateAbsentLine(cart, id, -1);
    case Some(k) =>
      CartLines.UpdateExistingLine(cart, id, -1, k);
      if cart[k].quantity - 1 > 0 {
        ReplacedLineShowsQuantity(cart, id, k, cart[k].quantity - 1);
      } else {
        DroppedLineShowsZero(cart, id, k);
      }
  }

  /** handleIncrease: add one unit through the app's addToCart. */
  method HandleIncrease(app: App.App, item: MenuItem)
    modifies app`cartItems
    ensures app.cartItems == CartLines.AddToCart(old(app.cartItems), item, 1)
    ensures GetItemQuantity(app.cartItems, item.id) == GetItemQuantity(old(app.cartItems), item.id) + 1
    ensures old(app.Valid()) ==> app.Valid()
  {
    IncreaseAddsOne(app.cartItems, item);
    app.AddToCart(item, 1);
  }

  /** handleDecrease: apply delta -1 through the app's updateQuantity. */
  method HandleDecrease(app: App.App, id: string)
    modifies app`cartItems
    ensures app.cartItems == CartLines.UpdateQuantity(old(app.cartItems), id, -1)
    ensures old(app.Valid()) ==> app.Valid()
    ensures old(app.Valid()) ==>
              var before := GetItemQuantity(old(app.cartItems), id);
              GetItemQuantity(app.cartItems, id) == if before > 0 then before - 1 else 0
  {
    if app.Valid() {
      DecreaseRemovesOne(app.cartItems, id);
    }
    app.UpdateQuantity(id, -1);
  }
}
