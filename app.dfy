/**
 * The top-level component (App.tsx): it owns the cart and the session, and it
 * writes the session user and profile changes to the browser store.
 */
module App {
  import opened Types
  import CartLines
  import opened Storage

  /**
   * `{ ...entry, ...user }`: every key the user object carries overrides the
   * entry's; an absent optional key (a `None`) keeps the entry's value.
   */
  function MergeAccount(entry: Account, user: User): (r: Account)
    ensures r.name == user.name && r.email == user.email && r.isAuthenticated == Some(user.isAuthenticated)
    ensures user.password.Some? ==> r.password == user.password
    ensures user.password.None? ==> r.password == entry.password
    ensures user.isAdmin.Some? ==> r.isAdmin == user.isAdmin
    ensures user.isAdmin.None? ==> r.isAdmin == entry.isAdmin
  {
    Account(
      user.name,
      user.email,
      if user.password.Some? then user.password else entry.password,
      Some(user.isAuthenticated),
      if user.isAdmin.Some? then user.isAdmin else entry.isAdmin)
  }

  /** Spreading the same user twice gives what spreading it once gives. */
  lemma MergeAccountIdempotent(entry: Account, user: User)
    ensures MergeAccount(MergeAccount(entry, user), user) == MergeAccount(entry, user)
  {
  }

  /**
   * handleUpdateUser's table rewrite as written: merge the user into every
   * entry whose email equals the user's (new) email.
   */
  function MergeByNewEmail(users: seq<Account>, user: User): (r: seq<Account>)
    ensures |r| == |users|
    ensures forall i :: 0 <= i < |users| && users[i].email != user.email ==> r[i] == users[i]
    ensures forall i :: 0 <= i < |users| && users[i].email == user.email ==>
      r[i].email == user.email && r[i].name == user.name
    ensures forall i :: 0 <= i < |users| && users[i].email == user.email && user.password.None? ==>
      r[i].password == users[i].password
    ensures forall i :: 0 <= i < |users| && users[i].email == user.email ==> r[i] == MergeAccount(users[i], user)
  {
    seq(|users|, i requires 0 <= i < |users| =>
      if users[i].email == user.email then MergeAccount(users[i], user) else users[i])
  }

  /** An email no entry has matches nothing: the table comes back unchanged. */
  lemma NewEmailMatchesNothing(users: seq<Account>, user: User)
    requires forall i :: 0 <= i < |users| ==> users[i].email != user.email
    ensures MergeByNewEmail(users, user) == users
  {
  }

  /**
   * The rewrite as the source comment intends it: merge into the entries that
   * carry the session's previous email, so that a new email is saved too.
   */
  function MergeByPreviousEmail(users: seq<Account>, previousEmail: string, user: User): (r: seq<Account>)
    ensures |r| == |users|
    ensures forall i :: 0 <= i < |users| && users[i].email != previousEmail ==> r[i] == users[i]
    ensures forall i :: 0 <= i < |users| && users[i].email == previousEmail ==>
      r[i].email == user.email && r[i].name == user.name
    ensures forall i :: 0 <= i < |users| && users[i].email == previousEmail && user.password.None? ==>
      r[i].password == users[i].password
    ensures forall i :: 0 <= i < |users| && users[i].email == previousEmail ==> r[i] == MergeAccount(users[i], user)
  {
    seq(|users|, i requires 0 <= i < |users| =>
      if users[i].email == previousEmail then MergeAccount(users[i], user) else users[i])
  }

  /** When the email is not changed, the corrected rewrite is the one the source performs. */
  lemma MergeAgreesWhenEmailKept(users: seq<Account>, user: User)
    ensures MergeByPreviousEmail(users, user.email, user) == MergeByNewEmail(users, user)
  {
  }

  class App {
    var cartItems: seq<CartItem>
    var currentUser: Option<User>
    var showAdminDashboard: bool
    var showUserProfile: bool
    var isCartOpen: bool
    var isLoginOpen: bool
    var checkoutMessage: string

    /** The cart invariant: unique ids and positive quantities. */
    ghost predicate Valid()
      reads this
    {
      CartLines.WellFormed(cartItems)
    }

    constructor ()
      ensures cartItems == [] && currentUser == None
      ensures !showAdminDashboard && !showUserProfile && !isCartOpen && !isLoginOpen
      ensures checkoutMessage == ""
      ensures Valid()
    {
      cartItems, currentUser := [], None;
      showAdminDashboard, showUserProfile, isCartOpen, isLoginOpen := false, false, false, false;
      checkoutMessage := "";
    }

    /** The mount effect: a session user left in the store is restored. */
    method RestoreSession(store: Store)
      modifies this`currentUser
      ensures store.currentUser.Some? ==> currentUser == store.currentUser
      ensures store.currentUser.None? ==> currentUser == old(currentUser)
    {
      if store.currentUser.Some? {
        currentUser := store.currentUser;
      }
    }

    method AddToCart(item: MenuItem, quantity: int)
      modifies this`cartItems
      ensures cartItems == CartLines.AddToCart(old(cartItems), item, quantity)
      ensures old(Valid()) && quantity > 0 ==> Valid()
    {
      if old(Valid()) {
        CartLines.AddPreservesWellFormed(cartItems, item, quantity);
      }
      cartItems := CartLines.AddToCart(cartItems, item, quantity);
    }

    method UpdateQuantity(id: string, delta: int)
      modifies this`cartItems
      ensures cartItems == CartLines.UpdateQuantity(old(cartItems), id, delta)
      ensures old(Valid()) ==> Valid()
    {
      if Valid() {
        CartLines.UpdatePreservesWellFormed(cartItems, id, delta);
      }
      cartItems := CartLines.UpdateQuantity(cartItems, id, delta);
    }

    method RemoveFromCart(id: string)
      modifies this`cartItems
      ensures cartItems == CartLines.RemoveFromCart(old(cartItems), id)
      ensures old(Valid()) ==> Valid()
    {
      if Valid() {
        CartLines.RemovePreservesWellFormed(cartItems, id);
      }
      cartItems := CartLines.RemoveFromCart(cartItems, id);
    }

    method ClearCart()
      modifies this`cartItems
      ensures cartItems == [] && Valid()
    {
      cartItems := [];
    }

    /** handleLogin: the session user is set and stored; an admin opens the kitchen display. */
    method HandleLogin(user: User, store: Store)
      modifies this`currentUser, this`showAdminDashboard, store`currentUser
      ensures currentUser == Some(user) && store.currentUser == Some(user)
      ensures showAdminDashboard == (user.isAdmin == Some(true) || old(showAdminDashboard))
    {
      currentUser := Some(user);
      store.currentUser := Some(user);
      if user.isAdmin == Some(true) {
        showAdminDashboard := true;
      }
    }

    /** handleLogout: no session, both private views closed, the stored session removed. */
    method HandleLogout(store: Store)
      modifies this`currentUser, this`showAdminDashboard, this`showUserProfile, store`currentUser
      ensures currentUser == None && store.currentUser == None
      ensures !showAdminDashboard && !showUserProfile
    {
      currentUser := None;
      showAdminDashboard := false;
      showUserProfile := false;
      store.currentUser := None;
    }

    /**
     * handleUpdateUser: the session user is replaced and stored, and the users
     * table entry of the session's previous email takes the new details.
     */
    method HandleUpdateUser(user: User, store: Store)
      modifies this`currentUser, store`currentUser, store`users
      ensures currentUser == Some(user) && store.currentUser == Some(user)
      ensures store.users == MergeByPreviousEmail(old(store.users),
        if old(currentUser).Some? then old(currentUser).value.email else user.email, user)
    {
      var previousEmail := if currentUser.Some? then currentUser.value.email else user.email;
      currentUser := Some(user);
      store.currentUser := Some(user);
      store.users := MergeByPreviousEmail(store.users, previousEmail, user);
    }

    /** The cart asks for a login: remember why, close the cart, open the login dialog. */
    method OnLoginRequired()
      modifies this`checkoutMessage, this`isCartOpen, this`isLoginOpen
      ensures checkoutMessage == "Please log in or create an account to complete your order."
      ensures !isCartOpen && isLoginOpen
    {
      checkoutMessage := "Please log in or create an account to complete your order.";
      isCartOpen := false;
      isLoginOpen := true;
    }

    method CloseCart()
      modifies this`isCartOpen
      ensures !isCartOpen
    {
      isCartOpen := false;
    }

    /** The login dialog closes and forgets the checkout message. */
    method CloseLogin()
      modifies this`isLoginOpen, this`checkoutMessage
      ensures !isLoginOpen && checkoutMessage == ""
    {
      isLoginOpen := false;
      checkoutMessage := "";
    }

    /** A successful login from the dialog; the cart reopens if the login was asked for by checkout. */
    method OnLogin(user: User, store: Store)
      modifies this`currentUser, this`showAdminDashboard, this`checkoutMessage, this`isCartOpen, store`currentUser
      ensures currentUser == Some(user) && store.currentUser == Some(user)
      ensures showAdminDashboard == (user.isAdmin == Some(true) || old(showAdminDashboard))
      ensures checkoutMessage == ""
      ensures isCartOpen == (old(checkoutMessage) != "" || old(isCartOpen))
    {
      var pending := checkoutMessage;
      HandleLogin(user, store);
      checkoutMessage := "";
      if pending != "" {
        isCartOpen := true;
      }
    }
  }
}
