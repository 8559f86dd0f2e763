/**
 * The account page (components/UserProfile.tsx): the signed-in user's order and
 * reservation history, the profile edit and the password change.
 */
module Profile {
  import opened Types
  import Seqs
  import App
  import Login
  import opened Storage

  function PlacedBy(email: string): Order -> bool
  {
    (o: Order) => o.userEmail == Some(email)
  }

  function BookedBy(email: string): Booking -> bool
  {
    (b: Booking) => b.userEmail == Some(email)
  }

  /** The user's orders, newest first. */
  function OrderHistory(orders: seq<Order>, email: string): (r: seq<Order>)
    ensures |r| <= |orders|
    ensures Seqs.SortedDesc(r, OrderTime)
  {
    Seqs.SortDesc(Seqs.Filter(orders, PlacedBy(email)), OrderTime)
  }

  /** The user's reservations, newest first. */
  function BookingHistory(bookings: seq<Booking>, email: string): (r: seq<Booking>)
    ensures |r| <= |bookings|
    ensures Seqs.SortedDesc(r, BookingTime)
  {
    Seqs.SortDesc(Seqs.Filter(bookings, BookedBy(email)), BookingTime)
  }

  /**
   * The order history holds every stored order placed under the email, as
   * often as it is stored, nothing else, newest first.
   */
  lemma OrderHistoryExact(orders: seq<Order>, email: string)
    ensures var h := OrderHistory(orders, email);
      && Seqs.SortedDesc(h, OrderTime)
      && |h| <= |orders|
      && (forall o :: o in h ==> o.userEmail == Some(email))
      && (forall o: Order :: o.userEmail == Some(email) ==> multiset(h)[o] == multiset(orders)[o])
  {
    forall o: Order | o.userEmail == Some(email)
      ensures multiset(OrderHistory(orders, email))[o] == multiset(orders)[o]
    {
      Seqs.FilterKeepsCount(orders, PlacedBy(email), o);
    }
    forall o | o in OrderHistory(orders, email) ensures o.userEmail == Some(email) {
      Seqs.SortMembers(Seqs.Filter(orders, PlacedBy(email)), OrderTime, o);
    }
  }

  /** The reservation history holds exactly the user's stored reservations, newest first. */
  lemma BookingHistoryExact(bookings: seq<Booking>, email: string)
    ensures var h := BookingHistory(bookings, email);
      && Seqs.SortedDesc(h, BookingTime)
      && |h| <= |bookings|
      && (forall b :: b in h ==> b.userEmail == Some(email))
      && (forall b: Booking :: b.userEmail == Some(email) ==> multiset(h)[b] == multiset(bookings)[b])
  {
    forall b: Booking | b.userEmail == Some(email)
      ensures multiset(BookingHistory(bookings, email))[b] == multiset(bookings)[b]
    {
      Seqs.FilterKeepsCount(bookings, BookedBy(email), b);
    }
    forall b | b in BookingHistory(bookings, email) ensures b.userEmail == Some(email) {
      Seqs.SortMembers(Seqs.Filter(bookings, BookedBy(email)), BookingTime, b);
    }
  }

  /** Orders placed as a guest never appear in anyone's history. */
  lemma GuestOrdersHidden(orders: seq<Order>, email: string, o: Order)
    requires o.userEmail == None
    ensures o !in OrderHistory(orders, email)
  {
    Seqs.SortMembers(Seqs.Filter(orders, PlacedBy(email)), OrderTime, o);
  }

  const IncorrectCurrent: string := "Incorrect current password."
  const Mismatch: string := "New passwords do not match."
  const TooShort: string := "Password must be at least 6 characters."
  const PasswordUpdated: string := "Password updated successfully."

  datatype PasswordForm = PasswordForm(currentPassword: string, newPassword: string, confirmPassword: string)

  const EmptyPasswordForm: PasswordForm := PasswordForm("", "", "")

  datatype PasswordCheck = PasswordRejected(text: string) | PasswordAccepted(password: string)

  /**
   * A JavaScript string's `length`: its UTF-16 code units, two for a character
   * outside the Basic Multilingual Plane and one for any other.
   */
  function Utf16Length(s: string): (n: nat)
    ensures |s| <= n <= 2 * |s|
    ensures (forall i :: 0 <= i < |s| ==> (s[i] as int) < 0x1_0000) ==> n == |s|
    ensures (forall i :: 0 <= i < |s| ==> (s[i] as int) >= 0x1_0000) ==> n == 2 * |s|
  {
    if s == [] then 0
    else Utf16Length(s[..|s| - 1]) + (if (s[|s| - 1] as int) >= 0x1_0000 then 2 else 1)
  }

  /**
   * handleChangePassword's checks, in order: the stored password of the first
   * entry with the email, the confirmation, the length.
   */
  function CheckPasswordChange(users: seq<Account>, email: string, form: PasswordForm): (r: PasswordCheck)
    ensures r.PasswordAccepted? ==>
      && r.password == form.newPassword
      && form.newPassword == form.confirmPassword
      && Utf16Length(form.newPassword) >= 6
      && exists i :: 0 <= i < |users| && users[i].email == email && users[i].password == Some(form.currentPassword)
    ensures (forall i :: 0 <= i < |users| && users[i].email == email ==> users[i].password != Some(form.currentPassword))
      ==> r == PasswordRejected(IncorrectCurrent)
    ensures r.PasswordRejected? && r.text != IncorrectCurrent && form.newPassword != form.confirmPassword ==> r.text == Mismatch
    ensures r.PasswordRejected? ==> r.text in {IncorrectCurrent, Mismatch, TooShort}
    ensures r == PasswordRejected(Mismatch) ==> form.newPassword != form.confirmPassword
    ensures r == PasswordRejected(TooShort) ==> form.newPassword == form.confirmPassword && Utf16Length(form.newPassword) < 6
    ensures var f := Login.FindEmail(users, email);
      var currentOk := f.Some? && users[f.value].password == Some(form.currentPassword);
      && (!currentOk <==> r == PasswordRejected(IncorrectCurrent))
      && (currentOk && form.newPassword != form.confirmPassword ==> r == PasswordRejected(Mismatch))
      && (currentOk && form.newPassword == form.confirmPassword && Utf16Length(form.newPassword) < 6 ==>
            r == PasswordRejected(TooShort))
  {
    match Login.FindEmail(users, email)
    case None => PasswordRejected(IncorrectCurrent)
    case Some(k) =>
      if users[k].password != Some(form.currentPassword) then PasswordRejected(IncorrectCurrent)
      else if form.newPassword != form.confirmPassword then PasswordRejected(Mismatch)
      else if Utf16Length(form.newPassword) < 6 then PasswordRejected(TooShort)
      else PasswordAccepted(form.newPassword)
  }

  /**
   * The length rule counts UTF-16 units: three characters outside the Basic
   * Multilingual Plane make a password of length 6, which passes.
   */
  lemma AstralPasswordLongEnough(users: seq<Account>, email: string, current: string)
    requires Login.FindEmail(users, email).Some?
    requires users[Login.FindEmail(users, email).value].password == Some(current)
    ensures var p := "\U{1F600}\U{1F600}\U{1F600}";
      |p| == 3 && CheckPasswordChange(users, email, PasswordForm(current, p, p)) == PasswordAccepted(p)
  {
    var p := "\U{1F600}\U{1F600}\U{1F600}";
    assert forall i :: 0 <= i < |p| ==> (p[i] as int) >= 0x1_0000;
  }

  /** With unique emails the change is accepted exactly when all three checks pass. */
  lemma PasswordChangeIff(users: seq<Account>, email: string, form: PasswordForm)
    requires Login.UniqueEmails(users)
    ensures CheckPasswordChange(users, email, form).PasswordAccepted? <==>
      && (exists i :: 0 <= i < |users| && users[i].email == email && users[i].password == Some(form.currentPassword))
      && form.newPassword == form.confirmPassword
      && Utf16Length(form.newPassword) >= 6
  {
    if exists i :: 0 <= i < |users| && users[i].email == email && users[i].password == Some(form.currentPassword) {
      var i :| 0 <= i < |users| && users[i].email == email && users[i].password == Some(form.currentPassword);
      var k := Login.FindEmail(users, email).value;
      assert k == i;
    }
  }

  /**
   * An accepted change, written through the app, lets the user log in with
   * the new password, and (with unique emails) no longer with a different old one.
   */
  lemma PasswordChangeThenLogin(users: seq<Account>, user: User, form: PasswordForm, name: string)
    requires CheckPasswordChange(users, user.email, form).PasswordAccepted?
    requires !(user.email == Login.AdminEmail && form.newPassword == Login.AdminPassword)
    requires !(user.email == Login.AdminEmail && form.currentPassword == Login.AdminPassword)
    ensures var after := App.MergeByPreviousEmail(users, user.email, user.(password := Some(form.newPassword)));
      && Login.Submit(true, false, Login.LoginForm(name, user.email, form.newPassword), after).SignedIn?
      && (Login.UniqueEmails(users) && form.currentPassword != form.newPassword ==>
            Login.Submit(true, false, Login.LoginForm(name, user.email, form.currentPassword), after)
              == Login.Rejected(Login.InvalidCredentials))
  {
    var updated := user.(password := Some(form.newPassword));
    var after := App.MergeByPreviousEmail(users, user.email, updated);
    var k :| 0 <= k < |users| && users[k].email == user.email && users[k].password == Some(form.currentPassword);
    assert after[k].email == user.email && after[k].password == Some(form.newPassword);
    Login.LoginSucceedsIff(Login.LoginForm(name, user.email, form.newPassword), after);
    Login.LoginSucceedsIff(Login.LoginForm(name, user.email, form.currentPassword), after);
  }

  /**
   * The corrected table rewrite: after a profile edit the user logs in with the
   * new email and the password the entry ends up holding.
   */
  lemma EditedAccountCanLogIn(users: seq<Account>, previousEmail: string, user: User, k: nat, name: string)
    requires k < |users| && users[k].email == previousEmail
    requires user.password.Some? || users[k].password.Some?
    ensures var after := App.MergeByPreviousEmail(users, previousEmail, user);
      var password := after[k].password.value;
      !(user.email == Login.AdminEmail && password == Login.AdminPassword) ==>
        Login.Submit(true, false, Login.LoginForm(name, user.email, password), after).SignedIn?
  {
    var after := App.MergeByPreviousEmail(users, previousEmail, user);
    var password := after[k].password.value;
    if !(user.email == Login.AdminEmail && password == Login.AdminPassword) {
      assert after[k].email == user.email && after[k].password == Some(password);
      Login.LoginSucceedsIff(Login.LoginForm(name, user.email, password), after);
    }
  }

  /**
   * The table rewrite as written loses an email change: a new email no entry
   * holds matches nothing, the table is left as it was, and no password logs in
   * with the new email.
   */
  lemma EmailChangeLostAsWritten(users: seq<Account>, user: User, newEmail: string, password: string, name: string)
    requires forall i :: 0 <= i < |users| ==> users[i].email != newEmail
    requires !(newEmail == Login.AdminEmail && password == Login.AdminPassword)
    ensures App.MergeByNewEmail(users, user.(email := newEmail)) == users
    ensures Login.Submit(true, false, Login.LoginForm(name, newEmail, password), App.MergeByNewEmail(users, user.(email := newEmail)))
         == Login.Rejected(Login.InvalidCredentials)
  {
    App.NewEmailMatchesNothing(users, user.(email := newEmail));
    Login.LoginSucceedsIff(Login.LoginForm(name, newEmail, password), users);
  }

  datatype EditForm = EditForm(name: string, email: string)

  datatype PassMessage = NoMessage | ErrorMessage(text: string) | SuccessMessage(text: string)

  class UserProfile {
    var orders: seq<Order>
    var bookings: seq<Booking>
    var isEditing: bool
    var editForm: EditForm
    var isChangingPassword: bool
    var passForm: PasswordForm
    var passMessage: PassMessage

    constructor (user: User)
      ensures orders == [] && bookings == [] && !isEditing && !isChangingPassword
      ensures editForm == EditForm(user.name, user.email)
      ensures passForm == EmptyPasswordForm && passMessage == NoMessage
    {
      orders, bookings := [], [];
      isEditing, editForm := false, EditForm(user.name, user.email);
      isChangingPassword, passForm, passMessage := false, EmptyPasswordForm, NoMessage;
    }

    /** The history effect: the user's orders and reservations, newest first. */
    method LoadHistory(user: User, store: Store)
      modifies this`orders, this`bookings
      ensures orders == OrderHistory(store.orders, user.email)
      ensures bookings == BookingHistory(store.bookings, user.email)
      ensures forall o :: o in orders ==> o.userEmail == Some(user.email)
      ensures forall b :: b in bookings ==> b.userEmail == Some(user.email)
      ensures Seqs.SortedDesc(orders, OrderTime) && Seqs.SortedDesc(bookings, BookingTime)
    {
      OrderHistoryExact(store.orders, user.email);
      BookingHistoryExact(store.bookings, user.email);
      orders := OrderHistory(store.orders, user.email);
      bookings := BookingHistory(store.bookings, user.email);
    }

    /** handleUpdateProfile: the edited name and email go to the app; the rest of the user is kept. */
    method HandleUpdateProfile(user: User, app: App.App, store: Store)
      modifies this`isEditing, app`currentUser, store`currentUser, store`users
      ensures var updated := user.(name := editForm.name, email := editForm.email);
        && app.currentUser == Some(updated) && store.currentUser == Some(updated)
        && updated.password == user.password && updated.isAdmin == user.isAdmin
        && store.users == App.MergeByPreviousEmail(old(store.users),
             if old(app.currentUser).Some? then old(app.currentUser).value.email else updated.email, updated)
      ensures !isEditing
    {
      var updated := user.(name := editForm.name, email := editForm.email);
      app.HandleUpdateUser(updated, store);
      isEditing := false;
    }

    /** handleChangePassword: the checks, then the new password goes to the app and the form is cleared. */
    method HandleChangePassword(user: User, app: App.App, store: Store)
      modifies this`passMessage, this`passForm, app`currentUser, store`currentUser, store`users
      ensures var check := CheckPasswordChange(old(store.users), user.email, old(passForm));
        && (check.PasswordRejected? ==>
              passMessage == ErrorMessage(check.text) && passForm == old(passForm)
              && app.currentUser == old(app.currentUser) && store.users == old(store.users)
              && store.currentUser == old(store.currentUser))
        && (check.PasswordAccepted? ==>
              var updated := user.(password := Some(check.password));
              && passMessage == SuccessMessage(PasswordUpdated) && passForm == EmptyPasswordForm
              && app.currentUser == Some(updated) && store.currentUser == Some(updated)
              && store.users == App.MergeByPreviousEmail(old(store.users),
                   if old(app.currentUser).Some? then old(app.currentUser).value.email else user.email, updated))
    {
      var check := CheckPasswordChange(store.users, user.email, passForm);
      match check {
        case PasswordRejected(text) =>
          passMessage := ErrorMessage(text);
        case PasswordAccepted(password) =>
          app.HandleUpdateUser(user.(password := Some(password)), store);
          passMessage := SuccessMessage(PasswordUpdated);
          passForm := EmptyPasswordForm;
      }
    }

    /** The delayed callback after a successful change: close the form, clear the message. */
    method FinishPasswordChange()
      modifies this`isChangingPassword, this`passMessage
      ensures !isChangingPassword && passMessage == NoMessage
    {
      isChangingPassword := false;
      passMessage := NoMessage;
    }
  }
}
