/**
 * The login dialog (components/LoginModal.tsx): the built-in admin account,
 * the forgot-password screen, login against the users table and sign-up that
 * appends to it.
 */
module Login {
  import opened Types
  import Seqs
  import App
  import opened Storage

  const AdminEmail: string := "admin@ember.com"
  const AdminPassword: string := "admin123"
  const AdminUser: User := User("Head Chef", AdminEmail, true, Some(true), None)
  const InvalidCredentials: string := "Invalid email or password. Please try again."
  const EmailTaken: string := "An account with this email already exists."

  datatype LoginForm = LoginForm(name: string, email: string, password: string)

  const EmptyForm: LoginForm := LoginForm("", "", "")

  /** `usersDb.find(u => u.email === email && u.password === password)` */
  function FindCredentials(users: seq<Account>, email: string, password: string): (r: Option<nat>)
    ensures r.Some? ==> r.value < |users| && users[r.value].email == email && users[r.value].password == Some(password)
    ensures r.Some? ==> forall j :: 0 <= j < r.value ==> !(users[j].email == email && users[j].password == Some(password))
    ensures r.None? ==> forall j :: 0 <= j < |users| ==> !(users[j].email == email && users[j].password == Some(password))
  {
    Seqs.FindFirst(users, (u: Account) => u.email == email && u.password == Some(password))
  }

  /** `usersDb.find(u => u.email === email)` */
  function FindEmail(users: seq<Account>, email: string): (r: Option<nat>)
    ensures r.Some? ==> r.value < |users| && users[r.value].email == email
    ensures r.Some? ==> forall j :: 0 <= j < r.value ==> users[j].email != email
    ensures r.None? ==> forall j :: 0 <= j < |users| ==> users[j].email != email
  {
    Seqs.FindFirst(users, (u: Account) => u.email == email)
  }

  /** No two entries of the users table share an email. */
  predicate UniqueEmails(users: seq<Account>)
  {
    forall i, j :: 0 <= i < j < |users| ==> users[i].email != users[j].email
  }

  /** What one submission of the dialog decides. */
  datatype Outcome =
    | AdminLogin
    | ResetLinkSent
    | SignedIn(user: User)
    | SignedUp(account: Account, user: User)
    | Rejected(error: string)

  /** The user a submission logs in, if any. */
  function LoggedIn(outcome: Outcome): Option<User>
  {
    match outcome
    case AdminLogin => Some(AdminUser)
    case SignedIn(u) => Some(u)
    case SignedUp(_, u) => Some(u)
    case _ => None
  }

  /** The users table after a submission: only a sign-up writes it. */
  function UsersAfter(outcome: Outcome, users: seq<Account>): seq<Account>
  {
    if outcome.SignedUp? then users + [outcome.account] else users
  }

  /** handleSubmit's decision: admin credentials, then forgot-password, then login or sign-up. */
  function Submit(isLogin: bool, isForgotPassword: bool, form: LoginForm, users: seq<Account>): (r: Outcome)
    ensures form.email == AdminEmail && form.password == AdminPassword ==> r == AdminLogin
    ensures r == AdminLogin ==> form.email == AdminEmail && form.password == AdminPassword
    ensures r == ResetLinkSent <==> !(form.email == AdminEmail && form.password == AdminPassword) && isForgotPassword
    ensures r.SignedUp? ==> !isLogin && !isForgotPassword
  {
    if form.email == AdminEmail && form.password == AdminPassword then AdminLogin
    else if isForgotPassword then ResetLinkSent
    else if isLogin then
      match FindCredentials(users, form.email, form.password)
      case Some(k) => SignedIn(User(users[k].name, users[k].email, true, Some(false), None))
      case None => Rejected(InvalidCredentials)
    else
      match FindEmail(users, form.email)
      case Some(_) => Rejected(EmailTaken)
      case None =>
        SignedUp(Account(form.name, form.email, Some(form.password), None, None),
                 User(form.name, form.email, true, Some(false), None))
  }

  /** Only the credentials a table entry holds log a (non-admin) user in, with that entry's name and email. */
  lemma LoginSucceedsIff(form: LoginForm, users: seq<Account>)
    requires !(form.email == AdminEmail && form.password == AdminPassword)
    ensures var r := Submit(true, false, form, users);
      && (r.SignedIn? <==> exists i :: 0 <= i < |users| && users[i].email == form.email && users[i].password == Some(form.password))
      && (r.SignedIn? ==>
            && r.user.isAdmin == Some(false) && r.user.isAuthenticated && r.user.email == form.email
            && (exists i ::
                  && 0 <= i < |users| && users[i].email == form.email && users[i].password == Some(form.password)
                  && users[i].name == r.user.name
                  && forall j :: 0 <= j < i ==> !(users[j].email == form.email && users[j].password == Some(form.password))))
      && (!r.SignedIn? ==> r == Rejected(InvalidCredentials))
  {
    var r := Submit(true, false, form, users);
    var f := FindCredentials(users, form.email, form.password);
    if f.Some? {
      assert users[f.value].name == r.user.name;
    }
  }

  /** Sign-up with an email already in the table is refused and writes nothing. */
  lemma SignUpTakenEmail(form: LoginForm, users: seq<Account>, k: nat)
    requires !(form.email == AdminEmail && form.password == AdminPassword)
    requires k < |users| && users[k].email == form.email
    ensures Submit(false, false, form, users) == Rejected(EmailTaken)
    ensures UsersAfter(Submit(false, false, form, users), users) == users
  {
  }

  /** Sign-up with a new email appends exactly the form's record and keeps emails unique. */
  lemma SignUpNewEmail(form: LoginForm, users: seq<Account>)
    requires !(form.email == AdminEmail && form.password == AdminPassword)
    requires forall j :: 0 <= j < |users| ==> users[j].email != form.email
    ensures UsersAfter(Submit(false, false, form, users), users)
         == users + [Account(form.name, form.email, Some(form.password), None, None)]
    ensures UniqueEmails(users) ==> UniqueEmails(UsersAfter(Submit(false, false, form, users), users))
    ensures LoggedIn(Submit(false, false, form, users)) == Some(User(form.name, form.email, true, Some(false), None))
  {
  }

  /** Whatever is submitted, a table with unique emails keeps them. */
  lemma SubmitPreservesUniqueEmails(isLogin: bool, isForgotPassword: bool, form: LoginForm, users: seq<Account>)
    requires UniqueEmails(users)
    ensures UniqueEmails(UsersAfter(Submit(isLogin, isForgotPassword, form, users), users))
  {
    var r := Submit(isLogin, isForgotPassword, form, users);
    if r.SignedUp? {
      SignUpNewEmail(form, users);
    }
  }

  /**
   * A profile edit keeps the users table's emails unique when it keeps the
   * session's email or moves to an email no entry holds.
   */
  lemma MergeKeepsUniqueEmails(users: seq<Account>, previousEmail: string, user: User)
    requires UniqueEmails(users)
    requires user.email == previousEmail || forall k :: 0 <= k < |users| ==> users[k].email != user.email
    ensures UniqueEmails(App.MergeByPreviousEmail(users, previousEmail, user))
  {
  }

  /**
   * Moving the session's entry to an email another entry already holds leaves
   * two entries with that email: the rewrite does not refuse a taken email.
   */
  lemma MergeIntoTakenEmailDuplicates(users: seq<Account>, previousEmail: string, user: User, i: nat, j: nat)
    requires i < |users| && j < |users|
    requires users[i].email == previousEmail && users[j].email == user.email && user.email != previousEmail
    ensures !UniqueEmails(App.MergeByPreviousEmail(users, previousEmail, user))
  {
  }

  class LoginModal {
    var isLogin: bool
    var isForgotPassword: bool
    var resetSent: bool
    var form: LoginForm
    var loading: bool
    var error: string

    constructor ()
      ensures isLogin && !isForgotPassword && !resetSent && form == EmptyForm && !loading && error == ""
    {
      isLogin, isForgotPassword, resetSent := true, false, false;
      form, loading, error := EmptyForm, false, "";
    }

    /** resetAndClose: clear the dialog and close it through the app. */
    method ResetAndClose(app: App.App)
      modifies this`form, this`error, this`isForgotPassword, this`resetSent, app`isLoginOpen, app`checkoutMessage
      ensures form == EmptyForm && error == "" && !isForgotPassword && !resetSent
      ensures !app.isLoginOpen && app.checkoutMessage == ""
    {
      form := EmptyForm;
      error := "";
      isForgotPassword := false;
      resetSent := false;
      app.CloseLogin();
    }

    /**
     * handleSubmit, including its delayed callback: the outcome of `Submit` is
     * applied to the table, the session and the dialog.
     */
    method HandleSubmit(app: App.App, store: Store)
      modifies this`form, this`error, this`isForgotPassword, this`resetSent, this`loading
      modifies store`users, store`currentUser
      modifies app`currentUser, app`showAdminDashboard, app`checkoutMessage, app`isCartOpen, app`isLoginOpen
      ensures var outcome := Submit(isLogin, old(isForgotPassword), old(form), old(store.users));
        && store.users == UsersAfter(outcome, old(store.users))
        && !loading
        && (LoggedIn(outcome).Some? ==>
              && app.currentUser == LoggedIn(outcome) && store.currentUser == LoggedIn(outcome)
              && form == EmptyForm && error == "" && !isForgotPassword && !resetSent
              && !app.isLoginOpen && app.checkoutMessage == ""
              && app.showAdminDashboard == (outcome == AdminLogin || old(app.showAdminDashboard))
              && app.isCartOpen == (old(app.checkoutMessage) != "" || old(app.isCartOpen)))
        && (outcome == ResetLinkSent ==>
              && resetSent && isForgotPassword && form == old(form) && error == ""
              && unchanged(app) && store.currentUser == old(store.currentUser))
        && (outcome.Rejected? ==>
              && error == outcome.error && form == old(form) && resetSent == old(resetSent)
              && isForgotPassword == old(isForgotPassword)
              && unchanged(app) && store.currentUser == old(store.currentUser))
    {
      loading := true;
      error := "";
      var outcome := Submit(isLogin, isForgotPassword, form, store.users);
      match outcome {
        case AdminLogin =>
          app.OnLogin(AdminUser, store);
          loading := false;
          ResetAndClose(app);
        case ResetLinkSent =>
          resetSent := true;
          loading := false;
        case SignedIn(user) =>
          app.OnLogin(user, store);
          ResetAndClose(app);
        case SignedUp(account, user) =>
          store.users := store.users + [account];
          app.OnLogin(user, store);
          ResetAndClose(app);
        case Rejected(message) =>
          error := message;
      }
      loading := false;
    }

    /** handleSwitchMode: toggle login/sign-up and start from a clean dialog. */
    method HandleSwitchMode()
      modifies this`isLogin, this`error, this`isForgotPassword, this`resetSent, this`form
      ensures isLogin == !old(isLogin)
      ensures error == "" && !isForgotPassword && !resetSent && form == EmptyForm
    {
      isLogin := !isLogin;
      error := "";
      isForgotPassword := false;
      resetSent := false;
      form := EmptyForm;
    }

    /** handleForgotPasswordClick: open the reset screen; the typed fields stay. */
    method HandleForgotPasswordClick()
      modifies this`isForgotPassword, this`error, this`resetSent
      ensures isForgotPassword && error == "" && !resetSent
    {
      isForgotPassword := true;
      error := "";
      resetSent := false;
    }

    /** handleBackToLogin: leave the reset screen. */
    method HandleBackToLogin()
      modifies this`isForgotPassword, this`resetSent, this`error
      ensures !isForgotPassword && !resetSent && error == ""
    {
      isForgotPassword := false;
      resetSent := false;
      error := "";
    }
  }
}
