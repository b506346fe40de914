/**
 * The `Main` component of index.tsx: it restores the session at startup,
 * reacts to the login page's success callback and to logout, and chooses
 * between the application and the login page.
 */
module Index {
  import opened Wrappers
  import opened AuthService
  import opened LoginPage

  /** What `Main` renders. */
  datatype Screen =
    | Blank                                        // the empty placeholder while loading
    | AppScreen(user: User, showWelcomeModal: bool) // `<App user=... showWelcomeModal=... />`
    | LoginScreen                                  // `<LoginPage />`

  class Main {
    const store: AuthStore
    var currentUser: Option<User>
    var isLoading: bool
    var showWelcomeModal: bool

    /** The shown user agrees with the store's session slot once loading is over. */
    ghost predicate Synced()
      reads this, store
    {
      !isLoading ==> currentUser == store.GetCurrentUser()
    }

    /** No user, loading, no welcome modal. */
    constructor (store: AuthStore)
      ensures this.store == store
      ensures currentUser == None && isLoading && !showWelcomeModal
      ensures Synced()
    {
      this.store := store;
      currentUser := None;
      isLoading := true;
      showWelcomeModal := false;
    }

    /** The startup effect: the current user is read from the store, then loading ends. */
    method Startup()
      modifies this`currentUser, this`isLoading
      ensures currentUser == store.GetCurrentUser() && !isLoading
      ensures Synced()
    {
      currentUser := store.GetCurrentUser();
      isLoading := false;
    }

    /** `handleLogin`: sets the user; only a registration opens the welcome modal. */
    method HandleLogin(user: User, source: Source)
      modifies this`currentUser, this`showWelcomeModal
      ensures currentUser == Some(user)
      ensures showWelcomeModal == (source == FromRegister || old(showWelcomeModal))
    {
      currentUser := Some(user);
      if source == FromRegister {
        showWelcomeModal := true;
      }
    }

    /** `handleLogout`: the store's session slot is removed, then the user cleared. */
    method HandleLogout()
      modifies this`currentUser, store`session
      ensures store.session == Absent && currentUser == None
      ensures old(Synced()) ==> Synced()
    {
      store.Logout();
      currentUser := None;
    }

    /** `onCloseWelcomeModal`. */
    method CloseWelcomeModal()
      modifies this`showWelcomeModal
      ensures !showWelcomeModal
    {
      showWelcomeModal := false;
    }

    /**
     * A submit of the login page wired to `handleLogin`, as
     * `<LoginPage onLoginSuccess={handleLogin} />` does: the page and the
     * store end as `SubmitOutcome` says, and a success is handed on.
     */
    method SubmitLoginPage(page: LoginPageState) returns (success: Option<LoginSuccess>)
      modifies page`error, page`isLoading, store, this`currentUser, this`showWelcomeModal
      ensures !page.isLoading
      ensures SubmitOutcome(page.isLoginView, page.formData, old(store.users), old(store.session),
                            success, page.error, store.users, store.session)
      ensures old(EmailsDistinct(store.users)) ==> EmailsDistinct(store.users)
      ensures success.Some? ==>
        currentUser == Some(success.value.user) && store.session == Valid(success.value.user) &&
        showWelcomeModal == (!page.isLoginView || old(showWelcomeModal))
      ensures success.None? ==>
        currentUser == old(currentUser) && store.session == old(store.session) &&
        showWelcomeModal == old(showWelcomeModal)
      ensures old(Synced()) ==> Synced()
    {
      success := page.HandleSubmit(store);
      if success.Some? {
        HandleLogin(success.value.user, success.value.source);
      }
    }

    /**
     * The choice `Main` renders: nothing while loading, then the
     * application exactly when there is a current user, else the login page.
     */
    function Render(): (s: Screen)
      reads this
      ensures isLoading ==> s == Blank
      ensures s.AppScreen? <==> !isLoading && currentUser.Some?
      ensures s.LoginScreen? <==> !isLoading && currentUser.None?
      ensures s.AppScreen? ==> s.user == currentUser.value && s.showWelcomeModal == showWelcomeModal
    {
      if isLoading then Blank
      else if currentUser.Some? then AppScreen(currentUser.value, showWelcomeModal)
      else LoginScreen
    }
  }

  /** A registration through the login page lands in the application with the welcome modal. */
  method RegisterThenShowApp(store: AuthStore)
    requires store.users == [] && store.session == Absent
    modifies store
  {
    var main := new Main(store);
    main.Startup();
    assert main.Render() == LoginScreen;
    var page := new LoginPageState();
    page.Toggle();
    page.HandleChange(Username, "ana");
    page.HandleChange(Email, "ana@x.com");
    page.HandleChange(Password, "pw1");
    var success := page.HandleSubmit(store);
    assert success == Some(LoginSuccess(User("ana", "ana@x.com"), FromRegister));
    main.HandleLogin(success.value.user, success.value.source);
    assert main.Render() == AppScreen(User("ana", "ana@x.com"), true);
    main.HandleLogout();
    assert main.Render() == LoginScreen;
  }

  /** Registered credentials typed into the page in login mode open the application. */
  method LoginThroughPage(store: AuthStore)
    requires store.users == [UserRec("ana", "ana@x.com", "pw1")] && store.session == Absent
    modifies store
  {
    var main := new Main(store);
    main.Startup();
    var page := new LoginPageState();
    page.HandleChange(Email, "ana@x.com");
    page.HandleChange(Password, "pw1");
    assert Matches(store.users[0], "ana@x.com", "pw1");
    var success := main.SubmitLoginPage(page);
    assert success == Some(LoginSuccess(User("ana", "ana@x.com"), FromLogin));
    assert main.Render() == AppScreen(User("ana", "ana@x.com"), false);
  }

  /**
   * `handleLogout` does not reset `showWelcomeModal`: a modal left open at
   * logout shows again after a later plain login.
   */
  method WelcomeModalSurvivesLogout(store: AuthStore, u: User)
    requires store.session == Valid(u)
    modifies store
  {
    var main := new Main(store);
    main.Startup();
    main.HandleLogin(u, FromRegister);
    main.HandleLogout();
    assert main.Render() == LoginScreen;
    main.HandleLogin(u, FromLogin);
    assert main.Render() == AppScreen(u, true);
  }
}
