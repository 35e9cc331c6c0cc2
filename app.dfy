/** The shell of src/App.tsx: the persisted login flag, its in-memory copy,
    the login and logout handlers, and the choice of routes. */
module App {
  import opened Wrappers
  import opened JsValues
  import opened BrowserStorage
  import opened OtpContext
  import opened History
  import OtpPage
  import Api

  const AuthKey := "bezmialem_auth"

  /** `isLoggedIn.toString()`. */
  function BoolString(b: bool): string {
    if b then "true" else "false"
  }

  /** The test both the initial state and `PrivateRoute` apply to the flag:
      exactly the text "true". */
  predicate FlagSaysLoggedIn(flag: Option<Item>) {
    flag == Some(Str("true"))
  }

  class AppState {
    const storage: LocalStorage<Item>
    /** The OTP module's state, over the same storage. */
    const session: OtpSession
    var isLoggedIn: bool

    /** The persistence effect has caught up: storage holds the flag's text. */
    predicate FlagMirrored()
      reads this, storage
    {
      storage.GetItem(AuthKey) == Some(Str(BoolString(isLoggedIn)))
    }

    /** Mounting: `isLoggedIn` starts from the stored flag, and the effect's
        first run writes it back in canonical form. */
    constructor (storage: LocalStorage<Item>, session: OtpSession)
      requires session.storage == storage
      modifies storage
      ensures this.storage == storage && this.session == session
      ensures isLoggedIn == FlagSaysLoggedIn(old(storage.GetItem(AuthKey)))
      ensures storage.items == old(storage.items)[AuthKey := Str(BoolString(isLoggedIn))]
      ensures FlagMirrored()
    {
      this.storage := storage;
      this.session := session;
      var saved := storage.GetItem(AuthKey);
      isLoggedIn := saved == Some(Str("true"));
      new;
      storage.SetItem(AuthKey, Str(BoolString(isLoggedIn)));
    }

    /** `setIsLoggedIn(v)` and the effect it triggers: React re-runs the
        effect only when the value changes. */
    method SetLoggedIn(v: bool)
      modifies this`isLoggedIn, storage
      ensures isLoggedIn == v
      ensures storage.items == if old(isLoggedIn) == v then old(storage.items)
                               else old(storage.items)[AuthKey := Str(BoolString(v))]
      ensures old(FlagMirrored()) || old(isLoggedIn) != v ==> FlagMirrored()
    {
      if isLoggedIn != v {
        isLoggedIn := v;
        storage.SetItem(AuthKey, Str(BoolString(v)));
      }
    }

    /** `handleLogin`: a second call changes nothing. */
    method HandleLogin()
      modifies this`isLoggedIn, storage
      ensures isLoggedIn
      ensures old(isLoggedIn) ==> storage.items == old(storage.items)
      ensures !old(isLoggedIn) ==> storage.items == old(storage.items)[AuthKey := Str("true")]
      ensures old(FlagMirrored()) || !old(isLoggedIn) ==> FlagMirrored()
    {
      SetLoggedIn(true);
    }

    /** `handleLogout`: the flag goes false, its key is removed, and the OTP
        context and code are cleared (the removal of the context may throw,
        after the code is already cleared). Once React re-renders, the effect
        for the change writes "false" back under the removed key. */
    method HandleLogout(removeFails: bool) returns (threw: bool)
      requires session.storage == storage
      modifies this`isLoggedIn, storage, session
      ensures !isLoggedIn && session.currentOtp.None? && threw == removeFails
      ensures var cleared := old(storage.items) - {AuthKey} - (if removeFails then {} else {StorageKey});
              storage.items == if old(isLoggedIn) then cleared[AuthKey := Str("false")] else cleared
      ensures !removeFails ==> session.Load().None?
      ensures old(isLoggedIn) ==> FlagMirrored()
    {
      var changed := isLoggedIn;
      isLoggedIn := false;
      storage.RemoveItem(AuthKey);
      threw := session.Clear(removeFails);
      if changed {
        storage.SetItem(AuthKey, Str("false"));
      }
    }
  }

  // ----- routes -----

  /** What the router shows for a path. */
  datatype Screen =
    | LoginScreen | OtpScreen | BasvuruScreen
    | DashboardScreen | IslemlerScreen | IslemDetayScreen(id: string)
    | DestekScreen | IletisimScreen | ProfilScreen
    | RedirectTo(target: string)
    | NoMatch

  /** The screens reachable only through `PrivateRoute`. */
  predicate IsProtected(s: Screen) {
    s.DashboardScreen? || s.IslemlerScreen? || s.IslemDetayScreen? || s.DestekScreen?
    || s.IletisimScreen? || s.ProfilScreen?
  }

  /** `PrivateRoute`: the page when the stored flag is exactly "true",
      otherwise a redirect to `/login`. */
  function PrivateRoute(flag: Option<Item>, page: Screen): (s: Screen)
    ensures FlagSaysLoggedIn(flag) ==> s == page
    ensures !FlagSaysLoggedIn(flag) ==> s == RedirectTo("/login")
  {
    if flag == Some(Str("true")) then page else RedirectTo("/login")
  }

  const DetailPrefix := "/islemler/"

  /** A path matching `/islemler/:id`: a non-empty segment without `/`. */
  predicate IsDetailPath(path: string) {
    |path| > |DetailPrefix| && path[..|DetailPrefix|] == DetailPrefix
    && forall i :: |DetailPrefix| <= i < |path| ==> path[i] != '/'
  }

  /** The route table: the logged-out set or the tab set, chosen by
      `isLoggedIn`; in the tab set every page sits behind `PrivateRoute`,
      which reads the stored flag. */
  function Route(isLoggedIn: bool, flag: Option<Item>, path: string): (s: Screen)
    ensures !isLoggedIn ==> !IsProtected(s)
    ensures IsProtected(s) ==> FlagSaysLoggedIn(flag)
    ensures isLoggedIn && path == "/" ==> s == RedirectTo("/dashboard")
  {
    if !isLoggedIn then
      if path == "/login" then LoginScreen
      else if path == "/otp" then OtpScreen
      else if path == "/basvuru-kontrolu" then BasvuruScreen
      else if path == "/" then RedirectTo("/login")
      else NoMatch
    else
      if path == "/dashboard" then PrivateRoute(flag, DashboardScreen)
      else if path == "/islemler" then PrivateRoute(flag, IslemlerScreen)
      else if IsDetailPath(path) then PrivateRoute(flag, IslemDetayScreen(path[|DetailPrefix|..]))
      else if path == "/destek" then PrivateRoute(flag, DestekScreen)
      else if path == "/iletisim" then PrivateRoute(flag, IletisimScreen)
      else if path == "/profil" then PrivateRoute(flag, ProfilScreen)
      else if path == "/" then RedirectTo("/dashboard")
      else NoMatch
  }

  /** Logged out, exactly four paths are routed, `/` leads to `/login`, and
      no protected page is reachable. */
  lemma LoggedOutRoutes(flag: Option<Item>, path: string)
    ensures var s := Route(false, flag, path);
      && (s != NoMatch <==> path in {"/login", "/otp", "/basvuru-kontrolu", "/"})
      && !IsProtected(s)
      && (path == "/" ==> s == RedirectTo("/login"))
  {
  }

  /** A protected page is shown only to a logged-in app whose stored flag
      reads "true"; logged in, `/` leads to `/dashboard`. */
  lemma ProtectedNeedsBothFlags(isLoggedIn: bool, flag: Option<Item>, path: string)
    ensures IsProtected(Route(isLoggedIn, flag, path)) ==> isLoggedIn && FlagSaysLoggedIn(flag)
    ensures isLoggedIn ==> Route(isLoggedIn, flag, "/") == RedirectTo("/dashboard")
    ensures isLoggedIn && !FlagSaysLoggedIn(flag) && path != "/" && Route(isLoggedIn, flag, path) != NoMatch
            ==> Route(isLoggedIn, flag, path) == RedirectTo("/login")
  {
  }

  /** The path a transaction card pushes routes to that transaction's detail page. */
  lemma DetailPathRoutes(id: int)
    ensures Route(true, Some(Str("true")), DetailPrefix + IntToDecimal(id)) == IslemDetayScreen(IntToDecimal(id))
  {
    var path := DetailPrefix + IntToDecimal(id);
    var s := IntToDecimal(id);
    assert path[..|DetailPrefix|] == DetailPrefix;
    assert path[|DetailPrefix|..] == s;
    assert forall i :: 0 <= i < |s| ==> s[i] != '/' by {
      if id < 0 {
        var d := NatToDecimal(-id);
        assert s == "-" + d;
        assert forall i :: 1 <= i < |s| ==> s[i] == d[i - 1];
      }
    }
    assert forall i :: |DetailPrefix| <= i < |path| ==> path[i] == s[i - |DetailPrefix|];
    assert path != "/dashboard" && path != "/islemler";
  }

  /** The `/otp` route: the page's `onVerified` is the app's `handleLogin`,
      so a successful verification switches to the tab routes with the flag
      persisted, and `/dashboard` then shows the dashboard. */
  method VerifyOnOtpRoute(app: AppState, page: OtpPage.OtpForm, navState: Json, reply: Result<Json, Api.HttpFailure>)
    returns (verified: bool, nav: Option<HistoryOp>)
    requires !app.isLoggedIn
    modifies page`showError, page`errorMessage, page`isVerifying, page.storage, app`isLoggedIn, app.storage
    ensures app.isLoggedIn == verified
    ensures verified ==> nav == Some(Replace("/dashboard"))
    ensures verified ==> Route(app.isLoggedIn, app.storage.GetItem(AuthKey), "/dashboard") == DashboardScreen
  {
    var request;
    request, verified, nav := page.HandleVerify(navState, reply);
    if verified {
      app.HandleLogin();
    }
  }
}
