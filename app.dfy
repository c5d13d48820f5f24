/** The application shell: the startup check of the stored token, the
    two route guards, and which screen each path shows. */
module App {
  import opened Js
  import opened Wire
  import opened ServerAuth
  import Login

  /** What a guard does with its children. */
  datatype Guarded = Render | RedirectTo(path: string)

  /** `ProtectedRoute`: children with a token, `/login` without. */
  function ProtectedRoute(st: BrowserStorage): (r: Guarded)
    ensures r == Render <==> HasToken(st)
    ensures r != Render ==> r == RedirectTo("/login")
  {
    if !HasToken(st) then RedirectTo("/login") else Render
  }

  /** The role of the stored user; a missing entry parses as `{}`, whose
      role is `undefined`. */
  function StoredRole(st: BrowserStorage): Option<string>
  {
    if st.user.Some? then Some(st.user.value.role) else None
  }

  /** `AdminRoute`: children only with a token and a stored user whose
      role is `'admin'`, `/chat` otherwise. */
  function AdminRoute(st: BrowserStorage): (r: Guarded)
    ensures r == Render <==> HasToken(st) && StoredRole(st) == Some("admin")
    ensures r != Render ==> r == RedirectTo("/chat")
  {
    if !HasToken(st) || StoredRole(st) != Some("admin") then RedirectTo("/chat") else Render
  }

  /** Whatever the admin guard lets through, the chat guard lets through. */
  lemma AdminRouteImpliesProtected(st: BrowserStorage)
    ensures AdminRoute(st) == Render ==> ProtectedRoute(st) == Render
    ensures st.user.None? ==> AdminRoute(st) == RedirectTo("/chat")
  {
  }

  datatype Screen = Spinner | LoginPage | ChatLayout | AdminPanel | Redirect(to: string)

  /** The screen the router shows for `path`: the spinner while the
      startup check runs, the three routes, and `/chat` for `/` and for
      every unmatched path. */
  function Resolve(path: string, isLoading: bool, st: BrowserStorage): (r: Screen)
    ensures r == Spinner <==> isLoading
    ensures r == LoginPage <==> !isLoading && path == "/login"
    ensures r == ChatLayout <==> !isLoading && path == "/chat" && HasToken(st)
    ensures r == AdminPanel <==> !isLoading && path == "/admin" && AdminRoute(st) == Render
    ensures r.Redirect? ==> r.to == "/login" || r.to == "/chat"
  {
    if isLoading then Spinner
    else if path == "/login" then LoginPage
    else if path == "/chat" then (if ProtectedRoute(st) == Render then ChatLayout else Redirect("/login"))
    else if path == "/admin" then (if AdminRoute(st) == Render then AdminPanel else Redirect("/chat"))
    else Redirect("/chat")
  }

  /** Follow redirects, at most `hops` of them. */
  function Follow(path: string, st: BrowserStorage, hops: nat): Screen
    decreases hops
  {
    var s := Resolve(path, false, st);
    if s.Redirect? && hops > 0 then Follow(s.to, st, hops - 1) else s
  }

  /** Redirects never loop: from any path two redirects at most reach a
      page, the chat layout exactly when a token is stored, the login
      page otherwise, and the admin panel only from `/admin`. */
  lemma RoutesSettle(path: string, st: BrowserStorage)
    ensures !Follow(path, st, 2).Redirect?
    ensures Follow(path, st, 2) == AdminPanel <==> path == "/admin" && AdminRoute(st) == Render
    ensures path != "/login" && path != "/admin" ==>
      Follow(path, st, 2) == (if HasToken(st) then ChatLayout else LoginPage)
  {
    assert Resolve("/login", false, st) == LoginPage;
    assert Resolve("/chat", false, st) == (if HasToken(st) then ChatLayout else Redirect("/login"));
  }

  /** After a successful login the page the role is sent to is the one
      the guards then show: `/admin` opens the admin panel, `/chat` the
      chat layout. */
  lemma LoginLandsOnRoleHome(token: string, user: UserInfo)
    requires token != ""
    ensures var st := BrowserStorage(Some(token), Some(user));
      Resolve(Login.RoleHome(user.role), false, st) == if user.role == "admin" then AdminPanel else ChatLayout
  {
  }

  /** The startup check sends `Bearer ${token}` to `/api/auth/verify`: a
      token without spaces passes the server's gate exactly when the
      verifier accepts it, and then with the verifier's claims. */
  lemma StartupRequestReachesVerifier(token: string, verify: Verifier)
    requires token != "" && ' ' !in token
    ensures AuthenticateToken(Some("Bearer " + token), verify).Proceed? <==> verify(token).Some?
    ensures verify(token).Some? ==> AuthenticateToken(Some("Bearer " + token), verify) == Proceed(verify(token).value)
  {
    BearerOfScheme(token);
  }

  class AppState {
    var currentUser: Option<Claims>
    var selectedUser: Option<UserInfo>
    var isLoading: bool
    var storage: BrowserStorage

    constructor (storage: BrowserStorage)
      ensures currentUser == None && selectedUser == None && isLoading && this.storage == storage
    {
      currentUser := None;
      selectedUser := None;
      isLoading := true;
      this.storage := storage;
    }

    /** The startup effect. `reply` is the outcome of `/api/auth/verify`:
        the claims, or `None` when the request fails. Loading ends on
        every path; the user is set only by a successful check; a token
        that fails the check is removed. */
    method InitVerify(reply: Option<Claims>)
      modifies this`currentUser, this`isLoading, this`storage
      ensures !isLoading
      ensures HasToken(old(storage)) && reply.Some? ==> currentUser == reply && storage == old(storage)
      ensures HasToken(old(storage)) && reply.None? ==>
        currentUser == old(currentUser) && storage == old(storage).(token := None)
      ensures !HasToken(old(storage)) ==> currentUser == old(currentUser) && storage == old(storage)
    {
      if HasToken(storage) {
        match reply {
          case Some(claims) =>
            currentUser := Some(claims);
            isLoading := false;
          case None =>
            storage := storage.(token := None);
            isLoading := false;
        }
      } else {
        isLoading := false;
      }
    }

    /** `handleUserSelect` of the shell. */
    method HandleUserSelect(user: UserInfo)
      modifies this`selectedUser
      ensures selectedUser == Some(user)
    {
      selectedUser := Some(user);
    }
  }
}
