/**
 * The frontend's authentication store (frontend/src/lib/store.ts): four
 * fields that `login` and `logout` overwrite together.
 */
module AuthStore {
  import opened Wrappers

  datatype Rol = Admin | User

  /** The user the backend returns with a token. */
  datatype Usuario = Usuario(id: string, email: string, nombre: Option<string>, rol: Rol, activo: bool, createdAt: string)

  /** The four fields of the store, as a value. */
  datatype AuthView = AuthView(token: Option<string>, usuario: Option<Usuario>, isAuthenticated: bool, isAdmin: bool)

  /** A session is signed in exactly when it holds a token and a user, and is an administrator's exactly when that user is one. */
  predicate Consistent(v: AuthView) {
    (v.isAuthenticated <==> v.token.Some?) &&
    (v.token.Some? <==> v.usuario.Some?) &&
    (v.isAdmin <==> v.usuario.Some? && v.usuario.value.rol == Admin)
  }

  /** The state of a new store, and the state `logout` leaves. */
  function SignedOut(): (v: AuthView)
    ensures Consistent(v) && !v.isAuthenticated && !v.isAdmin
  {
    AuthView(None, None, false, false)
  }

  /** The state `login` leaves. */
  function SignedIn(token: string, usuario: Usuario): (v: AuthView)
    ensures Consistent(v) && v.isAuthenticated
    ensures v.isAdmin <==> usuario.rol == Admin
  {
    AuthView(Some(token), Some(usuario), true, usuario.rol == Admin)
  }

  /** An administrator's session is always a signed-in one. */
  lemma AdminIsAuthenticated(v: AuthView)
    requires Consistent(v)
    ensures v.isAdmin ==> v.isAuthenticated && v.token.Some?
  {
  }

  /** Whatever state a store is in, a consistent one is either signed out or signed in as someone. */
  lemma ConsistentStates(v: AuthView)
    requires Consistent(v)
    ensures v == SignedOut() || v == SignedIn(v.token.value, v.usuario.value)
  {
  }

  class Store {
    var token: Option<string>
    var usuario: Option<Usuario>
    var isAuthenticated: bool
    var isAdmin: bool

    function View(): AuthView
      reads this
    {
      AuthView(token, usuario, isAuthenticated, isAdmin)
    }

    /** `useAuthStore` starts signed out. */
    constructor()
      ensures View() == SignedOut()
    {
      token := None;
      usuario := None;
      isAuthenticated := false;
      isAdmin := false;
    }

    /** `login(token, usuario)`: stores both, signed in, administrator exactly when the user's role is admin. */
    method Login(t: string, u: Usuario)
      modifies this
      ensures View() == SignedIn(t, u)
    {
      token := Some(t);
      usuario := Some(u);
      isAuthenticated := true;
      isAdmin := u.rol == Admin;
    }

    /** `logout()`: back to the signed-out state, whatever the state was. */
    method Logout()
      modifies this
      ensures View() == SignedOut()
    {
      token := None;
      usuario := None;
      isAuthenticated := false;
      isAdmin := false;
    }
  }
}
