/** The session of src/contexts/AuthContext.tsx: a credential check against
    a fixed roster, the current user, and the two browser-storage entries
    that keep a session across reloads.

    Browser storage and `JSON.parse` are abstract: the `milhar_user` entry is
    either absent, the empty string, a serialised user, or text that does not
    parse. */
module AuthContext {
  import opened Domain

  /** A roster entry: a user together with the password it logs in with. */
  datatype Account = Account(user: User, senha: string)

  /** What the `milhar_user` storage entry holds. */
  datatype StoredUser = UserJson(user: User) | EmptyText | Unparsable

  /** `mockUsers`, stamped with the time the module was loaded. */
  function MockUsers(loadedAt: Instant): (r: seq<Account>)
    ensures |r| == 3
    ensures forall i, j :: 0 <= i < j < |r| ==> r[i].user.usuario != r[j].user.usuario && r[i].user.id != r[j].user.id
    ensures forall i :: 0 <= i < |r| ==> r[i].user.status == Ativo && r[i].user.created_at == loadedAt
    ensures r[0].user.perfil == Admin && r[0].user.usuario == "admin"
    ensures forall i :: 1 <= i < |r| ==> r[i].user.perfil == Vendedor && r[i].user.limite_apostas.Some?
  {
    [ Account(User("1", "Administrador", "admin", Admin, 0.0, Ativo, None, loadedAt), "admin123"),
      Account(User("2", "João Vendedor", "joao", Vendedor, 10.0, Ativo, Some(5000.0), loadedAt), "123456"),
      Account(User("3", "Maria Vendedora", "maria", Vendedor, 12.0, Ativo, Some(8000.0), loadedAt), "123456") ]
  }

  /** The condition of the roster lookup. */
  predicate Matches(a: Account, usuario: string, senha: string) {
    a.user.usuario == usuario && a.senha == senha && a.user.status == Ativo
  }

  /** `mockUsers.find(...)`, as the index of the first matching entry. */
  function FindAccount(roster: seq<Account>, usuario: string, senha: string): (r: Option<nat>)
    ensures r.Some? ==> r.value < |roster| && Matches(roster[r.value], usuario, senha)
    ensures r.Some? ==> forall j :: 0 <= j < r.value ==> !Matches(roster[j], usuario, senha)
    ensures r.None? ==> forall j :: 0 <= j < |roster| ==> !Matches(roster[j], usuario, senha)
  {
    if roster == [] then None
    else if Matches(roster[0], usuario, senha) then Some(0)
    else
      match FindAccount(roster[1..], usuario, senha)
      case None => None
      case Some(i) => Some(i + 1)
  }

  /** `isAdmin`: `user?.perfil === 'admin'`. */
  predicate IsAdmin(user: Option<User>)
    ensures user.None? ==> !IsAdmin(user)
    ensures user.Some? ==> (IsAdmin(user) <==> user.value.perfil == Admin)
  {
    user.Some? && user.value.perfil == Admin
  }

  /** With the shipped roster, a login yields an administrator exactly when
      it was made with the `admin` user name. */
  lemma RosterAdmins(loadedAt: Instant, usuario: string, senha: string)
    ensures var r := MockUsers(loadedAt);
      var found := FindAccount(r, usuario, senha);
      found.Some? ==> (IsAdmin(Some(r[found.value].user)) <==> usuario == "admin")
  {
    var r := MockUsers(loadedAt);
    var found := FindAccount(r, usuario, senha);
    if found.Some? {
      assert r[found.value].user.usuario == usuario;
    }
  }

  /** The shipped roster: the administrator logs in with `admin`/`admin123`
      and gets the admin profile; `joao`/`123456` is a seller on 10%. */
  lemma ShippedRoster(loadedAt: Instant)
    ensures FindAccount(MockUsers(loadedAt), "admin", "admin123") == Some(0)
    ensures IsAdmin(Some(MockUsers(loadedAt)[0].user))
    ensures FindAccount(MockUsers(loadedAt), "joao", "123456") == Some(1)
    ensures MockUsers(loadedAt)[1].user.perfil == Vendedor && MockUsers(loadedAt)[1].user.comissao == 10.0
    ensures FindAccount(MockUsers(loadedAt), "admin", "wrong") == None
  {
    var r := MockUsers(loadedAt);
    assert !Matches(r[0], "joao", "123456");
    assert r[0].senha != "wrong";
    assert r[1].user.usuario != "admin";
    assert r[2].user.usuario != "admin";
  }

  /** A blocked account never logs in, whatever the password. */
  lemma BlockedNeverFound(roster: seq<Account>, usuario: string, senha: string)
    requires forall a :: a in roster && a.user.usuario == usuario ==> a.user.status == Bloqueado
    ensures FindAccount(roster, usuario, senha) == None
  {
  }

  class Session {
    var user: Option<User>
    var isLoading: bool
    /** The `milhar_user` storage entry. */
    var storedUser: Option<StoredUser>
    /** The `milhar_login_time` storage entry. */
    var storedLoginTime: Option<Instant>
    /** The roster `login` checks against. */
    const roster: seq<Account>

    /** The provider as first rendered: no user, still loading, and whatever
        the browser has stored. */
    constructor (loadedAt: Instant, stored: Option<StoredUser>, storedTime: Option<Instant>)
      ensures user == None && isLoading
      ensures storedUser == stored && storedLoginTime == storedTime
      ensures roster == MockUsers(loadedAt)
    {
      user := None;
      isLoading := true;
      storedUser := stored;
      storedLoginTime := storedTime;
      roster := MockUsers(loadedAt);
    }

    /** The mount effect: a stored user that parses becomes the current user
        without being checked against the roster; one that does not parse is
        removed; loading ends in every case. */
    method RestoreSession()
      modifies this
      ensures !isLoading
      ensures storedLoginTime == old(storedLoginTime)
      ensures old(storedUser).Some? && old(storedUser).value.UserJson? ==>
        user == Some(old(storedUser).value.user) && storedUser == old(storedUser)
      ensures old(storedUser) == Some(Unparsable) ==> user == old(user) && storedUser == None
      ensures old(storedUser) == None || old(storedUser) == Some(EmptyText) ==>
        user == old(user) && storedUser == old(storedUser)
    {
      match storedUser {
        case None =>
        case Some(text) =>
          match text {
            case EmptyText =>
            case UserJson(u) => user := Some(u);
            case Unparsable => storedUser := None;
          }
      }
      isLoading := false;
    }

    /** `login`: the first active roster entry with this user name and
        password becomes the current user, without its password, and is
        stored with the login time; any mismatch returns the same `false`
        and changes nothing. */
    method Login(usuario: string, senha: string, now: Instant) returns (ok: bool)
      modifies this
      ensures ok <==> exists i :: 0 <= i < |roster| && Matches(roster[i], usuario, senha)
      ensures ok ==>
        var i := FindAccount(roster, usuario, senha).value;
        && user == Some(roster[i].user)
        && storedUser == Some(UserJson(roster[i].user))
        && storedLoginTime == Some(now)
      ensures !ok ==>
        user == old(user) && storedUser == old(storedUser) && storedLoginTime == old(storedLoginTime)
      ensures isLoading == old(isLoading)
    {
      var found := FindAccount(roster, usuario, senha);
      match found {
        case None =>
          ok := false;
        case Some(i) =>
          user := Some(roster[i].user);
          storedUser := Some(UserJson(roster[i].user));
          storedLoginTime := Some(now);
          ok := true;
      }
    }

    /** `logout`: no user and both storage entries removed. */
    method Logout()
      modifies this
      ensures user == None && storedUser == None && storedLoginTime == None
      ensures !IsAdmin(user)
      ensures isLoading == old(isLoading)
    {
      user := None;
      storedUser := None;
      storedLoginTime := None;
    }
  }
}
