/** The session context: `UserProvider` keeps the current user, restores it
    from storage once on mount, and `login` / `logout` write and clear the
    session keys; `useUsuario` refuses to run outside the provider. */
module UserSession {
  import opened Common
  import opened Records
  import opened Storage
  import opened JsonRoles
  import opened UsuarioApi

  /** The record the restore effect builds: only these eight fields are
      set; the id is whatever `parseInt` makes of the stored text. */
  datatype RestoredUser = RestoredUser(
    usrId: Num,
    token: string,
    usrNombreCompleto: string,
    roles: seq<string>,
    usrCorreo: Option<string>,
    usrTelefono: Option<string>,
    usrCarnetIdentidad: Option<string>,
    usrNitEmpleado: Option<string>)

  /** The context's `user`: the record handed to `login`, or one rebuilt
      from storage. */
  datatype CurrentUser = LoggedIn(user: Usuario) | Restored(restored: RestoredUser)

  /** What the restore effect finds: no complete session, a session, or a
      `roles` text that `JSON.parse` rejects (the effect then throws). */
  datatype RestoreResult = NoSession | Session(user: RestoredUser) | BadRoles

  const CorreoKey: string := "usrCorreo"
  const TelefonoKey: string := "usrTelefono"
  const CarnetKey: string := "usrCarnetIdentidad"
  const NitKey: string := "usrNitEmpleado"

  /** The keys `logout` removes. */
  const SessionKeys: set<string> := {TokenKey, NombreKey, RolesKey, UsrIdKey}

  function Lookup(items: map<string, string>, key: string): Option<string> {
    if key in items then Some(items[key]) else None
  }

  /** A stored value as the `&&` chain sees it: present and non-empty. */
  predicate Stored(items: map<string, string>, key: string) {
    key in items && items[key] != ""
  }

  /** The restore effect on a storage snapshot (lines 30-50). */
  function RestoreFrom(items: map<string, string>): RestoreResult {
    if Stored(items, TokenKey) && Stored(items, NombreKey) && Stored(items, RolesKey) && Stored(items, UsrIdKey) then
      match ParseRoles(items[RolesKey])
      case None => BadRoles
      case Some(roles) =>
        Session(RestoredUser(ParseInt(items[UsrIdKey]), items[TokenKey], items[NombreKey], roles,
          Lookup(items, CorreoKey), Lookup(items, TelefonoKey), Lookup(items, CarnetKey), Lookup(items, NitKey)))
    else NoSession
  }

  /** The storage after `login(u)`: four writes, in order. */
  function LoginItems(items: map<string, string>, u: Usuario): map<string, string> {
    items[TokenKey := u.token][UsrIdKey := IntToString(u.usrId)][NombreKey := u.usrNombreCompleto][RolesKey := Stringify(u.roles)]
  }

  /** `useUsuario()`: the context, or the error thrown outside a provider. */
  function UseUsuario<C>(context: Option<C>): (r: Outcome<C>)
    ensures context.None? <==> r.Fail?
    ensures r.Fail? ==> r.message == "useUsuario debe usarse dentro de un UserProvider"
    ensures r.Ok? ==> r.value == context.value
  {
    match context
    case None => Fail("useUsuario debe usarse dentro de un UserProvider")
    case Some(c) => Ok(c)
  }

  class UserProvider {
    var user: Option<CurrentUser>
    const storage: LocalStorage

    /** `useState(null)`, over the page's storage. */
    constructor (storage: LocalStorage)
      ensures user == None && this.storage == storage
    {
      user := None;
      this.storage := storage;
    }

    /** The mount effect. Returns false when `JSON.parse` throws; the user
        is then left as it was. */
    method Restore() returns (parsed: bool)
      modifies this
      ensures parsed <==> !RestoreFrom(storage.items).BadRoles?
      ensures user == if RestoreFrom(storage.items).Session? then Some(Restored(RestoreFrom(storage.items).user)) else old(user)
    {
      var token := storage.GetItem(TokenKey);
      var usrNombreCompleto := storage.GetItem(NombreKey);
      var roles := storage.GetItem(RolesKey);
      var usrId := storage.GetItem(UsrIdKey);
      var usrCorreo := storage.GetItem(CorreoKey);
      var usrTelefono := storage.GetItem(TelefonoKey);
      var usrCarnetIdentidad := storage.GetItem(CarnetKey);
      var usrNitEmpleado := storage.GetItem(NitKey);
      parsed := true;
      if token.Some? && token.value != "" && usrNombreCompleto.Some? && usrNombreCompleto.value != ""
        && roles.Some? && roles.value != "" && usrId.Some? && usrId.value != ""
      {
        var decoded := ParseRoles(roles.value);
        if decoded.None? {
          parsed := false;
        } else {
          user := Some(Restored(RestoredUser(ParseInt(usrId.value), token.value, usrNombreCompleto.value, decoded.value,
            usrCorreo, usrTelefono, usrCarnetIdentidad, usrNitEmpleado)));
        }
      }
    }

    /** `login(userData)`: store the four keys, then set the user. */
    method Login(userData: Usuario)
      modifies this, storage
      ensures storage.items == LoginItems(old(storage.items), userData)
      ensures user == Some(LoggedIn(userData))
    {
      storage.SetItem(TokenKey, userData.token);
      storage.SetItem(UsrIdKey, IntToString(userData.usrId));
      storage.SetItem(NombreKey, userData.usrNombreCompleto);
      storage.SetItem(RolesKey, Stringify(userData.roles));
      user := Some(LoggedIn(userData));
    }

    /** `logout()`: the server call may fail (the error is only logged);
        either way the `finally` block removes the four keys and clears the
        user. */
    method Logout(serverResponse: Outcome<string>)
      modifies this, storage
      ensures storage.items == old(storage.items) - SessionKeys
      ensures user == None
    {
      var _ := LogoutUsuario(serverResponse, storage);
      storage.RemoveItem(TokenKey);
      storage.RemoveItem(NombreKey);
      storage.RemoveItem(RolesKey);
      storage.RemoveItem(UsrIdKey);
      assert storage.items == old(storage.items) - SessionKeys;
      user := None;
    }
  }

  /** After a login, a restore finds a session exactly when the token and
      the name are non-empty (the stored id and roles never are). */
  lemma RestoreAfterLoginFinds(items: map<string, string>, u: Usuario)
    ensures RestoreFrom(LoginItems(items, u)).Session? <==> u.token != "" && u.usrNombreCompleto != ""
  {
    var m := LoginItems(items, u);
    StringifyRoundTrip(u.roles);
    if u.token != "" && u.usrNombreCompleto != "" {
      RestoreAfterLogin(items, u);
    } else {
      assert !Stored(m, TokenKey) || !Stored(m, NombreKey);
    }
  }

  /** A restore after a login gives back the id, token, name and roles that
      were logged in; the four other fields are whatever storage held
      before, since `login` does not write them. */
  lemma RestoreAfterLogin(items: map<string, string>, u: Usuario)
    requires u.token != "" && u.usrNombreCompleto != ""
    ensures RestoreFrom(LoginItems(items, u)) ==
      Session(RestoredUser(Int(u.usrId), u.token, u.usrNombreCompleto, u.roles,
        Lookup(items, CorreoKey), Lookup(items, TelefonoKey), Lookup(items, CarnetKey), Lookup(items, NitKey)))
  {
    var m := LoginItems(items, u);
    LoginItemsValues(items, u);
    StringifyRoundTrip(u.roles);
    StringifyNonEmpty(u.roles);
    ParseIntToString(u.usrId);
    RestoreOfSession(m, u.roles);
  }

  /** What `login` leaves under each key the restore reads. */
  lemma LoginItemsValues(items: map<string, string>, u: Usuario)
    ensures var m := LoginItems(items, u);
      TokenKey in m && UsrIdKey in m && NombreKey in m && RolesKey in m
      && m[TokenKey] == u.token && m[UsrIdKey] == IntToString(u.usrId)
      && m[NombreKey] == u.usrNombreCompleto && m[RolesKey] == Stringify(u.roles)
    ensures var m := LoginItems(items, u);
      Lookup(m, CorreoKey) == Lookup(items, CorreoKey) && Lookup(m, TelefonoKey) == Lookup(items, TelefonoKey)
      && Lookup(m, CarnetKey) == Lookup(items, CarnetKey) && Lookup(m, NitKey) == Lookup(items, NitKey)
  {
    KeysDistinct();
  }

  /** A complete session whose roles text parses is restored from the
      stored values. */
  lemma RestoreOfSession(m: map<string, string>, roles: seq<string>)
    requires Stored(m, TokenKey) && Stored(m, NombreKey) && Stored(m, RolesKey) && Stored(m, UsrIdKey)
    requires ParseRoles(m[RolesKey]) == Some(roles)
    ensures RestoreFrom(m) == Session(RestoredUser(ParseInt(m[UsrIdKey]), m[TokenKey], m[NombreKey], roles,
      Lookup(m, CorreoKey), Lookup(m, TelefonoKey), Lookup(m, CarnetKey), Lookup(m, NitKey)))
  {
  }

  /** The eight storage keys are different texts. */
  lemma KeysDistinct()
    ensures TokenKey != UsrIdKey && TokenKey != NombreKey && TokenKey != RolesKey
    ensures UsrIdKey != NombreKey && UsrIdKey != RolesKey && NombreKey != RolesKey
    ensures CorreoKey !in SessionKeys && TelefonoKey !in SessionKeys
    ensures CarnetKey !in SessionKeys && NitKey !in SessionKeys
  {
    assert TokenKey[0] == 't' && UsrIdKey[0] == 'u' && RolesKey[0] == 'r';
    assert |NombreKey| == 17 && |TokenKey| == 5 && |UsrIdKey| == 5 && |RolesKey| == 5;
    assert |CorreoKey| == 9 && |TelefonoKey| == 11 && |CarnetKey| == 18 && |NitKey| == 14;
  }

  /** On a storage that held no contact fields, those come back null. */
  lemma RestoreAfterFreshLogin(items: map<string, string>, u: Usuario)
    requires u.token != "" && u.usrNombreCompleto != ""
    requires CorreoKey !in items && TelefonoKey !in items && CarnetKey !in items && NitKey !in items
    ensures RestoreFrom(LoginItems(items, u)) ==
      Session(RestoredUser(Int(u.usrId), u.token, u.usrNombreCompleto, u.roles, None, None, None, None))
  {
    RestoreAfterLogin(items, u);
  }

  /** After a logout no session is restored. */
  lemma RestoreAfterLogout(items: map<string, string>)
    ensures RestoreFrom(items - SessionKeys) == NoSession
  {
    assert TokenKey !in items - SessionKeys;
  }

  /** The last login decides the stored session. */
  lemma LoginOverwrites(items: map<string, string>, u: Usuario, v: Usuario)
    ensures LoginItems(LoginItems(items, u), v) == LoginItems(items, v)
  {
  }

  /** The token `loginUsuario` stores first is overwritten by `login`. */
  lemma LoginAfterApiLogin(items: map<string, string>, u: Usuario)
    ensures LoginItems(ApiLoginItems(items, u), u) == LoginItems(items, u)
  {
  }

  /** Login writes no key but the four session keys. */
  lemma LoginKeepsOtherKeys(items: map<string, string>, u: Usuario, key: string)
    requires key !in SessionKeys
    ensures Lookup(LoginItems(items, u), key) == Lookup(items, key)
  {
  }
}
