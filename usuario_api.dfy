/** The two calls of the user API that do more than forward a request:
    `loginUsuario` normalises the response body and stores its token, and
    `logoutUsuario` drops three session keys once the server has answered. */
module UsuarioApi {
  import opened Common
  import opened Records
  import opened Storage

  /** The login response body as the server sends it. The fields the
      response record declares non-null are given; every field the code
      reads with `??` may be missing, including the misspelled
      `contrusrContrasenaLogasenaLog` that line 24 falls back on. */
  datatype LoginResponse = LoginResponse(
    usrId: int,
    token: string,
    usrNombreCompleto: string,
    usrCorreo: Option<string>,
    usrCarnetIdentidad: Option<string>,
    usrNitEmpleado: Option<string>,
    usrTelefono: Option<string>,
    usrUsuarioLog: Option<string>,
    usrContrasenaLog: Option<string>,
    contrusrContrasenaLogasenaLog: Option<string>,
    usrEstadoDel: bool,
    roles: Option<seq<string>>,
    vendedorId: Option<int>,
    supervisorId: Option<int>,
    esAdministrador: Option<bool>,
    esVendedor: Option<bool>,
    esSupervisor: Option<bool>)

  /** The normalised user: every field read as `x ?? x` (an identity),
      the password through the misspelled fallback, `roles` through
      `?? []`, and the three role flags through `?? false`. */
  function Normalize(data: LoginResponse): Usuario {
    Usuario(
      data.usrId,
      data.token,
      data.usrNombreCompleto,
      Coalesce(data.usrCorreo, data.usrCorreo),
      Coalesce(data.usrCarnetIdentidad, data.usrCarnetIdentidad),
      Coalesce(data.usrNitEmpleado, data.usrNitEmpleado),
      Coalesce(data.usrTelefono, data.usrTelefono),
      Coalesce(data.usrUsuarioLog, data.usrUsuarioLog),
      Coalesce(data.usrContrasenaLog, data.contrusrContrasenaLogasenaLog),
      data.usrEstadoDel,
      Coalesce(Coalesce(data.roles, data.roles), Some([])).value,
      Coalesce(data.vendedorId, data.vendedorId),
      Coalesce(data.supervisorId, data.supervisorId),
      Some(Coalesce(data.esAdministrador, Some(false)).value),
      Some(Coalesce(data.esVendedor, Some(false)).value),
      Some(Coalesce(data.esSupervisor, Some(false)).value))
  }

  /** The normalised record copies the response: each `x ?? x` leaves the
      field as it came, missing roles become the empty list, a missing
      role flag becomes false (so the flags are never null), and the
      password is the response's own when it has one and the misspelled
      field's otherwise. */
  lemma NormalizeSpec(data: LoginResponse)
    ensures var u := Normalize(data);
      u.usrId == data.usrId && u.token == data.token && u.usrNombreCompleto == data.usrNombreCompleto
      && u.usrCorreo == data.usrCorreo && u.usrCarnetIdentidad == data.usrCarnetIdentidad
      && u.usrNitEmpleado == data.usrNitEmpleado && u.usrTelefono == data.usrTelefono
      && u.usrUsuarioLog == data.usrUsuarioLog && u.usrEstadoDel == data.usrEstadoDel
      && u.vendedorId == data.vendedorId && u.supervisorId == data.supervisorId
    ensures Normalize(data).roles == if data.roles.Some? then data.roles.value else []
    ensures Normalize(data).esAdministrador == Some(data.esAdministrador.Some? && data.esAdministrador.value)
    ensures Normalize(data).esVendedor == Some(data.esVendedor.Some? && data.esVendedor.value)
    ensures Normalize(data).esSupervisor == Some(data.esSupervisor.Some? && data.esSupervisor.value)
    ensures data.usrContrasenaLog.Some? ==> Normalize(data).usrContrasenaLog == data.usrContrasenaLog
    ensures data.contrusrContrasenaLogasenaLog.None? ==> Normalize(data).usrContrasenaLog == data.usrContrasenaLog
    ensures data.usrContrasenaLog.None? ==> Normalize(data).usrContrasenaLog == data.contrusrContrasenaLogasenaLog
  {
  }

  /** What `loginUsuario` leaves in storage: the token under "token" when it
      is truthy, nothing otherwise. */
  function ApiLoginItems(items: map<string, string>, user: Usuario): map<string, string> {
    if user.token != "" then items[TokenKey := user.token] else items
  }

  const TokenKey: string := "token"
  const NombreKey: string := "usrNombreCompleto"
  const RolesKey: string := "roles"
  const UsrIdKey: string := "usrId"

  /** The keys `logoutUsuario` removes. */
  const ApiLogoutKeys: set<string> := {TokenKey, NombreKey, RolesKey}

  /** `loginUsuario`: a failed request propagates and writes nothing; on
      success the normalised user is returned and its token stored when
      non-empty. */
  method LoginUsuario(response: Outcome<LoginResponse>, storage: LocalStorage) returns (r: Outcome<Usuario>)
    modifies storage
    ensures response.Fail? ==> r == Fail(response.message) && storage.items == old(storage.items)
    ensures response.Ok? ==>
      r == Ok(Normalize(response.value)) && storage.items == ApiLoginItems(old(storage.items), Normalize(response.value))
  {
    match response {
      case Fail(m) =>
        r := Fail(m);
      case Ok(data) =>
        var usuarioNormalizado := Normalize(data);
        if usuarioNormalizado.token != "" {
          storage.SetItem(TokenKey, usuarioNormalizado.token);
        }
        r := Ok(usuarioNormalizado);
    }
  }

  /** `logoutUsuario`: keys are removed only after the server answered, so
      a failed request removes nothing. `usrId` is not among them. */
  method LogoutUsuario(response: Outcome<string>, storage: LocalStorage) returns (r: Outcome<string>)
    modifies storage
    ensures r == response
    ensures storage.items == if response.Ok? then old(storage.items) - ApiLogoutKeys else old(storage.items)
  {
    if response.Ok? {
      storage.RemoveItem(TokenKey);
      storage.RemoveItem(NombreKey);
      storage.RemoveItem(RolesKey);
      assert storage.items == old(storage.items) - ApiLogoutKeys;
    }
    r := response;
  }

  /** The server-side logout keeps the stored user id. */
  lemma ApiLogoutKeepsUserId(items: map<string, string>)
    requires UsrIdKey in items
    ensures UsrIdKey in items - ApiLogoutKeys && (items - ApiLogoutKeys)[UsrIdKey] == items[UsrIdKey]
    ensures TokenKey !in items - ApiLogoutKeys
  {
  }
}
