/** The process-wide `usuario_actual` slot, the three role endpoints that
    read it, the `SesionesClientes` rows that login and logout write, and
    the customer-then-administrator login decision. */
module Session {
  import opened Http
  import opened Filtering
  import opened Executor

  /** The `usuario_actual` dict. `administradorId` is None until an
      administrator logs in, because the key is absent until then. */
  datatype Usuario = Usuario(
    tipo: Option<Role>,
    nombre: Option<string>,
    clienteId: Option<int>,
    administradorId: Option<int>)

  /** The slot as the process starts. */
  const Inicial := Usuario(None, None, None, None)

  /** The slot after a customer's password is accepted. */
  function ComoCliente(u: Usuario, nombre: string, id: int): Usuario {
    u.(tipo := Some(Cliente), nombre := Some(nombre), clienteId := Some(id))
  }

  /** The slot after an administrator's password is accepted; the customer
      id of an earlier customer login stays where it was. */
  function ComoAdministrador(u: Usuario, nombre: string, id: int): Usuario {
    u.(tipo := Some(Administrador), nombre := Some(nombre), administradorId := Some(id))
  }

  /** The slot after logout: the administrator id is not cleared. */
  function Limpio(u: Usuario): Usuario {
    u.(tipo := None, nombre := None, clienteId := None)
  }

  /** What every transition keeps: a role is set exactly when a username
      is, and a customer role always comes with a customer id. */
  predicate Coherente(u: Usuario) {
    && (u.tipo.Some? <==> u.nombre.Some?)
    && (u.tipo == Some(Cliente) ==> u.clienteId.Some?)
  }

  // ---------------------------------------------------------------
  // Role endpoints
  // ---------------------------------------------------------------

  /** GET /user-role. */
  function GetUserRole(u: Usuario): (r: Reply)
    ensures r.Ok? <==> TruthyText(u.nombre)
    ensures r.Ok? ==> r.body == Rol(u.tipo)
    ensures !r.Ok? ==> r == Fail(401, Raised)
  {
    if !TruthyText(u.nombre) then Fail(401, Raised) else Ok(Rol(u.tipo))
  }

  /** GET /user-page. */
  function UserPage(u: Usuario): (r: Reply)
    ensures r.Ok? <==> u.tipo == Some(Cliente)
    ensures r.Ok? ==> r.body == Mensaje("Access granted")
    ensures !r.Ok? ==> r == Fail(403, Raised)
  {
    if u.tipo != Some(Cliente) then Fail(403, Raised) else Ok(Mensaje("Access granted"))
  }

  /** GET /admin-page. */
  function AdminPage(u: Usuario): (r: Reply)
    ensures r.Ok? <==> u.tipo == Some(Administrador)
    ensures r.Ok? ==> r.body == Mensaje("Access granted")
    ensures !r.Ok? ==> r == Fail(403, Raised)
  {
    if u.tipo != Some(Administrador) then Fail(403, Raised) else Ok(Mensaje("Access granted"))
  }

  /** The role endpoints follow the slot's transitions: after a customer
      login only the user page opens, after an administrator login only
      the admin page, and after logout none of the three. */
  lemma RolesFollowTransitions(u: Usuario, nombre: string, id: int)
    requires nombre != ""
    ensures GetUserRole(ComoCliente(u, nombre, id)) == Ok(Rol(Some(Cliente)))
    ensures UserPage(ComoCliente(u, nombre, id)).Ok?
    ensures AdminPage(ComoCliente(u, nombre, id)) == Fail(403, Raised)
    ensures GetUserRole(ComoAdministrador(u, nombre, id)) == Ok(Rol(Some(Administrador)))
    ensures AdminPage(ComoAdministrador(u, nombre, id)).Ok?
    ensures UserPage(ComoAdministrador(u, nombre, id)) == Fail(403, Raised)
    ensures GetUserRole(Limpio(u)) == Fail(401, Raised)
    ensures UserPage(Limpio(u)) == Fail(403, Raised)
    ensures AdminPage(Limpio(u)) == Fail(403, Raised)
  {
  }

  /** At the handler level, the role check and the username check disagree
      for an empty username: `user_page` admits the customer while
      `get_user_role` answers 401. Over HTTP the middleware redirects both
      requests first (Routing.EmptyUsernameRedirected). */
  lemma EmptyUsernameHalfLoggedIn(u: Usuario, id: int)
    ensures UserPage(ComoCliente(u, "", id)).Ok?
    ensures GetUserRole(ComoCliente(u, "", id)) == Fail(401, Raised)
  {
  }

  // ---------------------------------------------------------------
  // SesionesClientes
  // ---------------------------------------------------------------

  /** A row of `SesionesClientes` (its `SesionID` key is not modelled);
      times are whatever GETDATE() returned, as integers. */
  datatype SesionCliente = SesionCliente(cliente: int, inicio: int, cierre: Option<int>, ip: string)

  /** The invariant login keeps: at most one row per customer. */
  predicate UnaPorCliente(rows: seq<SesionCliente>) {
    forall i, j :: 0 <= i < j < |rows| ==> rows[i].cliente != rows[j].cliente
  }

  predicate TieneSesion(rows: seq<SesionCliente>, cid: int) {
    exists i :: 0 <= i < |rows| && rows[i].cliente == cid
  }

  /** The `IF EXISTS ... UPDATE ... ELSE INSERT` statement a customer
      login sends: refresh start time and address of the customer's rows,
      or append a fresh open row. */
  function Upsert(rows: seq<SesionCliente>, cid: int, ahora: int, ip: string): seq<SesionCliente> {
    if TieneSesion(rows, cid) then
      seq(|rows|, i requires 0 <= i < |rows| =>
        if rows[i].cliente == cid then rows[i].(inicio := ahora, ip := ip) else rows[i])
    else
      rows + [SesionCliente(cid, ahora, None, ip)]
  }

  /** After the upsert the customer has exactly one row (present, and
      unique by the invariant), and it carries the new start time and
      address. */
  lemma UpsertLeavesOneRow(rows: seq<SesionCliente>, cid: int, ahora: int, ip: string)
    requires UnaPorCliente(rows)
    ensures UnaPorCliente(Upsert(rows, cid, ahora, ip))
    ensures TieneSesion(Upsert(rows, cid, ahora, ip), cid)
    ensures forall k :: 0 <= k < |Upsert(rows, cid, ahora, ip)| && Upsert(rows, cid, ahora, ip)[k].cliente == cid ==>
              Upsert(rows, cid, ahora, ip)[k].inicio == ahora && Upsert(rows, cid, ahora, ip)[k].ip == ip
  {
    var r := Upsert(rows, cid, ahora, ip);
    if !TieneSesion(rows, cid) {
      assert r[|rows|].cliente == cid;
    } else {
      var i :| 0 <= i < |rows| && rows[i].cliente == cid;
      assert r[i].cliente == cid;
    }
  }

  /** The upsert touches nothing but the customer's own row, and the
      update branch keeps the row's close time: a returning customer's
      row is not reopened. */
  lemma UpsertKeepsCierre(rows: seq<SesionCliente>, cid: int, ahora: int, ip: string)
    ensures |Upsert(rows, cid, ahora, ip)| == if TieneSesion(rows, cid) then |rows| else |rows| + 1
    ensures forall i :: 0 <= i < |rows| && rows[i].cliente != cid ==> Upsert(rows, cid, ahora, ip)[i] == rows[i]
    ensures forall i :: 0 <= i < |rows| ==> Upsert(rows, cid, ahora, ip)[i].cierre == rows[i].cierre
    ensures !TieneSesion(rows, cid) ==> Upsert(rows, cid, ahora, ip)[|rows|].cierre == None
  {
  }

  /** The logout statement: stamp the close time on the customer's rows
      whose close time is still NULL. */
  function Cerrar(rows: seq<SesionCliente>, cid: int, ahora: int): (r: seq<SesionCliente>)
    ensures |r| == |rows|
    ensures forall i :: 0 <= i < |rows| ==> r[i].cliente == rows[i].cliente
  {
    seq(|rows|, i requires 0 <= i < |rows| =>
      if rows[i].cliente == cid && rows[i].cierre == None then rows[i].(cierre := Some(ahora)) else rows[i])
  }

  /** Logout changes only the customer's open rows, leaves none of them
      open, and a row already closed is never changed again. */
  lemma CerrarOnlyOpenRows(rows: seq<SesionCliente>, cid: int, ahora: int)
    ensures forall i :: 0 <= i < |rows| && rows[i].cierre.Some? ==> Cerrar(rows, cid, ahora)[i] == rows[i]
    ensures forall i :: 0 <= i < |rows| && rows[i].cliente != cid ==> Cerrar(rows, cid, ahora)[i] == rows[i]
    ensures forall i :: 0 <= i < |rows| && rows[i].cliente == cid && rows[i].cierre == None ==>
              Cerrar(rows, cid, ahora)[i] == rows[i].(cierre := Some(ahora))
    ensures UnaPorCliente(rows) ==> UnaPorCliente(Cerrar(rows, cid, ahora))
  {
  }

  /** A second logout of the same customer changes nothing. */
  lemma CerrarIdempotent(rows: seq<SesionCliente>, cid: int, t1: int, t2: int)
    ensures Cerrar(Cerrar(rows, cid, t1), cid, t2) == Cerrar(rows, cid, t1)
  {
  }

  /** Because the upsert keeps the close time and logout only stamps NULL
      close times, a customer's row remembers the FIRST logout forever:
      after login, logout, login, logout the row shows the second start
      time with the first close time. */
  lemma ReloginKeepsFirstCierre(rows: seq<SesionCliente>, cid: int,
                                 t1: int, t2: int, t3: int, t4: int, ip1: string, ip2: string)
    requires !TieneSesion(rows, cid)
    ensures Cerrar(Upsert(Cerrar(Upsert(rows, cid, t1, ip1), cid, t2), cid, t3, ip2), cid, t4)
            == rows + [SesionCliente(cid, t3, Some(t2), ip2)]
  {
    var s1 := Upsert(rows, cid, t1, ip1);
    assert s1 == rows + [SesionCliente(cid, t1, None, ip1)];
    var s2 := Cerrar(s1, cid, t2);
    assert s2 == rows + [SesionCliente(cid, t1, Some(t2), ip1)];
    assert s2[|rows|].cliente == cid;
    var s3 := Upsert(s2, cid, t3, ip2);
    assert s3 == rows + [SesionCliente(cid, t3, Some(t2), ip2)];
  }

  // ---------------------------------------------------------------
  // Login decision
  // ---------------------------------------------------------------

  /** A row of `Clientes` or `Administradores` as the login reads it. */
  datatype Cuenta = Cuenta(id: int, usuario: string, hash: string)

  /** `... WHERE NombreUsuario = %s`. */
  function Llamadas(cuentas: seq<Cuenta>, nombre: string): seq<Cuenta> {
    Filter(cuentas, (c: Cuenta) => c.usuario == nombre)
  }

  datatype Acceso = EntraCliente(clienteId: int) | EntraAdministrador(administradorId: int) | Rechazado

  /** Which principal POST /login (the bcrypt route) admits: the first
      customer row with that username if `checkpw` accepts its hash, else
      the first administrator row under the same test. `clientesOk` and
      `adminsOk` say whether each read reached the database; `checkpw`
      stands for bcrypt's password test. */
  function DecidirAcceso(clientes: seq<Cuenta>, administradores: seq<Cuenta>, nombre: string, contrasena: string,
                         checkpw: (string, string) -> bool, clientesOk: bool, adminsOk: bool): Acceso
  {
    var rc := Execute(ClienteQuery, if clientesOk then Returned(Llamadas(clientes, nombre)) else Threw);
    if Truthy(rc) && checkpw(contrasena, rc.rows[0].hash) then EntraCliente(rc.rows[0].id)
    else
      var ra := Execute(AdminQuery, if adminsOk then Returned(Llamadas(administradores, nombre)) else Threw);
      if Truthy(ra) && checkpw(contrasena, ra.rows[0].hash) then EntraAdministrador(ra.rows[0].id)
      else Rechazado
  }

  /** The login decision in terms of the tables: customers first, and the
      administrator path runs whenever the customer path did not admit,
      also when the username is a customer's and the password is wrong. */
  lemma CustomerFirstThenAdmin(clientes: seq<Cuenta>, administradores: seq<Cuenta>, nombre: string, contrasena: string,
                               checkpw: (string, string) -> bool, clientesOk: bool, adminsOk: bool)
    ensures var c := Llamadas(clientes, nombre);
            var a := Llamadas(administradores, nombre);
            DecidirAcceso(clientes, administradores, nombre, contrasena, checkpw, clientesOk, adminsOk)
            == if clientesOk && c != [] && checkpw(contrasena, c[0].hash) then EntraCliente(c[0].id)
               else if adminsOk && a != [] && checkpw(contrasena, a[0].hash) then EntraAdministrador(a[0].id)
               else Rechazado
  {
  }

  /** Whoever is admitted owns an account of that kind, under that
      username, whose hash `checkpw` accepts. */
  lemma AdmittedOnlyWithPassword(clientes: seq<Cuenta>, administradores: seq<Cuenta>, nombre: string, contrasena: string,
                                 checkpw: (string, string) -> bool, clientesOk: bool, adminsOk: bool)
    ensures var d := DecidirAcceso(clientes, administradores, nombre, contrasena, checkpw, clientesOk, adminsOk);
            && (d.EntraCliente? ==> exists c :: c in clientes && c.id == d.clienteId && c.usuario == nombre
                                                && checkpw(contrasena, c.hash))
            && (d.EntraAdministrador? ==> exists a :: a in administradores && a.id == d.administradorId
                                                     && a.usuario == nombre && checkpw(contrasena, a.hash))
  {
    CustomerFirstThenAdmin(clientes, administradores, nombre, contrasena, checkpw, clientesOk, adminsOk);
    var c := Llamadas(clientes, nombre);
    var a := Llamadas(administradores, nombre);
    if c != [] { assert c[0] in c; }
    if a != [] { assert a[0] in a; }
  }
}
