/** How a request reaches a handler: the authentication middleware in
    front of the router, and the router's search of the route table in
    registration order (first route whose path and method both match). */
module Routing {
  import opened Http
  import Session

  datatype Verb = Get | Head | Post | Put | Delete | Patch | Options

  /** A request path as its segments between slashes: "/" is [""],
      "/productos/7" is ["productos", "7"], "/imgs/" is ["imgs", ""]. */
  type Path = seq<string>

  /** The path of a route: a fixed path; one fixed segment followed by one
      path parameter (which matches one non-empty segment); or a mount
      under one fixed segment, which matches anything after its slash. */
  datatype Pattern = Exact(segments: Path) | Param(base: string) | Under(base: string)

  predicate PatternMatches(p: Pattern, path: Path) {
    match p
    case Exact(segments) => path == segments
    case Param(base) => |path| == 2 && path[0] == base && path[1] != ""
    case Under(base) => |path| >= 2 && path[0] == base
  }

  /** The handlers of the application, named after their Python functions. */
  datatype Handler =
    | ReadRoot | Login | UserRole | UserPageRoute | AdminPageRoute | RegistrarCliente
    | IniciarSesion | CerrarSesion | SesionesClientes | Imagenes | CrearProducto
    | ObtenerProductos | ActualizarProducto | EliminarProducto | ComprarProducto
    | CancelarPedido | MisPedidos | ListarPedidos | EliminarProductoConReferencias
    | GananciaTotal | ProductosMasSolicitados | VerificarStock | ListarVentas
    | DatosPanel | DatosGraficas

  datatype Route = Route(verbs: set<Verb>, pattern: Pattern, handler: Handler)

  /** A route declared with `@app.get` answers GET only: FastAPI's routes
      keep exactly the methods they are given. */
  const GetVerbs := {Get}

  /** A mount answers every method. */
  const AllVerbs := {Get, Head, Post, Put, Delete, Patch, Options}

  /** The routes in the order main.py registers them. */
  const Tabla := [
    Route(GetVerbs, Exact([""]), ReadRoot),                                  // main.py:78
    Route({Post}, Exact(["login"]), Login),                                  // main.py:82
    Route(GetVerbs, Exact(["user-role"]), UserRole),                         // main.py:192
    Route(GetVerbs, Exact(["user-page"]), UserPageRoute),                    // main.py:199
    Route(GetVerbs, Exact(["admin-page"]), AdminPageRoute),                  // main.py:206
    Route({Post}, Exact(["cliente", "registrar"]), RegistrarCliente),        // main.py:212
    Route({Post}, Exact(["login"]), IniciarSesion),                          // main.py:228
    Route({Post}, Exact(["logout"]), CerrarSesion),                          // main.py:279
    Route(GetVerbs, Exact(["sesiones-clientes"]), SesionesClientes),         // main.py:303
    Route(AllVerbs, Under("imgs"), Imagenes),                                // main.py:329
    Route({Post}, Exact(["productos"]), CrearProducto),                      // main.py:331
    Route(GetVerbs, Exact(["productos"]), ObtenerProductos),                 // main.py:367
    Route({Put}, Param("productos"), ActualizarProducto),                    // main.py:383
    Route({Delete}, Param("productos"), EliminarProducto),                   // main.py:405
    Route({Post}, Exact(["comprar-producto"]), ComprarProducto),             // main.py:424
    Route({Delete}, Param("pedido"), CancelarPedido),                        // main.py:463
    Route(GetVerbs, Exact(["mis-pedidos"]), MisPedidos),                     // main.py:538
    Route(GetVerbs, Exact(["pedidos"]), ListarPedidos),                      // main.py:567
    Route({Delete}, Param("productos"), EliminarProductoConReferencias),     // main.py:593
    Route(GetVerbs, Exact(["ganancia-total"]), GananciaTotal),               // main.py:615
    Route(GetVerbs, Exact(["productos-mas-solicitados"]), ProductosMasSolicitados), // main.py:628
    Route(GetVerbs, Exact(["verificar-stock"]), VerificarStock),             // main.py:649
    Route(GetVerbs, Exact(["ventas"]), ListarVentas),                        // main.py:670
    Route(GetVerbs, Exact(["datos-panel"]), DatosPanel),                     // main.py:715
    Route(GetVerbs, Exact(["datos-graficas"]), DatosGraficas)                // main.py:732
  ]

  /** The routes as evidently intended: the plain-text login and the delete
      that leaves references behind, each registered first under a path and
      method that a later route registers again, are gone. */
  const TablaCorregida := [
    Route(GetVerbs, Exact([""]), ReadRoot),                                  // main.py:78
    Route(GetVerbs, Exact(["user-role"]), UserRole),                         // main.py:192
    Route(GetVerbs, Exact(["user-page"]), UserPageRoute),                    // main.py:199
    Route(GetVerbs, Exact(["admin-page"]), AdminPageRoute),                  // main.py:206
    Route({Post}, Exact(["cliente", "registrar"]), RegistrarCliente),        // main.py:212
    Route({Post}, Exact(["login"]), IniciarSesion),                          // main.py:228
    Route({Post}, Exact(["logout"]), CerrarSesion),                          // main.py:279
    Route(GetVerbs, Exact(["sesiones-clientes"]), SesionesClientes),         // main.py:303
    Route(AllVerbs, Under("imgs"), Imagenes),                                // main.py:329
    Route({Post}, Exact(["productos"]), CrearProducto),                      // main.py:331
    Route(GetVerbs, Exact(["productos"]), ObtenerProductos),                 // main.py:367
    Route({Put}, Param("productos"), ActualizarProducto),                    // main.py:383
    Route({Post}, Exact(["comprar-producto"]), ComprarProducto),             // main.py:424
    Route({Delete}, Param("pedido"), CancelarPedido),                        // main.py:463
    Route(GetVerbs, Exact(["mis-pedidos"]), MisPedidos),                     // main.py:538
    Route(GetVerbs, Exact(["pedidos"]), ListarPedidos),                      // main.py:567
    Route({Delete}, Param("productos"), EliminarProductoConReferencias),     // main.py:593
    Route(GetVerbs, Exact(["ganancia-total"]), GananciaTotal),               // main.py:615
    Route(GetVerbs, Exact(["productos-mas-solicitados"]), ProductosMasSolicitados), // main.py:628
    Route(GetVerbs, Exact(["verificar-stock"]), VerificarStock),             // main.py:649
    Route(GetVerbs, Exact(["ventas"]), ListarVentas),                        // main.py:670
    Route(GetVerbs, Exact(["datos-panel"]), DatosPanel),                     // main.py:715
    Route(GetVerbs, Exact(["datos-graficas"]), DatosGraficas)                // main.py:732
  ]

  // ---------------------------------------------------------------
  // The router
  // ---------------------------------------------------------------

  datatype MatchKind = Full | Partial | NoMatch

  /** Starlette's per-route test: the path decides whether the route
      matches at all, the method whether fully or only partially. */
  function Match(r: Route, verb: Verb, path: Path): MatchKind {
    if !PatternMatches(r.pattern, path) then NoMatch
    else if verb in r.verbs then Full
    else Partial
  }

  datatype Resolution = Handled(handler: Handler) | MethodNotAllowed | NotFound

  /** The router's loop from route `k` on: the first full match is handled;
      without one, a partial match anywhere (`partial` records one before
      `k`) gives 405 and no match at all gives 404. */
  function Search(routes: seq<Route>, k: nat, verb: Verb, path: Path, partial: bool): Resolution
    requires k <= |routes|
    decreases |routes| - k
  {
    if k == |routes| then (if partial then MethodNotAllowed else NotFound)
    else match Match(routes[k], verb, path)
      case Full => Handled(routes[k].handler)
      case Partial => Search(routes, k + 1, verb, path, true)
      case NoMatch => Search(routes, k + 1, verb, path, partial)
  }

  function Resolve(routes: seq<Route>, verb: Verb, path: Path): Resolution {
    Search(routes, 0, verb, path, false)
  }

  predicate FullAt(routes: seq<Route>, i: int, verb: Verb, path: Path) {
    0 <= i < |routes| && Match(routes[i], verb, path) == Full
  }

  /** Route `i` is the first route from `k` on that fully matches. */
  predicate FirstFullFrom(routes: seq<Route>, k: nat, i: int, verb: Verb, path: Path) {
    k <= i && FullAt(routes, i, verb, path) && forall j :: k <= j < i ==> !FullAt(routes, j, verb, path)
  }

  predicate PartialFrom(routes: seq<Route>, k: nat, verb: Verb, path: Path) {
    exists i :: k <= i < |routes| && Match(routes[i], verb, path) == Partial
  }

  /** The first fully matching route is the one handled. */
  lemma {:induction false} FirstFullHandled(routes: seq<Route>, k: nat, i: int, verb: Verb, path: Path, partial: bool)
    requires k <= |routes| && FirstFullFrom(routes, k, i, verb, path)
    ensures Search(routes, k, verb, path, partial) == Handled(routes[i].handler)
    decreases |routes| - k
  {
    if k < i {
      assert !FullAt(routes, k, verb, path);
      FirstFullHandled(routes, k + 1, i, verb, path, partial || Match(routes[k], verb, path) == Partial);
    }
  }

  /** A handled request went to the first fully matching route. */
  lemma {:induction false} HandledIsFirstFull(routes: seq<Route>, k: nat, verb: Verb, path: Path, partial: bool)
    requires k <= |routes| && Search(routes, k, verb, path, partial).Handled?
    ensures exists i :: FirstFullFrom(routes, k, i, verb, path)
                        && Search(routes, k, verb, path, partial).handler == routes[i].handler
    decreases |routes| - k
  {
    if Match(routes[k], verb, path) == Full {
      assert FirstFullFrom(routes, k, k, verb, path);
    } else {
      var next := partial || Match(routes[k], verb, path) == Partial;
      HandledIsFirstFull(routes, k + 1, verb, path, next);
      var i :| FirstFullFrom(routes, k + 1, i, verb, path)
               && Search(routes, k + 1, verb, path, next).handler == routes[i].handler;
      assert FirstFullFrom(routes, k, i, verb, path);
    }
  }

  /** Without a full match the answer is 405 when some route matched the
      path only, and 404 otherwise. */
  lemma {:induction false} NoFullMatch(routes: seq<Route>, k: nat, verb: Verb, path: Path, partial: bool)
    requires k <= |routes|
    requires forall i :: k <= i < |routes| ==> !FullAt(routes, i, verb, path)
    ensures Search(routes, k, verb, path, partial)
            == if partial || PartialFrom(routes, k, verb, path) then MethodNotAllowed else NotFound
    decreases |routes| - k
  {
    if k < |routes| {
      assert !FullAt(routes, k, verb, path);
      var next := partial || Match(routes[k], verb, path) == Partial;
      NoFullMatch(routes, k + 1, verb, path, next);
      if PartialFrom(routes, k, verb, path) && Match(routes[k], verb, path) != Partial {
        var i :| k <= i < |routes| && Match(routes[i], verb, path) == Partial;
        assert PartialFrom(routes, k + 1, verb, path);
      }
    }
  }

  /** Only route `j` carries its handler. */
  predicate OnlyAt(routes: seq<Route>, j: int) {
    0 <= j < |routes| && forall k :: 0 <= k < |routes| && routes[k].handler == routes[j].handler ==> k == j
  }

  /** A route registered after another with the same path and no method
      the earlier one lacks is never reached. */
  lemma Shadowed(routes: seq<Route>, i: int, j: int, verb: Verb, path: Path)
    requires 0 <= i < j && OnlyAt(routes, j)
    requires routes[i].pattern == routes[j].pattern && routes[j].verbs <= routes[i].verbs
    ensures Resolve(routes, verb, path) != Handled(routes[j].handler)
  {
    var r := Resolve(routes, verb, path);
    if r.Handled? {
      HandledIsFirstFull(routes, 0, verb, path, false);
      var k :| FirstFullFrom(routes, 0, k, verb, path) && r.handler == routes[k].handler;
      if FullAt(routes, j, verb, path) {
        assert FullAt(routes, i, verb, path);
      }
      assert k != j;
    }
  }

  /** The bcrypt login registered at main.py:228 is never reached: POST
      /login is answered by the plain-text login registered first. */
  lemma BcryptLoginUnreachable(verb: Verb, path: Path)
    ensures Resolve(Tabla, verb, path) != Handled(IniciarSesion)
    ensures Resolve(Tabla, Post, ["login"]) == Handled(Login)
  {
    assert OnlyAt(Tabla, 6);
    Shadowed(Tabla, 1, 6, verb, path);
    assert FirstFullFrom(Tabla, 0, 1, Post, ["login"]);
    FirstFullHandled(Tabla, 0, 1, Post, ["login"], false);
  }

  /** The reference-nulling delete registered at main.py:593 is never
      reached. */
  lemma ReferenceNullingDeleteUnreachable(verb: Verb, path: Path)
    ensures Resolve(Tabla, verb, path) != Handled(EliminarProductoConReferencias)
  {
    assert OnlyAt(Tabla, 18);
    Shadowed(Tabla, 13, 18, verb, path);
  }

  /** DELETE /productos/{id} is answered by the plain delete of main.py:405,
      whatever the (non-empty) id segment. */
  lemma DeleteReachesPlainDelete(id: string)
    requires id != ""
    ensures Resolve(Tabla, Delete, ["productos", id]) == Handled(EliminarProducto)
  {
    assert FirstFullFrom(Tabla, 0, 13, Delete, ["productos", id]);
    FirstFullHandled(Tabla, 0, 13, Delete, ["productos", id], false);
  }

  /** With the earlier duplicates removed, POST /login reaches the bcrypt
      login. */
  lemma IntendedLoginRoute()
    ensures Resolve(TablaCorregida, Post, ["login"]) == Handled(IniciarSesion)
  {
    assert FirstFullFrom(TablaCorregida, 0, 5, Post, ["login"]);
    FirstFullHandled(TablaCorregida, 0, 5, Post, ["login"], false);
  }

  /** With the earlier duplicates removed, DELETE /productos/{id} reaches
      the delete that nulls references first. */
  lemma IntendedDeleteRoute(id: string)
    requires id != ""
    ensures Resolve(TablaCorregida, Delete, ["productos", id]) == Handled(EliminarProductoConReferencias)
  {
    assert FirstFullFrom(TablaCorregida, 0, 16, Delete, ["productos", id]);
    FirstFullHandled(TablaCorregida, 0, 16, Delete, ["productos", id], false);
  }

  /** The router answers 405 for a known path with an unregistered method,
      and 404 for an unknown path. */
  lemma WrongMethodOrPath()
    ensures Resolve(Tabla, Get, ["login"]) == MethodNotAllowed
    ensures Resolve(Tabla, Get, ["CargaLogin.html"]) == NotFound
  {
    assert Match(Tabla[1], Get, ["login"]) == Partial;
    NoFullMatch(Tabla, 0, Get, ["login"], false);
    assert !PartialFrom(Tabla, 0, Get, ["CargaLogin.html"]);
    NoFullMatch(Tabla, 0, Get, ["CargaLogin.html"], false);
  }

  // ---------------------------------------------------------------
  // The authentication middleware
  // ---------------------------------------------------------------

  /** The paths AuthMiddleware lets through without a username. */
  const Permitidas: seq<Path> := [["login"], ["cliente", "registrar"], ["CargaLogin.html"], ["productos"]]

  datatype Outcome = Redirected(location: string) | Routed(resolution: Resolution)

  /** AuthMiddleware.dispatch in front of the router. */
  function Dispatch(routes: seq<Route>, verb: Verb, path: Path, u: Session.Usuario): (o: Outcome)
    ensures o.Routed? <==> path in Permitidas || TruthyText(u.nombre)
    ensures !o.Routed? ==> o == Redirected("/CargaLogin.html")
    ensures o.Routed? ==> o.resolution == Resolve(routes, verb, path)
  {
    if path !in Permitidas && !TruthyText(u.nombre) then Redirected("/CargaLogin.html")
    else Routed(Resolve(routes, verb, path))
  }

  /** The allow-list looks at the path only: with no one logged in, POST
      /productos still creates a product, product images are redirected
      although the product list that links them is public, and the login
      page the middleware redirects to is served by no route. */
  lemma GuardLooksAtPathOnly()
    ensures Dispatch(Tabla, Post, ["productos"], Session.Inicial) == Routed(Handled(CrearProducto))
    ensures Dispatch(Tabla, Get, ["imgs", "a.png"], Session.Inicial) == Redirected("/CargaLogin.html")
    ensures Dispatch(Tabla, Get, ["CargaLogin.html"], Session.Inicial) == Routed(NotFound)
    ensures Dispatch(Tabla, Delete, ["productos", "7"], Session.Inicial) == Redirected("/CargaLogin.html")
  {
    assert ["imgs", "a.png"] !in Permitidas;
    assert ["productos", "7"] !in Permitidas;
    assert FirstFullFrom(Tabla, 0, 10, Post, ["productos"]);
    FirstFullHandled(Tabla, 0, 10, Post, ["productos"], false);
    WrongMethodOrPath();
  }

  /** A customer slot with an empty username passes the role check of
      /user-page, but the middleware tests the same falsy username first,
      so both role pages answer with the redirect, whichever table serves
      them. */
  lemma EmptyUsernameRedirected(u: Session.Usuario, id: int)
    ensures Dispatch(Tabla, Get, ["user-page"], Session.ComoCliente(u, "", id)) == Redirected("/CargaLogin.html")
    ensures Dispatch(Tabla, Get, ["user-role"], Session.ComoCliente(u, "", id)) == Redirected("/CargaLogin.html")
    ensures Dispatch(TablaCorregida, Get, ["user-page"], Session.ComoCliente(u, "", id)) == Redirected("/CargaLogin.html")
    ensures Dispatch(TablaCorregida, Get, ["user-role"], Session.ComoCliente(u, "", id)) == Redirected("/CargaLogin.html")
  {
    assert ["user-page"] !in Permitidas;
    assert ["user-role"] !in Permitidas;
  }

  // ---------------------------------------------------------------
  // Sequences of requests
  // ---------------------------------------------------------------

  /** A request, with what the bcrypt login would decide for it if it ran
      (the decision depends on the database and is left open here). */
  datatype Request = Request(verb: Verb, path: Path, nombre: string, acceso: Session.Acceso)

  /** The slot after one request: only the bcrypt login and logout write it. */
  function Step(routes: seq<Route>, u: Session.Usuario, req: Request): Session.Usuario {
    match Dispatch(routes, req.verb, req.path, u)
    case Routed(Handled(IniciarSesion)) =>
      (match req.acceso
       case EntraCliente(id) => Session.ComoCliente(u, req.nombre, id)
       case EntraAdministrador(id) => Session.ComoAdministrador(u, req.nombre, id)
       case Rechazado => u)
    case Routed(Handled(CerrarSesion)) => Session.Limpio(u)
    case _ => u
  }

  function Run(routes: seq<Route>, u: Session.Usuario, reqs: seq<Request>): Session.Usuario
    decreases |reqs|
  {
    if reqs == [] then u else Run(routes, Step(routes, u, reqs[0]), reqs[1..])
  }

  /** As registered, no sequence of requests ever logs anyone in: the slot
      stays as the process started it, so every path outside the
      allow-list is redirected forever. */
  lemma {:induction false} NobodyEverLogsIn(reqs: seq<Request>)
    ensures Run(Tabla, Session.Inicial, reqs) == Session.Inicial
    decreases |reqs|
  {
    if reqs != [] {
      var req := reqs[0];
      BcryptLoginUnreachable(req.verb, req.path);
      assert Step(Tabla, Session.Inicial, req) == Session.Inicial;
      NobodyEverLogsIn(reqs[1..]);
    }
  }

  /** With the duplicates removed, one accepted login opens the customer
      pages. */
  lemma LoginWorksWhenFixed(nombre: string, id: int)
    requires nombre != ""
    ensures var u := Run(TablaCorregida, Session.Inicial, [Request(Post, ["login"], nombre, Session.EntraCliente(id))]);
            && u == Session.ComoCliente(Session.Inicial, nombre, id)
            && Dispatch(TablaCorregida, Get, ["user-page"], u) == Routed(Handled(UserPageRoute))
            && Session.UserPage(u).Ok?
  {
    IntendedLoginRoute();
    assert FirstFullFrom(TablaCorregida, 0, 2, Get, ["user-page"]);
    FirstFullHandled(TablaCorregida, 0, 2, Get, ["user-page"], false);
    var reqs := [Request(Post, ["login"], nombre, Session.EntraCliente(id))];
    assert reqs[1..] == [];
  }
}
