/** The request handlers of the shop: the decisions they take on what they
    read, and the class `Tienda` that holds the database tables and the
    `usuario_actual` slot and runs each handler as a method. */
module Backend {
  import opened Http
  import opened Filtering
  import opened Executor
  import opened Session
  import opened Store

  // ---------------------------------------------------------------
  // Purchase
  // ---------------------------------------------------------------

  datatype Revision = Procede(registro: Registro) | Rechaza(status: nat)

  /** The three checks of POST /comprar-producto, in the order the handler
      makes them, on the first product row with that name. */
  function RevisarCompra(productos: seq<Producto>, nombre: string, cantidad: int, u: Usuario, lecturaOk: bool): Revision {
    var producto := Execute(ProductoQuery, if lecturaOk then Returned(ConNombre(productos, nombre)) else Threw);
    if !Truthy(producto) then Rechaza(404)
    else if producto.rows[0].stock < cantidad then Rechaza(400)
    else if !TruthyId(u.clienteId) then Rechaza(401)
    else Procede(Registro(u.clienteId.value, producto.rows[0].id, cantidad))
  }

  /** The purchase checks in terms of the table: a missing product wins
      over everything, then short stock (equal stock is enough), then a
      missing customer id; the purchase goes ahead exactly when all three
      pass. */
  lemma PurchaseChecksInOrder(productos: seq<Producto>, nombre: string, cantidad: int, u: Usuario, lecturaOk: bool)
    ensures var found := ConNombre(productos, nombre);
            var d := RevisarCompra(productos, nombre, cantidad, u, lecturaOk);
            && (!lecturaOk || found == [] ==> d == Rechaza(404))
            && (lecturaOk && found != [] && found[0].stock < cantidad ==> d == Rechaza(400))
            && (lecturaOk && found != [] && found[0].stock >= cantidad && !TruthyId(u.clienteId) ==> d == Rechaza(401))
            && (d.Procede? <==> lecturaOk && found != [] && found[0].stock >= cantidad && TruthyId(u.clienteId))
  {
  }

  /** A purchase that goes ahead registers the logged-in customer, the
      quantity asked for, and the first stored product of that name, whose
      stock covers the quantity (names need not be unique; the handler takes
      the first row the SELECT returns). */
  lemma PurchaseRegistersWhatWasChecked(productos: seq<Producto>, nombre: string, cantidad: int, u: Usuario, lecturaOk: bool)
    ensures var d := RevisarCompra(productos, nombre, cantidad, u, lecturaOk);
            d.Procede? ==>
              && u.clienteId == Some(d.registro.cliente) && d.registro.cliente != 0
              && d.registro.cantidad == cantidad
              && exists i :: 0 <= i < |productos| && productos[i].nombre == nombre
                   && productos[i].id == d.registro.producto && productos[i].stock >= cantidad
                   && forall j :: 0 <= j < i ==> productos[j].nombre != nombre
  {
    var found := ConNombre(productos, nombre);
    if lecturaOk && found != [] {
      FilterFirst(productos, MismoNombre(nombre));
    }
  }

  /** The purchase reads the customer id without looking at the role: an
      administrator who logged in after a customer is checked, and buys,
      exactly as that customer would. */
  lemma AdminBuysOnCustomerAccount(productos: seq<Producto>, nombre: string, cantidad: int, u: Usuario,
                                   cliente: string, cid: int, admin: string, aid: int, lecturaOk: bool)
    ensures RevisarCompra(productos, nombre, cantidad, ComoAdministrador(ComoCliente(u, cliente, cid), admin, aid), lecturaOk)
            == RevisarCompra(productos, nombre, cantidad, ComoCliente(u, cliente, cid), lecturaOk)
  {
  }

  /** No check bounds the quantity from below: while no stock is negative,
      a zero or negative quantity is never refused for short stock, and it
      goes ahead whenever the product exists and a customer is logged in. */
  lemma NonPositiveQuantityPasses(productos: seq<Producto>, nombre: string, cantidad: int, u: Usuario, lecturaOk: bool)
    requires cantidad <= 0
    requires forall p :: p in productos ==> p.stock >= 0
    ensures RevisarCompra(productos, nombre, cantidad, u, lecturaOk) != Rechaza(400)
    ensures RevisarCompra(productos, nombre, cantidad, u, lecturaOk).Procede?
            <==> lecturaOk && ConNombre(productos, nombre) != [] && TruthyId(u.clienteId)
  {
    var found := ConNombre(productos, nombre);
    if found != [] {
      assert found[0] in found;
    }
  }

  // ---------------------------------------------------------------
  // Cancellation
  // ---------------------------------------------------------------

  /** A row of `SELECT PedidoID, ClienteID, ProductoID, Cantidad FROM Pedidos`. */
  datatype FilaPedido = FilaPedido(id: int, pedido: Pedido)

  /** The lookup by primary key: one row or none. */
  function FilasPedido(pedidos: map<int, Pedido>, id: int): seq<FilaPedido> {
    if id in pedidos then [FilaPedido(id, pedidos[id])] else []
  }

  datatype Permiso = Aprobado(pedido: Pedido) | Denegado(respuesta: Reply)

  /** The checks of DELETE /pedido/{id} before its transaction: the role
      check answers 403 itself, the ownership check sits inside the `try`
      and so surfaces as 500. */
  function RevisarCancelacion(u: Usuario, pedidos: map<int, Pedido>, id: int, lecturaOk: bool): Permiso {
    if u.tipo != Some(Cliente) then Denegado(Fail(403, Raised))
    else
      var resultado := Execute(PedidoQuery, if lecturaOk then Returned(FilasPedido(pedidos, id)) else Threw);
      if !Truthy(resultado) || Some(resultado.rows[0].pedido.cliente) != u.clienteId then
        Denegado(Fail(500, Wrapped(403)))
      else
        Aprobado(resultado.rows[0].pedido)
  }

  /** Only a customer may cancel, only an order that exists, and only their
      own; a refused owner check is reported as 500. */
  lemma OnlyOwnerMayCancel(u: Usuario, pedidos: map<int, Pedido>, id: int, lecturaOk: bool)
    ensures var d := RevisarCancelacion(u, pedidos, id, lecturaOk);
            && (d.Aprobado? <==> u.tipo == Some(Cliente) && lecturaOk && id in pedidos
                                  && u.clienteId == Some(pedidos[id].cliente))
            && (d.Aprobado? ==> d.pedido == pedidos[id])
            && (u.tipo != Some(Cliente) ==> d == Denegado(Fail(403, Raised)))
            && (u.tipo == Some(Cliente) && !d.Aprobado? ==> d == Denegado(Fail(500, Wrapped(403))))
  {
  }

  /** A step of the cancellation transaction that can fail. */
  datatype Paso = Archivo | BorradoVentas | Reposicion | BorradoPedido | Confirmacion

  datatype Falla = SinFalla | FallaEn(paso: Paso)

  // ---------------------------------------------------------------
  // The shop
  // ---------------------------------------------------------------

  function MismasCredenciales(username: string, password: string): UserRow -> bool {
    (row: UserRow) => row.username == username && row.password == password
  }

  class Tienda {
    var productos: seq<Producto>
    var pedidos: map<int, Pedido>
    var ventas: seq<Venta>
    var cancelados: seq<PedidoCancelado>
    var sesiones: seq<SesionCliente>
    var clientes: seq<Cuenta>
    var administradores: seq<Cuenta>
    var usuarios: seq<UserRow>
    var registros: seq<Registro>
    var usuarioActual: Usuario

    /** Product ids are unique, each customer has at most one session row,
        and the slot is coherent. */
    ghost predicate Valid()
      reads this
    {
      IdsUnicos(productos) && UnaPorCliente(sesiones) && Coherente(usuarioActual)
    }

    /** The four tables of the cancellation transaction. */
    function Contenido(): Tablas
      reads this
    {
      Tablas(productos, pedidos, ventas, cancelados)
    }

    constructor (productos: seq<Producto>, pedidos: map<int, Pedido>, ventas: seq<Venta>,
                 cancelados: seq<PedidoCancelado>, sesiones: seq<SesionCliente>,
                 clientes: seq<Cuenta>, administradores: seq<Cuenta>, usuarios: seq<UserRow>)
      requires IdsUnicos(productos) && UnaPorCliente(sesiones)
      ensures Valid()
      ensures Contenido() == Tablas(productos, pedidos, ventas, cancelados)
      ensures this.sesiones == sesiones && this.clientes == clientes
      ensures this.administradores == administradores && this.usuarios == usuarios
      ensures registros == [] && usuarioActual == Inicial
    {
      this.productos := productos;
      this.pedidos := pedidos;
      this.ventas := ventas;
      this.cancelados := cancelados;
      this.sesiones := sesiones;
      this.clientes := clientes;
      this.administradores := administradores;
      this.usuarios := usuarios;
      registros := [];
      usuarioActual := Inicial;
    }

    /** POST /login, the route registered first: the plain-text `Users`
        table is searched for the pair; no row, or a failed read, is 400. */
    method Login(username: string, password: string, lecturaOk: bool) returns (r: Reply)
      ensures r.Ok? <==> lecturaOk && Filter(usuarios, MismasCredenciales(username, password)) != []
      ensures r.Ok? ==> r.body.Usuarios? && r.body.rows == Filter(usuarios, MismasCredenciales(username, password))
      ensures r.Ok? ==> forall row :: row in r.body.rows ==>
                          row in usuarios && row.username == username && row.password == password
      ensures !r.Ok? ==> r == Fail(400, Raised)
    {
      var filas := Filter(usuarios, MismasCredenciales(username, password));
      var resultado := Execute(UsersQuery, if lecturaOk then Returned(filas) else Threw);
      if Truthy(resultado) {
        r := Ok(Usuarios(resultado.rows));
      } else {
        r := Fail(400, Raised);
      }
    }

    /** POST /login, the bcrypt route registered second. `checkpw` is
        bcrypt's password test, `ip` the client address, `ahora` what
        GETDATE() returns; the flags say whether each statement reached the
        database. */
    method IniciarSesion(nombre: string, contrasena: string, ip: string, ahora: int,
                         checkpw: (string, string) -> bool,
                         clientesOk: bool, sesionOk: bool, adminsOk: bool) returns (r: Reply)
      requires Valid()
      modifies this`usuarioActual, this`sesiones
      ensures Valid()
      ensures match DecidirAcceso(clientes, administradores, nombre, contrasena, checkpw, clientesOk, adminsOk)
              case EntraCliente(id) =>
                && r == Ok(Sesion(Cliente))
                && usuarioActual == ComoCliente(old(usuarioActual), nombre, id)
                && sesiones == if sesionOk then Upsert(old(sesiones), id, ahora, ip) else old(sesiones)
              case EntraAdministrador(id) =>
                && r == Ok(Sesion(Administrador))
                && usuarioActual == ComoAdministrador(old(usuarioActual), nombre, id)
                && sesiones == old(sesiones)
              case Rechazado =>
                r == Fail(500, Wrapped(401)) && usuarioActual == old(usuarioActual) && sesiones == old(sesiones)
    {
      CustomerFirstThenAdmin(clientes, administradores, nombre, contrasena, checkpw, clientesOk, adminsOk);
      var resultadoCliente := Execute(ClienteQuery, if clientesOk then Returned(Llamadas(clientes, nombre)) else Threw);
      if Truthy(resultadoCliente) {
        var fila := resultadoCliente.rows[0];
        if checkpw(contrasena, fila.hash) {
          usuarioActual := ComoCliente(usuarioActual, nombre, fila.id);
          // SesionUpsert commits iff the driver succeeds; the handler ignores the result
          if sesionOk {
            UpsertLeavesOneRow(sesiones, fila.id, ahora, ip);
            sesiones := Upsert(sesiones, fila.id, ahora, ip);
          }
          return Ok(Sesion(Cliente));
        }
      }
      var resultadoAdmin := Execute(AdminQuery, if adminsOk then Returned(Llamadas(administradores, nombre)) else Threw);
      if Truthy(resultadoAdmin) {
        var fila := resultadoAdmin.rows[0];
        if checkpw(contrasena, fila.hash) {
          usuarioActual := ComoAdministrador(usuarioActual, nombre, fila.id);
          return Ok(Sesion(Administrador));
        }
      }
      r := Fail(500, Wrapped(401));
    }

    /** POST /logout: closes the open session rows of the customer in the
        slot, if there is one, and clears the slot; the reply is 200 even
        when the update fails. */
    method CerrarSesion(ahora: int, cierreOk: bool) returns (r: Reply)
      requires Valid()
      modifies this`usuarioActual, this`sesiones
      ensures Valid()
      ensures r == Ok(Mensaje("Sesión cerrada exitosamente"))
      ensures usuarioActual == Limpio(old(usuarioActual))
      ensures sesiones == if old(usuarioActual).clienteId.Some? && cierreOk
                          then Cerrar(old(sesiones), old(usuarioActual).clienteId.value, ahora)
                          else old(sesiones)
    {
      var clienteId := usuarioActual.clienteId;
      if clienteId.Some? {
        // SesionClose commits iff the driver succeeds; the handler ignores the result
        if cierreOk {
          CerrarOnlyOpenRows(sesiones, clienteId.value, ahora);
          sesiones := Cerrar(sesiones, clienteId.value, ahora);
        }
      }
      usuarioActual := Limpio(usuarioActual);
      r := Ok(Mensaje("Sesión cerrada exitosamente"));
    }

    /** POST /comprar-producto: nothing is written unless every check
        passes; then one `RegistrarPedido` call is sent, and the reply is
        200 whether or not it succeeded. */
    method ComprarProducto(nombreProducto: string, cantidad: int, lecturaOk: bool, registroOk: bool) returns (r: Reply)
      modifies this`registros
      ensures match RevisarCompra(productos, nombreProducto, cantidad, usuarioActual, lecturaOk)
              case Procede(reg) =>
                && r == Ok(Mensaje("Compra realizada exitosamente"))
                && registros == old(registros) + if registroOk then [reg] else []
              case Rechaza(status) =>
                r == Fail(500, Wrapped(status)) && registros == old(registros)
    {
      var producto := Execute(ProductoQuery, if lecturaOk then Returned(ConNombre(productos, nombreProducto)) else Threw);
      if !Truthy(producto) {
        return Fail(500, Wrapped(404));
      }
      var fila := producto.rows[0];
      if fila.stock < cantidad {
        return Fail(500, Wrapped(400));
      }
      var clienteId := usuarioActual.clienteId;
      if !TruthyId(clienteId) {
        return Fail(500, Wrapped(401));
      }
      // RegistrarPedido commits iff the driver succeeds; the handler ignores the result
      if registroOk {
        registros := registros + [Registro(clienteId.value, fila.id, cantidad)];
      }
      r := Ok(Mensaje("Compra realizada exitosamente"));
    }

    /** `conn.rollback()`: the four tables return to their state at the
        start of the transaction. */
    method Revertir(antes: Tablas)
      modifies this`productos, this`pedidos, this`ventas, this`cancelados
      ensures Contenido() == antes
    {
      productos := antes.productos;
      pedidos := antes.pedidos;
      ventas := antes.ventas;
      cancelados := antes.cancelados;
    }

    /** The transaction of DELETE /pedido/{id}: four statements on one
        cursor, then commit; a failure at any step rolls back. It commits
        exactly when no step fails, and then the tables are the committed
        cancellation; otherwise they are exactly as before. */
    method CancelarTransaccion(id: int, o: Pedido, fecha: int, falla: Falla) returns (confirmado: bool)
      requires Valid()
      modifies this`productos, this`pedidos, this`ventas, this`cancelados
      ensures Valid()
      ensures confirmado <==> falla == SinFalla
      ensures Contenido() == if confirmado then Cancelado(old(Contenido()), id, o, fecha) else old(Contenido())
    {
      var antes := Contenido();
      // a statement runs only when every earlier one went through
      if falla != FallaEn(Archivo) {
        cancelados := cancelados + [Archivado(id, o, fecha)];
        if falla != FallaEn(BorradoVentas) {
          ventas := SinVentasDe(ventas, id);
          if falla != FallaEn(Reposicion) {
            SumarStockKeepsIds(productos, o.producto, o.cantidad);
            productos := SumarStock(productos, o.producto, o.cantidad);
            if falla != FallaEn(BorradoPedido) {
              pedidos := pedidos - {id};
            }
          }
        }
      }
      if falla != SinFalla {
        // the failing statement, or the commit itself, raised: roll back
        Revertir(antes);
        return false;
      }
      confirmado := true;
    }

    /** DELETE /pedido/{id} as it would run with `logging` imported: the
        role check, the owner check, then the transaction; a connection
        failure or a failed transaction is answered with 500. */
    method CancelarPedido(id: int, fecha: int, lecturaOk: bool, conexionOk: bool, falla: Falla) returns (r: Reply)
      requires Valid()
      modifies this`productos, this`pedidos, this`ventas, this`cancelados
      ensures Valid()
      ensures match RevisarCancelacion(usuarioActual, old(pedidos), id, lecturaOk)
              case Denegado(e) => r == e && Contenido() == old(Contenido())
              case Aprobado(o) =>
                if !conexionOk then
                  r == Fail(500, Caught) && Contenido() == old(Contenido())
                else if falla == SinFalla then
                  r == Ok(Mensaje("Pedido cancelado exitosamente")) && Contenido() == Cancelado(old(Contenido()), id, o, fecha)
                else
                  r == Fail(500, Wrapped(500)) && Contenido() == old(Contenido())
    {
      if usuarioActual.tipo != Some(Cliente) {
        return Fail(403, Raised);
      }
      var resultado := Execute(PedidoQuery, if lecturaOk then Returned(FilasPedido(pedidos, id)) else Threw);
      if !Truthy(resultado) || Some(resultado.rows[0].pedido.cliente) != usuarioActual.clienteId {
        return Fail(500, Wrapped(403));
      }
      var o := resultado.rows[0].pedido;
      if !conexionOk {
        return Fail(500, Caught);
      }
      var confirmado := CancelarTransaccion(id, o, fecha, falla);
      if confirmado {
        r := Ok(Mensaje("Pedido cancelado exitosamente"));
      } else {
        r := Fail(500, Wrapped(500));
      }
    }

    /** DELETE /pedido/{id} as written: its first statement calls
        `logging.info` and `logging` was never imported, so every request
        ends in an uncaught NameError before any check or write. */
    method CancelarPedidoAsWritten(id: int) returns (r: Reply)
      ensures r.Status() == 500 && r.cause == Crashed
    {
      r := Fail(500, Crashed);
    }

    /** DELETE /productos/{id}, the route registered first: 404 (surfacing
        as 500) when no product has the id, otherwise one delete, and 200
        whether or not the delete went through. */
    method EliminarProducto(id: int, lecturaOk: bool, borradoOk: bool) returns (r: Reply)
      requires Valid()
      modifies this`productos
      ensures Valid()
      ensures lecturaOk && ConId(old(productos), id) != [] ==>
                && r == Ok(Mensaje("Producto eliminado exitosamente"))
                && productos == if borradoOk then SinProducto(old(productos), id) else old(productos)
      ensures !(lecturaOk && ConId(old(productos), id) != []) ==>
                r == Fail(500, Wrapped(404)) && productos == old(productos)
    {
      var producto := Execute(ProductoIdQuery, if lecturaOk then Returned(ConId(productos, id)) else Threw);
      if !Truthy(producto) {
        return Fail(500, Wrapped(404));
      }
      // ProductoDelete commits iff the driver succeeds; the handler ignores the result
      if borradoOk {
        SinProductoKeepsIds(productos, id);
        productos := SinProducto(productos, id);
      }
      r := Ok(Mensaje("Producto eliminado exitosamente"));
    }

    /** DELETE /productos/{id}, the route registered second: null the
        product id in `Pedidos` and `PedidosCancelados`, then delete the
        product; three independent statements, each of which may fail on
        its own, and 200 in every case. */
    method EliminarProductoConReferencias(id: int, pedidosOk: bool, canceladosOk: bool, borradoOk: bool) returns (r: Reply)
      requires Valid()
      modifies this`pedidos, this`cancelados, this`productos
      ensures Valid()
      ensures r == Ok(Mensaje("Producto eliminado exitosamente"))
      ensures pedidos == if pedidosOk then AnularEnPedidos(old(pedidos), id) else old(pedidos)
      ensures cancelados == if canceladosOk then AnularEnCancelados(old(cancelados), id) else old(cancelados)
      ensures productos == if borradoOk then SinProducto(old(productos), id) else old(productos)
    {
      // PedidosNull commits iff the driver succeeds; the handler ignores the result
      if pedidosOk {
        pedidos := AnularEnPedidos(pedidos, id);
      }
      // CanceladosNull commits iff the driver succeeds; the handler ignores the result
      if canceladosOk {
        cancelados := AnularEnCancelados(cancelados, id);
      }
      // ProductoDelete commits iff the driver succeeds; the handler ignores the result
      if borradoOk {
        SinProductoKeepsIds(productos, id);
        productos := SinProducto(productos, id);
      }
      r := Ok(Mensaje("Producto eliminado exitosamente"));
    }
  }
}
