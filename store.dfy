/** The tables the order handlers read and write, the statements those
    handlers send, and what each statement does to the tables. */
module Store {
  import opened Http
  import opened Filtering

  /** A row of `Productos` (the price is not modelled). */
  datatype Producto = Producto(id: int, nombre: string, stock: int, imagen: Option<string>)

  /** A row of `Pedidos`, keyed by `PedidoID`; `ProductoID` is nullable. */
  datatype Pedido = Pedido(cliente: int, producto: Option<int>, cantidad: int)

  /** A row of `Ventas`: the sale recorded for an order. */
  datatype Venta = Venta(pedido: int, cliente: int, producto: string, cantidad: int)

  /** A row of `PedidosCancelados`; `fecha` is what GETDATE() returned. */
  datatype PedidoCancelado = PedidoCancelado(pedido: int, cliente: int, producto: Option<int>, cantidad: int, fecha: int)

  /** One execution of the stored procedure `RegistrarPedido`, whose body
      is not part of this model: the call is recorded, its effect is not. */
  datatype Registro = Registro(cliente: int, producto: int, cantidad: int)

  /** The four tables the cancellation transaction touches. */
  datatype Tablas = Tablas(
    productos: seq<Producto>,
    pedidos: map<int, Pedido>,
    ventas: seq<Venta>,
    cancelados: seq<PedidoCancelado>)

  /** `ProductoID` is the primary key of `Productos`. */
  predicate IdsUnicos(ps: seq<Producto>) {
    forall i, j :: 0 <= i < j < |ps| ==> ps[i].id != ps[j].id
  }

  // ---------------------------------------------------------------
  // Reads
  // ---------------------------------------------------------------

  function MismoNombre(nombre: string): Producto -> bool {
    (p: Producto) => p.nombre == nombre
  }

  function MismoId(id: int): Producto -> bool {
    (p: Producto) => p.id == id
  }

  function OtroId(id: int): Producto -> bool {
    (p: Producto) => p.id != id
  }

  /** `SELECT ... FROM Productos WHERE Nombre = %s`. */
  function ConNombre(ps: seq<Producto>, nombre: string): seq<Producto> {
    Filter(ps, MismoNombre(nombre))
  }

  /** `SELECT ProductoID FROM Productos WHERE ProductoID = %s`. */
  function ConId(ps: seq<Producto>, id: int): seq<Producto> {
    Filter(ps, MismoId(id))
  }

  /** The stock of the product with that id, if there is one. */
  function StockDe(ps: seq<Producto>, id: int): Option<int> {
    if ps == [] then None
    else if ps[0].id == id then Some(ps[0].stock)
    else StockDe(ps[1..], id)
  }

  /** The sum of the stock column. */
  function StockTotal(ps: seq<Producto>): int {
    if ps == [] then 0 else ps[0].stock + StockTotal(ps[1..])
  }

  // ---------------------------------------------------------------
  // Ventas
  // ---------------------------------------------------------------

  function DelPedido(pedido: int): Venta -> bool {
    (v: Venta) => v.pedido == pedido
  }

  function DeOtroPedido(pedido: int): Venta -> bool {
    (v: Venta) => v.pedido != pedido
  }

  /** The sales rows of one order. */
  function VentasDe(vs: seq<Venta>, pedido: int): seq<Venta> {
    Filter(vs, DelPedido(pedido))
  }

  /** `DELETE FROM Ventas WHERE PedidoID = %s`. */
  function SinVentasDe(vs: seq<Venta>, pedido: int): seq<Venta> {
    Filter(vs, DeOtroPedido(pedido))
  }

  /** Deleting an order's sales removes exactly that order's rows: what is
      left together with what was removed is the old table, and no row of
      the order is left. */
  lemma SalesRemovedExactly(vs: seq<Venta>, pedido: int)
    ensures multiset(SinVentasDe(vs, pedido)) + multiset(VentasDe(vs, pedido)) == multiset(vs)
    ensures forall v :: v in SinVentasDe(vs, pedido) <==> v in vs && v.pedido != pedido
    ensures forall v :: v in VentasDe(vs, pedido) ==> v.pedido == pedido
  {
    FilterPartition(vs, DeOtroPedido(pedido), DelPedido(pedido));
  }

  // ---------------------------------------------------------------
  // Stock
  // ---------------------------------------------------------------

  /** `UPDATE Productos SET Stock = Stock + %s WHERE ProductoID = %s`; a
      NULL product id matches no row. */
  function SumarStock(ps: seq<Producto>, producto: Option<int>, cantidad: int): (r: seq<Producto>)
    ensures |r| == |ps|
    ensures forall i :: 0 <= i < |ps| ==> r[i].(stock := ps[i].stock) == ps[i]
  {
    if ps == [] then []
    else
      var p := ps[0];
      [if producto == Some(p.id) then p.(stock := p.stock + cantidad) else p]
        + SumarStock(ps[1..], producto, cantidad)
  }

  /** The restore changes the stock of the named product by `cantidad`,
      leaves every other product's stock as it was, and does nothing when
      the product id is NULL. */
  lemma {:induction false} StockRestoredExactly(ps: seq<Producto>, producto: Option<int>, cantidad: int, id: int)
    ensures producto == None ==> SumarStock(ps, producto, cantidad) == ps
    ensures producto == Some(id) && StockDe(ps, id).Some? ==>
              StockDe(SumarStock(ps, producto, cantidad), id) == Some(StockDe(ps, id).value + cantidad)
    ensures StockDe(ps, id) == None ==> StockDe(SumarStock(ps, producto, cantidad), id) == None
    ensures producto != Some(id) ==> StockDe(SumarStock(ps, producto, cantidad), id) == StockDe(ps, id)
  {
    if ps != [] {
      StockRestoredExactly(ps[1..], producto, cantidad, id);
    }
  }

  /** A product id that names no row leaves the table unchanged. */
  lemma {:induction false} SumarStockAbsent(ps: seq<Producto>, id: int, cantidad: int)
    requires StockDe(ps, id) == None
    ensures SumarStock(ps, Some(id), cantidad) == ps
  {
    if ps != [] {
      SumarStockAbsent(ps[1..], id, cantidad);
    }
  }

  /** With unique ids, the total stock rises by `cantidad` exactly when the
      product exists. */
  lemma {:induction false} StockTotalRestored(ps: seq<Producto>, id: int, cantidad: int)
    requires IdsUnicos(ps)
    ensures StockTotal(SumarStock(ps, Some(id), cantidad))
            == StockTotal(ps) + if StockDe(ps, id).Some? then cantidad else 0
  {
    if ps != [] {
      assert IdsUnicos(ps[1..]) by {
        forall i, j | 0 <= i < j < |ps[1..]| ensures ps[1..][i].id != ps[1..][j].id {
          assert ps[1..][i] == ps[i + 1] && ps[1..][j] == ps[j + 1];
        }
      }
      if ps[0].id == id {
        NoLaterDuplicate(ps, id);
        SumarStockAbsent(ps[1..], id, cantidad);
      } else {
        StockTotalRestored(ps[1..], id, cantidad);
      }
    }
  }

  /** Under unique ids, the id of the first row appears in no later row. */
  lemma {:induction false} NoLaterDuplicate(ps: seq<Producto>, id: int)
    requires IdsUnicos(ps) && ps != [] && ps[0].id == id
    ensures StockDe(ps[1..], id) == None
  {
    NotInSuffix(ps, 1, id);
  }

  lemma {:induction false} NotInSuffix(ps: seq<Producto>, k: nat, id: int)
    requires IdsUnicos(ps) && 0 < k <= |ps| && ps[0].id == id
    ensures StockDe(ps[k..], id) == None
    decreases |ps| - k
  {
    if k < |ps| {
      NotInSuffix(ps, k + 1, id);
      assert ps[k..][1..] == ps[k + 1..];
      assert ps[k..][0] == ps[k];
    }
  }

  /** The restore keeps the ids, so it keeps them unique. */
  lemma SumarStockKeepsIds(ps: seq<Producto>, producto: Option<int>, cantidad: int)
    requires IdsUnicos(ps)
    ensures IdsUnicos(SumarStock(ps, producto, cantidad))
  {
    var r := SumarStock(ps, producto, cantidad);
    forall i, j | 0 <= i < j < |r| ensures r[i].id != r[j].id {
      assert r[i].(stock := ps[i].stock) == ps[i];
      assert r[j].(stock := ps[j].stock) == ps[j];
    }
  }

  // ---------------------------------------------------------------
  // The cancellation transaction's four statements
  // ---------------------------------------------------------------

  /** The row the cancellation archives. */
  function Archivado(id: int, o: Pedido, fecha: int): PedidoCancelado {
    PedidoCancelado(id, o.cliente, o.producto, o.cantidad, fecha)
  }

  /** `INSERT INTO PedidosCancelados ...`. */
  function Archivar(t: Tablas, id: int, o: Pedido, fecha: int): Tablas {
    t.(cancelados := t.cancelados + [Archivado(id, o, fecha)])
  }

  /** `DELETE FROM Ventas WHERE PedidoID = %s`. */
  function BorrarVentas(t: Tablas, id: int): Tablas {
    t.(ventas := SinVentasDe(t.ventas, id))
  }

  /** `UPDATE Productos SET Stock = Stock + %s WHERE ProductoID = %s`. */
  function ReponerStock(t: Tablas, o: Pedido): Tablas {
    t.(productos := SumarStock(t.productos, o.producto, o.cantidad))
  }

  /** `DELETE FROM Pedidos WHERE PedidoID = %s`. */
  function BorrarPedido(t: Tablas, id: int): Tablas {
    t.(pedidos := t.pedidos - {id})
  }

  /** The tables after a committed cancellation of order `id`, whose row
      read before the transaction was `o`. */
  function Cancelado(t: Tablas, id: int, o: Pedido, fecha: int): Tablas {
    BorrarPedido(ReponerStock(BorrarVentas(Archivar(t, id, o, fecha), id), o), id)
  }

  /** A committed cancellation appends exactly one archive row, carrying
      the order's id, customer, product and quantity and the time of the
      cancellation. */
  lemma CancelArchivesOnce(t: Tablas, id: int, o: Pedido, fecha: int)
    ensures |Cancelado(t, id, o, fecha).cancelados| == |t.cancelados| + 1
    ensures Cancelado(t, id, o, fecha).cancelados[..|t.cancelados|] == t.cancelados
    ensures var a := Cancelado(t, id, o, fecha).cancelados[|t.cancelados|];
            a.pedido == id && a.cliente == o.cliente && a.producto == o.producto && a.cantidad == o.cantidad && a.fecha == fecha
  {
  }

  /** A committed cancellation removes the order's row and no other. */
  lemma CancelRemovesOrder(t: Tablas, id: int, o: Pedido, fecha: int)
    requires id in t.pedidos
    ensures Cancelado(t, id, o, fecha).pedidos.Keys == t.pedidos.Keys - {id}
    ensures |Cancelado(t, id, o, fecha).pedidos| == |t.pedidos| - 1
    ensures forall k :: k in Cancelado(t, id, o, fecha).pedidos ==>
              Cancelado(t, id, o, fecha).pedidos[k] == t.pedidos[k]
  {
    assert (t.pedidos - {id}).Keys == t.pedidos.Keys - {id};
    assert |t.pedidos.Keys - {id}| == |t.pedidos.Keys| - 1;
  }

  /** A committed cancellation removes every sale of the order and no
      other sale. */
  lemma CancelRemovesSales(t: Tablas, id: int, o: Pedido, fecha: int)
    ensures multiset(Cancelado(t, id, o, fecha).ventas) + multiset(VentasDe(t.ventas, id)) == multiset(t.ventas)
    ensures forall v :: v in Cancelado(t, id, o, fecha).ventas <==> v in t.ventas && v.pedido != id
  {
    SalesRemovedExactly(t.ventas, id);
  }

  /** A committed cancellation gives the ordered quantity back to the
      ordered product, touches no other product's stock, and changes no
      stock when the order's product id is NULL. */
  lemma CancelRestoresStock(t: Tablas, id: int, o: Pedido, fecha: int, p: int)
    ensures o.producto == None ==> Cancelado(t, id, o, fecha).productos == t.productos
    ensures o.producto == Some(p) && StockDe(t.productos, p).Some? ==>
              StockDe(Cancelado(t, id, o, fecha).productos, p) == Some(StockDe(t.productos, p).value + o.cantidad)
    ensures o.producto != Some(p) ==> StockDe(Cancelado(t, id, o, fecha).productos, p) == StockDe(t.productos, p)
  {
    StockRestoredExactly(t.productos, o.producto, o.cantidad, p);
  }

  // ---------------------------------------------------------------
  // Deleting a product
  // ---------------------------------------------------------------

  /** `DELETE FROM Productos WHERE ProductoID = %s`. */
  function SinProducto(ps: seq<Producto>, id: int): seq<Producto> {
    Filter(ps, OtroId(id))
  }

  /** The delete removes the product with that id and keeps every other
      product. */
  lemma ProductRemovedExactly(ps: seq<Producto>, id: int)
    ensures forall p :: p in SinProducto(ps, id) <==> p in ps && p.id != id
    ensures StockDe(SinProducto(ps, id), id) == None
  {
    StockOfAbsent(SinProducto(ps, id), id);
  }

  /** No row with that id means no stock for it. */
  lemma {:induction false} StockOfAbsent(ps: seq<Producto>, id: int)
    requires forall p :: p in ps ==> p.id != id
    ensures StockDe(ps, id) == None
  {
    if ps != [] {
      assert ps[0] in ps;
      assert forall p :: p in ps[1..] ==> p in ps;
      StockOfAbsent(ps[1..], id);
    }
  }

  /** The delete keeps the remaining ids unique. */
  lemma {:induction false} SinProductoKeepsIds(ps: seq<Producto>, id: int)
    requires IdsUnicos(ps)
    ensures IdsUnicos(SinProducto(ps, id))
  {
    if ps != [] {
      assert IdsUnicos(ps[1..]) by {
        forall i, j | 0 <= i < j < |ps[1..]| ensures ps[1..][i].id != ps[1..][j].id {
          assert ps[1..][i] == ps[i + 1] && ps[1..][j] == ps[j + 1];
        }
      }
      SinProductoKeepsIds(ps[1..], id);
      if ps[0].id != id {
        FirstIdNotLater(ps, SinProducto(ps[1..], id));
      }
    }
  }

  /** A selection from the later rows never repeats the first row's id. */
  lemma FirstIdNotLater(ps: seq<Producto>, rest: seq<Producto>)
    requires IdsUnicos(ps) && ps != [] && IdsUnicos(rest)
    requires forall p :: p in rest ==> p in ps[1..]
    ensures IdsUnicos([ps[0]] + rest)
  {
    forall k | 0 <= k < |rest| ensures rest[k].id != ps[0].id {
      assert rest[k] in ps[1..];
      var m :| 0 <= m < |ps[1..]| && ps[1..][m] == rest[k];
      assert ps[m + 1] == rest[k];
    }
    var s := [ps[0]] + rest;
    forall i, j | 0 <= i < j < |s| ensures s[i].id != s[j].id {
      if i > 0 {
        assert s[i] == rest[i - 1] && s[j] == rest[j - 1];
      } else {
        assert s[j] == rest[j - 1];
      }
    }
  }

  /** `UPDATE Pedidos SET ProductoID = NULL WHERE ProductoID = %s`. */
  function AnularEnPedidos(pedidos: map<int, Pedido>, id: int): (r: map<int, Pedido>)
    ensures r.Keys == pedidos.Keys
  {
    map k | k in pedidos :: if pedidos[k].producto == Some(id) then pedidos[k].(producto := None) else pedidos[k]
  }

  /** `UPDATE PedidosCancelados SET ProductoID = NULL WHERE ProductoID = %s`. */
  function AnularEnCancelados(cs: seq<PedidoCancelado>, id: int): (r: seq<PedidoCancelado>)
    ensures |r| == |cs|
  {
    seq(|cs|, i requires 0 <= i < |cs| => if cs[i].producto == Some(id) then cs[i].(producto := None) else cs[i])
  }

  /** After nulling, no order and no archived order names the product; rows
      that named another product, or none, are unchanged, and the rest lose
      only their product id. */
  lemma ReferencesNulled(pedidos: map<int, Pedido>, cs: seq<PedidoCancelado>, id: int)
    ensures forall k :: k in AnularEnPedidos(pedidos, id) ==> AnularEnPedidos(pedidos, id)[k].producto != Some(id)
    ensures forall k :: k in pedidos && pedidos[k].producto != Some(id) ==> AnularEnPedidos(pedidos, id)[k] == pedidos[k]
    ensures forall k :: k in pedidos ==> AnularEnPedidos(pedidos, id)[k].(producto := pedidos[k].producto) == pedidos[k]
    ensures forall i :: 0 <= i < |cs| ==> AnularEnCancelados(cs, id)[i].producto != Some(id)
    ensures forall i :: 0 <= i < |cs| && cs[i].producto != Some(id) ==> AnularEnCancelados(cs, id)[i] == cs[i]
    ensures forall i :: 0 <= i < |cs| ==> AnularEnCancelados(cs, id)[i].(producto := cs[i].producto) == cs[i]
  {
  }
}
