/** The read-only handlers that map rows to a response: the product list
    with its image URLs, the low-stock check, and the month names of the
    orders chart. */
module Views {
  import opened Http
  import opened Executor
  import Store
  import Session
  import Routing

  /** A listing handler's reply: the mapped rows, or a 500 and its cause. */
  datatype Listado<T> = Filas(items: seq<T>) | Error(cause: Cause)

  // ---------------------------------------------------------------
  // Image URLs
  // ---------------------------------------------------------------

  /** Where the `/imgs` mount serves uploaded images. */
  const PrefijoImagenes := "/imgs/"

  /** The image URL of a product: a NULL or empty file name gives none. */
  function ImagenUrl(imagen: Option<string>): (r: Option<string>)
    ensures r.Some? <==> TruthyText(imagen)
    ensures r.Some? ==> |r.value| > |PrefijoImagenes| && r.value[..|PrefijoImagenes|] == PrefijoImagenes
  {
    if TruthyText(imagen) then Some(PrefijoImagenes + imagen.value) else None
  }

  /** The file an image URL names: the inverse of ImagenUrl. */
  function ArchivoDeUrl(url: string): (r: Option<string>)
    ensures r.Some? <==> |url| > |PrefijoImagenes| && url[..|PrefijoImagenes|] == PrefijoImagenes
    ensures r.Some? ==> PrefijoImagenes + r.value == url
  {
    if |url| > |PrefijoImagenes| && url[..|PrefijoImagenes|] == PrefijoImagenes
    then Some(url[|PrefijoImagenes|..])
    else None
  }

  /** The URL gives back the file name it was made from, so different
      files never share a URL. */
  lemma ImagenUrlRoundTrip(imagen: Option<string>)
    ensures ImagenUrl(imagen).Some? ==> ArchivoDeUrl(ImagenUrl(imagen).value) == imagen
  {
    if TruthyText(imagen) {
      var url := PrefijoImagenes + imagen.value;
      assert url[|PrefijoImagenes|..] == imagen.value;
    }
  }

  /** A URL the listing hands out is one the `/imgs` mount serves, but the
      middleware redirects it unless someone is logged in, although the
      product list itself is public. */
  lemma ImagesBehindLogin(archivo: seq<string>, u: Session.Usuario)
    requires |archivo| >= 1
    ensures Routing.Dispatch(Routing.Tabla, Routing.Get, ["imgs"] + archivo, u)
            == if TruthyText(u.nombre) then Routing.Routed(Routing.Handled(Routing.Imagenes))
               else Routing.Redirected("/CargaLogin.html")
  {
    var path := ["imgs"] + archivo;
    assert path !in Routing.Permitidas by {
      assert path[0] == "imgs" && |path| >= 2;
    }
    if TruthyText(u.nombre) {
      assert path[0] == "imgs" && |path| >= 2;
      assert Routing.FirstFullFrom(Routing.Tabla, 0, 9, Routing.Get, path);
      Routing.FirstFullHandled(Routing.Tabla, 0, 9, Routing.Get, path, false);
    }
  }

  // ---------------------------------------------------------------
  // The product list
  // ---------------------------------------------------------------

  /** A product as the listing returns it (the price is left out). */
  datatype ProductoVista = ProductoVista(id: int, nombre: string, stock: int, imagen: Option<string>)

  function Vista(p: Store.Producto): ProductoVista {
    ProductoVista(p.id, p.nombre, p.stock, ImagenUrl(p.imagen))
  }

  /** obtener_productos: every product with its image URL, in table order.
      The handler has no `try`, so a failed read (None) makes the list
      comprehension raise, and nothing catches it. */
  function ObtenerProductos(productos: seq<Store.Producto>, lecturaOk: bool): (r: Listado<ProductoVista>)
    ensures r.Filas? <==> lecturaOk
    ensures !lecturaOk ==> r == Error(Crashed)
    ensures r.Filas? ==> |r.items| == |productos|
    ensures r.Filas? ==> forall i :: 0 <= i < |productos| ==>
              && r.items[i].id == productos[i].id
              && r.items[i].nombre == productos[i].nombre
              && r.items[i].stock == productos[i].stock
              && (r.items[i].imagen.Some? <==> TruthyText(productos[i].imagen))
  {
    match Execute(ListadoQuery, if lecturaOk then Returned(productos) else Threw)
    case Rows(rows) => Filas(seq(|rows|, i requires 0 <= i < |rows| => Vista(rows[i])))
    case _ => Error(Crashed)
  }

  /** Every product in the list keeps its image: the URL names exactly the
      file stored for it. */
  lemma ListedImagesNameStoredFiles(productos: seq<Store.Producto>, i: int)
    requires 0 <= i < |productos|
    ensures var r := ObtenerProductos(productos, true);
            r.items[i].imagen.Some? ==> ArchivoDeUrl(r.items[i].imagen.value) == productos[i].imagen
  {
    assert Execute(ListadoQuery, Returned(productos)) == Rows(productos);
    assert ObtenerProductos(productos, true).items[i] == Vista(productos[i]);
    ImagenUrlRoundTrip(productos[i].imagen);
  }

  // ---------------------------------------------------------------
  // The stock check
  // ---------------------------------------------------------------

  const AvisoInventario := "Favor de actualizar inventario"

  /** The message beside a product's stock. */
  function Aviso(stock: int): (m: string)
    ensures m != "" <==> stock < 10
    ensures m == "" || m == AvisoInventario
  {
    if stock < 10 then AvisoInventario else ""
  }

  datatype FilaStock = FilaStock(id: int, nombre: string, stock: int, mensaje: string)

  function Revisar(p: Store.Producto): FilaStock {
    FilaStock(p.id, p.nombre, p.stock, Aviso(p.stock))
  }

  /** verificar_stock_productos: one row per product with its message; a
      failed read leaves None, iterating it raises a TypeError inside the
      `try`, and that comes back as 500. */
  function VerificarStock(productos: seq<Store.Producto>, lecturaOk: bool): (r: Listado<FilaStock>)
    ensures r.Filas? <==> lecturaOk
    ensures !lecturaOk ==> r == Error(Caught)
    ensures r.Filas? ==> |r.items| == |productos|
    ensures r.Filas? ==> forall i :: 0 <= i < |productos| ==>
              && r.items[i].id == productos[i].id
              && r.items[i].nombre == productos[i].nombre
              && r.items[i].stock == productos[i].stock
              && r.items[i].mensaje == Aviso(productos[i].stock)
              && (r.items[i].mensaje != "" <==> productos[i].stock < 10)
  {
    match Execute(StockQuery, if lecturaOk then Returned(productos) else Threw)
    case Rows(rows) => Filas(seq(|rows|, i requires 0 <= i < |rows| => Revisar(rows[i])))
    case _ => Error(Caught)
  }

  /** The products flagged are exactly those whose stock is under ten;
      a stock of exactly ten is not flagged. */
  lemma FlaggedExactlyLowStock(productos: seq<Store.Producto>)
    ensures var r := VerificarStock(productos, true);
            (set i | 0 <= i < |r.items| && r.items[i].mensaje != "" :: r.items[i].id)
            == (set i | 0 <= i < |productos| && productos[i].stock < 10 :: productos[i].id)
  {
  }

  // ---------------------------------------------------------------
  // Month names of the orders chart
  // ---------------------------------------------------------------

  /** meses_espanol, month 1 first. */
  const Meses := ["Enero", "Febrero", "Marzo", "Abril", "Mayo", "Junio", "Julio",
                  "Agosto", "Septiembre", "Octubre", "Noviembre", "Diciembre"]

  /** A lookup in meses_espanol; None is the KeyError of a missing key. */
  function NombreMes(mes: Option<int>): (r: Option<string>)
    ensures r.Some? <==> mes.Some? && 1 <= mes.value <= 12
  {
    if mes.Some? && 1 <= mes.value <= 12 then Some(Meses[mes.value - 1]) else None
  }

  /** The month a Spanish name stands for: the inverse of the table. */
  function NumeroMes(nombre: string): (r: Option<int>)
    ensures r.Some? ==> 1 <= r.value <= 12 && Meses[r.value - 1] == nombre
    ensures r.None? ==> nombre !in Meses
  {
    Buscar(nombre, 0)
  }

  function Buscar(nombre: string, k: nat): (r: Option<int>)
    requires k <= |Meses|
    ensures r.Some? ==> k < r.value <= 12 && Meses[r.value - 1] == nombre
    ensures r.None? ==> nombre !in Meses[k..]
    decreases |Meses| - k
  {
    if k == |Meses| then None
    else if Meses[k] == nombre then Some(k + 1)
    else Buscar(nombre, k + 1)
  }

  /** No two months share a name. */
  lemma MesesDistintos()
    ensures forall a, b :: 0 <= a < b < |Meses| ==> Meses[a] != Meses[b]
  {
  }

  /** Each month's name leads back to the month, and each name in the table
      to a month that has it. */
  lemma MonthNamesRoundTrip(mes: Option<int>, nombre: string)
    ensures NombreMes(mes).Some? ==> NumeroMes(NombreMes(mes).value) == mes
    ensures NumeroMes(nombre).Some? ==> NombreMes(Some(NumeroMes(nombre).value)) == Some(nombre)
  {
    MesesDistintos();
  }

  /** A row of the orders-per-month query; MONTH() of a NULL date is NULL. */
  datatype FilaMes = FilaMes(mes: Option<int>, total: int)

  datatype Barras = Barras(categorias: seq<string>, totales: seq<int>)

  predicate MesesValidos(rows: seq<FilaMes>) {
    forall i :: 0 <= i < |rows| ==> NombreMes(rows[i].mes).Some?
  }

  /** The bar series of get_datos_graficas: each row's month name and
      total in query order; a month missing from the table raises KeyError
      inside the `try`, and a failed read fails the comprehension. Both
      come back as 500. */
  function BarrasMensuales(rows: seq<FilaMes>, lecturaOk: bool): (r: Option<Barras>)
    ensures r.Some? <==> lecturaOk && MesesValidos(rows)
    ensures r.Some? ==> |r.value.categorias| == |r.value.totales| == |rows|
    ensures r.Some? ==> forall i :: 0 <= i < |rows| ==>
              && NumeroMes(r.value.categorias[i]) == rows[i].mes
              && r.value.totales[i] == rows[i].total
  {
    match Execute(BarrasQuery, if lecturaOk then Returned(rows) else Threw)
    case Rows(rows) =>
      if MesesValidos(rows) then
        Some(Barras(seq(|rows|, i requires 0 <= i < |rows| => ValorNombre(rows[i].mes)),
                    seq(|rows|, i requires 0 <= i < |rows| => rows[i].total)))
      else None
    case _ => None
  }

  /** The name of a month known to be in the table. */
  function ValorNombre(mes: Option<int>): (r: string)
    requires NombreMes(mes).Some?
    ensures NumeroMes(r) == mes
  {
    MonthNamesRoundTrip(mes, "");
    NombreMes(mes).value
  }
}
