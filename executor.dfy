/** The query executor `ejecutar_consulta`: it runs one statement, returns
    the fetched rows when the statement reads, commits and returns True
    otherwise, and turns every driver exception into None. The driver is not
    modelled: what it would answer is a parameter. */
module Executor {

  /** The characters Python's `str.strip()` removes that lie in the ASCII and
      Latin-1 ranges. */
  predicate IsSpace(c: char) {
    c == ' ' || c == '\t' || c == '\n' || c == '\r' || c == '\U{0B}' || c == '\U{0C}'
    || ('\U{1C}' <= c <= '\U{1F}') || c == '\U{85}' || c == '\U{A0}'
  }

  /** `s` without its leading whitespace. */
  function TrimStart(s: string): (r: string)
    ensures |r| <= |s| && r == s[|s| - |r|..]
    ensures r == [] || !IsSpace(r[0])
    ensures forall i :: 0 <= i < |s| - |r| ==> IsSpace(s[i])
  {
    if s != [] && IsSpace(s[0]) then TrimStart(s[1..]) else s
  }

  /** `s` without its trailing whitespace. */
  function TrimEnd(s: string): (r: string)
    ensures |r| <= |s| && r == s[..|r|]
    ensures r == [] || !IsSpace(r[|r| - 1])
    ensures forall i :: |r| <= i < |s| ==> IsSpace(s[i])
  {
    if s != [] && IsSpace(s[|s| - 1]) then TrimEnd(s[..|s| - 1]) else s
  }

  /** Python's `str.strip()`. */
  function Strip(s: string): string {
    TrimEnd(TrimStart(s))
  }

  /** Python's `str.upper()` on one character: ASCII letters and U+017F
      (long s, which Python upper-cases to S). */
  function UpperChar(c: char): char {
    if 'a' <= c <= 'z' then (c as int - 32) as char
    else if c == '\U{17F}' then 'S'
    else c
  }

  function Upper(s: string): string {
    seq(|s|, i requires 0 <= i < |s| => UpperChar(s[i]))
  }

  /** The test `query.strip().upper().startswith("SELECT")` that chooses the
      read path. */
  predicate IsReadQuery(query: string) {
    var u := Upper(Strip(query));
    |u| >= 6 && u[..6] == "SELECT"
  }

  /** Reference reading of the same test: after the leading whitespace, the
      next six characters spell SELECT in any letter case. */
  predicate SelectAhead(s: string) {
    && |s| >= 6
    && UpperChar(s[0]) == 'S' && UpperChar(s[1]) == 'E' && UpperChar(s[2]) == 'L'
    && UpperChar(s[3]) == 'E' && UpperChar(s[4]) == 'C' && UpperChar(s[5]) == 'T'
  }

  /** The trailing part of `strip()` never decides the classification. */
  lemma ReadQueryIff(query: string)
    ensures IsReadQuery(query) <==> SelectAhead(TrimStart(query))
  {
    var t := TrimStart(query);
    var e := TrimEnd(t);
    if SelectAhead(t) {
      TrimEndKeepsKeyword(t);
      SelectAheadPrefix(t, e);
      UpperPrefix(e);
    }
    if IsReadQuery(query) {
      UpperPrefix(e);
      SelectAheadPrefix(e, t);
    }
  }

  /** A keyword that ends in a non-space survives `TrimEnd`. */
  lemma TrimEndKeepsKeyword(t: string)
    requires SelectAhead(t)
    ensures |TrimEnd(t)| >= 6 && TrimEnd(t)[..6] == t[..6]
  {
    var e := TrimEnd(t);
    assert !IsSpace(t[5]);
    assert e == t[..|e|];
  }

  /** SelectAhead looks at the first six characters only. */
  lemma SelectAheadPrefix(a: string, b: string)
    requires SelectAhead(a) && |b| >= 6
    requires a[..6] == b[..6] || (|a| <= |b| && a == b[..|a|])
    ensures SelectAhead(b)
  {
    assert a[0] == b[0] && a[1] == b[1] && a[2] == b[2];
    assert a[3] == b[3] && a[4] == b[4] && a[5] == b[5];
  }

  /** Upper-casing and then comparing with SELECT is SelectAhead. */
  lemma UpperPrefix(e: string)
    ensures (|Upper(e)| >= 6 && Upper(e)[..6] == "SELECT") <==> SelectAhead(e)
  {
    var u := Upper(e);
    if |e| >= 6 {
      assert u[0] == UpperChar(e[0]) && u[1] == UpperChar(e[1]) && u[2] == UpperChar(e[2]);
      assert u[3] == UpperChar(e[3]) && u[4] == UpperChar(e[4]) && u[5] == UpperChar(e[5]);
      if SelectAhead(e) {
        assert u[..6] == "SELECT";
      }
      if u[..6] == "SELECT" {
        assert u[..6][0] == 'S' && u[..6][1] == 'E' && u[..6][2] == 'L';
        assert u[..6][3] == 'E' && u[..6][4] == 'C' && u[..6][5] == 'T';
      }
    }
  }

  /** Leading whitespace in front of a statement changes nothing. */
  lemma {:induction false} LeadingSpaceIgnored(ws: string, body: string)
    requires forall i :: 0 <= i < |ws| ==> IsSpace(ws[i])
    ensures TrimStart(ws + body) == TrimStart(body)
  {
    if ws != [] {
      var s := ws + body;
      assert s[0] == ws[0];
      assert s[1..] == ws[1..] + body;
      assert IsSpace(s[0]);
      assert TrimStart(s) == TrimStart(s[1..]);
      LeadingSpaceIgnored(ws[1..], body);
    } else {
      assert ws + body == body;
    }
  }

  /** What the driver does with one statement. */
  datatype DriverReply<T> = Threw | Returned(rows: seq<T>)

  /** What `ejecutar_consulta` returns: None, the list of rows, or True. */
  datatype QueryResult<T> = NoneResult | Rows(rows: seq<T>) | Committed

  /** `ejecutar_consulta` on a statement text, given what the driver does
      with it. */
  function EjecutarConsulta<T>(query: string, reply: DriverReply<T>): (r: QueryResult<T>)
    ensures r.NoneResult? <==> reply.Threw?
    ensures r.Rows? <==> reply.Returned? && IsReadQuery(query)
    ensures r.Committed? <==> reply.Returned? && !IsReadQuery(query)
    ensures r.Rows? ==> r.rows == reply.rows
  {
    match reply
    case Threw => NoneResult
    case Returned(rows) => if IsReadQuery(query) then Rows(rows) else Committed
  }

  /** Python truthiness of the returned value, which is all the handlers test. */
  predicate Truthy<T>(r: QueryResult<T>) {
    r.Committed? || (r.Rows? && r.rows != [])
  }

  /** A read whose driver raised and a read that found no rows look alike to
      every caller that tests the result for truthiness, although the two
      results differ. */
  lemma FailedReadLooksEmpty<T>(query: string)
    requires IsReadQuery(query)
    ensures EjecutarConsulta<T>(query, Threw) != EjecutarConsulta<T>(query, Returned([]))
    ensures !Truthy(EjecutarConsulta<T>(query, Threw)) && !Truthy(EjecutarConsulta<T>(query, Returned([])))
  {
  }

  // ---------------------------------------------------------------
  // The statements the modelled handlers send
  // ---------------------------------------------------------------

  datatype Statement =
    | ClienteQuery     // iniciar_sesion: the customer row
    | AdminQuery       // iniciar_sesion: the administrator row
    | SesionUpsert     // iniciar_sesion: IF EXISTS ... UPDATE ... ELSE INSERT
    | SesionClose      // cerrar_sesion
    | ProductoQuery    // comprar_producto: the product by name
    | RegistrarPedido  // comprar_producto: EXEC of the stored procedure
    | PedidoQuery      // cancelar_pedido: the order by id
    | UsersQuery       // login: the plain-text credentials
    | ProductoIdQuery  // eliminar_producto: the product by id
    | ProductoDelete   // both eliminar_producto routes
    | PedidosNull      // second eliminar_producto: null references in Pedidos
    | CanceladosNull   // second eliminar_producto: null references in PedidosCancelados
    | ListadoQuery     // obtener_productos: every product
    | StockQuery       // verificar_stock_productos: every product's stock
    | BarrasQuery      // get_datos_graficas: orders per month

  const Indent := "\n        "
  const Indent12 := "\n            "
  const Indent16 := "\n                "

  // Each statement text exactly as the handler writes it: leading
  // whitespace, the first keyword, and the rest (a triple-quoted text keeps
  // its line breaks, its indentation and the whitespace before the closing
  // quotes).
  const ClienteRest := " ClienteID, Contrasena FROM Clientes WHERE NombreUsuario = %s;\n        "
  const AdminRest := " AdministradorID, Contrasena FROM Administradores WHERE NombreUsuario = %s;\n        "
  const UpsertRest := " EXISTS (SELECT 1 FROM SesionesClientes WHERE ClienteID = %s)\n                    UPDATE SesionesClientes SET FechaInicio = GETDATE(), IP = %s WHERE ClienteID = %s\n                ELSE\n                    INSERT INTO SesionesClientes (ClienteID, FechaInicio, IP) VALUES (%s, GETDATE(), %s);\n                "
  const CloseRest := " SesionesClientes\n            SET FechaCierre = GETDATE()\n            WHERE ClienteID = %s AND FechaCierre IS NULL;\n            "
  const ProductoRest := " ProductoID, Nombre, Precio, Stock FROM Productos WHERE Nombre = %s;\n        "
  const RegistrarRest := " RegistrarPedido @ClienteID = %s, @ProductoID = %s, @Cantidad = %s;\n        "
  const PedidoRest := " PedidoID, ClienteID, ProductoID, Cantidad FROM Pedidos WHERE PedidoID = %s;\n        "
  const UsersRest := " * FROM Users WHERE username=%s AND password=%s"
  const ProductoIdRest := " ProductoID FROM Productos WHERE ProductoID = %s;"
  const DeleteRest := " FROM Productos WHERE ProductoID = %s;"
  const PedidosNullRest := " Pedidos SET ProductoID = NULL WHERE ProductoID = %s"
  const CanceladosNullRest := " PedidosCancelados SET ProductoID = NULL WHERE ProductoID = %s"
  const ListadoRest := " ProductoID, Nombre, Precio, Stock, Imagen FROM Productos;"
  const StockRest := " ProductoID, Nombre, Stock\n        FROM Productos;\n        "
  const BarrasRest := " MONTH(FechaCompra) AS Mes, COUNT(*) AS Total\n        FROM Pedidos\n        GROUP BY MONTH(FechaCompra)\n        ORDER BY MONTH(FechaCompra);\n        "

  const ClienteText := Indent + ("SELECT" + ClienteRest)
  const AdminText := Indent + ("SELECT" + AdminRest)
  const UpsertText := Indent16 + ("IF" + UpsertRest)
  const CloseText := Indent12 + ("UPDATE" + CloseRest)
  const ProductoText := Indent + ("SELECT" + ProductoRest)
  const RegistrarText := Indent + ("EXEC" + RegistrarRest)
  const PedidoText := Indent + ("SELECT" + PedidoRest)
  const UsersText := "" + ("SELECT" + UsersRest)
  const ProductoIdText := "" + ("SELECT" + ProductoIdRest)
  const DeleteText := "" + ("DELETE" + DeleteRest)
  const PedidosNullText := "" + ("UPDATE" + PedidosNullRest)
  const CanceladosNullText := "" + ("UPDATE" + CanceladosNullRest)
  const ListadoText := "" + ("SELECT" + ListadoRest)
  const StockText := Indent + ("SELECT" + StockRest)
  const BarrasText := Indent + ("SELECT" + BarrasRest)

  /** The text the handler passes to `ejecutar_consulta`. */
  function Text(s: Statement): string {
    match s
    case ClienteQuery => ClienteText
    case AdminQuery => AdminText
    case SesionUpsert => UpsertText
    case SesionClose => CloseText
    case ProductoQuery => ProductoText
    case RegistrarPedido => RegistrarText
    case PedidoQuery => PedidoText
    case UsersQuery => UsersText
    case ProductoIdQuery => ProductoIdText
    case ProductoDelete => DeleteText
    case PedidosNull => PedidosNullText
    case CanceladosNull => CanceladosNullText
    case ListadoQuery => ListadoText
    case StockQuery => StockText
    case BarrasQuery => BarrasText
  }

  /** The statements whose first keyword is SELECT. */
  predicate Fetches(s: Statement) {
    s.ClienteQuery? || s.AdminQuery? || s.ProductoQuery? || s.PedidoQuery? || s.UsersQuery? || s.ProductoIdQuery?
    || s.ListadoQuery? || s.StockQuery? || s.BarrasQuery?
  }

  /** One statement run through `ejecutar_consulta`, with the read test
      already decided per statement (StatementKinds proves the decision). */
  function Execute<T>(s: Statement, reply: DriverReply<T>): QueryResult<T> {
    match reply
    case Threw => NoneResult
    case Returned(rows) => if Fetches(s) then Rows(rows) else Committed
  }

  predicate AllSpace(ws: string) {
    forall i :: 0 <= i < |ws| ==> IsSpace(ws[i])
  }

  /** Whitespace in front of a statement that starts with a capital is
      exactly what strip() removes at the front. */
  lemma {:induction false} KeywordAfterSpace(ws: string, body: string)
    requires AllSpace(ws)
    requires body != [] && 'A' <= body[0] <= 'Z'
    ensures TrimStart(ws + body) == body
  {
    LeadingSpaceIgnored(ws, body);
  }

  lemma SelectKeyword(rest: string)
    ensures SelectAhead("SELECT" + rest)
  {
    var body := "SELECT" + rest;
    assert body[..6] == "SELECT";
  }

  /** A statement whose first keyword is SELECT takes the read path, however
      it is indented and whatever follows. */
  lemma SelectStatement(ws: string, rest: string)
    requires AllSpace(ws)
    ensures IsReadQuery(ws + ("SELECT" + rest))
  {
    KeywordAfterSpace(ws, "SELECT" + rest);
    SelectKeyword(rest);
    ReadQueryIff(ws + ("SELECT" + rest));
  }

  /** A statement whose first keyword starts with a capital other than S
      takes the commit path. */
  lemma OtherStatement(ws: string, keyword: string, rest: string)
    requires AllSpace(ws)
    requires keyword != [] && 'A' <= keyword[0] <= 'Z' && keyword[0] != 'S'
    ensures !IsReadQuery(ws + (keyword + rest))
  {
    var body := keyword + rest;
    KeywordAfterSpace(ws, body);
    assert !SelectAhead(body) by {
      assert UpperChar(body[0]) == keyword[0] != 'S';
    }
    ReadQueryIff(ws + body);
  }

  lemma IndentIsSpace()
    ensures AllSpace(Indent) && AllSpace("")
  {
    assert |Indent| == 9 && Indent[0] == '\n';
    assert forall i :: 1 <= i < 9 ==> Indent[i] == ' ';
  }

  /** The deeper indentations of the session statements are whitespace too. */
  lemma DeepIndentIsSpace()
    ensures AllSpace(Indent12) && AllSpace(Indent16)
  {
    assert |Indent12| == 13 && Indent12[0] == '\n';
    assert forall i :: 1 <= i < 13 ==> Indent12[i] == ' ';
    assert |Indent16| == 17 && Indent16[0] == '\n';
    assert forall i :: 1 <= i < 17 ==> Indent16[i] == ' ';
  }

  /** `ejecutar_consulta`'s own test on each statement's text takes the read
      path exactly for the statements that begin with SELECT: the IF
      EXISTS upsert, the EXEC, the UPDATEs and the DELETE commit. */
  lemma StatementKinds(s: Statement)
    ensures IsReadQuery(Text(s)) <==> Fetches(s)
  {
    if Fetches(s) { ReadKinds(s); } else { WriteKinds(s); }
  }

  lemma ReadKinds(s: Statement)
    requires Fetches(s)
    ensures IsReadQuery(Text(s))
  {
    match s
    case ClienteQuery | AdminQuery | UsersQuery => LoginReads();
    case ProductoQuery | PedidoQuery | ProductoIdQuery => OrderReads();
    case ListadoQuery | StockQuery | BarrasQuery => ListingReads();
  }

  lemma WriteKinds(s: Statement)
    requires !Fetches(s)
    ensures !IsReadQuery(Text(s))
  {
    match s
    case SesionUpsert | SesionClose | RegistrarPedido => SessionWrites();
    case ProductoDelete | PedidosNull | CanceladosNull => ProductWrites();
  }

  /** The reads of the two login routes take the read path. */
  lemma LoginReads()
    ensures IsReadQuery(ClienteText) && IsReadQuery(AdminText) && IsReadQuery(UsersText)
  {
    IndentIsSpace();
    SelectStatement(Indent, ClienteRest);
    SelectStatement(Indent, AdminRest);
    SelectStatement("", UsersRest);
  }

  /** The reads of the purchase, cancellation and product-deletion handlers
      take the read path. */
  lemma OrderReads()
    ensures IsReadQuery(ProductoText) && IsReadQuery(PedidoText) && IsReadQuery(ProductoIdText)
  {
    IndentIsSpace();
    SelectStatement(Indent, ProductoRest);
    SelectStatement(Indent, PedidoRest);
    SelectStatement("", ProductoIdRest);
  }

  /** The reads of the product list, the stock check and the monthly chart
      take the read path. */
  lemma ListingReads()
    ensures IsReadQuery(ListadoText) && IsReadQuery(StockText) && IsReadQuery(BarrasText)
  {
    IndentIsSpace();
    SelectStatement("", ListadoRest);
    SelectStatement(Indent, StockRest);
    SelectStatement(Indent, BarrasRest);
  }

  /** The session upsert (an IF EXISTS), the session close and the
      stored-procedure call (an EXEC) take the commit path. */
  lemma SessionWrites()
    ensures !IsReadQuery(UpsertText) && !IsReadQuery(CloseText) && !IsReadQuery(RegistrarText)
  {
    IndentIsSpace();
    DeepIndentIsSpace();
    OtherStatement(Indent16, "IF", UpsertRest);
    OtherStatement(Indent12, "UPDATE", CloseRest);
    OtherStatement(Indent, "EXEC", RegistrarRest);
  }

  /** The DELETE and the two reference-nulling UPDATEs take the commit path. */
  lemma ProductWrites()
    ensures !IsReadQuery(DeleteText) && !IsReadQuery(PedidosNullText) && !IsReadQuery(CanceladosNullText)
  {
    IndentIsSpace();
    OtherStatement("", "DELETE", DeleteRest);
    OtherStatement("", "UPDATE", PedidosNullRest);
    OtherStatement("", "UPDATE", CanceladosNullRest);
  }

  /** Running a statement is `ejecutar_consulta` on its text. */
  lemma ExecuteIsEjecutarConsulta<T>(s: Statement, reply: DriverReply<T>)
    ensures Execute(s, reply) == EjecutarConsulta(Text(s), reply)
  {
    StatementKinds(s);
  }
}
