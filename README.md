# Backend2 in Dafny

A model of the FastAPI shop backend in `main.py`. It covers:

- the query runner `ejecutar_consulta`, which decides by the query text whether to fetch rows or commit;
- the process-wide `usuario_actual` slot and the `SesionesClientes` rows that login and logout write;
- the three role endpoints;
- the bcrypt login (customers first, then administrators) and the plain-text login registered on the same path;
- the purchase checks and the opaque `RegistrarPedido` call;
- order cancellation as one transaction of four statements, with commit or rollback;
- both product deletes;
- the authentication middleware in front of Starlette's router, with the route table in registration order;
- the row mappers of the product list, the stock check and the orders-per-month chart.

The database is an in-memory store, not SQL:

- `Productos`, `Ventas`, `PedidosCancelados` and `SesionesClientes` are sequences in storage order.
  - `SELECT ... WHERE` is the order-preserving filter `Filtering.Filter`, and `[0]` is its first row. SQL Server promises no row order for a SELECT without ORDER BY; the model fixes it as storage order (see "## Left out").
  - `DELETE ... WHERE` keeps the rows the filter drops.
- `Pedidos` is a map from `PedidoID`.
- Each call into the database driver either returns or raises, and a boolean parameter (`lecturaOk`, `sesionOk`, `borradoOk`, ...) says which.
  - A write whose result the handler ignores takes effect exactly when its flag is true.
  - A read goes through `Executor.Execute`. `Executor.ExecuteIsEjecutarConsulta` proves that `Execute` agrees with `ejecutar_consulta` on each statement's own text, which the model writes out exactly as the handler does, indentation, line breaks and trailing whitespace included.
- Other outside inputs are parameters too: `bcrypt.checkpw` is an arrow `checkpw`, `GETDATE()` is `ahora` or `fecha`, and the client address is `ip`.

Modules, one file each:

- `Http` (`http.dfy`): option, roles, replies with their status and cause. An `HTTPException` raised inside a `try` comes back as `Fail(500, Wrapped(inner))`.
- `Filtering` (`filtering.dfy`): the `WHERE` filter.
- `Executor` (`executor.dfy`): `ejecutar_consulta` and the statements.
- `Session` (`session.dfy`): slot, role endpoints, session rows, login decision.
- `Store` (`store.dfy`): rows, tables, and the cancellation and deletion effects as functions.
- `Backend` (`backend.dfy`): class `Tienda`, holding the tables and the slot, with the handlers as methods.
- `Routing` (`routing.dfy`): route table, router, middleware, request sequences.
- `Views` (`views.dfy`): image URLs, stock flag, month names.

## Model

| member | source | states |
|---|---|---|
| Filtering.Filter | main.py:84-86 | a `WHERE` selection returns at most the table's rows: exactly those rows that satisfy the condition, none more often than stored |
| Filtering.FilterPartition | main.py:503-506 | the rows a `DELETE ... WHERE` removes plus the rows it keeps are the table, as a multiset |
| Filtering.FilterFirst | main.py:238-239 | `resultado[0]` is the first row the SELECT returns that satisfies the condition, with the returned order taken as storage order |
| Executor.TrimStart | main.py:57 | `strip()` at the front: a suffix of the input, with only whitespace removed and no whitespace left in front |
| Executor.TrimEnd | main.py:57 | `strip()` at the back: a prefix of the input, with only whitespace removed and no whitespace left at the end |
| Executor.ReadQueryIff | main.py:57 | `Executor.IsReadQuery`, the model of `query.strip().upper().startswith("SELECT")`, holds iff the first six characters after leading whitespace spell SELECT in either case; trailing whitespace never matters |
| Executor.LeadingSpaceIgnored | main.py:57 | indentation in front of a statement does not change the test |
| Executor.EjecutarConsulta | main.py:48-67 | any driver exception gives None; otherwise a read query gives its rows, and anything else commits and gives True |
| Executor.FailedReadLooksEmpty | main.py:65-67 | a failed read and an empty read are different values, yet both are falsy, so a caller's `if resultado:` cannot tell them apart |
| Executor.StatementKinds | main.py:57 | of the handlers' statements, exactly the SELECTs take the read path; the `IF EXISTS` upsert, the `EXEC`, the UPDATEs and the DELETE commit |
| Executor.SessionWrites | main.py:245-253 | the session upsert (16-space indented, over five lines), the session close (12-space indented, over four lines) and the stored-procedure call take the commit path |
| Executor.ProductWrites | main.py:595-608 | the product DELETE and both reference-nulling UPDATEs take the commit path |
| Executor.LoginReads | main.py:231-233 | the customer, administrator and plain-text credential reads take the read path |
| Executor.OrderReads | main.py:428-430 | the product-by-name, order-by-id and product-by-id reads take the read path |
| Executor.ListingReads | main.py:369 | the product list, stock check and per-month chart reads take the read path |
| Executor.ExecuteIsEjecutarConsulta | main.py:48-67 | running a statement through the model equals `ejecutar_consulta` on that statement's text, for every driver outcome |
| Session.GetUserRole | main.py:192-197 | 200 with the slot's role iff `nombre_usuario` is truthy, otherwise 401 |
| Session.UserPage | main.py:199-204 | 200 iff the slot's role is cliente, otherwise 403 |
| Session.AdminPage | main.py:206-210 | 200 iff the slot's role is administrador, otherwise 403 |
| Session.RolesFollowTransitions | main.py:241-243 | after a customer login, an administrator login or a logout, the three role endpoints answer as that role allows, and each refuses the other role |
| Session.EmptyUsernameHalfLoggedIn | main.py:194 | at the handler level, a customer slot with the empty username passes the role check of `user_page` but gets a 401 from `get_user_role`, because `""` is falsy; over HTTP the middleware redirects both first (Routing.EmptyUsernameRedirected) |
| Session.UpsertLeavesOneRow | main.py:245-253 | after `Session.Upsert` the customer has exactly one session row, with the new start time and address |
| Session.UpsertKeepsCierre | main.py:245-249 | the upsert changes no other customer's row and never resets `FechaCierre`; an inserted row starts open |
| Session.Cerrar | main.py:287-291 | the close leaves the row count and each row's customer unchanged |
| Session.CerrarOnlyOpenRows | main.py:287-291 | only that customer's rows with a null `FechaCierre` are stamped; a closed row never changes again; at most one row per customer still holds |
| Session.CerrarIdempotent | main.py:287-291 | closing twice is closing once |
| Session.ReloginKeepsFirstCierre | main.py:245-249 | login, logout, login, logout leaves the second start time beside the first close time |
| Session.CustomerFirstThenAdmin | main.py:231-273 | `Session.DecidirAcceso`: the first customer row (in storage order) decides if `checkpw` accepts it; otherwise, also for a customer username with a wrong password, the first administrator row decides; otherwise nobody is admitted |
| Session.AdmittedOnlyWithPassword | main.py:231-270 | whoever is admitted has an account of that kind, under that username, whose hash `checkpw` accepts |
| Store.SalesRemovedExactly | main.py:503-506 | deleting an order's sales removes exactly the rows with that `PedidoID` and keeps the rest |
| Store.SumarStock | main.py:510-515 | the stock update changes no field except `Stock`, and keeps the row count |
| Store.StockRestoredExactly | main.py:510-515 | a product's stock rises by `cantidad`; a NULL `ProductoID` or a missing product changes nothing; other products are unchanged |
| Store.StockTotalRestored | main.py:510-515 | with unique ids, total stock rises by `cantidad` when the product exists and is unchanged otherwise |
| Store.SumarStockKeepsIds | main.py:510-515 | the stock update keeps product ids unique |
| Store.CancelArchivesOnce | main.py:495-499 | `Store.Cancelado` appends exactly one `PedidosCancelados` row, carrying the order's id, customer, product, quantity and the GETDATE() of the cancellation, and keeps the earlier rows |
| Store.CancelRemovesOrder | main.py:519-522 | cancellation removes exactly that order and keeps the others unchanged |
| Store.CancelRemovesSales | main.py:503-506 | cancellation removes exactly that order's sales |
| Store.CancelRestoresStock | main.py:510-515 | cancellation returns the quantity to the ordered product only |
| Store.ProductRemovedExactly | main.py:417-418 | the DELETE keeps every other product and leaves no product with that id |
| Store.SinProductoKeepsIds | main.py:417-418 | the DELETE keeps product ids unique |
| Store.AnularEnPedidos | main.py:597-599 | nulling references keeps every order |
| Store.AnularEnCancelados | main.py:602-604 | nulling references keeps every cancelled order |
| Store.ReferencesNulled | main.py:596-604 | afterwards no order or cancelled order refers to the product, and nothing but those references changed |
| Backend.PurchaseChecksInOrder | main.py:432-459 | `Backend.RevisarCompra` makes the product lookup (404), then the stock check (400; equality passes), then the customer id (401; None and 0 fail), in that order; the purchase proceeds iff all three pass |
| Backend.PurchaseRegistersWhatWasChecked | main.py:437-459 | a purchase that proceeds registers the slot's customer, the requested quantity and the first product row the SELECT returns with that name, taken as storage order (names need not be unique), whose stock covers the quantity |
| Backend.AdminBuysOnCustomerAccount | main.py:268-270 | for any table, quantity and earlier slot, an administrator who logged in after a customer is checked and buys exactly as that customer would, because administrator login keeps `cliente_id` |
| Backend.NonPositiveQuantityPasses | main.py:442-443 | for any table without negative stock, a zero or negative quantity is never refused with 400, and goes ahead iff the read succeeds, a product has that name and a customer id is set |
| Backend.OnlyOwnerMayCancel | main.py:467-482 | `Backend.RevisarCancelacion`: cancellation is approved iff the role is cliente, the read succeeds, the order exists and is the slot's customer's; a wrong role is a 403, a missing or foreign order a 500 from the re-raised 403 |
| Backend.Tienda.constructor | main.py:162 | the shop starts with the given tables, no registered purchases and the initial slot |
| Backend.Tienda.Login | main.py:82-90 | the plain-text login answers 200 with the matching `Users` rows iff the read succeeds and some row matches both username and password, otherwise 400; it does not touch the slot |
| Backend.Tienda.IniciarSesion | main.py:228-276 | the slot and session rows after the bcrypt login: a customer admitted sets role, name and `cliente_id` and upserts the session row; an administrator admitted sets role, name and `administrador_id`; otherwise 500 and nothing changes; the invariant holds |
| Backend.Tienda.CerrarSesion | main.py:279-301 | logout closes the customer's open session rows when `cliente_id` is not None, clears role, name and `cliente_id`, keeps `administrador_id`, and keeps the invariant |
| Backend.Tienda.ComprarProducto | main.py:424-461 | nothing is written unless every check passes, and one `RegistrarPedido` call is recorded exactly when the purchase goes through, with the reply 200; each failure is a 500 carrying the inner status |
| Backend.Tienda.Revertir | main.py:529-533 | rollback restores the four tables to their state before the transaction |
| Backend.Tienda.CancelarTransaccion | main.py:489-533 | the transaction commits iff no statement fails; it then leaves exactly the cancelled state, and otherwise exactly the state before |
| Backend.Tienda.CancelarPedido | main.py:463-536 | the cancellation endpoint as intended: denied requests change nothing; an approved one commits all four effects and answers 200, or, after a failed connection or a failed statement, changes nothing and answers 500 |
| Backend.Tienda.CancelarPedidoAsWritten | main.py:463-465 | the endpoint as written always answers 500 with an uncaught error, before the role check |
| Backend.Tienda.EliminarProducto | main.py:405-422 | the first delete answers 200 whenever its read goes through and finds the product, and the product is deleted exactly when the DELETE also goes through (the handler ignores its result); when the read fails or finds nothing, 500 from the re-raised 404 and nothing changes |
| Backend.Tienda.EliminarProductoConReferencias | main.py:593-613 | the second delete nulls references in `Pedidos` and `PedidosCancelados`, then deletes the product, each write landing on its own, and always answers 200 |
| Routing.FirstFullHandled | main.py:78-732 | `Routing.Resolve` (the scan `Routing.Search`) hands a request to the first registered route whose path and method both match |
| Routing.HandledIsFirstFull | main.py:78-732 | a handled request went to a route that fully matches, with no earlier full match |
| Routing.NoFullMatch | main.py:78-732 | with no full match, the router answers 405 if some route matches the path only, and 404 otherwise |
| Routing.Shadowed | main.py:82 | a route registered after another with the same path and no method the earlier one lacks is never reached |
| Routing.BcryptLoginUnreachable | main.py:228 | the bcrypt login is never reached; POST /login goes to the plain-text login |
| Routing.ReferenceNullingDeleteUnreachable | main.py:593 | the reference-nulling delete is never reached |
| Routing.DeleteReachesPlainDelete | main.py:405 | DELETE /productos/{id}, for every non-empty id segment, goes to the delete that leaves references behind |
| Routing.IntendedLoginRoute | main.py:228 | without the earlier duplicate, POST /login reaches the bcrypt login |
| Routing.IntendedDeleteRoute | main.py:593 | without the earlier duplicate, DELETE /productos/{id}, for every non-empty id segment, reaches the reference-nulling delete |
| Routing.WrongMethodOrPath | main.py:82 | GET /login is a 405 and GET /CargaLogin.html a 404 |
| Routing.Dispatch | main.py:173-184 | a request reaches the router iff its path is exactly one of the four allowed paths or `nombre_usuario` is truthy; otherwise it is redirected to /CargaLogin.html |
| Routing.GuardLooksAtPathOnly | main.py:176-180 | with nobody logged in, POST /productos still creates a product, images and DELETE /productos/{id} are redirected, and the login page the redirect names is a 404 |
| Routing.EmptyUsernameRedirected | main.py:176-184 | with the empty username in the slot, GET /user-page and GET /user-role are both redirected to /CargaLogin.html, with the table as registered and with the corrected one |
| Routing.NobodyEverLogsIn | main.py:82 | from the initial slot, no sequence of requests ever changes the slot, so every path outside the allow-list stays redirected |
| Routing.LoginWorksWhenFixed | main.py:228-243 | with the duplicates removed, one accepted customer login opens the customer page |
| Views.ImagenUrl | main.py:377 | a URL exists iff the stored file name is neither NULL nor empty, and it lies under /imgs/ |
| Views.ArchivoDeUrl | main.py:329 | exactly the URLs under /imgs/ name a file, and prefixing that file gives the URL back |
| Views.ImagenUrlRoundTrip | main.py:377 | an image URL gives back the file name it was made from |
| Views.ImagesBehindLogin | main.py:329 | every image URL reaches the /imgs mount when someone is logged in and is redirected otherwise |
| Views.ObtenerProductos | main.py:367-381 | the product list has one entry per product in the order the SELECT returns them, taken as storage order, with id, name, stock and an image URL exactly when a file is stored; a failed read is an uncaught 500 |
| Views.ListedImagesNameStoredFiles | main.py:377 | each listed image URL names the file stored for that product |
| Views.Aviso | main.py:662 | the message is non-empty iff stock is under 10, and is then the restock notice |
| Views.VerificarStock | main.py:649-668 | one row per product with its id, name and stock and the message `Aviso` gives its stock, the inventory notice exactly when stock is under 10; a failed read is a 500 |
| Views.FlaggedExactlyLowStock | main.py:662 | the flagged ids are exactly the ids of products with stock under 10 |
| Views.NombreMes | main.py:709-713 | the month table has a name exactly for months 1 to 12; any other key is a KeyError |
| Views.NumeroMes | main.py:709-713 | a name maps back to a month whose table entry is that name, and only names in the table map back |
| Views.MonthNamesRoundTrip | main.py:709-713 | month to name to month, and name to month to name, are identities |
| Views.BarrasMensuales | main.py:735-752 | the bar series holds one name and one total per row, in query order, each name standing for that row's month; a month outside the table or a failed read is a 500 |

## Left out

- Everything after `cursor.execute` inside pymssql, and the connection made at import time. Each call is reduced to "returned" or "raised".
- `IsSpace` follows `str.strip()` on Latin-1 whitespace only. `UpperChar` maps the ASCII letters and U+017F, whose upper case is S. Python's other upper-case mappings are not modelled, including the multi-character ones: U+1E97 upper-cases to T followed by a combining diaeresis, so a statement that starts with `selec` and U+1E97 reads in Python but commits in the model. Other Unicode space rules are not modelled either.
- SQL collation and trailing-space rules. `WHERE` compares strings exactly.
- bcrypt itself. `checkpw` is any function, and bcrypt raising on a malformed hash is not modelled.
- `Backend.Tienda.ComprarProducto`: the effects of the stored procedure `RegistrarPedido` are not modelled, because its source is not part of the repository. The model records only that it was called, with what arguments.
- Prices, totals and every other floating-point value.
- The report endpoints: `/ganancia-total`, `/productos-mas-solicitados`, `/ventas`, `/datos-panel`, `/mis-pedidos`, `/pedidos`, `/sesiones-clientes`, and the pie series of `/datos-graficas`. They are SQL aggregation and date formatting.
- Client registration, product creation and product update. Their bodies are a password hash and an insert into `Clientes`, a file upload with an insert and a read-back, and a single UPDATE with a read-back. The audit helper `registrar_auditoria` (main.py:92) is never called.
- FastAPI request validation (422), `redirect_slashes`, CORS and the static-file lookup behind the `/imgs` mount.
- Routing: a request path is its list of segments, which matches Starlette exactly for this app's routes. The framework's own `/docs` and `/openapi.json` routes are not in the table.
- `Routing.Step`: what the bcrypt login decides is carried by the request instead of computed, because it depends on the database. It applies the same slot transitions (`Session.ComoCliente`, `Session.ComoAdministrador`, `Session.Limpio`) that `Backend.Tienda.IniciarSesion` and `Backend.Tienda.CerrarSesion` apply, but no lemma ties a request sequence to a sequence of method calls.
- Row order: a SELECT without ORDER BY (main.py:232, 259, 369, 429, 474, 653) returns rows in no fixed order. The model uses storage order, so `[0]` is the first stored match (`Filtering.FilterFirst`, `Backend.PurchaseRegistersWhatWasChecked`, `Session.CustomerFirstThenAdmin`) and the listings keep table order (`Views.ObtenerProductos`, `Views.VerificarStock`).
- A NULL `Stock` or `Cantidad` column. Quantities and stock are integers.
- Concurrent requests racing on `usuario_actual`. Requests are sequential.
- Logging and `print`. The only modelled effect of logging is the failing call at main.py:465.

## Findings

| source | as written | input that shows it | evidently intended | confidence | as-written member | corrected member |
|---|---|---|---|---|---|---|
| main.py:465 | `logging.info(...)` runs first, but `logging` is never imported (main.py:1-12) | any DELETE /pedido/{id} that reaches the handler; with the route table as registered the middleware redirects every such request first (Routing.NobodyEverLogsIn), so it shows once a login can succeed (Routing.TablaCorregida) | the role check, ownership check and transaction run | high, not executed | Backend.Tienda.CancelarPedidoAsWritten | Backend.Tienda.CancelarPedido |
| main.py:82 | a plain-text POST /login is registered before the bcrypt one at main.py:228 | POST /login with any body | the bcrypt login answers, setting `usuario_actual` | high, not executed | Routing.NobodyEverLogsIn | Routing.LoginWorksWhenFixed |
| main.py:405 | a DELETE /productos/{id} is registered before the one at main.py:593 that nulls references first | any DELETE /productos/{id} | references in `Pedidos` and `PedidosCancelados` are nulled before the delete | medium, not executed | Routing.ReferenceNullingDeleteUnreachable | Routing.IntendedDeleteRoute |
