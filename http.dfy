/** Values shared by every handler: optional values, the two principal
    roles, and the replies a handler produces (an HTTP status and why). */
module Http {

  datatype Option<+T> = None | Some(value: T)

  /** The two kinds of principal the `usuario_actual` slot can hold. */
  datatype Role = Cliente | Administrador

  /** A row of the plain-text `Users` table read by the first `/login` route. */
  datatype UserRow = UserRow(username: string, password: string)

  /** How a failing reply came about. */
  datatype Cause =
    | Raised              // an HTTPException that no `except` clause catches
    | Wrapped(inner: nat) // an HTTPException(inner) caught by `except Exception` and re-raised as 500
    | Caught              // any other exception (a driver error, or a TypeError from using a
                          // None result) caught by `except Exception` and re-raised as 500
    | Crashed             // an exception nothing catches: the server answers 500

  /** The JSON body of a successful reply. */
  datatype Body =
    | Mensaje(text: string)        // {"mensaje": ...} or {"message": ...}
    | Sesion(tipoUsuario: Role)          // LoginResponse of a successful login
    | Rol(role: Option<Role>)     // {"role": ...} of /user-role
    | Usuarios(rows: seq<UserRow>) // {"status": "success", "data": ...}

  datatype Reply =
    | Ok(body: Body)
    | Fail(status: nat, cause: Cause)
    | Redirect(location: string)
  {
    /** The HTTP status line of the reply; a RedirectResponse answers 307. */
    function Status(): nat {
      match this
      case Ok(_) => 200
      case Fail(s, _) => s
      case Redirect(_) => 307
    }
  }

  /** Python truthiness of an optional string: None and "" are false. */
  predicate TruthyText(s: Option<string>) {
    s.Some? && s.value != ""
  }

  /** Python truthiness of an optional integer: None and 0 are false. */
  predicate TruthyId(i: Option<int>) {
    i.Some? && i.value != 0
  }
}
