/** The backend's authentication rules: the bearer-token gate in front of the server
    routes, and the decision ladders of registration and login. The user store, the
    password hashing and the token library are oracles: each handler receives what the
    store answered and the hashing and token functions, and returns the HTTP reply
    together with the store operations it issued. */
module Auth {
  import opened Wrappers
  import opened Text

  /** A JSON reply body: the handlers answer `{mensaje}`, `{error}` or `{token}`. */
  datatype Body = Mensaje(text: string) | ErrorText(text: string) | TokenBody(token: string)

  datatype HttpReply = Reply(code: int, body: Body)

  /** What a verified token carries. */
  datatype Claims = Claims(email: string, rol: string)

  /** The outcome of the gate: call the next handler with the decoded claims, or reply. */
  datatype Gate = Next(usuario: Claims) | Deny(reply: HttpReply)

  /** `verificarToken`: a missing header, or one that does not start with `"Bearer "`, is
      refused; otherwise the second space-separated field is verified, and the request
      goes on only if it verifies. */
  function VerifyToken(header: Option<string>, verify: string -> Option<Claims>): (g: Gate)
    ensures header.None? || !StartsWith(header.value, "Bearer ") ==>
      g == Deny(Reply(401, Mensaje("Token no proporcionado")))
    ensures g.Next? <==> (header.Some? && StartsWith(header.value, "Bearer ")
                          && verify(TakeUntil(header.value[7..], ' ')).Some?)
    ensures g.Next? ==> g.usuario == verify(TakeUntil(header.value[7..], ' ')).value
    ensures g.Deny? ==> g.reply.code == 401
    ensures header.Some? && StartsWith(header.value, "Bearer ")
            && verify(TakeUntil(header.value[7..], ' ')).None? ==>
      g == Deny(Reply(401, Mensaje("Token inválido o expirado")))
  {
    if header.None? || header.value == "" || !StartsWith(header.value, "Bearer ") then
      Deny(Reply(401, Mensaje("Token no proporcionado")))
    else
      var h := header.value;
      assert h[..7] == "Bearer ";
      assert h[6] == ' ' && forall j :: 0 <= j < 6 ==> h[j] != ' ' by {
        forall j | 0 <= j < 7 ensures h[j] == "Bearer "[j] {
          assert h[..7][j] == h[j];
        }
      }
      assert IndexOf(h, ' ') == 6;
      SecondField(header.value, ' ');
      var token := Split(header.value, ' ')[1];
      match verify(token)
      case Some(decoded) => Next(decoded)
      case None => Deny(Reply(401, Mensaje("Token inválido o expirado")))
  }

  /** A row of the `users` table. */
  datatype User = User(email: string, passwordHash: string, rol: string)

  /** What looking a user up by email answered. */
  datatype Lookup = DbError | NoUser | Found(user: User)

  /** An operation on the user store. */
  datatype DbOp = FindByEmail(email: string) | Insert(email: string, passwordHash: string, rol: Option<string>)

  /** A handled request: the reply and the store operations issued, in order. */
  datatype Handled = Handled(reply: HttpReply, ops: seq<DbOp>)

  /** JavaScript truthiness of an optional string field: present and not empty. */
  predicate Truthy(field: Option<string>) {
    field.Some? && field.value != ""
  }

  /** `POST /api/register`. `hashed` is the salted hash of the password computed for
      this request; `inserted` says whether the insert succeeded. */
  function Register(email: Option<string>, password: Option<string>, rol: Option<string>,
                    found: Lookup, hashed: string, inserted: bool): (h: Handled)
    ensures !Truthy(email) || !Truthy(password) <==> h.ops == []
    ensures !Truthy(email) || !Truthy(password) ==> h.reply == Reply(400, ErrorText("Faltan credenciales"))
    ensures h.ops != [] ==> h.ops[0] == FindByEmail(email.value)
    ensures found.Found? ==> h.reply.code == 400 && |h.ops| <= 1
    ensures |h.ops| == 2 <==> (Truthy(email) && Truthy(password) && found.NoUser?)
    ensures |h.ops| == 2 ==> h.ops[1] == Insert(email.value, hashed, rol)
    ensures h.reply.code == 201 <==> (Truthy(email) && Truthy(password) && found.NoUser? && inserted)
    ensures |h.ops| <= 2
    ensures Truthy(email) && Truthy(password) && found.DbError? ==>
      h.reply == Reply(500, Mensaje("Error en la base de datos"))
    ensures Truthy(email) && Truthy(password) && found.Found? ==>
      h.reply == Reply(400, Mensaje("Usuario ya registrado"))
    ensures Truthy(email) && Truthy(password) && found.NoUser? ==>
      h.reply == if inserted then Reply(201, Mensaje("Usuario registrado exitosamente"))
                 else Reply(500, Mensaje("Error al registrar usuario"))
  {
    if !Truthy(email) || !Truthy(password) then
      Handled(Reply(400, ErrorText("Faltan credenciales")), [])
    else
      var lookup := [FindByEmail(email.value)];
      match found
      case DbError => Handled(Reply(500, Mensaje("Error en la base de datos")), lookup)
      case Found(_) => Handled(Reply(400, Mensaje("Usuario ya registrado")), lookup)
      case NoUser =>
        var ops := lookup + [Insert(email.value, hashed, rol)];
        if inserted then Handled(Reply(201, Mensaje("Usuario registrado exitosamente")), ops)
        else Handled(Reply(500, Mensaje("Error al registrar usuario")), ops)
  }

  /** `POST /api/login`. `matches` is the password check against a stored hash and `sign`
      issues a token for the given claims. */
  function Login(email: Option<string>, password: Option<string>, found: Lookup,
                 matches: (string, string) -> bool, sign: Claims -> string): (h: Handled)
    ensures !Truthy(email) || !Truthy(password) <==> h.ops == []
    ensures !Truthy(email) || !Truthy(password) ==> h.reply.code == 400
    ensures h.ops != [] ==> h.ops == [FindByEmail(email.value)]
    ensures h.reply.code == 401 <==>
      (Truthy(email) && Truthy(password)
       && (found.NoUser? || (found.Found? && !matches(password.value, found.user.passwordHash))))
    ensures h.reply.body.TokenBody? <==>
      (Truthy(email) && Truthy(password) && found.Found? && matches(password.value, found.user.passwordHash))
    ensures h.reply.body.TokenBody? ==>
      h.reply == Reply(200, TokenBody(sign(Claims(found.user.email, found.user.rol))))
    ensures !Truthy(email) || !Truthy(password) ==> h.reply == Reply(400, Mensaje("Faltan credenciales"))
    ensures Truthy(email) && Truthy(password) && found.DbError? ==>
      h.reply == Reply(500, Mensaje("Error en la base de datos"))
    ensures Truthy(email) && Truthy(password) && found.NoUser? ==>
      h.reply == Reply(401, Mensaje("Usuario no encontrado"))
    ensures Truthy(email) && Truthy(password) && found.Found? && !matches(password.value, found.user.passwordHash) ==>
      h.reply == Reply(401, Mensaje("Contraseña incorrecta"))
  {
    if !Truthy(email) || !Truthy(password) then
      Handled(Reply(400, Mensaje("Faltan credenciales")), [])
    else
      var lookup := [FindByEmail(email.value)];
      match found
      case DbError => Handled(Reply(500, Mensaje("Error en la base de datos")), lookup)
      case NoUser => Handled(Reply(401, Mensaje("Usuario no encontrado")), lookup)
      case Found(user) =>
        if !matches(password.value, user.passwordHash) then
          Handled(Reply(401, Mensaje("Contraseña incorrecta")), lookup)
        else
          Handled(Reply(200, TokenBody(sign(Claims(user.email, user.rol)))), lookup)
  }

  /** Registering an email, then logging in with the same password, issues a token:
      the hash that was stored is the one the login checks against. */
  lemma RegisterThenLogin(email: string, password: string, rol: string, hashed: string,
                          matches: (string, string) -> bool, sign: Claims -> string)
    requires email != "" && password != ""
    requires matches(password, hashed)
    ensures var h := Register(Some(email), Some(password), Some(rol), NoUser, hashed, true);
      h.reply.code == 201 && h.ops[1] == Insert(email, hashed, Some(rol))
    ensures Login(Some(email), Some(password), Found(User(email, hashed, rol)), matches, sign).reply
      == Reply(200, TokenBody(sign(Claims(email, rol))))
  {
  }
}
