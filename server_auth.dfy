/** The request guards and decision chains of the HTTP server: bearer
    token extraction (`authenticateToken`), the administrator check
    (`checkAdmin`), the socket handshake guard, and the `/api/login` and
    `/api/register` endpoints. Token verification, password hashing and
    the database are oracles passed in as parameters. */
module ServerAuth {
  import opened Js
  import opened Text
  import opened Wire

  /** `jwt.verify`: the claims a token carries, or `None` when the
      signature or expiry check fails. */
  type Verifier = string -> Option<Claims>

  /** The body of an HTTP reply. `sendStatus` replies carry `NoBody`. */
  datatype Body =
    | NoBody
    | ErrorBody(error: string)
    | TokenBody(payload: Claims)     // `{ token }`, the token signed over `payload`
    | MessageBody(message: string)

  datatype HttpReply = HttpReply(status: int, body: Body)

  /** A database call: the rows it returned, or the error it threw. */
  datatype DbReply<T> = Rows(rows: T) | DbError

  /** A row of the `users` table. */
  datatype UserRecord = UserRecord(id: int, username: string, passwordHash: string, role: string, status: string)

  const ServerError := "服务器错误"
  const Unauthorized := "无权访问"
  const BadCredentials := "用户名或密码错误"
  const UsernameTaken := "用户名已存在"
  const InviteMissing := "需要提供邀请码"
  const InviteInvalid := "无效的邀请码"
  const Registered := "注册成功"
  const TokenMissing := "未提供认证令牌"
  const AuthFailed := "认证失败"

  // ---------------------------------------------------------------------
  // authenticateToken and checkAdmin

  /** `authHeader && authHeader.split(' ')[1]`, with a falsy result
      (`undefined` or `''`) as `None`. */
  function BearerToken(header: Option<string>): (r: Option<string>)
    ensures r.Some? ==> r.value != "" && ' ' !in r.value
    ensures header.None? || header == Some("") ==> r.None?
  {
    if header.None? || header.value == "" then None
    else
      var pieces := Split(header.value, ' ');
      SplitPiecesFree(header.value, ' ');
      if |pieces| > 1 && pieces[1] != "" then Some(pieces[1]) else None
  }

  /** The token is the second space-separated piece of the header. */
  lemma BearerTokenIsSecondPiece(pieces: seq<string>)
    requires |pieces| >= 2 && pieces[1] != ""
    requires forall k :: 0 <= k < |pieces| ==> ' ' !in pieces[k]
    ensures BearerToken(Some(Join(pieces, ' '))) == Some(pieces[1])
  {
    SplitJoin(pieces, ' ');
  }

  /** `"Bearer " + token` yields `token`. */
  lemma BearerOfScheme(token: string)
    requires token != "" && ' ' !in token
    ensures BearerToken(Some("Bearer " + token)) == Some(token)
  {
    assert "Bearer " + token == Join(["Bearer", token], ' ');
    BearerTokenIsSecondPiece(["Bearer", token]);
  }

  /** A header without a space has no second piece, hence no token. */
  lemma BearerNeedsSpace(header: string)
    requires ' ' !in header
    ensures BearerToken(Some(header)) == None
  {
    SplitFree(header, ' ');
  }

  datatype Gate = Proceed(user: Claims) | Reject(reply: HttpReply)

  /** `authenticateToken`: 401 without a token, 403 when verification
      fails, otherwise the request continues with `req.user` set. */
  function AuthenticateToken(header: Option<string>, verify: Verifier): (r: Gate)
    ensures BearerToken(header).None? ==> r == Reject(HttpReply(401, NoBody))
    ensures BearerToken(header).Some? && verify(BearerToken(header).value).None? ==>
      r == Reject(HttpReply(403, NoBody))
    ensures r.Proceed? ==> BearerToken(header).Some? && verify(BearerToken(header).value) == Some(r.user)
    ensures BearerToken(header).Some? && verify(BearerToken(header).value).Some? ==>
      r == Proceed(verify(BearerToken(header).value).value)
  {
    match BearerToken(header)
    case None => Reject(HttpReply(401, NoBody))
    case Some(token) =>
      match verify(token)
      case None => Reject(HttpReply(403, NoBody))
      case Some(user) => Proceed(user)
  }

  /** Without a token the verifier is never consulted: any two verifiers
      give the same 401. */
  lemma NoTokenSkipsVerify(header: Option<string>, v1: Verifier, v2: Verifier)
    requires BearerToken(header).None?
    ensures AuthenticateToken(header, v1) == AuthenticateToken(header, v2) == Reject(HttpReply(401, NoBody))
  {
  }

  /** `checkAdmin`: 403 with an error body for every role but `'admin'`. */
  function CheckAdmin(user: Claims): (r: Gate)
    ensures r.Proceed? <==> user.role == "admin"
    ensures r.Proceed? ==> r.user == user
    ensures r.Reject? ==> r.reply == HttpReply(403, ErrorBody(Unauthorized))
  {
    if user.role != "admin" then Reject(HttpReply(403, ErrorBody(Unauthorized))) else Proceed(user)
  }

  /** `.all(authenticateToken, checkAdmin)` in front of the user routes. */
  function AdminChain(header: Option<string>, verify: Verifier): Gate
  {
    match AuthenticateToken(header, verify)
    case Reject(reply) => Reject(reply)
    case Proceed(user) => CheckAdmin(user)
  }

  /** The route handler runs exactly for a verified token whose claims
      carry the role `'admin'`; every other request is turned away with
      401 or 403. */
  lemma AdminChainReachesHandler(header: Option<string>, verify: Verifier)
    ensures AdminChain(header, verify).Proceed? <==>
      BearerToken(header).Some? && verify(BearerToken(header).value).Some?
      && verify(BearerToken(header).value).value.role == "admin"
    ensures AdminChain(header, verify).Reject? ==>
      AdminChain(header, verify).reply.status in {401, 403}
  {
  }

  // ---------------------------------------------------------------------
  // io.use handshake guard

  datatype Handshake = Admitted(user: Claims) | Refused(reason: string)

  /** The handshake guard on `socket.handshake.auth.token`. */
  function HandshakeGuard(token: Option<string>, verify: Verifier): (r: Handshake)
    ensures token.None? || token == Some("") ==> r == Refused(TokenMissing)
    ensures token.Some? && token.value != "" && verify(token.value).None? ==> r == Refused(AuthFailed)
    ensures r.Admitted? <==> token.Some? && token.value != "" && verify(token.value).Some?
    ensures r.Admitted? ==> Some(r.user) == verify(token.value)
  {
    if token.None? || token.value == "" then Refused(TokenMissing)
    else
      match verify(token.value)
      case None => Refused(AuthFailed)
      case Some(decoded) => Admitted(decoded)
  }

  // ---------------------------------------------------------------------
  // /api/login

  /** `/api/login`: look the user up, compare the password with bcrypt,
      and sign `{ id, username, role }`. `password` is the body's
      `password`, `None` when the body has none; `compare` is
      `bcrypt.compare` on two strings. `bcrypt.compare` rejects a missing
      password, and the rejection lands in the handler's `catch`. */
  function Login(lookup: DbReply<seq<UserRecord>>, password: Option<string>,
                 compare: (string, string) -> bool): (r: HttpReply)
    ensures r.status in {200, 401, 500}
    ensures r.status == 200 <==>
      lookup.Rows? && |lookup.rows| > 0 && password.Some? && compare(password.value, lookup.rows[0].passwordHash)
    ensures r.status == 200 ==>
      r.body == TokenBody(Claims(lookup.rows[0].id, lookup.rows[0].username, lookup.rows[0].role))
    ensures r.status == 401 ==> r.body == ErrorBody(BadCredentials)
    ensures r.status == 500 <==> lookup.DbError? || (lookup.Rows? && |lookup.rows| > 0 && password.None?)
    ensures r.status == 500 ==> r.body == ErrorBody(ServerError)
  {
    match lookup
    case DbError => HttpReply(500, ErrorBody(ServerError))
    case Rows(rows) =>
      if |rows| == 0 then HttpReply(401, ErrorBody(BadCredentials))
      else
        var user := rows[0];
        match password
        case None => HttpReply(500, ErrorBody(ServerError))
        case Some(p) =>
          if !compare(p, user.passwordHash) then HttpReply(401, ErrorBody(BadCredentials))
          else HttpReply(200, TokenBody(Claims(user.id, user.username, user.role)))
  }

  /** An unknown username and a wrong password get the same reply, so the
      endpoint does not tell which usernames exist from a login that
      sends a password. */
  lemma LoginHidesUnknownUser(user: UserRecord, password: string, compare: (string, string) -> bool)
    requires !compare(password, user.passwordHash)
    ensures Login(Rows([]), Some(password), compare) == Login(Rows([user]), Some(password), compare)
  {
  }

  /** A body without a password does tell: an unknown name gets 401, a
      known one the 500 of the rejected comparison. */
  lemma LoginWithoutPasswordRevealsUser(user: UserRecord, compare: (string, string) -> bool)
    ensures Login(Rows([]), None, compare) == HttpReply(401, ErrorBody(BadCredentials))
    ensures Login(Rows([user]), None, compare) == HttpReply(500, ErrorBody(ServerError))
  {
  }

  /** The account status is never consulted: a banned account with the
      right password still receives a token. */
  lemma LoginIgnoresStatus(user: UserRecord, password: string, compare: (string, string) -> bool)
    requires compare(password, user.passwordHash)
    ensures Login(Rows([user.(status := "banned")]), Some(password), compare).status == 200
    ensures Login(Rows([user.(status := "banned")]), Some(password), compare) == Login(Rows([user]), Some(password), compare)
  {
  }

  // ---------------------------------------------------------------------
  // /api/register

  /** `checkInviteCodeRequired` as written: always false. */
  function CheckInviteCodeRequired(): bool
  {
    false
  }

  /** `validateInviteCode` as written: every code is valid. */
  function ValidateInviteCode(code: string): bool
  {
    true
  }

  /** The request body; a missing `inviteCode` is `""` (both falsy), a
      missing `password` is `None`. */
  datatype RegisterRequest = RegisterRequest(username: string, password: Option<string>, inviteCode: string)

  /** The reply together with the two effects: the user row inserted (by
      username) and the invite code marked as used. */
  datatype RegisterOutcome = RegisterOutcome(reply: HttpReply, created: Option<string>, inviteMarked: bool)

  /** `/api/register` with its collaborators' answers as parameters:
      `existing` is the username lookup, `required` what
      `checkInviteCodeRequired` says, `inviteValid` what
      `validateInviteCode` says and `insert` the outcome of the INSERT.
      `bcrypt.hashSync` throws on a missing password before the INSERT
      is sent, and the `catch` answers 500. */
  function Register(req: RegisterRequest, existing: DbReply<seq<UserRecord>>, required: bool,
                    inviteValid: bool, insert: DbReply<UserRecord>): (r: RegisterOutcome)
    // a taken username is refused before any invite check or insert
    ensures existing.Rows? && |existing.rows| > 0 ==>
      r == RegisterOutcome(HttpReply(400, ErrorBody(UsernameTaken)), None, false)
    // an invite that is required but missing or invalid is refused, nothing inserted
    ensures existing.Rows? && |existing.rows| == 0 && required && req.inviteCode == "" ==>
      r == RegisterOutcome(HttpReply(400, ErrorBody(InviteMissing)), None, false)
    ensures existing.Rows? && |existing.rows| == 0 && required && req.inviteCode != "" && !inviteValid ==>
      r == RegisterOutcome(HttpReply(400, ErrorBody(InviteInvalid)), None, false)
    // a user is created exactly on the 201 path, and always under the requested name
    ensures r.created.Some? <==> r.reply.status == 201
    ensures r.created.Some? ==> r.created.value == req.username && r.reply.body == MessageBody(Registered)
    // the invite is marked only when it was required and supplied, and the user was created
    ensures r.inviteMarked ==> required && req.inviteCode != "" && r.created.Some?
    ensures r.created.Some? && required ==> r.inviteMarked
    ensures r.reply.status in {201, 400, 500}
    // a free name with the invite requirement met is registered exactly when
    // a password was sent and the insert succeeds
    ensures existing.Rows? && |existing.rows| == 0 && (!required || (req.inviteCode != "" && inviteValid)) ==>
      (r.reply.status == 201 <==> req.password.Some? && insert.Rows?)
    // a failed lookup, a missing password past the checks, or a failed insert is a 500 that creates nothing
    ensures existing.DbError? ==> r == RegisterOutcome(HttpReply(500, ErrorBody(ServerError)), None, false)
    ensures (existing.Rows? && |existing.rows| == 0 && (!required || (req.inviteCode != "" && inviteValid))
             && (req.password.None? || insert.DbError?)) ==>
      r == RegisterOutcome(HttpReply(500, ErrorBody(ServerError)), None, false)
  {
    match existing
    case DbError => RegisterOutcome(HttpReply(500, ErrorBody(ServerError)), None, false)
    case Rows(rows) =>
      if |rows| > 0 then RegisterOutcome(HttpReply(400, ErrorBody(UsernameTaken)), None, false)
      else if required && req.inviteCode == "" then
        RegisterOutcome(HttpReply(400, ErrorBody(InviteMissing)), None, false)
      else if required && !inviteValid then
        RegisterOutcome(HttpReply(400, ErrorBody(InviteInvalid)), None, false)
      else if req.password.None? then
        RegisterOutcome(HttpReply(500, ErrorBody(ServerError)), None, false)
      else
        match insert
        case DbError => RegisterOutcome(HttpReply(500, ErrorBody(ServerError)), None, false)
        case Rows(_) =>
          RegisterOutcome(HttpReply(201, MessageBody(Registered)), Some(req.username), required && req.inviteCode != "")
  }

  /** A body without a password passes every check and still fails:
      `bcrypt.hashSync` throws, so the reply is a 500 and no user is
      created, whatever the insert would have done. */
  lemma RegisterWithoutPasswordFails(username: string, inviteCode: string, insert: DbReply<UserRecord>)
    ensures Register(RegisterRequest(username, None, inviteCode), Rows([]), CheckInviteCodeRequired(),
                     ValidateInviteCode(inviteCode), insert)
      == RegisterOutcome(HttpReply(500, ErrorBody(ServerError)), None, false)
  {
  }

  /** With the collaborators as deployed (no invite ever required) the
      invite code plays no part: registration succeeds exactly when the
      username is free, a password was sent and the insert goes through,
      and no code is ever marked. */
  lemma RegisterAsDeployed(req: RegisterRequest, existing: DbReply<seq<UserRecord>>, insert: DbReply<UserRecord>)
    ensures var r := Register(req, existing, CheckInviteCodeRequired(), ValidateInviteCode(req.inviteCode), insert);
      && !r.inviteMarked
      && (r.reply.status == 201 <==> existing.Rows? && |existing.rows| == 0 && req.password.Some? && insert.Rows?)
      && r.reply.body != ErrorBody(InviteMissing) && r.reply.body != ErrorBody(InviteInvalid)
  {
  }
}
