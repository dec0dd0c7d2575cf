/** The application object: global options, the client's construction, the
    authentication token's lifecycle, and the older `user create` command
    that lives beside it. */
module Cli {
  import opened Wrappers
  import opened PyJson
  import opened Client
  import UserCommands

  // ---------------------------------------------------------------------
  // Global options and the client's keyword arguments
  // ---------------------------------------------------------------------

  /** The global options, each `None` when absent. */
  datatype Options = Options(
    hostname: Option<string>,
    port: Option<string>,
    verify: Option<string>,
    token: Option<string>,
    username: Option<string>,
    password: Option<string>,
    backend: Option<string>)

  /** What `--verify` asks of the client's TLS layer. */
  datatype VerifyMode = Verify | SkipVerify | CaBundle(path: string)

  /** `--verify`: the two spellings of true and of false are keywords, any
      other non-empty string is a certificate bundle path, and an absent or
      empty option sets nothing. */
  function ClassifyVerify(v: Option<string>): (m: Option<VerifyMode>)
    ensures m == None <==> !Supplied(v)
    ensures m == Some(Verify) <==> v == Some("true") || v == Some("True")
    ensures m == Some(SkipVerify) <==> v == Some("false") || v == Some("False")
    ensures (m.Some? && m.value.CaBundle?) <==>
      Supplied(v) && v.value !in {"true", "True", "false", "False"}
    ensures m.Some? && m.value.CaBundle? ==> m.value.path == v.value
  {
    if !Supplied(v) then None
    else if v.value in {"true", "True"} then Some(Verify)
    else if v.value in {"false", "False"} then Some(SkipVerify)
    else Some(CaBundle(v.value))
  }

  /** The `verify_certificate` value handed to the client. */
  function VerifyArgument(m: VerifyMode): Json {
    match m
    case Verify => JBool(true)
    case SkipVerify => JBool(false)
    case CaBundle(path) => JStr(path)
  }

  /** A spelling of each mode that `--verify` reads back as that mode. */
  function VerifyText(m: VerifyMode): string {
    match m
    case Verify => "true"
    case SkipVerify => "false"
    case CaBundle(path) => path
  }

  /** Every mode can be asked for on the command line, except a certificate
      bundle whose path is empty or spelled like a keyword. */
  lemma ClassifyVerifyRoundTrip(m: VerifyMode)
    requires m.CaBundle? ==> m.path != "" && m.path !in {"true", "True", "false", "False"}
    ensures ClassifyVerify(Some(VerifyText(m))) == Some(m)
  {
  }

  /** The keys the client can be given. */
  const ClientKeys: set<string> := {"host", "username", "password", "port", "verify_certificate"}

  function WithOption(kwargs: map<string, Json>, key: string, o: Option<string>): map<string, Json> {
    if Supplied(o) then kwargs[key := JStr(o.value)] else kwargs
  }

  /** `client_kwargs` of `initialize_app`: `host` always (None when no
      hostname was given); `username`, `password`, `port` and
      `verify_certificate` exactly when the option is non-empty. */
  function ClientKwargs(opts: Options): (kw: map<string, Json>)
    ensures "host" in kw && kw["host"] == OptJson(opts.hostname)
    ensures "username" in kw <==> Supplied(opts.username)
    ensures "password" in kw <==> Supplied(opts.password)
    ensures "port" in kw <==> Supplied(opts.port)
    ensures "verify_certificate" in kw <==> Supplied(opts.verify)
    ensures "username" in kw ==> kw["username"] == JStr(opts.username.value)
    ensures "password" in kw ==> kw["password"] == JStr(opts.password.value)
    ensures "port" in kw ==> kw["port"] == JStr(opts.port.value)
    ensures "verify_certificate" in kw ==>
      ClassifyVerify(opts.verify).Some? &&
      kw["verify_certificate"] == VerifyArgument(ClassifyVerify(opts.verify).value)
    ensures kw.Keys <= ClientKeys
  {
    var kw := map["host" := OptJson(opts.hostname)];
    var kw := WithOption(kw, "username", opts.username);
    var kw := WithOption(kw, "password", opts.password);
    var kw := WithOption(kw, "port", opts.port);
    match ClassifyVerify(opts.verify)
    case None => kw
    case Some(m) => kw["verify_certificate" := VerifyArgument(m)]
  }

  // ---------------------------------------------------------------------
  // The token's lifecycle
  // ---------------------------------------------------------------------

  /** Lifetime, in seconds, of a token the application asks for itself. */
  const TokenExpiration: int := 3600

  /** The application's token state: `_current_token`, `_auth_token` and
      `_remove_token` (whether the token was issued for this run and must be
      revoked). */
  datatype Session = Session(currentToken: Json, authToken: Json, removeToken: bool)

  /** The state the constructor leaves: no current token, nothing to revoke.
      `_auth_token` is not set before `initialize_app`; None stands for it. */
  function Fresh(): (s: Session)
    ensures !s.removeToken && s.currentToken == JNull
  {
    Session(JNull, JNull, false)
  }

  predicate IsTokenRequest(c: Call) {
    c.TokenNew?
  }

  predicate IsRevoke(c: Call) {
    c.TokenRevoke?
  }

  /** `initialize_app`: build the client, then adopt `--token` as it is, or
      ask for a one-hour token on the given backend and take ownership of it;
      either way the client is given the token. A failed token request
      aborts start-up. */
  function Initialize(server: Server, s: Session, opts: Options): (r: Run<Session>)
    ensures |r.calls| >= 2 && r.calls[0] == NewClient(ClientKwargs(opts))
    ensures Supplied(opts.token) ==>
      && r.calls == [NewClient(ClientKwargs(opts)), SetToken(JStr(opts.token.value))]
      && r.outcome == Ok(s.(authToken := JStr(opts.token.value)))
    ensures !Supplied(opts.token) ==>
      r.calls[1] == TokenNew(OptJson(opts.backend), 3600) && Count(r.calls, IsTokenRequest) == 1
    ensures r.outcome.Ok? ==>
      && r.calls[|r.calls| - 1] == SetToken(r.outcome.value.authToken)
      && r.outcome.value.currentToken == s.currentToken
    ensures r.outcome.Ok? && !Supplied(opts.token) ==>
      && r.outcome.value.removeToken
      && IssuedToken(server, opts) == Ok(r.outcome.value.authToken)
    ensures r.outcome.Err? <==> !Supplied(opts.token) && IssuedToken(server, opts).Err?
    ensures !Supplied(opts.token) ==>
      && r.calls[..2] == [NewClient(ClientKwargs(opts)), TokenNew(OptJson(opts.backend), 3600)]
      && |r.calls| == (if r.outcome.Ok? then 3 else 2)
    ensures r.outcome.Err? ==> r.outcome.error == IssuedToken(server, opts).error
    ensures Count(r.calls, IsRevoke) == 0
  {
    var create := NewClient(ClientKwargs(opts));
    if Supplied(opts.token) then
      var token := JStr(opts.token.value);
      Run([create, SetToken(token)], Ok(s.(authToken := token)))
    else
      var request := TokenNew(OptJson(opts.backend), TokenExpiration);
      match IssuedToken(server, opts)
      case Err(e) => Run([create, request], Err(e))
      case Ok(token) =>
        var calls := [create, request, SetToken(token)];
        assert calls[1..][1..] == [SetToken(token)] && calls[1..][1..][1..] == [];
        assert Count(calls[1..][1..], IsTokenRequest) == 0;
        Run(calls, Ok(s.(authToken := token, removeToken := true)))
  }

  /** `token_data['token']` of the token request. */
  function IssuedToken(server: Server, opts: Options): Result<Json, Error> {
    var data :- server(TokenNew(OptJson(opts.backend), TokenExpiration));
    Subscript(data, "token")
  }

  /** What a teardown leaves: the session, the calls it made, and what it
      returns (or the error that escaped it). */
  datatype Teardown<R> = Teardown(session: Session, calls: seq<Call>, outcome: Result<R, Error>)

  /** `clean_up` as written: when the token is owned it revokes
      `_current_token` (which nothing but the constructor assigns) and clears
      the flag; the command's result comes back unchanged. A revocation that
      raises leaves the flag set and escapes. `err` is only logged. */
  function CleanUp<R>(server: Server, s: Session, result: R, err: Option<Error>): (t: Teardown<R>)
    ensures t.outcome.Ok? ==> t.outcome.value == result
    ensures t.calls == (if s.removeToken then [TokenRevoke(s.currentToken)] else [])
    ensures t.outcome.Err? <==> s.removeToken && server(TokenRevoke(s.currentToken)).Err?
    ensures s.removeToken && server(TokenRevoke(s.currentToken)).Err? ==>
      t.outcome == Err(server(TokenRevoke(s.currentToken)).error)
    ensures t.session.removeToken <==> t.outcome.Err?
    ensures t.session.currentToken == s.currentToken && t.session.authToken == s.authToken
  {
    Revoking(server, s, s.currentToken, result)
  }

  /** `clean_up` as evidently intended: the same, revoking the token the
      application was actually issued, `_auth_token`. */
  function CleanUpIntended<R>(server: Server, s: Session, result: R, err: Option<Error>): (t: Teardown<R>)
    ensures t.outcome.Ok? ==> t.outcome.value == result
    ensures t.calls == (if s.removeToken then [TokenRevoke(s.authToken)] else [])
    ensures t.outcome.Err? <==> s.removeToken && server(TokenRevoke(s.authToken)).Err?
    ensures s.removeToken && server(TokenRevoke(s.authToken)).Err? ==>
      t.outcome == Err(server(TokenRevoke(s.authToken)).error)
    ensures t.session.removeToken <==> t.outcome.Err?
    ensures t.session.currentToken == s.currentToken && t.session.authToken == s.authToken
  {
    Revoking(server, s, s.authToken, result)
  }

  function Revoking<R>(server: Server, s: Session, token: Json, result: R): Teardown<R> {
    if s.removeToken then
      var revoke := TokenRevoke(token);
      match server(revoke)
      case Err(e) => Teardown(s, [revoke], Err(e))
      case Ok(_) => Teardown(s.(removeToken := false), [revoke], Ok(result))
    else Teardown(s, [], Ok(result))
  }

  /** A teardown that went through leaves nothing to revoke: a second one
      makes no call and changes nothing. */
  lemma CleanUpIdempotent<R>(server: Server, s: Session, result: R, err: Option<Error>)
    requires CleanUp(server, s, result, err).outcome.Ok?
    ensures var t := CleanUp(server, s, result, err);
      var t2 := CleanUp(server, t.session, result, err);
      t2.calls == [] && t2.session == t.session && t2.outcome == Ok(result)
  {
  }

  /** The error handed to `clean_up` changes nothing it does. */
  lemma CleanUpIgnoresError<R>(server: Server, s: Session, result: R, e1: Option<Error>, e2: Option<Error>)
    ensures CleanUp(server, s, result, e1) == CleanUp(server, s, result, e2)
  {
  }

  /** As written, the token issued at start-up is never the one revoked:
      whatever the service issues, `clean_up` revokes None. */
  lemma RevokesUnsetToken<R>(server: Server, opts: Options, result: R, err: Option<Error>)
    requires !Supplied(opts.token)
    requires Initialize(server, Fresh(), opts).outcome.Ok?
    ensures var s := Initialize(server, Fresh(), opts).outcome.value;
      s.removeToken && CleanUp(server, s, result, err).calls == [TokenRevoke(JNull)]
  {
  }

  /** A service that issues the token "abc". */
  function IssuesAbc(c: Call): Result<Json, Error> {
    if c.TokenNew? then Ok(JObject(map["token" := JStr("abc")])) else Ok(JNull)
  }

  /** The concrete run that shows it: token "abc" is issued and owned, and
      teardown revokes None instead of "abc". */
  lemma RevokesUnsetTokenExample()
    ensures var opts := Options(None, None, None, None, Some("alice"), Some("secret"), None);
      var s := Initialize(IssuesAbc, Fresh(), opts).outcome;
      && s == Ok(Session(JNull, JStr("abc"), true))
      && CleanUp(IssuesAbc, s.value, 0, None).calls == [TokenRevoke(JNull)]
      && CleanUp(IssuesAbc, s.value, 0, None).calls != [TokenRevoke(JStr("abc"))]
  {
  }

  /** With the intended teardown, the issued token is the one revoked. */
  lemma RevokesIssuedToken<R>(server: Server, opts: Options, result: R, err: Option<Error>)
    requires !Supplied(opts.token)
    requires Initialize(server, Fresh(), opts).outcome.Ok?
    ensures var s := Initialize(server, Fresh(), opts).outcome.value;
      CleanUpIntended(server, s, result, err).calls == [TokenRevoke(s.authToken)]
      && Ok(s.authToken) == IssuedToken(server, opts)
  {
  }

  /** One process run with the corrected teardown `CleanUpIntended`:
      start-up, the command (whose calls and outcome are given), then
      teardown whatever the command's outcome. A failed start-up
      runs no command. The command's outcome is what the run reports; an
      error escaping teardown is only logged. */
  function Invocation<R>(server: Server, opts: Options, command: Run<R>): (r: Run<R>)
    requires Count(command.calls, IsRevoke) == 0
    ensures Initialize(server, Fresh(), opts).outcome.Err? ==>
      r.calls == Initialize(server, Fresh(), opts).calls &&
      r.outcome == Err(Initialize(server, Fresh(), opts).outcome.error)
    ensures Initialize(server, Fresh(), opts).outcome.Ok? ==> r.outcome == command.outcome
    ensures var boot := Initialize(server, Fresh(), opts);
      boot.outcome.Ok? ==>
        && |r.calls| == |boot.calls| + |command.calls| + (if boot.outcome.value.removeToken then 1 else 0)
        && r.calls[..|boot.calls|] == boot.calls
        && r.calls[|boot.calls|..|boot.calls| + |command.calls|] == command.calls
    ensures Supplied(opts.token) ==> Count(r.calls, IsRevoke) == 0
    ensures !Supplied(opts.token) && Initialize(server, Fresh(), opts).outcome.Ok? ==>
      && Count(r.calls, IsRevoke) == 1
      && r.calls[|r.calls| - 1] == TokenRevoke(Initialize(server, Fresh(), opts).outcome.value.authToken)
  {
    var boot := Initialize(server, Fresh(), opts);
    match boot.outcome
    case Err(e) => Run(boot.calls, Err(e))
    case Ok(s) =>
      var err := if command.outcome.Err? then Some(command.outcome.error) else None;
      var t := CleanUpIntended(server, s, command.outcome, err);
      CountAppend(boot.calls, command.calls, IsRevoke);
      CountAppend(boot.calls + command.calls, t.calls, IsRevoke);
      assert t.calls == [] || Count(t.calls, IsRevoke) == 1;
      Run(boot.calls + command.calls + t.calls, command.outcome)
  }

  /** One process run as the code stands, tearing down with `CleanUp`: the
      same shape as `Invocation`, except that an owned token's teardown
      revokes None, not the token that was issued. */
  function InvocationAsWritten<R>(server: Server, opts: Options, command: Run<R>): (r: Run<R>)
    requires Count(command.calls, IsRevoke) == 0
    ensures Initialize(server, Fresh(), opts).outcome.Err? ==>
      r.calls == Initialize(server, Fresh(), opts).calls &&
      r.outcome == Err(Initialize(server, Fresh(), opts).outcome.error)
    ensures Initialize(server, Fresh(), opts).outcome.Ok? ==> r.outcome == command.outcome
    ensures var boot := Initialize(server, Fresh(), opts);
      boot.outcome.Ok? ==>
        && |r.calls| == |boot.calls| + |command.calls| + (if boot.outcome.value.removeToken then 1 else 0)
        && r.calls[..|boot.calls|] == boot.calls
        && r.calls[|boot.calls|..|boot.calls| + |command.calls|] == command.calls
    ensures Supplied(opts.token) ==> Count(r.calls, IsRevoke) == 0
    ensures !Supplied(opts.token) && Initialize(server, Fresh(), opts).outcome.Ok? ==>
      && Count(r.calls, IsRevoke) == 1
      && r.calls[|r.calls| - 1] == TokenRevoke(JNull)
  {
    var boot := Initialize(server, Fresh(), opts);
    match boot.outcome
    case Err(e) => Run(boot.calls, Err(e))
    case Ok(s) =>
      var err := if command.outcome.Err? then Some(command.outcome.error) else None;
      var t := CleanUp(server, s, command.outcome, err);
      CountAppend(boot.calls, command.calls, IsRevoke);
      CountAppend(boot.calls + command.calls, t.calls, IsRevoke);
      assert t.calls == [] || Count(t.calls, IsRevoke) == 1;
      Run(boot.calls + command.calls + t.calls, command.outcome)
  }

  // ---------------------------------------------------------------------
  // The older `user create`
  // ---------------------------------------------------------------------

  /** Its arguments: the username, the required `--email` and the optional
      `--passwd`. */
  datatype LegacyCreateArgs = LegacyCreateArgs(name: string, email: string, passwd: Option<string>)

  /** Its request body: always exactly `username`, `email_address` and
      `password`, the password None when `--passwd` is absent. */
  function LegacyCreateBody(a: LegacyCreateArgs): (body: map<string, Json>)
    ensures body.Keys == {"username", "email_address", "password"}
    ensures body["username"] == JStr(a.name) && body["email_address"] == JStr(a.email)
    ensures a.passwd.None? ==> body["password"] == JNull
    ensures a.passwd.Some? ==> body["password"] == JStr(a.passwd.value)
  {
    map["username" := JStr(a.name), "email_address" := JStr(a.email), "password" := OptJson(a.passwd)]
  }

  /** The older command: one creation call; its reply is what gets printed. */
  function LegacyCreateUser(server: Server, a: LegacyCreateArgs): (r: Run<Json>)
    ensures |r.calls| == 1 && r.calls[0].UsersNew?
    ensures r.calls[0].body.Keys == {"username", "email_address", "password"}
    ensures r.calls[0].body["username"] == JStr(a.name)
    ensures r.calls[0].body["email_address"] == JStr(a.email)
    ensures r.calls[0].body["password"] == (if a.passwd.Some? then JStr(a.passwd.value) else JNull)
    ensures r.outcome == server(r.calls[0])
  {
    var call := UsersNew(LegacyCreateBody(a));
    Run([call], server(call))
  }

  /** The two `user create` commands send the same body when given the same
      username, password and non-empty email and nothing else; they differ
      when the email is empty (the older one still sends it) and when no
      password is given (the older one sends None). */
  lemma CreateBodiesAgree(name: string, password: string, email: string)
    ensures email != "" ==>
      UserCommands.CreateBody(UserCommands.CreateArgs(name, password, None, Some(email), None, None))
      == LegacyCreateBody(LegacyCreateArgs(name, email, Some(password)))
    ensures email == "" ==>
      "email_address" !in UserCommands.CreateBody(UserCommands.CreateArgs(name, password, None, Some(email), None, None))
      && "email_address" in LegacyCreateBody(LegacyCreateArgs(name, email, Some(password)))
    ensures LegacyCreateBody(LegacyCreateArgs(name, email, None))["password"] == JNull
  {
  }
}
