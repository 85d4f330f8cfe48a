/**
 * The two request hooks of `DatawizaSignIn` as functions from the site state
 * before the hook to the site state after it and how the request ends.
 * `logUserInWordpress` runs on `init`; `logUserOutOfAccessBroker` on `login_init`.
 */
module SignInFlow {
  import opened Wrappers
  import opened PhpStrings
  import opened Jwt
  import opened HeaderName
  import opened KeySelection

  const NoJwtMessage: string :=
    "Proxy Auth Plugin is enabled, but it does not receive the expected JWT. Please double check your reverse proxy configuration"
  const CannotVerifyMessage: string :=
    "Proxy Auth Plugin cannot verify the JWT. Please double check if your JWT's private secret is configured correctly"
  const NoEmailMessage: string :=
    "Proxy Auth Plugin expects email attribute to identify user, but it does not exist in the JWT. Please check your reverse proxy configuration"

  const LogoutLocation: string := "/ab-logout"

  /** A WordPress user as far as the plugin touches it. `id` 0 is WordPress's "nobody". */
  datatype User = User(id: nat, login: string, email: string, password: string, role: string)

  /**
   * What the hooks read and write: the plugin's `error` field, the user store
   * (looked up by email; `nextId` is the store's next auto-increment id), the
   * current user id (0 when nobody is logged in) and the user the auth cookie is
   * set for (`None` once it is cleared).
   */
  datatype Site = Site(error: Option<string>, users: map<string, User>, nextId: nat,
                       currentUser: nat, authCookie: Option<nat>)

  /** The store's own guarantees: users are filed under their email and have distinct positive ids below `nextId`. */
  ghost predicate ValidSite(s: Site) {
    && 0 < s.nextId
    && (forall e :: e in s.users ==> s.users[e].email == e && 0 < s.users[e].id < s.nextId)
    && (forall e, f :: e in s.users && f in s.users && e != f ==> s.users[e].id != s.users[f].id)
  }

  /** The options the plugin and WordPress read with `get_option`. */
  datatype Options = Options(jwtHeader: string, jwksUrl: string, privateSecret: string, defaultRole: string)

  /** The request superglobals: `$_SERVER` and `$_GET`. */
  datatype Request = Request(server: map<string, string>, query: map<string, string>)

  /**
   * What the hooks call but the plugin does not define: the JWKS fetched for this
   * request, the JWT decoder, `home_url()` and the password `wp_generate_password` returns.
   */
  datatype Env = Env(jwks: JwksOutcome, decode: Decoder, homeUrl: string, password: string)

  /** How a hook ends: it returns and the request goes on, or it redirects and `exit`s. */
  datatype Exit = Proceed | Redirect(location: string)

  datatype Step = Step(site: Site, exit: Exit)

  /** The token the request carries in the configured header, if any. */
  function Token(opts: Options, req: Request): (t: Option<string>)
    ensures t.Some? <==> GetHeader(opts.jwtHeader) in req.server
    ensures t.Some? ==> t.value == req.server[GetHeader(opts.jwtHeader)]
  {
    var header := GetHeader(opts.jwtHeader);
    if header in req.server then Some(req.server[header]) else None
  }

  /** `JWT::decode` of the token under the key `getKey` selects. */
  function Decode(token: string, opts: Options, env: Env): (d: DecodeOutcome)
    ensures opts.jwksUrl == "" ==> d == env.decode(token, StringKey(opts.privateSecret))
    ensures opts.jwksUrl != "" && env.jwks.ParseFailed? ==> d == env.decode(token, StringKey(""))
    ensures opts.jwksUrl != "" && env.jwks.Parsed? ==> d == env.decode(token, KeySetKey(env.jwks.keys))
    ensures d.Decoded? <==> VerifyToken(token, opts.jwksUrl, opts.privateSecret, env.jwks, env.decode)
  {
    env.decode(token, GetKey(opts.jwksUrl, opts.privateSecret, env.jwks))
  }

  /** Where the successful login sends the browser: `redirect_to` when given, else the home URL. */
  function RedirectTarget(req: Request, env: Env): (target: string)
    ensures "redirect_to" in req.query ==> target == req.query["redirect_to"]
    ensures "redirect_to" !in req.query ==> target == env.homeUrl
  {
    if "redirect_to" in req.query then req.query["redirect_to"] else env.homeUrl
  }

  /**
   * The success path of `logUserInWordpress`: find the user by email or create it
   * (login and email both the address), apply the role claim lower-cased, then
   * clear the auth cookie, make the user current, set its cookie and redirect.
   * What it does to the store is stated by SignInUserStore.
   */
  function SignInUser(s: Site, opts: Options, req: Request, env: Env, email: string, role: Option<string>): (r: Step)
    ensures email in r.site.users
    ensures r.site.currentUser == r.site.users[email].id && r.site.authCookie == Some(r.site.users[email].id)
    ensures r.site.error == s.error
    ensures r.exit == Redirect(RedirectTarget(req, env))
  {
    var (found, nextId) :=
      if email in s.users then (s.users[email], s.nextId)
      else (User(s.nextId, email, email, env.password, opts.defaultRole), s.nextId + 1);
    var user := if role.Some? then found.(role := ToLower(role.value)) else found;
    Step(s.(users := s.users[email := user], nextId := nextId,
            currentUser := user.id, authCookie := Some(user.id)),
         Redirect(RedirectTarget(req, env)))
  }

  /**
   * The store after the success path: an unknown email gains exactly one user with
   * the next id; a known one gains no entry; the role claim, when there is one,
   * becomes the user's role lower-cased; every other user is untouched.
   */
  lemma SignInUserStore(s: Site, opts: Options, req: Request, env: Env, email: string, role: Option<string>)
    ensures var r := SignInUser(s, opts, req, env, email, role);
            && (email !in s.users ==>
                  && r.site.users.Keys == s.users.Keys + {email}
                  && |r.site.users| == |s.users| + 1
                  && r.site.users[email].id == s.nextId && r.site.nextId == s.nextId + 1
                  && r.site.users[email].login == email && r.site.users[email].email == email
                  && r.site.users[email].password == env.password
                  && (role.None? ==> r.site.users[email].role == opts.defaultRole))
            && (email in s.users ==>
                  && r.site.users.Keys == s.users.Keys && r.site.nextId == s.nextId
                  && r.site.users[email] == (if role.Some? then s.users[email].(role := ToLower(role.value)) else s.users[email]))
            && (role.Some? ==> r.site.users[email].role == ToLower(role.value))
            && (forall e :: e in s.users && e != email ==> e in r.site.users && r.site.users[e] == s.users[e])
  {
  }

  /** The success path keeps the store's guarantees and leaves somebody logged in. */
  lemma SignInUserKeepsValid(s: Site, opts: Options, req: Request, env: Env, email: string, role: Option<string>)
    ensures var r := SignInUser(s, opts, req, env, email, role);
            ValidSite(s) ==> ValidSite(r.site) && r.site.currentUser != 0
  {
    if ValidSite(s) {
      var r := SignInUser(s, opts, req, env, email, role);
      var users := r.site.users;
      assert users.Keys == s.users.Keys + {email};
      forall e | e in users
        ensures users[e].email == e && 0 < users[e].id < r.site.nextId
      {
        if e != email {
          assert users[e] == s.users[e];
        }
      }
      forall e, f | e in users && f in users && e != f
        ensures users[e].id != users[f].id
      {
        if e != email && f != email {
          assert users[e] == s.users[e] && users[f] == s.users[f];
        } else if e == email {
          assert users[f] == s.users[f];
          if email in s.users {
            assert users[e].id == s.users[email].id;
          }
        } else {
          assert users[e] == s.users[e];
          if email in s.users {
            assert users[f].id == s.users[email].id;
          }
        }
      }
    }
  }

  /**
   * `logUserInWordpress`: the ordered chain of early exits (no token header,
   * signature invalid, other decode failure, no email claim, somebody already
   * logged in), then SignInUser.
   */
  function LogUserInWordpress(s: Site, opts: Options, req: Request, env: Env): (r: Step)
    ensures Token(opts, req).None? ==> r == Step(s.(error := Some(NoJwtMessage)), Proceed)
    ensures Token(opts, req).Some? && Decode(Token(opts, req).value, opts, env) == SignatureInvalid ==>
              r == Step(s.(error := Some(CannotVerifyMessage)), Proceed)
    ensures Token(opts, req).Some? && Decode(Token(opts, req).value, opts, env) == OtherError ==>
              r == Step(s, Proceed)
    ensures Token(opts, req).Some? && Decode(Token(opts, req).value, opts, env).Decoded? ==>
              var claims := Decode(Token(opts, req).value, opts, env).payload;
              && (claims.email.None? ==> r == Step(s.(error := Some(NoEmailMessage)), Proceed))
              && (claims.email.Some? && s.currentUser != 0 ==> r == Step(s, Proceed))
              && (claims.email.Some? && s.currentUser == 0 ==>
                    r == SignInUser(s, opts, req, env, claims.email.value, claims.role))
    ensures r.exit.Redirect? <==>
              && Token(opts, req).Some?
              && Decode(Token(opts, req).value, opts, env).Decoded?
              && Decode(Token(opts, req).value, opts, env).payload.email.Some?
              && s.currentUser == 0
    ensures r.exit.Proceed? ==> r.site == s.(error := r.site.error)
    ensures r.site.error != s.error ==> r.exit.Proceed? && r.site.error in {Some(NoJwtMessage), Some(CannotVerifyMessage), Some(NoEmailMessage)}
    ensures ValidSite(s) ==> ValidSite(r.site)
    ensures ValidSite(s) && r.exit.Redirect? ==> r.site.currentUser != 0
  {
    match Token(opts, req)
    case None => Step(s.(error := Some(NoJwtMessage)), Proceed)
    case Some(token) =>
      match Decode(token, opts, env)
      case SignatureInvalid => Step(s.(error := Some(CannotVerifyMessage)), Proceed)
      case OtherError => Step(s, Proceed)
      case Decoded(claims) =>
        if claims.email.None? then Step(s.(error := Some(NoEmailMessage)), Proceed)
        else if s.currentUser != 0 then Step(s, Proceed)
        else
          SignInUserKeepsValid(s, opts, req, env, claims.email.value, claims.role);
          SignInUser(s, opts, req, env, claims.email.value, claims.role)
  }

  /**
   * `logUserOutOfAccessBroker`: only with a token header that verifies and
   * `action=logout` does it clear the auth cookie and redirect to `/ab-logout`;
   * otherwise nothing changes.
   */
  function LogUserOutOfAccessBroker(s: Site, opts: Options, req: Request, env: Env): (r: Step)
    ensures r.exit.Redirect? <==>
              && Token(opts, req).Some?
              && VerifyToken(Token(opts, req).value, opts.jwksUrl, opts.privateSecret, env.jwks, env.decode)
              && "action" in req.query && req.query["action"] == "logout"
    ensures r.exit.Redirect? ==> r == Step(s.(authCookie := None), Redirect(LogoutLocation))
    ensures r.exit.Proceed? ==> r.site == s
  {
    var header := GetHeader(opts.jwtHeader);
    if header !in req.server ||
       !VerifyToken(req.server[header], opts.jwksUrl, opts.privateSecret, env.jwks, env.decode) then
      Step(s, Proceed)
    else if "action" !in req.query || req.query["action"] != "logout" then
      Step(s, Proceed)
    else
      Step(s.(authCookie := None), Redirect(LogoutLocation))
  }

  /** Logging in twice with the same token: the second `init` finds the user logged in and does nothing. */
  lemma SecondLogInIsNoOp(s: Site, opts: Options, req: Request, env: Env)
    requires ValidSite(s)
    requires LogUserInWordpress(s, opts, req, env).exit.Redirect?
    ensures var first := LogUserInWordpress(s, opts, req, env).site;
            LogUserInWordpress(first, opts, req, env) == Step(first, Proceed)
  {
  }

  /**
   * A JWKS that cannot be fetched or parsed never logs anybody in or changes the
   * store, provided the decoder refuses the empty key; no message is recorded for it.
   */
  lemma JwksFailureChangesNothing(s: Site, opts: Options, req: Request, env: Env)
    requires opts.jwksUrl != "" && env.jwks == ParseFailed
    requires forall t :: !env.decode(t, StringKey("")).Decoded?
    ensures var r := LogUserInWordpress(s, opts, req, env);
            && r.exit == Proceed
            && r.site.users == s.users && r.site.currentUser == s.currentUser && r.site.authCookie == s.authCookie
            && r.site.error in {s.error, Some(NoJwtMessage), Some(CannotVerifyMessage)}
  {
  }

  /**
   * The logout redirect needs exactly the token `logUserInWordpress` would get past
   * the decode step with. Both hooks are given one `Env`: the source fetches the
   * JWKS separately in each hook (`getKey` is called by both), so this assumes the
   * two fetches of one request return the same key set.
   */
  lemma LogoutTokenPassesLogin(s: Site, opts: Options, req: Request, env: Env)
    requires LogUserOutOfAccessBroker(s, opts, req, env).exit.Redirect?
    ensures var r := LogUserInWordpress(s, opts, req, env);
            r.site.error != s.error ==> r.site.error == Some(NoEmailMessage)
  {
  }
}
