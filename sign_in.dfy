/**
 * The `DatawizaSignIn` object and the WordPress state its hooks change: the
 * `error` field, the user store and the session. Each hook is a method with the
 * source's early returns, proved to leave exactly the state the matching
 * SignInFlow function describes.
 */
module SignIn {
  import opened Wrappers
  import opened PhpStrings
  import opened Jwt
  import opened HeaderName
  import opened KeySelection
  import opened SignInFlow

  class DatawizaSignIn {
    /** The last recorded failure; both notice renderers read it and neither clears it. */
    var error: Option<string>
    /** The WordPress user store, looked up by email, and its next auto-increment id. */
    var users: map<string, User>
    var nextId: nat
    /** `wp_get_current_user()->ID`; 0 when nobody is logged in. */
    var currentUser: nat
    /** The user the auth cookie is set for; `None` once `wp_clear_auth_cookie` ran. */
    var authCookie: Option<nat>

    function State(): Site
      reads this
    {
      Site(error, users, nextId, currentUser, authCookie)
    }

    ghost predicate Valid()
      reads this
    {
      ValidSite(State())
    }

    /** A fresh plugin object over the site's existing store and session; `error` starts unset. */
    constructor (users: map<string, User>, nextId: nat, currentUser: nat, authCookie: Option<nat>)
      requires ValidSite(Site(None, users, nextId, currentUser, authCookie))
      ensures Valid()
      ensures State() == Site(None, users, nextId, currentUser, authCookie)
    {
      this.error := None;
      this.users := users;
      this.nextId := nextId;
      this.currentUser := currentUser;
      this.authCookie := authCookie;
    }

    /** `logUserInWordpress`, run on `init`. */
    method LogUserInWordpress(opts: Options, req: Request, env: Env) returns (exit: Exit)
      requires Valid()
      modifies this
      ensures Valid()
      ensures Step(State(), exit) == SignInFlow.LogUserInWordpress(old(State()), opts, req, env)
    {
      var jwtHeader := GetHeader(opts.jwtHeader);
      if jwtHeader !in req.server {
        error := Some(NoJwtMessage);
        return Proceed;
      }
      var token := req.server[jwtHeader];
      assert Token(opts, req) == Some(token);
      var key := GetKey(opts.jwksUrl, opts.privateSecret, env.jwks);
      assert Decode(token, opts, env) == env.decode(token, key);
      var payload: Claims;
      match env.decode(token, key) {
        case SignatureInvalid =>
          error := Some(CannotVerifyMessage);
          return Proceed;
        case OtherError =>
          return Proceed;
        case Decoded(claims) =>
          payload := claims;
      }

      if payload.email.None? {
        error := Some(NoEmailMessage);
        return Proceed;
      }
      var email := payload.email.value;

      if currentUser != 0 {
        return Proceed;
      }

      exit := SignInUser(opts, req, env, email, payload.role);
    }

    /**
     * The success path of `logUserInWordpress`: find or create the user, apply the
     * role claim, replace the session and redirect.
     */
    method SignInUser(opts: Options, req: Request, env: Env, email: string, role: Option<string>) returns (exit: Exit)
      requires Valid()
      modifies this
      ensures Valid()
      ensures Step(State(), exit) == SignInFlow.SignInUser(old(State()), opts, req, env, email, role)
    {
      ghost var s0 := State();
      if email !in users {
        var userId := nextId;
        users := users[email := User(userId, email, email, env.password, opts.defaultRole)];
        nextId := nextId + 1;
      }
      var user := users[email];
      if role.Some? {
        user := user.(role := ToLower(role.value));
        users := users[email := user];
      }
      assert users == s0.users[email := user];

      authCookie := None;
      currentUser := user.id;
      authCookie := Some(user.id);
      exit := Redirect(RedirectTarget(req, env));
      assert Step(State(), exit) == SignInFlow.SignInUser(s0, opts, req, env, email, role);
      SignInUserKeepsValid(s0, opts, req, env, email, role);
    }

    /** `logUserOutOfAccessBroker`, run on `login_init`. */
    method LogUserOutOfAccessBroker(opts: Options, req: Request, env: Env) returns (exit: Exit)
      requires Valid()
      modifies this
      ensures Valid()
      ensures Step(State(), exit) == SignInFlow.LogUserOutOfAccessBroker(old(State()), opts, req, env)
    {
      var jwtHeader := GetHeader(opts.jwtHeader);
      if jwtHeader !in req.server ||
         !VerifyToken(req.server[jwtHeader], opts.jwksUrl, opts.privateSecret, env.jwks, env.decode) {
        return Proceed;
      }
      if "action" !in req.query || req.query["action"] != "logout" {
        return Proceed;
      }
      authCookie := None;
      exit := Redirect(LogoutLocation);
    }
  }
}
