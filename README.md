# Datawiza Proxy Auth Plugin: a Dafny model of the sign-in core

The plugin (`datawiza-widget.php`) lets a reverse proxy log users into WordPress.
The proxy sends a signed JWT in a configurable HTTP header. On every request the
`init` hook (`logUserInWordpress`) reads that header. It decodes the token with
the shared secret or with a JWK set fetched from a URL. It then finds or creates
the WordPress user named by the `email` claim, applies the `role` claim, starts
a session and redirects. The `login_init` hook (`logUserOutOfAccessBroker`)
turns a logout on the login page into a redirect to the proxy's `/ab-logout`
endpoint, but only while the proxy still sends a valid token.

The model has these modules:

- `PhpStrings`: `strtoupper`, `strtolower` and `str_replace("-", "_", …)` on ASCII.
- `HeaderName`: `getHeader`, the `$_SERVER` key of the configured header. This is the meta-variable naming rule of section 4.1.18 of RFC 3875.
- `Jwt`: the shapes the JWT library returns. These are claims, keys, JWK sets, and the three decode outcomes: payload, `SignatureInvalidException`, any other exception.
- `KeySelection`: `getKey` and `verifyToken`.
- `SignInFlow`: both hooks as functions on a `Site` value, with their branch-by-branch contracts and lemmas relating calls. A `Site` holds the `error` field, the user store, the next user id, the current user and the auth-cookie user.
- `SignIn`: the `DatawizaSignIn` class. Its fields are the state the hooks change. Its methods follow the source's early returns. Each is proved to produce exactly the state and exit that the matching `SignInFlow` function gives.

Inputs that the source gets from WordPress, PHP or the network are parameters:

- the options (`get_option`),
- `$_SERVER` and `$_GET`,
- the fetched-and-parsed JWK set,
- the decoder (a function from token and key to outcome),
- `home_url()`,
- the generated password.

## Model

| member | source | states |
|---|---|---|
| PhpStrings.UpperChar | datawiza-widget.php:175 | the result is never a lower-case ASCII letter; it is an upper-case letter exactly when the input was a letter of either case; a lower-case letter becomes the upper-case letter at the same place in the alphabet; every other character is kept |
| PhpStrings.LowerChar | datawiza-widget.php:108 | the result is never an upper-case ASCII letter; it is a lower-case letter exactly when the input was a letter of either case; an upper-case letter becomes the lower-case letter at the same place in the alphabet; every other character is kept |
| PhpStrings.UpperOfLower | datawiza-widget.php:175 | upper-casing forgets case: a lower-cased character upper-cases to the same character as the original |
| PhpStrings.ToUpper | datawiza-widget.php:175 | `strtoupper` keeps the length and maps each position through UpperChar |
| PhpStrings.ToLower | datawiza-widget.php:108 | `strtolower` keeps the length and maps each position through LowerChar |
| PhpStrings.DashesToUnderscores | datawiza-widget.php:175 | `str_replace("-", "_", …)` keeps the length, turns each `-` into `_`, keeps every other character, and leaves no `-` |
| PhpStrings.ToLowerIdempotent | datawiza-widget.php:108 | a lower-cased role has no upper-case letter, and lower-casing it again changes nothing |
| PhpStrings.UpperAndReplaceCommute | datawiza-widget.php:175 | upper-casing then replacing dashes gives the same string as the other order |
| HeaderName.MetaChar | datawiza-widget.php:172-176 | a header-name character becomes neither `-` nor a lower-case letter in the `$_SERVER` key: `-` becomes `_` and every other character goes through UpperChar |
| HeaderName.GetHeader | datawiza-widget.php:172-176 | the key starts with `HTTP_`, is 5 longer than the configured name, has no `-` and no lower-case letter, and position 5+i is MetaChar of name position i, so every character that is neither `-` nor lower-case stays in place |
| HeaderName.GetHeaderCollides | datawiza-widget.php:172-176 | two configured names select the same `$_SERVER` entry if and only if they agree position by position up to case and `-`/`_` |
| HeaderName.GetHeaderIgnoresCase | datawiza-widget.php:172-176 | lower-casing or upper-casing the configured name does not change the selected entry |
| HeaderName.DashAndUnderscoreCollide | datawiza-widget.php:172-176 | the configured names `X-Jwt` and `x_jwt` select the same `$_SERVER` entry, so the plugin cannot tell the two headers apart |
| KeySelection.GetKey | datawiza-widget.php:156-170 | with an empty JWKS URL the key is the shared secret; otherwise it is the parsed key set, or the empty string when fetching or parsing threw; a key set comes back exactly when a URL is set and parsing succeeded |
| KeySelection.SecretOnlyWithoutJwks | datawiza-widget.php:156-170 | for a non-empty secret, the secret is the key if and only if the JWKS URL is empty |
| KeySelection.VerifyToken | datawiza-widget.php:143-154 | true exactly when the token decodes under the key GetKey selects; a signature failure and any other failure both give false |
| KeySelection.JwksFailureRejectsEveryToken | datawiza-widget.php:143-170 | if the decoder refuses an empty key, then a JWKS that fails to fetch or parse makes every token fail verification |
| SignInFlow.Token | datawiza-widget.php:69-74 | the token is present exactly when `$_SERVER` has the key GetHeader gives for the configured header name, and it is that entry's value |
| SignInFlow.Decode | datawiza-widget.php:74-77 | the token is decoded under the shared secret when no JWKS URL is set, under `''` when the JWK set failed, and under the parsed key set otherwise; it succeeds exactly when VerifyToken holds for the token |
| SignInFlow.RedirectTarget | datawiza-widget.php:115 | the target is `redirect_to` when the query has it, otherwise the home URL |
| SignInFlow.SignInUser | datawiza-widget.php:98-116 | the user with the token's email is in the store afterwards; the current user and the auth-cookie user are both its id; `error` is unchanged; the exit is a redirect to RedirectTarget |
| SignInFlow.SignInUserStore | datawiza-widget.php:98-109 | an unknown email creates exactly one user, with the next id, login = email = the address, the generated password and the default role unless a role claim is given; a known email adds no entry and changes no id; a role claim sets the user's role to the lower-cased claim and is not otherwise checked; every other user is unchanged |
| SignInFlow.SignInUserKeepsValid | datawiza-widget.php:98-113 | the success path keeps the store's guarantees (users filed under their email, distinct positive ids below the next id) and leaves a non-zero current user |
| SignInFlow.LogUserInWordpress | datawiza-widget.php:65-117 | no token header: only `error` changes, to the "does not receive the expected JWT" message; signature invalid: only `error` changes, to the "cannot verify the JWT" message; any other decode failure: nothing changes; no email claim: only `error` changes, to the "expects email attribute" message, even when a user is logged in; email present and a user logged in: nothing changes; otherwise SignInUser. It redirects exactly when the token decodes, has an email and nobody is logged in; on every non-redirecting exit only `error` may change, and only to one of the three messages; the store invariant is kept |
| SignInFlow.LogUserOutOfAccessBroker | datawiza-widget.php:51-63 | redirects exactly when the token header is present, VerifyToken holds and `action` is `logout`; it then clears only the auth cookie and redirects to `/ab-logout`; otherwise nothing changes |
| SignInFlow.SecondLogInIsNoOp | datawiza-widget.php:93-96 | after a successful login, running the hook again with the same request changes nothing and does not redirect |
| SignInFlow.JwksFailureChangesNothing | datawiza-widget.php:74-83 | if the decoder refuses an empty key, then a failed JWKS fetch or parse changes no user, no current user and no cookie and does not redirect; `error` stays as it was or becomes the missing-JWT or cannot-verify message, as there is no key-resolution message |
| SignInFlow.LogoutTokenPassesLogin | datawiza-widget.php:51-96 | when the logout hook fires, the login hook on the same request sets no token error; the only error it can set is the missing-email one. This assumes the two hooks' separate JWKS fetches return the same key set |
| SignIn.DatawizaSignIn.constructor | datawiza-widget.php:34-49 | a new plugin object over an existing store and session that meet the store's guarantees satisfies the object invariant and starts with `error` unset |
| SignIn.DatawizaSignIn.LogUserInWordpress | datawiza-widget.php:65-117 | the early-return method keeps the store invariant; its new state and exit are exactly those of SignInFlow.LogUserInWordpress on the old state |
| SignIn.DatawizaSignIn.SignInUser | datawiza-widget.php:98-116 | the state updates of the success path (create, set role, clear cookie, set current user, set cookie) keep the object invariant and leave exactly the state and exit of SignInFlow.SignInUser |
| SignIn.DatawizaSignIn.LogUserOutOfAccessBroker | datawiza-widget.php:51-63 | the guarded method keeps the object invariant; its new state and exit are exactly those of SignInFlow.LogUserOutOfAccessBroker on the old state |

Behaviour of the code worth noting, which the model follows as written:

- When fetching or parsing the JWK set throws an `Exception`, `getKey` returns `''`. If the library also refuses an empty key, the decode fails with an exception other than a bad signature, which `logUserInWordpress` swallows. So no key-resolution message is ever recorded.
- Any decode failure other than a bad signature is silent.
- The comment at datawiza-widget.php:106 says a missing role claim sets the default role `subscriber`. The code leaves an existing user's role untouched. A newly created user gets the site's `default_role` option.
- The role claim is lower-cased and not checked against any list of roles.
- A successful login does not clear `error`.
- `init` runs before `login_init`. Take a visit to `wp-login.php?action=logout` by a browser with nobody logged in, carrying a token that verifies and has an email. `logUserInWordpress` signs the user in and redirects to `redirect_to` or the home URL, and ends the request. `logUserOutOfAccessBroker` never runs, so the browser is not sent to `/ab-logout`.

## Left out

- JWT decoding, HS256 verification (RFC 7519, section 3.2 of RFC 7518) and JWK set parsing (section 5 of RFC 7517) are foreign calls into `Firebase\JWT`. They are a decoder parameter and a parse outcome here. That the library refuses an empty key is a hypothesis of the two JWKS lemmas, not a proved fact.
- The JWKS fetch (`file_get_contents`) is network I/O. Its parsed result is an input. A failed fetch returns `false` with a warning rather than throwing. Whether `json_decode` and `JWK::parseKeySet` then throw an `Exception`, which reaches the `''` fallback, or a PHP `Error`, which does not, depends on library code outside this model. The same applies to a successful fetch: `json_decode` without `true` returns an object. If `JWK::parseKeySet` accepts only an array, even a good key set raises a `TypeError`, which the catch at datawiza-widget.php:162 does not catch. The model treats every failure as the `''` fallback and every successful fetch as a parsed key set.
- Logger setup (datawiza-widget.php:36-38) and hook registration (datawiza-widget.php:42-47) are framework plumbing. So is the order in which WordPress runs `init` and `login_init`.
- Asset enqueueing and the two notice renderers (datawiza-widget.php:119-141) are HTML output. Both only read `error` and never clear it; the model keeps `error` as a field for them.
- `wp_generate_password` is randomness. Its result is an opaque input.
- `wp_safe_redirect`'s same-origin check, the `wp_login` action and `exit` are WordPress behaviour. The model records the requested redirect target and that the hook ends the request.
- SignInFlow.SignInUserStore: the model looks users up by exact email and stores the raw email claim as the login. WordPress is looser on both. `get_user_by('email', …)` trims the value and compares it case-insensitively through the database collation. `wp_create_user` stores `sanitize_user($email, true)` as the login, which drops characters such as `+`. So with `alice@x` stored and an email claim of `Alice@x`, the model creates a second user where WordPress signs in the existing one. "Exactly one user is created, with login = email" holds only for an exact-match store.
- `wp_create_user` can fail, for example when another account already has the email as its login. This is not modelled: the store is keyed by email only and creation always succeeds.
- Options are strings. An option that was never saved (`get_option` returning `false`) is not modelled.
- Claims and query parameters are strings. Non-string JSON claim values and array-valued `$_GET` entries are not modelled.
- `strtoupper` and `strtolower` are modelled as the locale-insensitive, ASCII-only functions of PHP 8.2 and later, on characters rather than bytes. Under PHP 8.0 and 8.1 they follow `LC_CTYPE`; the model matches them only under the default "C" locale.
- The unused `$validToken` field and `includes/datawiza-admin.php` are not part of this model.
