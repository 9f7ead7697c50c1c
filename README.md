# ORCID-protected application: the authentication gate

This project models the request-authentication gate of a small FastAPI
application that protects its routes with ORCID sign-in. The gate is the
`AuthenticateMiddleware.__call__` override in `app/protected_app.py`. For
every request it decides one of three things:

- the path is one of the public paths (`<root>/login`, `<root>/logout`,
  `<root>/auth`), and the request passes through untouched;
- a token is found, either as the `id_token` of the session's `user` entry
  (which takes precedence) or as a `Bearer` token in the `authorization`
  header, and that token is handed to the OAuth2 library's verifier. On success the
  claims, the provider and the raw token are written into the ASGI scope
  under `oauth2-claims`, `oauth2-provider` and `oauth2-jwt`, and the request
  goes on. On `InvalidToken` the answer is 401 with the verifier's errors;
- no usable credential is found, and the answer is 400 with one of two fixed
  messages.

Files:

- `wrappers.dfy`: `Option`, which stands for Python's `None` versus a value.
- `credentials.dfy` (module `Credentials`): the pure credential extraction.
  `StartsWith` is Python's `str.startswith`, proved equal to the sequence
  prefix relation. `Extract` is the if/elif chain that yields a `Credential`.
- `gate.dfy` (module `Gate`): the public-path set, the scope update, and
  `Decide`, the whole per-request decision as a function. The lemmas state the
  gate's properties.
- `protected_app.dfy` (module `ProtectedApp`): the middleware as a class.
  Its constant fields are the public-path set and the verifier. `Call` updates
  a scope object's map in place and is proved to agree with `Decide`.

The token verifier (`self.claims`, from the external OAuth2 library) is a
function-typed parameter `Verifier`. It maps the token, which may be `None`,
to either `Verified(provider, claims)` or `InvalidToken(errors)`.

A session `user` entry alone selects the session branch, even when it has no
`id_token`; `None` then goes to the verifier. Nothing checks that the token is
present or non-empty (`app/protected_app.py:53-54`). So the session credential
carries an `Option<string>`.

## Model

| member | source | states |
|---|---|---|
| `Credentials.StartsWith` | app/protected_app.py:57-59 | `startswith` holds only when the prefix is no longer than the string |
| `Credentials.StartsWithIsPrefix` | app/protected_app.py:57-59 | the character-by-character `startswith` holds exactly when the prefix is a sequence prefix of the header |
| `Credentials.IdToken` | app/protected_app.py:54 | the token is present exactly when the user entry has an `id_token` key, and it is then that value; otherwise `None` |
| `Credentials.Extract` | app/protected_app.py:49-79 | a session user always gives its `id_token` (or `None`); otherwise a header starting with `"Bearer "` gives a token `t` with `"Bearer " + t == header`; any other header is malformed; no header gives `NoHeader` |
| `Credentials.BearerRoundTrip` | app/protected_app.py:57-60 | with no session user, the header `"Bearer " + t` yields exactly the token `t`, for every `t` |
| `Credentials.SessionPrecedence` | app/protected_app.py:50-60 | with a session user, the credential is the same whatever header is present or absent |
| `Credentials.LowerCaseSchemeIsMalformed` | app/protected_app.py:57-70 | the prefix test is case-sensitive: `"bearer " + t` is a malformed header |
| `Gate.PublicPaths` | app/protected_app.py:116-121 | the login, logout and callback paths are public and no other path is; every public path lies strictly below the root path, and the root path itself is not public |
| `Gate.JwtValue` | app/protected_app.py:85 | the `oauth2-jwt` value is `None` exactly when there is no token, and otherwise the token text |
| `Gate.Augment` | app/protected_app.py:83-85 | the new scope has the old keys plus the three `oauth2-*` keys, holding the claims, the provider and the token; every other entry is unchanged |
| `Gate.Authorize` | app/protected_app.py:81-91 | the request is forwarded exactly when the verifier accepts the token, and then with all three `oauth2-*` entries and the token under `oauth2-jwt`; otherwise the status is 401 |
| `Gate.Decide` | app/protected_app.py:39-91 | a public path forwards the scope unchanged; any other request is forwarded only when a token was found and the verifier accepted it, with the scope augmented by exactly that verdict and token, and is otherwise rejected; a rejection has status 400 exactly when no token was found and 401 exactly when one was |
| `Gate.PublicPathPassesThrough` | app/protected_app.py:46-47 | a public path is forwarded with the scope unchanged, and the outcome is the same for any session, header or verifier |
| `Gate.SessionUserDecides` | app/protected_app.py:50-54 | with a session user, the outcome is the verifier's verdict on `user.get("id_token")`; changing the header, or the verifier away from that token, changes nothing |
| `Gate.BearerHeaderDecides` | app/protected_app.py:57-60 | with no session user and the header `"Bearer " + t`, the outcome is the verifier's verdict on exactly `t` |
| `Gate.MalformedHeaderRejected` | app/protected_app.py:62-70 | with no session user and a header not starting with `"Bearer "`, the answer is 400 with the missing-prefix message, whatever the verifier |
| `Gate.MissingHeaderRejected` | app/protected_app.py:71-79 | with no session user and no header, the answer is 400 with the missing-header message, whatever the verifier |
| `Gate.VerifiedTokenForwarded` | app/protected_app.py:81-85 | an accepted token forwards the scope updated at exactly the three `oauth2-*` keys (claims, provider, token), all other entries unchanged |
| `Gate.InvalidTokenRejected` | app/protected_app.py:86-89 | a rejected token is answered with 401 carrying the verifier's errors, and no scope is forwarded |
| `Gate.ExactMatchOnly` | app/protected_app.py:117-121 | public paths match exactly: a public path extended by any non-empty suffix is not public |
| `Gate.EverythingElseProtected` | app/protected_app.py:116-121 | for any root path, a request to any path other than the login, logout and callback routes (the home page included) is forwarded only when a token was found and the verifier accepted it |
| `Gate.ServiceRequiresAuthentication` | app/protected_app.py:203-214 | under the default root `/protected`, a request to `/protected/service` reaches the handler only when a token was found and the verifier accepted it, and then with all three `oauth2-*` entries that the handler reads |
| `ProtectedApp.AuthenticateMiddleware.constructor` | app/protected_app.py:107-122 | the installed middleware's public paths are those built from the root path, and its verifier is the one given |
| `ProtectedApp.AuthenticateMiddleware.Call` | app/protected_app.py:39-91 | the response and the new scope are those of `Decide`; the downstream app is called exactly on a forward; on a rejection the scope object is unchanged, so no `oauth2-*` entry is exposed |

## Left out

- Token verification itself is not modelled: JWT parsing, signature, issuer, audience and expiry checks, and JWKS fetching and caching. All of this lives in the external `starlette_oauth2_api` library behind `self.claims`, which is not part of this model. It is the abstract `Verifier`, whose result is either `Verified` or `InvalidToken`.
- The middleware's verifier is a constant function. It stands for the verdicts at a single instant. The real `self.claims` depends on the clock (token expiry) and on the state of its key cache, so its verdict on the same token can change between requests.
- Exceptions other than `InvalidToken` raised by the verifier are not modelled. Only `InvalidToken` is caught (`app/protected_app.py:86`); any other exception propagates out of `__call__` to the enclosing server. The gate then sends no response of its own, the downstream app is not called and the scope is not written. `Decide`'s split into forwarded, 400 and 401 holds because `Verification` has no third case.
- The verifier's error payload is modelled as a list of strings. Its real shape belongs to the external library.
- The body formatting of `_prepare_error_response` belongs to the external library. Only the status and the message or errors are kept.
- Login, OAuth callback, logout, home and service routes (`app/protected_app.py:151-231`) are not modelled. They are network exchanges with ORCID, or rendering. The service route appears only as the path in `Gate.ServiceRequiresAuthentication`.
- Session cookie middleware, CORS, `.env` configuration, static files and templates are not modelled. The root path is a parameter, and its default `/protected` is a constant.
- The asynchronous ASGI `scope`/`receive`/`send` plumbing is not modelled: the gate is a synchronous decision. The path, the session `user` entry and the `authorization` header are given as a `Request` value instead of being decoded from the scope. Session values and JWT claim values are modelled as strings.
- Case-insensitive header lookup belongs to Starlette and is not modelled. The header is a single optional `authorization` value.
- Debug logging (`app/protected_app.py:63,72`) has no effect on the decision and is not modelled.
- `app/main.py` (logging setup, mounting, server launch) has no gate logic and is not part of this model.
