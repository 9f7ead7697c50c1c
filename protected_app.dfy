/**
 * The middleware object of app/protected_app.py: `AuthenticateMiddleware`
 * holds its public-path set and its token verifier, and `__call__` writes
 * the verified identity into the ASGI scope dictionary in place before
 * handing that same dictionary to the downstream app.
 */
module ProtectedApp {
  import opened Wrappers
  import opened Credentials
  import opened Gate

  /** The ASGI scope dictionary, shared with the downstream app and updated in place. */
  class AsgiScope {
    var entries: Scope
  }

  /** What `__call__` ended with: the downstream app was awaited, or an error response was sent. */
  datatype Response =
    | Downstream
    | ErrorResponse(status: int, detail: Detail)

  class AuthenticateMiddleware {
    const publicPaths: set<string>
    /** `self.claims`: the OAuth2 library's token verifier. */
    const claims: Verifier

    /** The middleware as the application installs it (lines 107-122), for a given root path. */
    constructor (rootPath: string, claims: Verifier)
      ensures publicPaths == PublicPaths(rootPath) && this.claims == claims
    {
      publicPaths := PublicPaths(rootPath);
      this.claims := claims;
    }

    /**
     * One request through the gate. The response and the new scope are those
     * of `Decide`; on a rejection the scope is left exactly as it was, so no
     * `oauth2-*` entry is exposed.
     */
    method Call(req: Request, scope: AsgiScope) returns (r: Response)
      modifies scope
      ensures match Decide(publicPaths, req, claims, old(scope.entries))
              case Forward(s) => r == Downstream && scope.entries == s
              case Reject(status, detail) =>
                r == ErrorResponse(status, detail) && scope.entries == old(scope.entries)
    {
      if req.path in publicPaths {
        return Downstream;
      }
      var token: Option<string>;
      match Extract(req.user, req.authorization) {
        case SessionToken(t) =>
          token := t;
        case BearerToken(t) =>
          token := Some(t);
        case MalformedHeader =>
          return ErrorResponse(BadRequest, Message(MissingBearerMessage));
        case NoHeader =>
          return ErrorResponse(BadRequest, Message(MissingHeaderMessage));
      }
      match claims(token) {
        case InvalidToken(errors) =>
          return ErrorResponse(Unauthorized, TokenErrors(errors));
        case Verified(provider, c) =>
          scope.entries := scope.entries[ClaimsKey := ClaimSet(c)];
          scope.entries := scope.entries[ProviderKey := Text(provider)];
          scope.entries := scope.entries[JwtKey := JwtValue(token)];
      }
      return Downstream;
    }
  }
}
