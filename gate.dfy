/**
 * The per-request decision of the authentication gate
 * (app/protected_app.py, `AuthenticateMiddleware.__call__`, lines 39-91),
 * stated as a pure function from the request, the public-path set, the
 * token verifier and the incoming ASGI scope to an outcome: forward the
 * (possibly augmented) scope to the downstream app, or answer with an error.
 */
module Gate {
  import opened Wrappers
  import opened Credentials

  /** JWT claims as handed back by the verifier. */
  type Claims = map<string, string>

  /** Values held in the ASGI scope dictionary. */
  datatype ScopeValue =
    | Text(text: string)
    | Null                        // Python None
    | ClaimSet(claims: Claims)
    | Opaque(id: int)             // entries the gate neither reads nor writes

  type Scope = map<string, ScopeValue>

  /** The result of `self.claims(token)`: a (provider, claims) pair, or `InvalidToken`. */
  datatype Verification =
    | Verified(provider: string, claims: Claims)
    | InvalidToken(errors: seq<string>)

  /** The token verifier of the external OAuth2 library, left abstract. */
  type Verifier = Option<string> -> Verification

  /** What `_prepare_error_response` is given as its message. */
  datatype Detail =
    | Message(text: string)
    | TokenErrors(errors: seq<string>)

  datatype Outcome =
    | Forward(scope: Scope)                 // `await self._app(scope, receive, send)`
    | Reject(status: int, detail: Detail)   // `await self._prepare_error_response(...)`

  const BadRequest: int := 400
  const Unauthorized: int := 401

  const MissingBearerMessage: string := "The \"authorization\" header must start with \"Bearer \""
  const MissingHeaderMessage: string := "The request does not contain an \"authorization\" header"

  const ClaimsKey: string := "oauth2-claims"
  const ProviderKey: string := "oauth2-provider"
  const JwtKey: string := "oauth2-jwt"
  const OAuth2Keys: set<string> := {ClaimsKey, ProviderKey, JwtKey}

  /** The default `PROTECTED_PATH` the application is mounted under. */
  const DefaultRootPath: string := "/protected"

  /**
   * The public paths of the protected application (lines 117-121): the
   * login, logout and OAuth callback routes under the root path. The root
   * path itself stays protected.
   */
  function PublicPaths(rootPath: string): (paths: set<string>)
    ensures rootPath !in paths
    ensures forall p :: p in paths ==> rootPath < p
    ensures rootPath + "/login" in paths && rootPath + "/logout" in paths && rootPath + "/auth" in paths
    ensures forall p :: p in paths ==> p == rootPath + "/login" || p == rootPath + "/logout" || p == rootPath + "/auth"
  {
    {rootPath + "/login", rootPath + "/logout", rootPath + "/auth"}
  }

  /** The scope value stored under `oauth2-jwt`: the token, or None. */
  function JwtValue(token: Option<string>): (v: ScopeValue)
    ensures token.None? <==> v == Null
    ensures token.Some? ==> v == Text(token.value)
  {
    match token
    case Some(t) => Text(t)
    case None => Null
  }

  /** A scope that carries all three `oauth2-*` entries (their presence, not who wrote them). */
  predicate HasOAuth2Entries(scope: Scope) {
    OAuth2Keys <= scope.Keys
  }

  /**
   * The scope after the three writes of lines 83-85: the verified claims,
   * the provider and the raw token are recorded, nothing else changes.
   */
  function Augment(scope: Scope, provider: string, claims: Claims, token: Option<string>): (s: Scope)
    ensures s.Keys == scope.Keys + OAuth2Keys
    ensures s[ClaimsKey] == ClaimSet(claims)
    ensures s[ProviderKey] == Text(provider)
    ensures s[JwtKey] == JwtValue(token)
    ensures forall k :: k in scope && k !in OAuth2Keys ==> s[k] == scope[k]
  {
    scope[ClaimsKey := ClaimSet(claims)][ProviderKey := Text(provider)][JwtKey := JwtValue(token)]
  }

  /** The verifier step of lines 81-91, for a token already found. */
  function Authorize(claims: Verifier, token: Option<string>, scope: Scope): (o: Outcome)
    ensures o.Forward? <==> claims(token).Verified?
    ensures o.Forward? ==> HasOAuth2Entries(o.scope) && o.scope[JwtKey] == JwtValue(token)
    ensures o.Reject? ==> o.status == Unauthorized
  {
    match claims(token)
    case Verified(provider, c) => Forward(Augment(scope, provider, c, token))
    case InvalidToken(errors) => Reject(Unauthorized, TokenErrors(errors))
  }

  /**
   * The whole gate. Every request that is not public is either forwarded
   * only after the verifier accepted the token found, with the scope
   * augmented by that verdict, or rejected: with 400 exactly when no token
   * was found, with 401 exactly when one was.
   */
  function Decide(publicPaths: set<string>, req: Request, claims: Verifier, scope: Scope): (o: Outcome)
    ensures req.path in publicPaths ==> o == Forward(scope)
    // a corollary of the Augment clause below, kept for readers
    ensures req.path !in publicPaths && o.Forward? ==> HasOAuth2Entries(o.scope)
    ensures req.path !in publicPaths && o.Forward? ==>
              var c := Extract(req.user, req.authorization);
              && c.HasToken()
              && claims(c.Token()).Verified?
              && o.scope == Augment(scope, claims(c.Token()).provider, claims(c.Token()).claims, c.Token())
    ensures o.Reject? ==> req.path !in publicPaths
    ensures o.Reject? ==> (o.status == BadRequest <==> !Extract(req.user, req.authorization).HasToken())
    ensures o.Reject? ==> (o.status == Unauthorized <==> Extract(req.user, req.authorization).HasToken())
  {
    if req.path in publicPaths then
      Forward(scope)
    else
      match Extract(req.user, req.authorization)
      case MalformedHeader => Reject(BadRequest, Message(MissingBearerMessage))
      case NoHeader => Reject(BadRequest, Message(MissingHeaderMessage))
      case SessionToken(t) => Authorize(claims, t, scope)
      case BearerToken(t) => Authorize(claims, Some(t), scope)
  }

  // ---------------------------------------------------------------------
  // Properties of the gate

  /**
   * A public path is forwarded with the scope untouched, whatever the
   * session, the header and the verifier: none of them is consulted.
   */
  lemma PublicPathPassesThrough(publicPaths: set<string>, req: Request, other: Request,
                                claims: Verifier, otherClaims: Verifier, scope: Scope)
    requires req.path in publicPaths && other.path == req.path
    ensures Decide(publicPaths, req, claims, scope) == Forward(scope)
    ensures Decide(publicPaths, other, otherClaims, scope) == Decide(publicPaths, req, claims, scope)
  {
  }

  /**
   * With a session user, the verifier sees `user.get("id_token")` (None when
   * absent) and the header plays no part: swapping the header, even for a
   * malformed one or another bearer token, or swapping the verifier for one
   * that agrees on that token, changes nothing.
   */
  lemma SessionUserDecides(publicPaths: set<string>, req: Request, header: Option<string>,
                           claims: Verifier, otherClaims: Verifier, scope: Scope)
    requires req.path !in publicPaths && req.user.Some?
    requires otherClaims(IdToken(req.user.value)) == claims(IdToken(req.user.value))
    ensures Decide(publicPaths, req, claims, scope)
         == Decide(publicPaths, req.(authorization := header), otherClaims, scope)
    ensures Decide(publicPaths, req, claims, scope) == Authorize(claims, IdToken(req.user.value), scope)
  {
  }

  /**
   * Without a session user, a header `"Bearer " + t` sends exactly `t` to
   * the verifier: seven characters are stripped, no more and no fewer.
   */
  lemma BearerHeaderDecides(publicPaths: set<string>, req: Request, token: string,
                            claims: Verifier, scope: Scope)
    requires req.path !in publicPaths && req.user.None?
    requires req.authorization == Some(BearerPrefix + token)
    ensures Decide(publicPaths, req, claims, scope) == Authorize(claims, Some(token), scope)
  {
    BearerRoundTrip(token);
  }

  /** A header without the `"Bearer "` prefix is answered with 400, for any verifier. */
  lemma MalformedHeaderRejected(publicPaths: set<string>, req: Request, claims: Verifier, scope: Scope)
    requires req.path !in publicPaths && req.user.None?
    requires req.authorization.Some? && !(BearerPrefix <= req.authorization.value)
    ensures Decide(publicPaths, req, claims, scope) == Reject(BadRequest, Message(MissingBearerMessage))
  {
  }

  /** No session user and no header is answered with 400, for any verifier. */
  lemma MissingHeaderRejected(publicPaths: set<string>, req: Request, claims: Verifier, scope: Scope)
    requires req.path !in publicPaths && req.user.None? && req.authorization.None?
    ensures Decide(publicPaths, req, claims, scope) == Reject(BadRequest, Message(MissingHeaderMessage))
  {
  }

  /**
   * A verified token forwards the scope updated at exactly the three
   * `oauth2-*` keys; every other entry keeps its value.
   */
  lemma VerifiedTokenForwarded(publicPaths: set<string>, req: Request, claims: Verifier, scope: Scope)
    requires req.path !in publicPaths
    requires Extract(req.user, req.authorization).HasToken()
    requires claims(Extract(req.user, req.authorization).Token()).Verified?
    ensures var token := Extract(req.user, req.authorization).Token();
            var v := claims(token);
            var o := Decide(publicPaths, req, claims, scope);
            && o.Forward?
            && o.scope.Keys == scope.Keys + OAuth2Keys
            && o.scope[ClaimsKey] == ClaimSet(v.claims)
            && o.scope[ProviderKey] == Text(v.provider)
            && o.scope[JwtKey] == JwtValue(token)
            && (forall k :: k in scope && k !in OAuth2Keys ==> o.scope[k] == scope[k])
  {
  }

  /** A rejected token yields 401 with the verifier's errors and no scope is forwarded. */
  lemma InvalidTokenRejected(publicPaths: set<string>, req: Request, claims: Verifier, scope: Scope)
    requires req.path !in publicPaths
    requires Extract(req.user, req.authorization).HasToken()
    requires claims(Extract(req.user, req.authorization).Token()).InvalidToken?
    ensures Decide(publicPaths, req, claims, scope)
         == Reject(Unauthorized, TokenErrors(claims(Extract(req.user, req.authorization).Token()).errors))
  {
  }

  /**
   * Public paths are matched exactly, not as prefixes: extending a public
   * path by any non-empty suffix leaves the public set.
   */
  lemma {:induction false} ExactMatchOnly(rootPath: string, path: string, suffix: string)
    requires path in PublicPaths(rootPath) && suffix != []
    ensures path + suffix !in PublicPaths(rootPath)
  {
    var r := |rootPath|;
    var login, logout, auth := rootPath + "/login", rootPath + "/logout", rootPath + "/auth";
    assert login[r + 1] == 'l' && logout[r + 1] == 'l' && auth[r + 1] == 'a';
    assert login[r + 4] == 'i' && logout[r + 4] == 'o';
  }

  /**
   * Everything within the application other than the login, logout and
   * callback routes, the home page at `<root>/` included, is reached only
   * with a token the verifier accepted.
   */
  lemma EverythingElseProtected(rootPath: string, req: Request, claims: Verifier, scope: Scope)
    requires req.path != rootPath + "/login" && req.path != rootPath + "/logout" && req.path != rootPath + "/auth"
    ensures var o := Decide(PublicPaths(rootPath), req, claims, scope);
            var c := Extract(req.user, req.authorization);
            o.Forward? ==> c.HasToken() && claims(c.Token()).Verified?
  {
  }

  /**
   * Under the default root path, `/protected/service` is reached only with a
   * token the verifier accepted, and then with the `oauth2-*` entries the
   * handler reads.
   */
  lemma ServiceRequiresAuthentication(req: Request, claims: Verifier, scope: Scope)
    requires req.path == DefaultRootPath + "/service"
    ensures var o := Decide(PublicPaths(DefaultRootPath), req, claims, scope);
            var c := Extract(req.user, req.authorization);
            o.Forward? ==> c.HasToken() && claims(c.Token()).Verified? && HasOAuth2Entries(o.scope)
  {
  }
}
