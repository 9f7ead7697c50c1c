/**
 * Credential extraction of the authentication gate
 * (app/protected_app.py, `AuthenticateMiddleware.__call__`, lines 49-79):
 * a browser-session `user` entry takes precedence over an `authorization`
 * header, and a header is accepted only with the case-sensitive prefix
 * `"Bearer "`.
 */
module Credentials {
  import opened Wrappers

  /** The session's `user` entry: the token dictionary stored at login. */
  type User = map<string, string>

  /** The parts of a request that the gate reads. */
  datatype Request = Request(
    path: string,                   // request.url.path
    user: Option<User>,             // request.session.get("user")
    authorization: Option<string>)  // request.headers["authorization"], if present

  /** Where the token came from, or why there is none. */
  datatype Credential =
    | SessionToken(idToken: Option<string>)  // a session user exists; its id_token may be absent
    | BearerToken(token: string)             // "Bearer " stripped from the header
    | MalformedHeader                        // header present without the "Bearer " prefix
    | NoHeader                               // neither a session user nor a header
  {
    /** True when the gate goes on to call the verifier. */
    predicate HasToken() {
      SessionToken? || BearerToken?
    }

    /** The value handed to the verifier (Python `None` for an absent id_token). */
    function Token(): Option<string>
      requires HasToken()
    {
      match this
      case SessionToken(t) => t
      case BearerToken(t) => Some(t)
    }
  }

  const BearerPrefix: string := "Bearer "

  /** Python's `str.startswith`, compared character by character. */
  function StartsWith(s: string, prefix: string): (b: bool)
    ensures b ==> |prefix| <= |s|
  {
    if prefix == [] then true
    else s != [] && s[0] == prefix[0] && StartsWith(s[1..], prefix[1..])
  }

  /** `startswith` holds exactly when `prefix` is a sequence prefix of `s`. */
  lemma {:induction false} StartsWithIsPrefix(s: string, prefix: string)
    ensures StartsWith(s, prefix) <==> prefix <= s
  {
    if prefix != [] && s != [] {
      StartsWithIsPrefix(s[1..], prefix[1..]);
      if prefix <= s {
        assert prefix[1..] <= s[1..];
      }
      if prefix[1..] <= s[1..] && s[0] == prefix[0] {
        assert prefix == [prefix[0]] + prefix[1..];
        assert s == [s[0]] + s[1..];
      }
    }
  }

  /** `user.get("id_token", None)` (line 54). */
  function IdToken(user: User): (t: Option<string>)
    ensures t.Some? <==> "id_token" in user
    ensures t.Some? ==> t.value == user["id_token"]
  {
    if "id_token" in user then Some(user["id_token"]) else None
  }

  /**
   * The if/elif chain of lines 49-79: session user first, then a well-formed
   * bearer header, then a malformed header, then no header at all.
   */
  function Extract(user: Option<User>, authorization: Option<string>): (c: Credential)
    ensures user.Some? ==> c == SessionToken(IdToken(user.value))
    ensures user.None? && authorization.Some? && StartsWith(authorization.value, BearerPrefix) ==>
              c.BearerToken? && BearerPrefix + c.token == authorization.value
    ensures user.None? && authorization.Some? && !StartsWith(authorization.value, BearerPrefix) ==>
              c == MalformedHeader
    ensures user.None? && authorization.None? ==> c == NoHeader
  {
    if user.Some? then
      SessionToken(IdToken(user.value))
    else if authorization.Some? && StartsWith(authorization.value, BearerPrefix) then
      var header := authorization.value;
      StartsWithIsPrefix(header, BearerPrefix);
      assert BearerPrefix + header[|BearerPrefix|..] == header;
      BearerToken(header[|BearerPrefix|..])
    else if authorization.Some? then
      MalformedHeader
    else
      NoHeader
  }

  /** Any bearer token is recovered exactly from `"Bearer " + token`. */
  lemma BearerRoundTrip(token: string)
    ensures Extract(None, Some(BearerPrefix + token)) == BearerToken(token)
  {
    StartsWithIsPrefix(BearerPrefix + token, BearerPrefix);
    assert (BearerPrefix + token)[|BearerPrefix|..] == token;
  }

  /** A session user wins over whatever header accompanies it. */
  lemma SessionPrecedence(user: User, h1: Option<string>, h2: Option<string>)
    ensures Extract(Some(user), h1) == Extract(Some(user), h2) == SessionToken(IdToken(user))
  {
  }

  /** The prefix check is case-sensitive: a lower-case scheme is malformed. */
  lemma LowerCaseSchemeIsMalformed(token: string)
    ensures Extract(None, Some("bearer " + token)) == MalformedHeader
  {
  }
}
