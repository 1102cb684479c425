/**
 * The request gateway: every matched request to a non-public path needs a
 * verified session, and the verified user id replaces whatever `x-user-id`
 * the client sent before the request reaches a route handler.
 * `verifySession()` (cookie, signature, algorithm and expiry checks) is the
 * `session` parameter.
 */
module Middleware {
  import opened Wrappers
  import opened Store
  import opened Http

  const PublicPaths: seq<string> := ["/login", "/api/auth/login", "/api/auth/register", "/favicon.ico"]
  const LoginPath: string := "/login"

  datatype Request = Request(path: string, headers: Headers)

  /** Forward the request with these headers, or redirect the browser. */
  datatype Decision = Next(headers: Headers) | Redirect(location: string)

  /** `publicPaths.includes(pathname)`: exact string equality with a listed path. */
  predicate IsPublic(path: string)
  {
    path in PublicPaths
  }

  /** `middleware(req)`. */
  function Middleware(req: Request, session: Option<UserId>): Decision
  {
    if IsPublic(req.path) then Next(req.headers)
    else if session.None? || session.value == "" then Redirect(LoginPath)
    else Next(req.headers[UserIdHeader := session.value])
  }

  predicate StartsWith(s: string, prefix: string)
  {
    |prefix| <= |s| && s[..|prefix|] == prefix
  }

  /** `config.matcher` `'/((?!_next/static|_next/image|public).*)'`. */
  predicate Matched(path: string)
  {
    && |path| >= 1 && path[0] == '/'
    && !StartsWith(path[1..], "_next/static")
    && !StartsWith(path[1..], "_next/image")
    && !StartsWith(path[1..], "public")
  }

  /** What the framework does with a request before a route handler sees it. */
  function Gateway(req: Request, session: Option<UserId>): Decision
  {
    if Matched(req.path) then Middleware(req, session) else Next(req.headers)
  }

  /** Exactly the four listed paths are public; a trailing slash makes a different path. */
  lemma PublicPathsAreExact(path: string)
    ensures IsPublic(path) <==>
      path == "/login" || path == "/api/auth/login" || path == "/api/auth/register" || path == "/favicon.ico"
    ensures !IsPublic("/login/") && !IsPublic("/api/chat") && !IsPublic("/api/conversations")
  {
  }

  /** Public paths pass through untouched, with or without a session. */
  lemma PublicPathsBypassSession(req: Request, session: Option<UserId>)
    requires IsPublic(req.path)
    ensures Middleware(req, session) == Next(req.headers)
  {
  }

  /** A non-public request without a verified user id is sent to the login page. */
  lemma NoSessionRedirects(req: Request, session: Option<UserId>)
    requires !IsPublic(req.path)
    ensures Middleware(req, session).Redirect? <==> session.None? || session.value == ""
    ensures Middleware(req, session).Redirect? ==> Middleware(req, session).location == LoginPath
  {
  }

  /**
   * With a verified session the forwarded `x-user-id` is the verified id,
   * whatever the client sent, and every other header is copied unchanged.
   */
  lemma SessionInjectsUserId(req: Request, uid: UserId)
    requires !IsPublic(req.path) && uid != ""
    ensures Middleware(req, Some(uid)).Next?
    ensures var forwarded := Middleware(req, Some(uid)).headers;
      && Get(forwarded, UserIdHeader) == Some(uid)
      && (forall name :: name != UserIdHeader ==> (name in forwarded <==> name in req.headers))
      && (forall name :: name != UserIdHeader && name in req.headers ==> forwarded[name] == req.headers[name])
  {
  }

  /** A path starting with "/" + p has p at the start of what follows the slash. */
  lemma StartsWithAfterSlash(path: string, p: string)
    requires StartsWith(path, "/" + p)
    ensures |path| >= 1 && path[0] == '/' && StartsWith(path[1..], p)
  {
    assert path[0] == ("/" + p)[0];
    assert path[1..][..|p|] == path[..|p| + 1][1..];
  }

  /** Paths under `/_next/static`, `/_next/image` and `/public` never reach the middleware. */
  lemma ExcludedPathsSkipMiddleware(req: Request, session: Option<UserId>)
    requires StartsWith(req.path, "/_next/static") || StartsWith(req.path, "/_next/image") || StartsWith(req.path, "/public")
    ensures Gateway(req, session) == Next(req.headers)
  {
    if StartsWith(req.path, "/_next/static") {
      StartsWithAfterSlash(req.path, "_next/static");
    } else if StartsWith(req.path, "/_next/image") {
      StartsWithAfterSlash(req.path, "_next/image");
    } else {
      StartsWithAfterSlash(req.path, "public");
    }
  }

  /**
   * Whatever `x-user-id` a client sends, a request to a matched, non-public
   * path either is redirected or reaches its handler carrying the verified id.
   */
  lemma HandlersSeeVerifiedUser(req: Request, session: Option<UserId>)
    requires Matched(req.path) && !IsPublic(req.path)
    ensures Gateway(req, session).Next? ==>
      session.Some? && Get(Gateway(req, session).headers, UserIdHeader) == session
  {
  }

  /** The chat and conversation routes are matched and not public. */
  lemma ApiRoutesAreGuarded()
    ensures Matched("/api/chat") && !IsPublic("/api/chat")
    ensures Matched("/api/conversations") && !IsPublic("/api/conversations")
  {
    assert "/api/chat"[1..] == "api/chat";
    assert "/api/conversations"[1..] == "api/conversations";
    assert !StartsWith("api/chat", "_next/static") by { assert "api/chat"[0] != "_next/static"[0]; }
    assert !StartsWith("api/chat", "_next/image") by { assert "api/chat"[0] != "_next/image"[0]; }
    assert !StartsWith("api/chat", "public") by { assert "api/chat"[0] != "public"[0]; }
    assert !StartsWith("api/conversations", "_next/static") by { assert "api/conversations"[0] != "_next/static"[0]; }
    assert !StartsWith("api/conversations", "_next/image") by { assert "api/conversations"[0] != "_next/image"[0]; }
    assert !StartsWith("api/conversations", "public") by { assert "api/conversations"[0] != "public"[0]; }
  }
}
