/**
 * The route guard of middleware.ts: from the request's path and the
 * `access_token` cookie it decides whether the request passes, goes to the
 * login page (remembering where it was going) or goes to the chat.
 */
module Middleware {
  import opened Wrappers
  import opened Text

  datatype Decision =
    | Next
    | RedirectLogin(redirect: string)
    | RedirectChat

  /** The dashboard paths, matched by prefix. */
  predicate Protected(pathname: string)
  {
    StartsWith(pathname, "/chat") || StartsWith(pathname, "/history")
  }

  /** The sign-in pages, matched exactly. */
  predicate AuthPage(pathname: string)
  {
    pathname == "/login" || pathname == "/signup"
  }

  /** `middleware`: a missing or empty cookie counts as no token. */
  function Guard(pathname: string, token: Option<string>): (d: Decision)
    ensures d.RedirectLogin? <==> Protected(pathname) && !Truthy(token)
    ensures d.RedirectLogin? ==> d.redirect == pathname
    ensures d == RedirectChat <==> Truthy(token) && AuthPage(pathname)
    ensures d == Next <==> (!Protected(pathname) || Truthy(token)) && !(Truthy(token) && AuthPage(pathname))
  {
    if Protected(pathname) && !Truthy(token) then RedirectLogin(pathname)
    else if Truthy(token) && AuthPage(pathname) then RedirectChat
    else Next
  }

  /** A signed-in user is never sent to the login page, and a signed-out one never to the chat. */
  lemma RedirectsExclusive(pathname: string, token: Option<string>)
    ensures Truthy(token) ==> !Guard(pathname, token).RedirectLogin?
    ensures !Truthy(token) ==> Guard(pathname, token) != RedirectChat
  {
  }

  /** The auth pages are not protected, so an anonymous visit to them passes. */
  lemma AuthPagesOpenToAnonymous(pathname: string, token: Option<string>)
    requires AuthPage(pathname) && !Truthy(token)
    ensures Guard(pathname, token) == Next
  {
    assert pathname[1] == 'l' || pathname[1] == 's';
  }

  /** Prefix matching protects more than the dashboard: "/chatx" and "/history-old" need a token too. */
  lemma PrefixMatchOverreaches(token: Option<string>)
    requires !Truthy(token)
    ensures Guard("/chatx", token) == RedirectLogin("/chatx")
    ensures Guard("/history-old", token) == RedirectLogin("/history-old")
  {
    assert "/chatx"[..5] == "/chat";
    assert "/history-old"[..8] == "/history";
  }

  /** An empty cookie value is treated as no cookie at all. */
  lemma EmptyCookieIsNoToken(pathname: string)
    ensures Guard(pathname, Some("")) == Guard(pathname, None)
  {
  }

  /** The landing page and any other unmatched path always pass. */
  lemma OtherPathsPass(pathname: string, token: Option<string>)
    requires !Protected(pathname) && !AuthPage(pathname)
    ensures Guard(pathname, token) == Next
  {
  }
}
