/**
 The token provider each catalog adapter is given: it reads and refreshes
 the token of one provider name in the request's session.
 */
module TokenProvider {
  import opened Base
  import Session

  /** The request and response writer of the HTTP exchange, and the session
      manager, as opaque handles; the session they reach is passed to each
      operation as a `Session.Store`. */
  datatype Handle = Handle(id: nat)

  /** `CookieStoreTokenProvider`: a provider name bound to one request's session. */
  datatype CookieStoreTokenProvider =
    CookieStoreTokenProvider(provider: string, request: Handle, writer: Handle, manager: Handle)

  /** `New`: binds the provider name, request, writer and session manager unchanged. */
  function New(provider: string, request: Handle, writer: Handle, manager: Handle): (tp: CookieStoreTokenProvider)
    ensures tp.provider == provider && tp.request == request && tp.writer == writer && tp.manager == manager
  {
    CookieStoreTokenProvider(provider, request, writer, manager)
  }

  /** `GetToken`: the session's token for this provider, nil when none is stored. */
  function GetToken(tp: CookieStoreTokenProvider, s: Session.Store): (r: Result<Option<Token>>)
    requires Session.Readable(s, tp.provider)
    ensures Session.GetSessionTokens(s, tp.provider).Err? ==>
              r == Err(Session.GetSessionTokens(s, tp.provider).error)
    ensures s.open.Pass? && Session.KeyFor(tp.provider).Ok? ==>
              r == Ok(s.values[Session.KeyFor(tp.provider).value])
    ensures r.Ok? && r.value.None? ==> s.values[Session.KeyFor(tp.provider).value].None?
  {
    var tokens :- Session.GetSessionTokens(s, tp.provider);
    if tokens.None? then Ok(None) else Ok(tokens)
  }

  /** `RefreshToken`: the session's refresh, for this provider's name. */
  function RefreshToken(tp: CookieStoreTokenProvider, s: Session.Store, registry: Session.Registry)
    : (e: Session.Effect<Result<Token>>)
    requires Session.Refreshable(s, tp.provider, registry)
    ensures e == Session.RefreshToken(s, tp.provider, registry)
  {
    Session.RefreshToken(s, tp.provider, registry)
  }

  /** `IsLoggedIn`, identical in every adapter: attempt a refresh and report
      whether it succeeded; the refreshed token stays in the session. */
  function IsLoggedIn(tp: CookieStoreTokenProvider, s: Session.Store, registry: Session.Registry)
    : (e: Session.Effect<bool>)
    requires Session.Refreshable(s, tp.provider, registry)
    ensures e.result <==>
              && registry(tp.provider).Ok?
              && s.open.Pass?
              && Session.KeyFor(tp.provider).Ok?
              && registry(tp.provider).value(
                   s.values[Session.KeyFor(tp.provider).value].value.refreshToken).Ok?
              && s.save.Pass?
    ensures !e.result && s.save.Pass? ==> e.after == s
  {
    var r := RefreshToken(tp, s, registry);
    Session.Effect(r.result.Ok?, r.after)
  }
}
