/**
 The web application's own copy of the session logic: it reads, writes and
 refreshes tokens on the session directly, and builds a YouTube or Spotify
 client only when a token is stored.
 */
module Handlers {
  import opened Base
  import Session

  /** `getSessionTokens`: the same provider-to-key dispatch as the session store. */
  function GetSessionTokens(s: Session.Store, provider: string): (r: Result<Option<Token>>)
    requires Session.Readable(s, provider)
    ensures s.open.Fail? ==> r == Err(s.open.error)
    ensures s.open.Pass? && provider == "google" ==> r == Ok(s.values["google-user"])
    ensures s.open.Pass? && provider == "spotify" ==> r == Ok(s.values["spotify-token"])
    ensures s.open.Pass? && provider != "google" && provider != "spotify" ==>
              r == Err(InvalidProvider(provider))
  {
    if s.open.Fail? then Err(s.open.error)
    else
      var key :- Session.KeyFor(provider);
      Ok(s.values[key])
  }

  /** `updateSession`: write the provider's key on an already opened session
      and save it. */
  function UpdateSession(s: Session.Store, provider: string, tokens: Option<Token>)
    : (e: Session.Effect<Outcome>)
    ensures provider != "google" && provider != "spotify" ==>
              e == Session.Effect(Fail(InvalidProvider(provider)), s)
    ensures provider == "google" || provider == "spotify" ==>
              var key := if provider == "google" then "google-user" else "spotify-token";
              && e.result == s.save
              && e.after == s.(values := s.values[key := tokens])
  {
    match Session.KeyFor(provider)
    case Err(err) => Session.Effect(Fail(err), s)
    case Ok(key) => Session.Effect(s.save, s.(values := s.values[key := tokens]))
  }

  /** Writing one provider's token never changes the other provider's. */
  lemma UpdateSessionKeepsOtherProvider(s: Session.Store, tokens: Option<Token>)
    requires "google-user" in s.values && "spotify-token" in s.values
    ensures UpdateSession(s, "google", tokens).after.values["spotify-token"] == s.values["spotify-token"]
    ensures UpdateSession(s, "spotify", tokens).after.values["google-user"] == s.values["google-user"]
  {
  }

  /** `refreshToken`: open the session, find the identity provider, exchange the
      stored refresh token and write the new token back. */
  function RefreshToken(s: Session.Store, provider: string, registry: Session.Registry)
    : (e: Session.Effect<Result<Token>>)
    requires Session.Refreshable(s, provider, registry)
    ensures s.open.Fail? ==> e == Session.Effect(Err(s.open.error), s)
    ensures s.open.Pass? && registry(provider).Err? ==>
              e == Session.Effect(Err(registry(provider).error), s)
    ensures s.open.Pass? && registry(provider).Ok? && Session.KeyFor(provider).Err? ==>
              e == Session.Effect(Err(InvalidProvider(provider)), s)
    ensures s.open.Pass? && registry(provider).Ok? && Session.KeyFor(provider).Ok? ==>
              var key := Session.KeyFor(provider).value;
              var refreshed := registry(provider).value(s.values[key].value.refreshToken);
              && (refreshed.Err? ==> e == Session.Effect(Err(refreshed.error), s))
              && (refreshed.Ok? ==>
                    && e.after == s.(values := s.values[key := Some(refreshed.value)])
                    && (s.save.Pass? ==> e.result == refreshed)
                    && (s.save.Fail? ==> e.result == Err(s.save.error)))
  {
    if s.open.Fail? then Session.Effect(Err(s.open.error), s)
    else
      match registry(provider)
      case Err(err) => Session.Effect(Err(err), s)
      case Ok(idp) =>
        match GetSessionTokens(s, provider)
        case Err(err) => Session.Effect(Err(err), s)
        case Ok(existing) =>
          match idp(existing.value.refreshToken)
          case Err(err) => Session.Effect(Err(err), s)
          case Ok(renewed) =>
            var u := UpdateSession(s, provider, Some(renewed));
            Session.Effect(if u.result.Fail? then Err(u.result.error) else Ok(renewed), u.after)
  }

  /** The values the handlers see when they open the session without checking
      for an error: the cookie library then hands back a new, empty session. */
  function Seen(s: Session.Store): (v: Session.Values)
    ensures s.open.Pass? ==> v == s.values
    ensures s.open.Fail? ==> v == map[]
  {
    if s.open.Pass? then s.values else map[]
  }

  /** A client may be built once the provider's key holds a token; a key that
      holds a nil token would be dereferenced by the refresh and panic. */
  predicate ClientBuildable(s: Session.Store, provider: string, registry: Session.Registry)
    requires provider == "google" || provider == "spotify"
  {
    Session.KeyFor(provider).value in Seen(s) ==> Session.Refreshable(s, provider, registry)
  }

  /** The shared shape of `getYoutubeClient` and `getSpotifyClient`: no stored
      value means no client and no error; otherwise refresh and build a client
      on the new token. */
  function ClientFor(s: Session.Store, provider: string, registry: Session.Registry)
    : (e: Session.Effect<Result<Option<Client>>>)
    requires provider == "google" || provider == "spotify"
    requires ClientBuildable(s, provider, registry)
    ensures Session.KeyFor(provider).value !in Seen(s) ==> e == Session.Effect(Ok(None), s)
    ensures Session.KeyFor(provider).value in Seen(s) ==>
              var r := RefreshToken(s, provider, registry);
              && e.after == r.after
              && (r.result.Err? ==> e.result == Err(r.result.error))
              && (r.result.Ok? ==> e.result == Ok(Some(Client(r.result.value))))
  {
    if Session.KeyFor(provider).value !in Seen(s) then Session.Effect(Ok(None), s)
    else
      var r := RefreshToken(s, provider, registry);
      match r.result
      case Err(err) => Session.Effect(Err(err), r.after)
      case Ok(t) => Session.Effect(Ok(Some(Client(t))), r.after)
  }

  /** `getYoutubeClient`: with no Google token stored, no client and no error,
      and the session is left alone. */
  function GetYoutubeClient(s: Session.Store, registry: Session.Registry)
    : (e: Session.Effect<Result<Option<Client>>>)
    requires ClientBuildable(s, "google", registry)
    ensures "google-user" !in Seen(s) ==> e == Session.Effect(Ok(None), s)
    ensures e.result.Ok? && e.result.value.Some? ==>
              "google-user" in e.after.values
              && e.after.values["google-user"] == Some(e.result.value.value.token)
  {
    ClientFor(s, "google", registry)
  }

  /** `getSpotifyClient`: with no Spotify token stored, no client and no error,
      and the session is left alone. */
  function GetSpotifyClient(s: Session.Store, registry: Session.Registry)
    : (e: Session.Effect<Result<Option<Client>>>)
    requires ClientBuildable(s, "spotify", registry)
    ensures "spotify-token" !in Seen(s) ==> e == Session.Effect(Ok(None), s)
    ensures e.result.Ok? && e.result.value.Some? ==>
              "spotify-token" in e.after.values
              && e.after.values["spotify-token"] == Some(e.result.value.value.token)
  {
    ClientFor(s, "spotify", registry)
  }
}
