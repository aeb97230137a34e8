/**
 The cookie-backed session store that keeps one OAuth2 token per identity
 provider, and the refresh that goes through the identity provider.

 The session's values are a map from session key to token; a key mapped to
 `None` holds a nil token pointer. Opening the session (`store.Get`) and
 saving it (`session.Save`) are calls into the cookie library: their
 outcomes are fields of the store. Writes go to the request's session object
 before it is saved, so a failed save still leaves the value written for the
 rest of the request.
 */
module Session {
  import opened Base

  const SpotifyTokenKey := "spotify-token"
  const GoogleUserKey := "google-user"

  type Values = map<string, Option<Token>>

  /** The request's session: its values, and what opening and saving it yield. */
  datatype Store = Store(values: Values, open: Outcome, save: Outcome)

  /** A state change together with the result the caller sees. */
  datatype Effect<T> = Effect(result: T, after: Store)

  /** An identity provider's refresh: from a refresh token to a new token. */
  type Refresher = string -> Result<Token>

  /** The registered identity providers (`goth.GetProvider`), by name. */
  type Registry = string -> Result<Refresher>

  /** The session key a provider name's token lives under. */
  function KeyFor(provider: string): (r: Result<string>)
    ensures r.Ok? <==> provider == "google" || provider == "spotify"
    ensures provider == "google" ==> r.value == GoogleUserKey
    ensures provider == "spotify" ==> r.value == SpotifyTokenKey
    ensures r.Err? ==> r.error == InvalidProvider(provider)
  {
    if provider == "google" then Ok(GoogleUserKey)
    else if provider == "spotify" then Ok(SpotifyTokenKey)
    else Err(InvalidProvider(provider))
  }

  /** Reading a valid provider's slot needs the slot to exist: the source's
      type assertion panics on a missing value. */
  predicate Readable(s: Store, provider: string) {
    s.open.Pass? && KeyFor(provider).Ok? ==> KeyFor(provider).value in s.values
  }

  /** `GetSessionTokens`: the token stored for a provider name. */
  function GetSessionTokens(s: Store, provider: string): (r: Result<Option<Token>>)
    requires Readable(s, provider)
    ensures s.open.Fail? ==> r == Err(s.open.error)
    ensures s.open.Pass? && provider == "google" ==> r == Ok(s.values[GoogleUserKey])
    ensures s.open.Pass? && provider == "spotify" ==> r == Ok(s.values[SpotifyTokenKey])
    ensures s.open.Pass? && provider != "google" && provider != "spotify" ==>
              r.Err? && Message(r.error) == "invalid provider " + provider
  {
    if s.open.Fail? then Err(s.open.error)
    else
      var key :- KeyFor(provider);
      Ok(s.values[key])
  }

  /** `UpdateTokens`: store a token under the provider's key and save. */
  function UpdateTokens(s: Store, provider: string, tokens: Option<Token>): (e: Effect<Outcome>)
    ensures s.open.Fail? ==> e == Effect(Fail(s.open.error), s)
    ensures s.open.Pass? && KeyFor(provider).Err? ==>
              e == Effect(Fail(InvalidProvider(provider)), s)
    ensures s.open.Pass? && KeyFor(provider).Ok? ==>
              var key := KeyFor(provider).value;
              && e.result == s.save
              && e.after.values.Keys == s.values.Keys + {key}
              && e.after.values[key] == tokens
              && (forall k :: k in s.values && k != key ==> e.after.values[k] == s.values[k])
              && e.after.open == s.open && e.after.save == s.save
  {
    if s.open.Fail? then Effect(Fail(s.open.error), s)
    else match KeyFor(provider)
      case Err(err) => Effect(Fail(err), s)
      case Ok(key) => Effect(s.save, s.(values := s.values[key := tokens]))
  }

  /** A written token is what the next read returns, saved or not. */
  lemma UpdateThenGet(s: Store, provider: string, tokens: Option<Token>)
    requires s.open.Pass? && KeyFor(provider).Ok?
    ensures Readable(UpdateTokens(s, provider, tokens).after, provider)
    ensures GetSessionTokens(UpdateTokens(s, provider, tokens).after, provider) == Ok(tokens)
  {
  }

  /** Refreshing a valid provider's slot dereferences the stored token, so the
      slot must hold one once the identity provider is found. */
  predicate Refreshable(s: Store, provider: string, registry: Registry) {
    registry(provider).Ok? && s.open.Pass? && KeyFor(provider).Ok? ==>
      KeyFor(provider).value in s.values && s.values[KeyFor(provider).value].Some?
  }

  /** `RefreshToken`: exchange the stored refresh token for a new token through
      the provider's identity provider and store the new token. */
  function RefreshToken(s: Store, provider: string, registry: Registry): (e: Effect<Result<Token>>)
    requires Refreshable(s, provider, registry)
    ensures registry(provider).Err? ==> e == Effect(Err(registry(provider).error), s)
    ensures registry(provider).Ok? && s.open.Fail? ==> e == Effect(Err(s.open.error), s)
    ensures registry(provider).Ok? && s.open.Pass? && KeyFor(provider).Err? ==>
              e == Effect(Err(InvalidProvider(provider)), s)
    ensures registry(provider).Ok? && s.open.Pass? && KeyFor(provider).Ok? ==>
              var key := KeyFor(provider).value;
              var refreshed := registry(provider).value(s.values[key].value.refreshToken);
              && (refreshed.Err? ==> e == Effect(Err(refreshed.error), s))
              && (refreshed.Ok? ==>
                    && e.after == s.(values := s.values[key := Some(refreshed.value)])
                    && (s.save.Pass? ==> e.result == refreshed)
                    && (s.save.Fail? ==> e.result == Err(s.save.error)))
  {
    match registry(provider)
    case Err(err) => Effect(Err(err), s)
    case Ok(idp) =>
      match GetSessionTokens(s, provider)
      case Err(err) => Effect(Err(err), s)
      case Ok(existing) =>
        match idp(existing.value.refreshToken)
        case Err(err) => Effect(Err(err), s)
        case Ok(renewed) =>
          var u := UpdateTokens(s, provider, Some(renewed));
          Effect(if u.result.Fail? then Err(u.result.error) else Ok(renewed), u.after)
  }

  /** A refresh either leaves the session as it was, or changes exactly the
      provider's slot to the token it returned. */
  lemma RefreshWritesOnlyItsSlot(s: Store, provider: string, registry: Registry)
    requires Refreshable(s, provider, registry)
    ensures var e := RefreshToken(s, provider, registry);
            e.after == s
            || (exists t: Token :: KeyFor(provider).Ok?
                  && e.after == s.(values := s.values[KeyFor(provider).value := Some(t)])
                  && (e.result.Ok? ==> e.result.value == t))
  {
    var e := RefreshToken(s, provider, registry);
    if e.after != s {
      var key := KeyFor(provider).value;
      var t := registry(provider).value(s.values[key].value.refreshToken).value;
      assert e.after == s.(values := s.values[key := Some(t)]);
    }
  }

  /** After a successful refresh, reading the provider's token returns the new one. */
  lemma RefreshThenGet(s: Store, provider: string, registry: Registry)
    requires Refreshable(s, provider, registry)
    requires RefreshToken(s, provider, registry).result.Ok?
    ensures var e := RefreshToken(s, provider, registry);
            Readable(e.after, provider)
            && GetSessionTokens(e.after, provider) == Ok(Some(e.result.value))
  {
  }
}
