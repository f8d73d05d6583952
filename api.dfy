/** The authenticated request wrapper `fetchWithAuth`: it attaches the stored
    bearer token to a request and treats a 401 response as an expired
    session. */
module Api {
  import opened Values
  import opened Http
  import opened Browser

  const TokenKey: string := "token"
  const ContentType: string := "Content-Type"
  const Authorization: string := "Authorization"
  const JsonMediaType: string := "application/json"
  const LoginPath: string := "/login"
  const ExpiredMessage: string := "Sesión expirada. Iniciá sesión nuevamente."
  const NetworkErrorMessage: string := "Error de red o servidor:"

  /** `options.headers || {}` */
  function CallerHeaders(caller: Option<Headers>): Headers {
    if caller.Some? then caller.value else map[]
  }

  /** The outbound header record: a JSON Content-Type default, then the
      caller's headers, then the bearer token when one is stored. */
  function MergeHeaders(caller: Option<Headers>, token: Option<string>): (h: Headers)
    // the caller's own Content-Type wins over the default
    ensures ContentType in h
    ensures h[ContentType] ==
              if ContentType in CallerHeaders(caller) then CallerHeaders(caller)[ContentType] else JsonMediaType
    // a stored token always yields exactly "Bearer <token>"
    ensures TruthyText(token) ==> Authorization in h && h[Authorization] == "Bearer " + token.value
    // without a token the caller's Authorization, if any, is kept as is
    ensures !TruthyText(token) ==>
              (Authorization in h <==> Authorization in CallerHeaders(caller)) &&
              (Authorization in h ==> h[Authorization] == CallerHeaders(caller)[Authorization])
    // every other header is the caller's, unchanged, and nothing else is added
    ensures forall k :: k != ContentType && k != Authorization ==>
              (k in h <==> k in CallerHeaders(caller)) &&
              (k in h ==> h[k] == CallerHeaders(caller)[k])
  {
    var defaults := map[ContentType := JsonMediaType];
    var auth := if TruthyText(token) then map[Authorization := "Bearer " + token.value] else map[];
    defaults + CallerHeaders(caller) + auth
  }

  /** The response counts as an expired session. */
  predicate Expired(outcome: FetchOutcome) {
    outcome.Delivered? && outcome.response.status == 401
  }

  /** What `fetchWithAuth` resolves to. */
  function FetchResult(outcome: FetchOutcome): (res: Option<Response>)
    ensures res.Some? <==> outcome.Delivered? && outcome.response.status != 401
    ensures res.Some? ==> res.value == outcome.response
  {
    if outcome.Delivered? && !Expired(outcome) then Some(outcome.response) else None
  }

  /** The browser state after one `fetchWithAuth` call. */
  function FetchEffects(s: BrowserState, outcome: FetchOutcome): (t: BrowserState)
    // 401: the token is gone, every other stored key is as it was, and the
    // user is told and sent to the login page
    ensures Expired(outcome) ==>
              TokenKey !in t.storage &&
              (forall k :: k != TokenKey ==> (k in t.storage <==> k in s.storage)) &&
              (forall k :: k in t.storage ==> t.storage[k] == s.storage[k]) &&
              t.location == LoginPath && t.alerts == s.alerts + [ExpiredMessage] && t.errors == s.errors
    // a transport failure is only logged
    ensures outcome.NetworkError? ==>
              t.storage == s.storage && t.location == s.location && t.alerts == s.alerts &&
              t.errors == s.errors + [NetworkErrorMessage]
    // any other status leaves the browser alone
    ensures outcome.Delivered? && !Expired(outcome) ==> t == s
  {
    if Expired(outcome) then
      s.Alerted(ExpiredMessage).(storage := s.storage - {TokenKey}, location := LoginPath)
    else if outcome.NetworkError? then
      s.(errors := s.errors + [NetworkErrorMessage])
    else
      s
  }

  /** `fetchWithAuth(url, options)`, where `outcome` is what `fetch` produced
      for the request this call sends. */
  method FetchWithAuth(env: BrowserEnv, url: string, options: RequestInit, outcome: FetchOutcome)
    returns (sent: Request, res: Option<Response>)
    modifies env
    ensures sent == Request(url, options.(headers := Some(MergeHeaders(options.headers, old(env.GetItem(TokenKey))))))
    ensures res == FetchResult(outcome)
    ensures env.Snapshot() == FetchEffects(old(env.Snapshot()), outcome)
  {
    var token := env.GetItem(TokenKey);
    var headers := MergeHeaders(options.headers, token);
    sent := Request(url, options.(headers := Some(headers)));
    match outcome
    case NetworkError =>
      env.LogError(NetworkErrorMessage);
      res := None;
    case Delivered(response) =>
      if response.status == 401 {
        env.Alert(ExpiredMessage);
        env.RemoveItem(TokenKey);
        env.Navigate(LoginPath);
        res := None;
        return;
      }
      res := Some(response);
  }
}
