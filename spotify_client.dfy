/**
 * The upstream client: a bounded retry wrapper and the two calls it wraps,
 * the token refresh and the now-playing query.
 *
 * Every invocation of a wrapped operation is an I/O event, so an operation is
 * modelled by the sequence of outcomes its successive invocations would
 * produce; the functions below consume that sequence from the front and
 * report how many invocations they made.
 */
module SpotifyClient {
  import opened Wrappers
  import opened PlayerTypes

  /** Retry budget used by both upstream calls (the default of `withRetry`). */
  const DefaultRetries: int := 2

  /** Status code of "204 No Content" (section 15.3.5 of RFC 9110). */
  const NoContent: int := 204

  /** The Fetch Standard's "ok status": 200 to 299 inclusive (`response.ok`). */
  predicate IsOkStatus(status: int)
    ensures IsOkStatus(status) <==> status / 100 == 2
  {
    200 <= status <= 299
  }

  /** The errors an upstream call can reject with. */
  datatype Failure =
    | NetworkError                 // `fetch` itself rejected
    | TokenRefreshFailed(status: int)
    | NowPlayingFailed(status: int)
    | MalformedJson                // `response.json()` rejected
    | MissingAccessToken

  /** An HTTP response: its status and its (possibly unparseable) body. */
  datatype HttpResponse<B> = HttpResponse(status: int, body: B)

  /** What one `fetch` call settles to. */
  datatype Exchange<B> = FetchRejected | Received(response: HttpResponse<B>)

  /** Parsed token-endpoint body; `access_token` may be absent. */
  datatype TokenBody = TokenBody(accessToken: Option<string>)

  /** A token-endpoint exchange; a body of `None` is one that is not valid JSON. */
  type TokenExchange = Exchange<Option<TokenBody>>

  /** The now-playing response handed to the route handler, body still unread;
      a body of `None` is one that does not parse as a player payload. */
  type NowPlayingResponse = HttpResponse<Option<PlayerPayload>>

  type NowPlayingExchange = Exchange<Option<PlayerPayload>>

  // ---------------------------------------------------------------------------
  // withRetry
  // ---------------------------------------------------------------------------

  /** One run of the retry wrapper: what it settled to, and how many times it
      invoked the operation. */
  datatype Run<T, E> = Run(result: Result<T, E>, calls: nat)

  /** The largest number of invocations `withRetry(fn, retries)` can make. */
  function MaxAttempts(retries: int): (n: nat)
    ensures n >= 1
    ensures retries > 0 ==> n == retries + 1
    ensures retries <= 0 ==> n == 1
  {
    if retries > 0 then retries + 1 else 1
  }

  /**
   * `withRetry(fn, retries)`: invoke the operation; if it rejects and budget
   * remains, retry with one less, otherwise rethrow. `attempts[i]` is what the
   * i-th invocation settles to; the environment must supply enough of them.
   */
  function WithRetry<T, E>(attempts: seq<Result<T, E>>, retries: int): (run: Run<T, E>)
    requires |attempts| >= MaxAttempts(retries)
    ensures 1 <= run.calls <= MaxAttempts(retries)
    ensures run.result == attempts[run.calls - 1]
    ensures forall i :: 0 <= i < run.calls - 1 ==> attempts[i].Err?
    ensures run.result.Err? ==> run.calls == MaxAttempts(retries)
    decreases retries
  {
    match attempts[0]
    case Ok(v) => Run(Ok(v), 1)
    case Err(e) =>
      if retries > 0 then
        var rest := WithRetry(attempts[1..], retries - 1);
        Run(rest.result, rest.calls + 1)
      else
        Run(Err(e), 1)
  }

  /** The first successful invocation within the budget decides the result,
      and nothing after it is invoked. */
  lemma RetryFirstSuccess<T, E>(attempts: seq<Result<T, E>>, retries: int, k: nat)
    requires |attempts| >= MaxAttempts(retries)
    requires k < MaxAttempts(retries) && attempts[k].Ok?
    requires forall i :: 0 <= i < k ==> attempts[i].Err?
    ensures WithRetry(attempts, retries) == Run(attempts[k], k + 1)
  {
  }

  /** When every invocation within the budget rejects, all of them are made
      and the last one's error is propagated unchanged. */
  lemma RetryExhausted<T, E>(attempts: seq<Result<T, E>>, retries: int)
    requires |attempts| >= MaxAttempts(retries)
    requires forall i :: 0 <= i < MaxAttempts(retries) ==> attempts[i].Err?
    ensures WithRetry(attempts, retries).calls == MaxAttempts(retries)
    ensures WithRetry(attempts, retries).result == Err(attempts[MaxAttempts(retries) - 1].error)
  {
  }

  /** With no budget left (zero or negative) there is exactly one invocation. */
  lemma RetryWithoutBudget<T, E>(attempts: seq<Result<T, E>>, retries: int)
    requires retries <= 0 && |attempts| >= 1
    ensures WithRetry(attempts, retries) == Run(attempts[0], 1)
  {
  }

  /** The run depends only on the invocations it made: two environments that
      agree on those give the same run, so no further invocation happens. */
  lemma {:induction false} RetryUsesOnlyItsCalls<T, E>(a: seq<Result<T, E>>, b: seq<Result<T, E>>, retries: int)
    requires |a| >= MaxAttempts(retries) && |b| >= MaxAttempts(retries)
    requires a[..WithRetry(a, retries).calls] == b[..WithRetry(a, retries).calls]
    ensures WithRetry(b, retries) == WithRetry(a, retries)
    decreases retries
  {
    var n := WithRetry(a, retries).calls;
    assert a[0] == a[..n][0] == b[..n][0] == b[0];
    if a[0].Err? && retries > 0 {
      var m := WithRetry(a[1..], retries - 1).calls;
      assert a[1..][..m] == a[..n][1..] == b[..n][1..] == b[1..][..m];
      RetryUsesOnlyItsCalls(a[1..], b[1..], retries - 1);
    }
  }

  // ---------------------------------------------------------------------------
  // getAccessToken
  // ---------------------------------------------------------------------------

  /** One invocation of the token refresh: a non-ok status rejects with the
      status; an ok status yields the parsed body. */
  function TokenAttempt(x: TokenExchange): (r: Result<TokenBody, Failure>)
    ensures r.Ok? <==> x.Received? && IsOkStatus(x.response.status) && x.response.body.Some?
    ensures r.Ok? ==> r.value == x.response.body.value
    ensures x.Received? && !IsOkStatus(x.response.status) ==> r == Err(TokenRefreshFailed(x.response.status))
  {
    match x
    case FetchRejected => Err(NetworkError)
    case Received(response) =>
      if !IsOkStatus(response.status) then Err(TokenRefreshFailed(response.status))
      else if response.body.None? then Err(MalformedJson)
      else Ok(response.body.value)
  }

  /** The outcomes of successive token-refresh invocations. */
  function TokenAttempts(xs: seq<TokenExchange>): (rs: seq<Result<TokenBody, Failure>>)
    ensures |rs| == |xs|
    ensures forall i :: 0 <= i < |xs| ==> rs[i] == TokenAttempt(xs[i])
  {
    seq(|xs|, i requires 0 <= i < |xs| => TokenAttempt(xs[i]))
  }

  /** `getAccessToken()`: the token refresh under the default retry budget. */
  function GetAccessToken(xs: seq<TokenExchange>): (run: Run<TokenBody, Failure>)
    requires |xs| >= MaxAttempts(DefaultRetries)
    ensures 1 <= run.calls <= 3
    ensures run.result == TokenAttempt(xs[run.calls - 1])
    ensures forall i :: 0 <= i < run.calls - 1 ==> TokenAttempt(xs[i]).Err?
    ensures run.result.Ok? ==> xs[run.calls - 1].Received? && IsOkStatus(xs[run.calls - 1].response.status)
    ensures run.result.Err? ==> run.calls == 3
  {
    WithRetry(TokenAttempts(xs), DefaultRetries)
  }

  // ---------------------------------------------------------------------------
  // getNowPlaying
  // ---------------------------------------------------------------------------

  /** JavaScript truthiness of `access_token`: present and non-empty. */
  predicate HasAccessToken(body: TokenBody)
    ensures HasAccessToken(body) <==> body.accessToken != None && |body.accessToken.value| > 0
  {
    body.accessToken.Some? && body.accessToken.value != ""
  }

  /** One invocation of the now-playing query: an ok status or 204 resolves
      with the response, anything else rejects with the status. */
  function NowPlayingAttempt(x: NowPlayingExchange): (r: Result<NowPlayingResponse, Failure>)
    ensures r.Ok? <==> x.Received? && (IsOkStatus(x.response.status) || x.response.status == NoContent)
    ensures r.Ok? ==> r.value == x.response && IsOkStatus(r.value.status)
    ensures x.Received? && r.Err? ==> r == Err(NowPlayingFailed(x.response.status))
  {
    match x
    case FetchRejected => Err(NetworkError)
    case Received(response) =>
      if !IsOkStatus(response.status) && response.status != NoContent then
        Err(NowPlayingFailed(response.status))
      else
        Ok(response)
  }

  /** The outcomes of successive now-playing invocations. */
  function NowPlayingAttempts(xs: seq<NowPlayingExchange>): (rs: seq<Result<NowPlayingResponse, Failure>>)
    ensures |rs| == |xs|
    ensures forall i :: 0 <= i < |xs| ==> rs[i] == NowPlayingAttempt(xs[i])
  {
    seq(|xs|, i requires 0 <= i < |xs| => NowPlayingAttempt(xs[i]))
  }

  /** One run of `getNowPlaying()`: its result and the invocations made of each
      endpoint (all token invocations come first). */
  datatype NowPlayingRun = NowPlayingRun(
    result: Result<NowPlayingResponse, Failure>,
    tokenCalls: nat,
    nowPlayingCalls: nat)

  /**
   * `getNowPlaying()`: refresh the token (retried), fail fast without retry
   * when it carries no access token, then query now-playing (retried).
   */
  function GetNowPlaying(tokens: seq<TokenExchange>, players: seq<NowPlayingExchange>): (run: NowPlayingRun)
    requires |tokens| >= MaxAttempts(DefaultRetries) && |players| >= MaxAttempts(DefaultRetries)
    ensures 1 <= run.tokenCalls <= 3 && run.nowPlayingCalls <= 3
    ensures run.nowPlayingCalls > 0 <==>
              GetAccessToken(tokens).result.Ok? && HasAccessToken(GetAccessToken(tokens).result.value)
    ensures run.result.Ok? ==> run.nowPlayingCalls > 0 && run.result == NowPlayingAttempt(players[run.nowPlayingCalls - 1])
    ensures run.result.Ok? ==> IsOkStatus(run.result.value.status)
    ensures run.tokenCalls == GetAccessToken(tokens).calls
    ensures run.nowPlayingCalls > 0 ==>
              run.result == WithRetry(NowPlayingAttempts(players), DefaultRetries).result &&
              run.nowPlayingCalls == WithRetry(NowPlayingAttempts(players), DefaultRetries).calls
  {
    var token := GetAccessToken(tokens);
    match token.result
    case Err(e) => NowPlayingRun(Err(e), token.calls, 0)
    case Ok(body) =>
      if !HasAccessToken(body) then
        NowPlayingRun(Err(MissingAccessToken), token.calls, 0)
      else
        var player := WithRetry(NowPlayingAttempts(players), DefaultRetries);
        NowPlayingRun(player.result, token.calls, player.calls)
  }

  /** A token refresh that exhausts its retries rejects `getNowPlaying` with
      the same error, before any now-playing invocation. */
  lemma TokenFailurePropagates(tokens: seq<TokenExchange>, players: seq<NowPlayingExchange>)
    requires |tokens| >= 3 && |players| >= 3
    requires GetAccessToken(tokens).result.Err?
    ensures GetNowPlaying(tokens, players) ==
              NowPlayingRun(Err(GetAccessToken(tokens).result.error), 3, 0)
  {
  }

  /** A token body without an access token fails fast: no retry of the token
      refresh beyond its first success, and no now-playing invocation. */
  lemma MissingTokenFailsFast(tokens: seq<TokenExchange>, players: seq<NowPlayingExchange>, k: nat)
    requires |tokens| >= 3 && |players| >= 3
    requires k < 3 && TokenAttempt(tokens[k]).Ok? && !HasAccessToken(TokenAttempt(tokens[k]).value)
    requires forall i :: 0 <= i < k ==> TokenAttempt(tokens[i]).Err?
    ensures GetNowPlaying(tokens, players) == NowPlayingRun(Err(MissingAccessToken), k + 1, 0)
  {
  }

  /** With a usable token, the first accepted now-playing invocation within
      the budget decides the result and nothing after it is invoked. */
  lemma NowPlayingFirstAccepted(tokens: seq<TokenExchange>, players: seq<NowPlayingExchange>, k: nat)
    requires |tokens| >= 3 && |players| >= 3
    requires GetAccessToken(tokens).result.Ok? && HasAccessToken(GetAccessToken(tokens).result.value)
    requires k < 3 && NowPlayingAttempt(players[k]).Ok?
    requires forall i :: 0 <= i < k ==> NowPlayingAttempt(players[i]).Err?
    ensures GetNowPlaying(tokens, players).result == Ok(players[k].response)
    ensures GetNowPlaying(tokens, players).nowPlayingCalls == k + 1
  {
    RetryFirstSuccess(NowPlayingAttempts(players), DefaultRetries, k);
  }

  /** With a usable token, `getNowPlaying` resolves iff one of the three
      budgeted now-playing invocations is accepted; otherwise all three are
      made and the third one's error is rethrown. */
  lemma NowPlayingAfterToken(tokens: seq<TokenExchange>, players: seq<NowPlayingExchange>)
    requires |tokens| >= 3 && |players| >= 3
    requires GetAccessToken(tokens).result.Ok? && HasAccessToken(GetAccessToken(tokens).result.value)
    ensures GetNowPlaying(tokens, players).result.Ok? <==>
              exists i :: 0 <= i < 3 && NowPlayingAttempt(players[i]).Ok?
    ensures GetNowPlaying(tokens, players).result.Err? ==>
              GetNowPlaying(tokens, players).nowPlayingCalls == 3 &&
              GetNowPlaying(tokens, players).result == NowPlayingAttempt(players[2])
  {
    var run := GetNowPlaying(tokens, players);
    if run.result.Err? {
      forall i | 0 <= i < 3 ensures NowPlayingAttempt(players[i]).Err? {
        assert NowPlayingAttempts(players)[i] == NowPlayingAttempt(players[i]);
      }
    }
  }
}
