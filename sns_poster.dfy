/**
 * Publishing a generated post to X or Threads (backend/app/services/sns_poster.py).
 *
 * Each publisher first runs a chain of credential guards; the first missing
 * credential yields a mock result and no remote call is made. Otherwise the
 * publisher makes its remote calls through a `Transport`, which records every
 * request in its log and answers the n-th call with `respond(n, request)`.
 * A real attempt either returns a non-mock result or raises; it never
 * degrades into a mock.
 */
module SnsPoster {
  import opened Text

  /** The result dictionary: the `mock`, `status` and `platform` keys, and every other key in `extra`. */
  datatype PublishResult = PublishResult(mock: bool, status: string, platform: string, extra: map<string, string>)

  /** Either the returned dictionary or the message of the raised `RuntimeError`. */
  datatype PostOutcome = Returned(result: PublishResult) | Raised(message: string)

  /** The application credentials read from the settings (`X_API_KEY`, `X_API_SECRET`). */
  datatype XAppKeys = XAppKeys(apiKey: string, apiSecret: string)

  /**
   * The remote calls the publishers make: `create_tweet`, and the Threads Graph API's
   * `{userId}/threads` (create a text container) and `{userId}/threads_publish` posts.
   */
  datatype Request =
    | CreateTweet(consumerKey: string, consumerSecret: string, accessToken: string, accessTokenSecret: string, text: string)
    | CreateContainer(userId: string, text: string, accessToken: string)
    | PublishContainer(userId: string, creationId: Option<string>, accessToken: string)

  /**
   * The answer to a remote call: a decoded JSON body (values taken as strings),
   * an error status from the API (`tweepy.TweepyException`, `httpx.HTTPStatusError`)
   * with its text, or any other failure with its message.
   */
  datatype Reply = Ok(body: map<string, string>) | Rejected(text: string) | Broken(message: string)

  /** The calls a publish made and what it produced. */
  datatype Exchange = Exchange(calls: seq<Request>, outcome: PostOutcome)

  /** The remote side: every request is appended to `log`, and the n-th call is answered by `respond`. */
  class Transport {
    var log: seq<Request>
    const respond: (nat, Request) -> Reply

    constructor(respond: (nat, Request) -> Reply)
      ensures log == [] && this.respond == respond
    {
      log := [];
      this.respond := respond;
    }

    method Send(request: Request) returns (reply: Reply)
      modifies this
      ensures log == old(log) + [request]
      ensures reply == respond(|old(log)|, request)
    {
      reply := respond(|log|, request);
      log := log + [request];
    }
  }

  const Posted := "posted"
  const TweetUrlPrefix := "https://x.com/i/status/"
  const DefaultThreadsUser := "me"

  const XKeysMissing := "X APIキー未設定のためモック投稿しました"
  const TokenMissing := "access_token 未設定のためモック投稿しました"
  const SecretMissing := "access_token_secret 未設定のためモック投稿しました"

  /** The mock result for `platform`, carrying the guard's message. */
  function Mock(platform: string, message: string): (r: PublishResult)
    ensures r.mock && r.status == Posted && r.platform == platform && r.extra == map["message" := message]
  {
    PublishResult(true, Posted, platform, map["message" := message])
  }

  // ---------------------------------------------------------------- X

  /**
   * The X guard chain: the message of the first missing credential, checked in
   * the order application key and secret, access token, access token secret;
   * `None` when all are present.
   */
  function XMockMessage(keys: XAppKeys, accessToken: string, accessTokenSecret: string): (r: Option<string>)
    ensures r.None? <==> keys.apiKey != "" && keys.apiSecret != "" && accessToken != "" && accessTokenSecret != ""
    ensures r == Some(XKeysMissing) <==> keys.apiKey == "" || keys.apiSecret == ""
    ensures r == Some(TokenMissing) <==> keys.apiKey != "" && keys.apiSecret != "" && accessToken == ""
    ensures r == Some(SecretMissing) <==>
              keys.apiKey != "" && keys.apiSecret != "" && accessToken != "" && accessTokenSecret == ""
  {
    if keys.apiKey == "" || keys.apiSecret == "" then Some(XKeysMissing)
    else if accessToken == "" then Some(TokenMissing)
    else if accessTokenSecret == "" then Some(SecretMissing)
    else None
  }

  /** What a real X attempt produces from the `create_tweet` reply. */
  function XAttempt(reply: Reply): (out: PostOutcome)
    ensures out.Returned? <==> reply.Ok? && "id" in reply.body
    ensures out.Returned? ==>
      && !out.result.mock && out.result.status == Posted && out.result.platform == "x"
      && out.result.extra == map["tweet_id" := reply.body["id"], "url" := TweetUrlPrefix + reply.body["id"]]
    ensures reply.Rejected? ==> out == Raised("X投稿失敗: " + reply.text)
    ensures reply.Broken? ==> out == Raised("X投稿エラー: " + reply.message)
    ensures reply.Ok? && "id" !in reply.body ==> out == Raised("X投稿エラー: 'id'")
  {
    match reply
    case Ok(body) =>
      if "id" in body then
        var id := body["id"];
        Returned(PublishResult(false, Posted, "x", map["tweet_id" := id, "url" := TweetUrlPrefix + id]))
      else Raised("X投稿エラー: 'id'")
    case Rejected(text) => Raised("X投稿失敗: " + text)
    case Broken(message) => Raised("X投稿エラー: " + message)
  }

  /** The whole of `post_to_x` against a remote side answering the n-th call with `respond`. */
  function XExchange(keys: XAppKeys, content: string, accessToken: string, accessTokenSecret: string,
                     respond: (nat, Request) -> Reply, n: nat): Exchange
  {
    var guard := XMockMessage(keys, accessToken, accessTokenSecret);
    if guard.Some? then Exchange([], Returned(Mock("x", guard.value)))
    else
      var request := CreateTweet(keys.apiKey, keys.apiSecret, accessToken, accessTokenSecret, content);
      Exchange([request], XAttempt(respond(n, request)))
  }

  /**
   * A mock result comes exactly when a credential is missing, and then no call is made;
   * with every credential present there is exactly one call, carrying the content and
   * credentials, and the outcome is a non-mock result or an error, never a mock.
   */
  lemma XExchangeFacts(keys: XAppKeys, content: string, accessToken: string, accessTokenSecret: string,
                       respond: (nat, Request) -> Reply, n: nat)
    ensures var e := XExchange(keys, content, accessToken, accessTokenSecret, respond, n);
      && (e.calls == [] <==> XMockMessage(keys, accessToken, accessTokenSecret).Some?)
      && (e.outcome.Returned? && e.outcome.result.mock <==> e.calls == [])
      && (e.calls == [] ==> e.outcome.result == Mock("x", XMockMessage(keys, accessToken, accessTokenSecret).value))
      && (e.calls != [] ==>
            && e.calls == [CreateTweet(keys.apiKey, keys.apiSecret, accessToken, accessTokenSecret, content)]
            && e.outcome == XAttempt(respond(n, e.calls[0])))
  {
  }

  /** `post_to_x`: the guard chain, then at most one `create_tweet` call. */
  method PostToX(transport: Transport, keys: XAppKeys, content: string, accessToken: string, accessTokenSecret: string)
    returns (out: PostOutcome)
    modifies transport
    ensures var e := XExchange(keys, content, accessToken, accessTokenSecret, transport.respond, |old(transport.log)|);
      transport.log == old(transport.log) + e.calls && out == e.outcome
  {
    var guard := XMockMessage(keys, accessToken, accessTokenSecret);
    if guard.Some? {
      return Returned(Mock("x", guard.value));
    }
    var reply := transport.Send(CreateTweet(keys.apiKey, keys.apiSecret, accessToken, accessTokenSecret, content));
    match reply
    case Ok(body) =>
      if "id" in body {
        var tweetId := body["id"];
        out := Returned(PublishResult(false, Posted, "x", map["tweet_id" := tweetId, "url" := TweetUrlPrefix + tweetId]));
      } else {
        out := Raised("X投稿エラー: 'id'");
      }
    case Rejected(text) => out := Raised("X投稿失敗: " + text);
    case Broken(message) => out := Raised("X投稿エラー: " + message);
  }

  // ---------------------------------------------------------------- Threads

  /** The Threads guard: only the access token is checked. */
  function ThreadsMockMessage(accessToken: string): (r: Option<string>)
    ensures r.None? <==> accessToken != ""
    ensures r.Some? ==> r.value == TokenMissing
  {
    if accessToken == "" then Some(TokenMissing) else None
  }

  /** The error a failed Threads call raises. */
  function ThreadsFailure(reply: Reply): (out: PostOutcome)
    requires !reply.Ok?
    ensures out.Raised?
    ensures reply.Rejected? ==> out.message == "Threads投稿失敗: " + reply.text
    ensures reply.Broken? ==> out.message == "Threads投稿エラー: " + reply.message
  {
    if reply.Rejected? then Raised("Threads投稿失敗: " + reply.text) else Raised("Threads投稿エラー: " + reply.message)
  }

  /** The success dictionary: the publish body with `mock`, `status` and `platform` forced. */
  function ThreadsPosted(body: map<string, string>): (r: PublishResult)
    ensures !r.mock && r.status == Posted && r.platform == "threads"
    ensures forall k :: k in r.extra <==> k in body && k !in {"mock", "status", "platform"}
    ensures forall k :: k in r.extra ==> r.extra[k] == body[k]
  {
    PublishResult(false, Posted, "threads", body - {"mock", "status", "platform"})
  }

  /** The whole of `post_to_threads` against a remote side answering the n-th call with `respond`. */
  function ThreadsExchange(content: string, accessToken: string, userId: string,
                           respond: (nat, Request) -> Reply, n: nat): Exchange
  {
    if ThreadsMockMessage(accessToken).Some? then Exchange([], Returned(Mock("threads", TokenMissing)))
    else
      var create := CreateContainer(userId, content, accessToken);
      var created := respond(n, create);
      if !created.Ok? then Exchange([create], ThreadsFailure(created))
      else
        var publish := PublishContainer(userId, Lookup(created.body, "id"), accessToken);
        var published := respond(n + 1, publish);
        if !published.Ok? then Exchange([create, publish], ThreadsFailure(published))
        else Exchange([create, publish], Returned(ThreadsPosted(published.body)))
  }

  /**
   * An empty token gives the mock and no call. Otherwise the first call creates the
   * container; a success takes exactly two calls, create then publish, and the publish
   * call carries the id the create call returned; a mock is never returned then.
   */
  lemma ThreadsExchangeFacts(content: string, accessToken: string, userId: string,
                             respond: (nat, Request) -> Reply, n: nat)
    ensures var e := ThreadsExchange(content, accessToken, userId, respond, n);
      && (e.calls == [] <==> accessToken == "")
      && (accessToken == "" ==> e.outcome == Returned(Mock("threads", TokenMissing)))
      && 0 <= |e.calls| <= 2
      && (e.calls != [] ==> e.calls[0] == CreateContainer(userId, content, accessToken))
      && (e.calls != [] && e.outcome.Returned? ==>
            && !e.outcome.result.mock
            && |e.calls| == 2
            && respond(n, e.calls[0]).Ok?
            && e.calls[1] == PublishContainer(userId, Lookup(respond(n, e.calls[0]).body, "id"), accessToken)
            && respond(n + 1, e.calls[1]).Ok?
            && e.outcome.result == ThreadsPosted(respond(n + 1, e.calls[1]).body))
      && (e.calls != [] && !respond(n, e.calls[0]).Ok? ==> |e.calls| == 1 && e.outcome.Raised?)
  {
  }

  /** `post_to_threads`: the token guard, then the create call and, when it succeeds, the publish call. */
  method PostToThreads(transport: Transport, content: string, accessToken: string, userId: string)
    returns (out: PostOutcome)
    modifies transport
    ensures var e := ThreadsExchange(content, accessToken, userId, transport.respond, |old(transport.log)|);
      transport.log == old(transport.log) + e.calls && out == e.outcome
  {
    if accessToken == "" {
      return Returned(Mock("threads", TokenMissing));
    }
    var created := transport.Send(CreateContainer(userId, content, accessToken));
    if !created.Ok? {
      return ThreadsFailure(created);
    }
    var creationId := Lookup(created.body, "id");
    var published := transport.Send(PublishContainer(userId, creationId, accessToken));
    if !published.Ok? {
      return ThreadsFailure(published);
    }
    out := Returned(ThreadsPosted(published.body));
  }
}
