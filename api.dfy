// The webhook delivery client (src/utils/api.ts): one `sendMessage` call
// posts the request, retries with exponential backoff while the webhook
// answers 429, validates the reply, and turns every failure into a
// `ChatError`.
//
// The network is an input: the outcome of the k-th request of a call is the
// k-th element of a sequence. An outcome that takes 30 seconds or more, or a
// request beyond the end of the sequence (one that never settles), is cut
// off by the abort timer.

module Api {
  import opened Types

  const MaxRetries: nat := 3
  /** Milliseconds waited before the first retry; each later wait doubles. */
  const BaseDelay: nat := 2000
  /** Milliseconds after which the abort timer cancels a request. */
  const RequestTimeout: nat := 30000

  /** The JavaScript values the reply validation tells apart. A parsed body
      that is not an object (a number, a string, an array) has neither
      field, so it reads as `Parsed(Undefined, Undefined)`. Arrays are
      modelled only as arrays of strings, the element type the reply
      declares; `Array.isArray` would pass an array of any elements through
      unchanged. */
  datatype JsValue =
    | Undefined
    | Null
    | Boolean(b: bool)
    | Number(n: int)
    | Str(s: string)
    | StrArray(items: seq<string>)
    | Object

  predicate Truthy(v: JsValue) {
    match v
    case Undefined => false
    case Null => false
    case Boolean(b) => b
    case Number(n) => n != 0
    case Str(s) => s != ""
    case StrArray(_) => true
    case Object => true
  }

  /** What `response.json()` gives: the two fields read from the body, the
      value `null`, or a parse failure with its message. */
  datatype Json = Parsed(reply: JsValue, followUp: JsValue) | ParsedNull | Unparsable(message: string)

  /** A response: its status, what `response.text()` gives (`None` when it
      rejects) and what `response.json()` gives. */
  datatype HttpResponse = HttpResponse(status: nat, text: Option<string>, json: Json)

  /** An `Error` instance, as `fetch` and `response.json()` reject with. */
  datatype JsError = JsError(name: string, message: string)

  datatype Settlement = Responded(response: HttpResponse) | Rejected(error: JsError)

  /** One request's fate on the network: how long it took and how it settled. */
  datatype Outcome = Outcome(latency: nat, settlement: Settlement)

  /** What reaches the `catch` block: an `Error` instance, or a `ChatError`
      object thrown by the client itself. */
  datatype Thrown = Raised(error: JsError) | Reported(chatError: ChatError)

  /** The outcome and the backoff waits of one `sendMessage` call. */
  datatype Delivery = Delivery(result: Result<WebhookResponse, ChatError>, delays: seq<nat>)

  /** The request `fetch` is given. */
  datatype HttpRequest = HttpRequest(url: string, verb: string, headers: map<string, string>, body: WebhookRequest)

  /** The rejection the abort timer causes. */
  const TimerAbort := JsError("AbortError", "signal is aborted without reason")

  const TooManyRequests := ChatError(RateLimit, "Too many requests. Please try again later.", false)

  const InvalidFormat := ChatError(Server, "Invalid response format from webhook", false)

  function Pow2(n: nat): (p: nat)
    ensures p >= 1
  {
    if n == 0 then 1 else 2 * Pow2(n - 1)
  }

  /** The wait before re-issuing a request that got a 429 after `retryCount` retries. */
  function Backoff(retryCount: nat): nat {
    BaseDelay * Pow2(retryCount)
  }

  /** The waits of `count` consecutive retries, starting after `retryCount` retries. */
  function Backoffs(retryCount: nat, count: nat): (s: seq<nat>)
    ensures |s| == count
    decreases count
  {
    if count == 0 then [] else [Backoff(retryCount)] + Backoffs(retryCount + 1, count - 1)
  }

  function Sum(s: seq<nat>): nat {
    if s == [] then 0 else s[0] + Sum(s[1..])
  }

  /** How the next request settles, the abort timer included. */
  function Observed(network: seq<Outcome>): (s: Settlement)
    ensures s.Responded? ==> network != [] && network[0].latency < RequestTimeout
    ensures network == [] || network[0].latency >= RequestTimeout ==> s == Rejected(TimerAbort)
    ensures network != [] && network[0].latency < RequestTimeout ==> s == network[0].settlement
  {
    if network != [] && network[0].latency < RequestTimeout then network[0].settlement
    else Rejected(TimerAbort)
  }

  /** The outcomes left for later requests. */
  function Later(network: seq<Outcome>): seq<Outcome> {
    if network == [] then [] else network[1..]
  }

  predicate IsTooMany(s: Settlement) {
    s.Responded? && s.response.status == 429
  }

  predicate IsChatError(t: Thrown) {
    t.Reported?
  }

  /** The `catch` block: every thrown value becomes a `ChatError`. */
  function Caught(t: Thrown): (e: ChatError)
    ensures t.Raised? ==> e.retryable && (e.kind == Timeout <==> t.error.name == "AbortError")
    ensures t.Raised? ==> e.kind in {Timeout, Network}
    ensures IsChatError(t) ==> e == t.chatError
    ensures t.Raised? && t.error.name == "AbortError" ==> e.message == "Connection lost \U{2013} retry"
    ensures t.Raised? && t.error.name != "AbortError" ==>
              e.message == if Contains(t.error.message, "fetch") then "Network error. Please check your connection."
                           else "An unexpected error occurred"
  {
    if t.Raised? && t.error.name == "AbortError" then
      ChatError(Timeout, "Connection lost \U{2013} retry", true)
    else if t.Raised? && Contains(t.error.message, "fetch") then
      ChatError(Network, "Network error. Please check your connection.", true)
    else if IsChatError(t) then
      t.chatError
    else
      ChatError(Network, "An unexpected error occurred", true)
  }

  /** The body of the `try` block after the 429 check: the reply, or what it throws. */
  function Accept(r: HttpResponse): (res: Result<WebhookResponse, Thrown>)
    requires r.status != 429
    ensures res.Ok? <==> 200 <= r.status < 300 && r.json.Parsed? && r.json.reply.Str? && r.json.reply.s != ""
    ensures res.Err? && res.error.Reported? ==> res.error.chatError.kind == Server
    ensures res.Err? && res.error.Raised? ==> 200 <= r.status < 300 && res.error.error.name != "AbortError"
  {
    if !(200 <= r.status < 300) then
      var errorText := match r.text case Some(t) => t case None => "Unknown error";
      Err(Reported(ChatError(Server, "Server error (" + Decimal(r.status) + "): " + errorText, r.status >= 500)))
    else
      match r.json
      case Unparsable(m) => Err(Raised(JsError("SyntaxError", m)))
      case ParsedNull => Err(Raised(JsError("TypeError", "Cannot read properties of null (reading 'reply')")))
      case Parsed(reply, followUp) =>
        if !Truthy(reply) || !reply.Str? then Err(Reported(InvalidFormat))
        else Ok(WebhookResponse(reply.s, if followUp.StrArray? then Some(followUp.items) else None))
  }

  /** The result of a request that did not get a 429. */
  function Final(s: Settlement): (res: Result<WebhookResponse, ChatError>)
    requires !IsTooMany(s)
    ensures s.Rejected? ==> res.Err? && res.error.retryable && res.error.kind in {Timeout, Network}
    ensures s.Responded? && !(200 <= s.response.status < 300) ==>
              res.Err? && res.error.kind == Server && res.error.retryable == (s.response.status >= 500)
    ensures res.Ok? <==>
              s.Responded? && 200 <= s.response.status < 300 && s.response.json.Parsed? &&
              s.response.json.reply.Str? && s.response.json.reply.s != ""
    ensures res.Err? ==> res.error.kind != RateLimit
    ensures res.Ok? ==> res.value.reply == s.response.json.reply.s
    ensures res.Ok? ==> (res.value.followUp.Some? <==> s.response.json.followUp.StrArray?)
    ensures res.Ok? && res.value.followUp.Some? ==> res.value.followUp.value == s.response.json.followUp.items
    ensures (s.Responded? && 200 <= s.response.status < 300 && s.response.json.Parsed? &&
             !(s.response.json.reply.Str? && s.response.json.reply.s != "")) ==> res == Err(InvalidFormat)
  {
    match s
    case Rejected(e) => Err(Caught(Raised(e)))
    case Responded(r) =>
      match Accept(r)
      case Ok(reply) => Ok(reply)
      case Err(t) => Err(Caught(t))
  }

  /** One `makeRequest` chain starting after `retryCount` retries: the final
      result and the backoff waits taken on the way. */
  function Deliver(network: seq<Outcome>, retryCount: nat): (d: Delivery)
    ensures retryCount >= MaxRetries ==> d.delays == []
    ensures d.result.Err? && d.result.error.kind == RateLimit ==> retryCount + |d.delays| >= MaxRetries
    decreases MaxRetries - retryCount
  {
    var s := Observed(network);
    if !IsTooMany(s) then Delivery(Final(s), [])
    else if retryCount < MaxRetries then
      var rest := Deliver(Later(network), retryCount + 1);
      Delivery(rest.result, [Backoff(retryCount)] + rest.delays)
    else Delivery(Err(TooManyRequests), [])
  }

  /** The outcomes left after `k` requests. */
  function After(network: seq<Outcome>, k: nat): seq<Outcome> {
    if k == 0 then network else After(Later(network), k - 1)
  }

  /** A chain never retries more often than the budget left, and its waits
      double from `Backoff(retryCount)` on. */
  lemma {:induction false} DeliverWaits(network: seq<Outcome>, retryCount: nat)
    requires retryCount <= MaxRetries
    ensures Deliver(network, retryCount).delays == Backoffs(retryCount, |Deliver(network, retryCount).delays|)
    ensures |Deliver(network, retryCount).delays| <= MaxRetries - retryCount
    decreases MaxRetries - retryCount
  {
    var s := Observed(network);
    if IsTooMany(s) && retryCount < MaxRetries {
      DeliverWaits(Later(network), retryCount + 1);
    }
  }

  /** When the first `k` requests get a 429 and the next does not, the chain
      ends with that request's result after exactly `k` waits. */
  lemma {:induction false} DeliverStopsAtFirstOther(network: seq<Outcome>, retryCount: nat, k: nat)
    requires retryCount + k <= MaxRetries
    requires forall j :: 0 <= j < k ==> IsTooMany(Observed(After(network, j)))
    requires !IsTooMany(Observed(After(network, k)))
    ensures Deliver(network, retryCount) == Delivery(Final(Observed(After(network, k))), Backoffs(retryCount, k))
    decreases k
  {
    if k > 0 {
      assert IsTooMany(Observed(After(network, 0)));
      forall j | 0 <= j < k - 1
        ensures IsTooMany(Observed(After(Later(network), j)))
      {
        assert After(network, j + 1) == After(Later(network), j);
        assert IsTooMany(Observed(After(network, j + 1)));
      }
      assert After(network, k) == After(Later(network), k - 1);
      DeliverStopsAtFirstOther(Later(network), retryCount + 1, k - 1);
    }
  }

  /** When every request the budget allows gets a 429, the chain fails with
      a non-retryable `rate_limit` error after waiting out every backoff. */
  lemma {:induction false} DeliverExhausted(network: seq<Outcome>, retryCount: nat)
    requires retryCount <= MaxRetries
    requires forall j :: 0 <= j <= MaxRetries - retryCount ==> IsTooMany(Observed(After(network, j)))
    ensures Deliver(network, retryCount) == Delivery(Err(TooManyRequests), Backoffs(retryCount, MaxRetries - retryCount))
    decreases MaxRetries - retryCount
  {
    assert IsTooMany(Observed(After(network, 0)));
    if retryCount < MaxRetries {
      forall j | 0 <= j <= MaxRetries - (retryCount + 1)
        ensures IsTooMany(Observed(After(Later(network), j)))
      {
        assert After(network, j + 1) == After(Later(network), j);
        assert IsTooMany(Observed(After(network, j + 1)));
      }
      DeliverExhausted(Later(network), retryCount + 1);
    }
  }

  /** Every failure of a chain is a well-formed `ChatError` of a kind other
      than `unknown`, and only a `rate_limit` error stops retrying for good. */
  lemma {:induction false} DeliverNeverUnknown(network: seq<Outcome>, retryCount: nat)
    ensures Deliver(network, retryCount).result.Err? ==> Deliver(network, retryCount).result.error.kind != Unknown
    ensures Deliver(network, retryCount).result.Err? && Deliver(network, retryCount).result.error.kind == RateLimit ==>
              Deliver(network, retryCount).result == Err(TooManyRequests)
    decreases MaxRetries - retryCount
  {
    var s := Observed(network);
    if IsTooMany(s) && retryCount < MaxRetries {
      DeliverNeverUnknown(Later(network), retryCount + 1);
    } else if !IsTooMany(s) && s.Responded? {
      var r := s.response;
      if 200 <= r.status < 300 && r.json.Parsed? {
        assert Final(s).Err? ==> Final(s) == Err(InvalidFormat);
      }
    }
  }

  /** The total wait of a chain that retried `count` times from `retryCount`. */
  lemma {:induction false} BackoffsTotal(retryCount: nat, count: nat)
    ensures Sum(Backoffs(retryCount, count)) == BaseDelay * (Pow2(retryCount + count) - Pow2(retryCount))
    decreases count
  {
    if count > 0 {
      BackoffsTotal(retryCount + 1, count - 1);
      assert Pow2(retryCount + 1) == 2 * Pow2(retryCount);
    }
  }

  /** A fresh call makes at most four requests; its waits are a prefix of
      2, 4 and 8 seconds and add up to 0, 2, 6 or 14 seconds. */
  lemma FreshCallWaits(network: seq<Outcome>)
    ensures |Deliver(network, 0).delays| <= MaxRetries
    ensures Deliver(network, 0).delays == [2000, 4000, 8000][..|Deliver(network, 0).delays|]
    ensures Sum(Deliver(network, 0).delays) == BaseDelay * (Pow2(|Deliver(network, 0).delays|) - 1)
  {
    var d := Deliver(network, 0);
    DeliverWaits(network, 0);
    BackoffsTotal(0, |d.delays|);
    assert Backoffs(2, 1) == [8000];
    assert Backoffs(1, 2) == [4000, 8000];
    assert Backoffs(0, 3) == [2000, 4000, 8000];
    assert Backoffs(0, |d.delays|) == Backoffs(0, 3)[..|d.delays|] by {
      BackoffsPrefix(0, |d.delays|, 3);
    }
  }

  lemma {:induction false} BackoffsPrefix(retryCount: nat, count: nat, more: nat)
    requires count <= more
    ensures Backoffs(retryCount, count) == Backoffs(retryCount, more)[..count]
    decreases count
  {
    if count > 0 {
      BackoffsPrefix(retryCount + 1, count - 1, more - 1);
    }
  }

  /** The headers of a webhook request: JSON content type always, and a
      bearer token exactly when a non-empty token is configured. */
  predicate WebhookHeaders(headers: map<string, string>, token: Option<string>) {
    && headers.Keys <= {"Content-Type", "Authorization"}
    && "Content-Type" in headers && headers["Content-Type"] == "application/json"
    && ("Authorization" in headers <==> token.Some? && token.value != "")
    && ("Authorization" in headers ==> headers["Authorization"] == "Bearer " + token.value)
  }

  lemma WebhookHeadersUnique(h1: map<string, string>, h2: map<string, string>, token: Option<string>)
    requires WebhookHeaders(h1, token) && WebhookHeaders(h2, token)
    ensures h1 == h2
  {
    assert h1.Keys == h2.Keys;
  }

  /** `ApiClient`: the webhook address and token, and the retry counter that
      every `sendMessage` call resets. */
  class ApiClient {
    const webhookUrl: string
    const webhookToken: Option<string>
    var retryCount: nat

    constructor (webhookUrl: string, webhookToken: Option<string>)
      ensures this.webhookUrl == webhookUrl && this.webhookToken == webhookToken
      ensures retryCount == 0
    {
      this.webhookUrl := webhookUrl;
      this.webhookToken := webhookToken;
      retryCount := 0;
    }

    method Headers() returns (headers: map<string, string>)
      ensures WebhookHeaders(headers, webhookToken)
    {
      headers := map["Content-Type" := "application/json"];
      if webhookToken.Some? && webhookToken.value != "" {
        headers := headers["Authorization" := "Bearer " + webhookToken.value];
      }
    }

    /** `sendMessage`: resets the retry counter, so every call has the full
        retry budget whatever earlier calls did. `sent` lists the requests
        issued, all identical. */
    method SendMessage(request: WebhookRequest, network: seq<Outcome>)
      returns (result: Result<WebhookResponse, ChatError>, delays: seq<nat>, sent: seq<HttpRequest>)
      modifies this
      ensures Delivery(result, delays) == Deliver(network, 0)
      ensures retryCount == |delays| <= MaxRetries
      ensures |sent| == |delays| + 1
      ensures forall k :: 0 <= k < |sent| ==> sent[k] == sent[0]
      ensures sent[0].url == webhookUrl && sent[0].verb == "POST" && sent[0].body == request
      ensures WebhookHeaders(sent[0].headers, webhookToken)
    {
      retryCount := 0;
      result, delays, sent := MakeRequest(request, network);
      DeliverWaits(network, 0);
    }

    /** `makeRequest`: one request, then on a 429 with budget left a wait
        and the same request again. */
    method MakeRequest(request: WebhookRequest, network: seq<Outcome>)
      returns (result: Result<WebhookResponse, ChatError>, delays: seq<nat>, sent: seq<HttpRequest>)
      modifies this
      ensures Delivery(result, delays) == Deliver(network, old(retryCount))
      ensures retryCount == old(retryCount) + |delays|
      ensures |sent| == |delays| + 1
      ensures forall k :: 0 <= k < |sent| ==> sent[k] == sent[0]
      ensures sent[0].url == webhookUrl && sent[0].verb == "POST" && sent[0].body == request
      ensures WebhookHeaders(sent[0].headers, webhookToken)
      decreases MaxRetries - retryCount
    {
      var headers := Headers();
      var http := HttpRequest(webhookUrl, "POST", headers, request);
      sent := [http];
      var settlement := Observed(network);
      if IsTooMany(settlement) {
        if retryCount < MaxRetries {
          var delay := BaseDelay * Pow2(retryCount);
          retryCount := retryCount + 1;
          var more;
          result, delays, more := MakeRequest(request, Later(network));
          WebhookHeadersUnique(more[0].headers, headers, webhookToken);
          delays := [delay] + delays;
          sent := sent + more;
        } else {
          result, delays := Err(TooManyRequests), [];
        }
      } else {
        result, delays := Final(settlement), [];
      }
    }
  }
}
