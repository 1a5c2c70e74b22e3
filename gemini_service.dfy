/** The resilient invoker: the prompt sent to the generation API, the bounded
    exponential-backoff retry around the API call, the check of the response
    text, and the classification of failures into user-facing messages.

    The API is a caller-supplied function from the prompt and the attempt index
    to what that attempt yields; `sleep` is modelled by recording its delay. */
module GeminiService {
  import opened JsValues
  import opened Text
  import opened ToolOptions
  import ContextTool
  import Tools

  const MaxRetries: int := 3
  const InitialRetryDelay: int := 1000

  /** An error raised by the API call: its `status` (absent for a plain `Error`)
      and its `message`. */
  datatype ApiError = ApiError(status: Option<int>, message: string)

  /** What one call of the API yields: a response whose `text` may be missing,
      or a thrown error. */
  datatype Outcome = Response(text: Option<string>) | Thrown(error: ApiError)

  /** How the retry loop ends: it returns a response, rethrows an error, or,
      when it makes no attempt at all, returns `undefined`. */
  datatype RetryResult = Returned(text: Option<string>) | Rethrown(error: ApiError) | NoResult

  /** A run of the retry loop: how it ends, how many API calls it made, and the
      delays it slept, in order. */
  datatype RetryRun = RetryRun(result: RetryResult, calls: nat, delays: seq<int>)

  predicate IsRateLimit(o: Outcome) {
    o.Thrown? && o.error.status == Some(429)
  }

  /** What the loop does with the outcome of the attempt it stops at. */
  function Final(o: Outcome): RetryResult {
    match o
    case Response(text) => Returned(text)
    case Thrown(err) => Rethrown(err)
  }

  function Pow2(n: nat): nat {
    if n == 0 then 1 else 2 * Pow2(n - 1)
  }

  /** The delay slept after failed attempt `i` (counted from 0). */
  function BackoffDelay(i: nat): int {
    InitialRetryDelay * Pow2(i)
  }

  /** The delays slept after `n` consecutive rate-limited attempts starting at attempt `from`. */
  function Backoff(from: nat, n: nat): seq<int>
    decreases n
  {
    if n == 0 then [] else [BackoffDelay(from)] + Backoff(from + 1, n - 1)
  }

  lemma {:induction false} BackoffAt(from: nat, n: nat)
    ensures |Backoff(from, n)| == n
    ensures forall j :: 0 <= j < n ==> Backoff(from, n)[j] == InitialRetryDelay * Pow2(from + j)
    decreases n
  {
    if n > 0 {
      BackoffAt(from + 1, n - 1);
      assert forall j :: 1 <= j < n ==> Backoff(from, n)[j] == Backoff(from + 1, n - 1)[j - 1];
    }
  }

  /** The retry loop's behaviour from attempt `i` on, stated recursively: an
      attempt that succeeds ends the run; an error ends it unless it is a 429
      and attempts remain, in which case the loop sleeps and tries again. */
  function RetryFrom(op: nat -> Outcome, retries: int, i: nat): RetryRun
    decreases retries - i
  {
    if i >= retries then RetryRun(NoResult, 0, [])
    else
      match op(i)
      case Response(text) => RetryRun(Returned(text), 1, [])
      case Thrown(err) =>
        if i == retries - 1 || err.status != Some(429) then RetryRun(Rethrown(err), 1, [])
        else
          var rest := RetryFrom(op, retries, i + 1);
          RetryRun(rest.result, rest.calls + 1, [BackoffDelay(i)] + rest.delays)
  }

  function Retry(op: nat -> Outcome, retries: int): RetryRun {
    RetryFrom(op, retries, 0)
  }

  /** A run that continues after `done` attempts that slept `delays`. */
  function Resume(run: RetryRun, done: nat, delays: seq<int>): RetryRun {
    RetryRun(run.result, run.calls + done, delays + run.delays)
  }

  /** `retryWithBackoff(fn, retries)`: calls `op(i)` for i = 0, 1, ... while
      attempts fail with status 429 and are not the last one. */
  method RetryWithBackoff(op: nat -> Outcome, retries: int := MaxRetries)
    returns (result: RetryResult, calls: nat, delays: seq<int>)
    ensures RetryRun(result, calls, delays) == Retry(op, retries)
  {
    calls, delays := 0, [];
    var i: nat := 0;
    while i < retries
      invariant calls == i
      invariant Retry(op, retries) == Resume(RetryFrom(op, retries, i), i, delays)
      decreases retries - i
    {
      var outcome := op(i);
      calls := calls + 1;
      match outcome {
        case Response(text) =>
          return Returned(text), calls, delays;
        case Thrown(err) =>
          var isLastRetry := i == retries - 1;
          var isRateLimitError := err.status == Some(429);
          if isLastRetry || !isRateLimitError {
            return Rethrown(err), calls, delays;
          }
          var delay := InitialRetryDelay * Pow2(i);
          delays := delays + [delay];
      }
      i := i + 1;
    }
    result := NoResult;
  }

  /** Every run from attempt `i` (with attempts left) makes between one call and
      all remaining ones; every attempt before the last was rate-limited and was
      followed by its backoff delay; the run ends with the last attempt's
      outcome; and it stops early only on a success or a non-429 error. */
  lemma {:induction false} RetryFromShape(op: nat -> Outcome, retries: int, i: nat)
    requires i < retries
    ensures var run := RetryFrom(op, retries, i);
      && 1 <= run.calls <= retries - i
      && (forall j :: i <= j < i + run.calls - 1 ==> IsRateLimit(op(j)))
      && run.delays == Backoff(i, run.calls - 1)
      && run.result == Final(op(i + run.calls - 1))
      && (i + run.calls < retries ==> !IsRateLimit(op(i + run.calls - 1)))
    decreases retries - i
  {
    match op(i)
    case Response(_) =>
    case Thrown(err) =>
      if i < retries - 1 && err.status == Some(429) {
        RetryFromShape(op, retries, i + 1);
      }
  }

  /** With at least one attempt allowed, the run is characterised by its number
      of calls k: attempts 0 .. k-2 were rate-limited, the delays are
      1000 * 2^j for j < k-1, the result is attempt k-1's outcome, and the loop
      stopped before the limit only on a success or a non-429 error. */
  lemma RetryShape(op: nat -> Outcome, retries: int)
    requires retries >= 1
    ensures var run := Retry(op, retries);
      && 1 <= run.calls <= retries
      && (forall j :: 0 <= j < run.calls - 1 ==> IsRateLimit(op(j)))
      && |run.delays| == run.calls - 1
      && (forall j :: 0 <= j < run.calls - 1 ==> run.delays[j] == InitialRetryDelay * Pow2(j))
      && run.result == Final(op(run.calls - 1))
      && (run.calls < retries ==> !IsRateLimit(op(run.calls - 1)))
  {
    RetryFromShape(op, retries, 0);
    BackoffAt(0, Retry(op, retries).calls - 1);
  }

  /** Conversely: k rate-limited attempts followed by an attempt that ends the
      loop (a success, a non-429 error, or the last allowed attempt) give
      exactly k + 1 calls, the delays 1000, 2000, ..., 1000 * 2^(k-1), and that
      attempt's outcome. */
  lemma {:induction false} RetryFromAfter(op: nat -> Outcome, retries: int, i: nat, k: nat)
    requires i <= k < retries
    requires forall j :: i <= j < k ==> IsRateLimit(op(j))
    requires k == retries - 1 || !IsRateLimit(op(k))
    ensures RetryFrom(op, retries, i) == RetryRun(Final(op(k)), k - i + 1, Backoff(i, k - i))
    decreases k - i
  {
    if i < k {
      RetryFromAfter(op, retries, i + 1, k);
    }
  }

  lemma RetryAfterRateLimits(op: nat -> Outcome, retries: int, k: nat)
    requires k < retries
    requires forall j :: 0 <= j < k ==> IsRateLimit(op(j))
    requires k == retries - 1 || !IsRateLimit(op(k))
    ensures Retry(op, retries) == RetryRun(Final(op(k)), k + 1, Backoff(0, k))
  {
    RetryFromAfter(op, retries, 0, k);
  }

  /** With no attempts allowed the loop body never runs and the result is `undefined`. */
  lemma RetryWithoutAttempts(op: nat -> Outcome, retries: int)
    requires retries <= 0
    ensures Retry(op, retries) == RetryRun(NoResult, 0, [])
  {
  }

  /** An operation that always fails with 429 is called `retries` times, and the
      last error is rethrown. */
  lemma RetryAlwaysRateLimited(op: nat -> Outcome, retries: int)
    requires retries >= 1
    requires forall j :: 0 <= j < retries ==> IsRateLimit(op(j))
    ensures Retry(op, retries) == RetryRun(Final(op(retries - 1)), retries, Backoff(0, retries - 1))
  {
    RetryAfterRateLimits(op, retries, retries - 1);
  }

  function Sum(s: seq<int>): int {
    if s == [] then 0 else s[0] + Sum(s[1..])
  }

  lemma {:induction false} BackoffSum(from: nat, n: nat)
    ensures Sum(Backoff(from, n)) == InitialRetryDelay * Pow2(from) * (Pow2(n) - 1)
    decreases n
  {
    if n > 0 {
      BackoffSum(from + 1, n - 1);
      assert Pow2(from + 1) == 2 * Pow2(from);
      assert Pow2(n) == 2 * Pow2(n - 1);
    }
  }

  lemma {:induction false} Pow2Monotone(m: nat, n: nat)
    requires m <= n
    ensures Pow2(m) <= Pow2(n)
    decreases n
  {
    if m < n {
      Pow2Monotone(m, n - 1);
    }
  }

  /** The total time a request sleeps is 1000 * (2^(k-1) - 1) ms for k calls,
      hence at most 1000 * (2^(retries-1) - 1) ms. */
  lemma RetryTotalDelay(op: nat -> Outcome, retries: int)
    requires retries >= 1
    ensures var run := Retry(op, retries);
      Sum(run.delays) == InitialRetryDelay * (Pow2(run.calls - 1) - 1)
      && Sum(run.delays) <= InitialRetryDelay * (Pow2(retries - 1) - 1)
  {
    var run := Retry(op, retries);
    RetryFromShape(op, retries, 0);
    BackoffSum(0, run.calls - 1);
    Pow2Monotone(run.calls - 1, retries - 1);
  }

  // ---- Classification of failures ----

  const RateLimitMessage: string := "Rate limit exceeded. " + "Please try again in a few moments."
  const InvalidKeyMessage: string := "Invalid API key. " + "Please check your configuration."
  const BadRequestPrefix: string := "Bad request: "
  const FailurePrefix: string := "Failed to get response from Gemini: "
  const EmptyResponseMessage: string := "Empty or malformed response from Gemini"
  /** What reading `.text` of `undefined` throws. */
  const UndefinedResponseMessage: string := "Cannot read properties of undefined (reading 'text')"

  datatype ErrorKind = RateLimited | Unauthorized | BadRequest | UpstreamOther

  function KindOf(status: Option<int>): ErrorKind {
    if status == Some(429) then RateLimited
    else if status == Some(401) || status == Some(403) then Unauthorized
    else if status == Some(400) then BadRequest
    else UpstreamOther
  }

  /** Recovers the kind of error from a surfaced message. */
  function MessageKind(m: string): ErrorKind {
    if m == RateLimitMessage then RateLimited
    else if m == InvalidKeyMessage then Unauthorized
    else if StartsWith(m, BadRequestPrefix) then BadRequest
    else UpstreamOther
  }

  /** The message surfaced for a caught error. The four kinds' messages are told
      apart by `MessageKind`. */
  function Classify(err: ApiError): (m: string)
    ensures MessageKind(m) == KindOf(err.status)
    ensures KindOf(err.status) == RateLimited ==> m == RateLimitMessage
    ensures KindOf(err.status) == Unauthorized ==> m == InvalidKeyMessage
    ensures KindOf(err.status) == BadRequest ==>
              m == BadRequestPrefix + (if err.message == "" then "Invalid input" else err.message)
    ensures KindOf(err.status) == UpstreamOther ==> m == FailurePrefix + err.message
  {
    if err.status == Some(429) then RateLimitMessage
    else if err.status == Some(401) || err.status == Some(403) then InvalidKeyMessage
    else if err.status == Some(400) then
      var m := BadRequestPrefix + (if err.message == "" then "Invalid input" else err.message);
      assert m[..|BadRequestPrefix|] == BadRequestPrefix;
      assert m[0] == 'B';
      m
    else
      var m := FailurePrefix + err.message;
      assert m[0] == 'F' && RateLimitMessage[0] == 'R' && InvalidKeyMessage[0] == 'I';
      assert m[..|BadRequestPrefix|][0] == 'F' && BadRequestPrefix[0] == 'B';
      m
  }

  // ---- generateResponse ----

  /** What `generateResponse` surfaces: the response text, or a classified error message. */
  datatype Reply = Answer(text: string) | Failed(message: string)

  /** The outcome of the `try`/`catch` after the retry loop: a falsy response
      text becomes an error without a status, caught like any other. */
  function Settle(result: RetryResult): (reply: Reply)
    ensures reply.Answer? <==> result.Returned? && result.text.Some? && result.text.value != ""
    ensures reply.Answer? ==> reply.text == result.text.value
    ensures result.Rethrown? ==> reply == Failed(Classify(result.error))
    ensures result.Returned? && reply.Failed? ==> reply.message == FailurePrefix + EmptyResponseMessage
  {
    match result
    case Returned(text) =>
      if text.Some? && text.value != "" then Answer(text.value)
      else Failed(Classify(ApiError(None, EmptyResponseMessage)))
    case Rethrown(err) => Failed(Classify(err))
    case NoResult => Failed(Classify(ApiError(None, UndefinedResponseMessage)))
  }

  /** The prompt sent: the tool's output, preceded by the context and a newline
      when the context is truthy. The user's message reaches the API verbatim. */
  function FullPrompt(persona: ContextTool.Persona, prompt: string, context: Value, options: Options): (r: string)
    reads persona
    ensures EndsWith(r, Tools.ApplyTool(persona, options.tool, prompt, options))
    ensures Truthy(context) ==> StartsWith(r, Render(context) + "\n")
                                && |r| == |Render(context)| + 1 + |Tools.ApplyTool(persona, options.tool, prompt, options)|
    ensures !Truthy(context) ==> r == Tools.ApplyTool(persona, options.tool, prompt, options)
    ensures Occurs(prompt, r)
  {
    var modified := Tools.ApplyTool(persona, options.tool, prompt, options);
    var r := if Truthy(context) then Render(context) + "\n" + modified else modified;
    EndsWithConcat(if Truthy(context) then Render(context) + "\n" else "", modified);
    assert r == (if Truthy(context) then Render(context) + "\n" else "") + modified;
    StartsWithExtend(Render(context) + "\n", Render(context) + "\n", modified);
    EndsWithOccurs(r, modified);
    OccursTrans(prompt, modified, r);
    r
  }

  /** The zero-argument operation the retry loop calls: the API with the fixed prompt. */
  function Attempts(api: (string, nat) -> Outcome, prompt: string): nat -> Outcome {
    (i: nat) => api(prompt, i)
  }

  /** `generateResponse(prompt, context, options)`. Returns the reply, the prompt
      sent, the number of API calls and the delays slept. */
  method GenerateResponse(api: (string, nat) -> Outcome, persona: ContextTool.Persona, prompt: string,
                          context: Value := Str(""), options: Options := NoOptions)
    returns (reply: Reply, sent: string, calls: nat, delays: seq<int>)
    ensures sent == FullPrompt(persona, prompt, context, options)
    ensures var run := Retry(Attempts(api, sent), MaxRetries);
      reply == Settle(run.result) && calls == run.calls && delays == run.delays
  {
    var modifiedPrompt := Tools.ApplyTool(persona, options.tool, prompt, options);
    sent := if Truthy(context) then Render(context) + "\n" + modifiedPrompt else modifiedPrompt;
    var response;
    response, calls, delays := RetryWithBackoff(Attempts(api, sent));
    var caught: Option<ApiError>;
    match response {
      case Returned(text) =>
        if text.Some? && text.value != "" {
          return Answer(text.value), sent, calls, delays;
        }
        caught := Some(ApiError(None, EmptyResponseMessage));
      case Rethrown(err) =>
        caught := Some(err);
      case NoResult =>
        caught := Some(ApiError(None, UndefinedResponseMessage));
    }
    reply := Failed(Classify(caught.value));
  }

  // ---- What a whole request surfaces ----

  /** A request is answered with `t` exactly when some attempt k within the limit
      returned the non-empty text `t` after k rate-limited attempts. */
  lemma AnswerIff(op: nat -> Outcome, retries: int, t: string)
    requires retries >= 1
    ensures Settle(Retry(op, retries).result) == Answer(t) <==>
      exists k :: 0 <= k < retries && (forall j :: 0 <= j < k ==> IsRateLimit(op(j)))
               && op(k) == Response(Some(t)) && t != ""
  {
    var run := Retry(op, retries);
    RetryShape(op, retries);
    if Settle(run.result) == Answer(t) {
      var k := run.calls - 1;
      assert op(k) == Response(Some(t));
    }
    if exists k :: 0 <= k < retries && (forall j :: 0 <= j < k ==> IsRateLimit(op(j)))
                 && op(k) == Response(Some(t)) && t != "" {
      var k :| 0 <= k < retries && (forall j :: 0 <= j < k ==> IsRateLimit(op(j)))
               && op(k) == Response(Some(t)) && t != "";
      RetryAfterRateLimits(op, retries, k);
    }
  }

  /** The rate-limit message reaches the user exactly when every allowed attempt
      was rate-limited. */
  lemma RateLimitReplyIff(op: nat -> Outcome, retries: int)
    requires retries >= 1
    ensures Settle(Retry(op, retries).result) == Failed(RateLimitMessage) <==>
      forall j :: 0 <= j < retries ==> IsRateLimit(op(j))
  {
    var run := Retry(op, retries);
    RetryShape(op, retries);
    if forall j :: 0 <= j < retries ==> IsRateLimit(op(j)) {
      RetryAlwaysRateLimited(op, retries);
    }
    if Settle(run.result) == Failed(RateLimitMessage) {
      var last := op(run.calls - 1);
      match last
      case Response(_) =>
      case Thrown(err) =>
        assert MessageKind(Classify(err)) == RateLimited;
        assert IsRateLimit(last);
    }
  }

  /** An error other than 429 after k rate-limited attempts is not retried: the
      request makes k + 1 calls and surfaces that error's classified message. */
  lemma ErrorAfterRateLimits(op: nat -> Outcome, retries: int, k: nat, err: ApiError)
    requires k < retries
    requires forall j :: 0 <= j < k ==> IsRateLimit(op(j))
    requires op(k) == Thrown(err) && err.status != Some(429)
    ensures var run := Retry(op, retries);
      run.calls == k + 1 && |run.delays| == k && Settle(run.result) == Failed(Classify(err))
  {
    RetryAfterRateLimits(op, retries, k);
    BackoffAt(0, k);
  }

  /** A response without text after k rate-limited attempts is not retried: the
      request makes k + 1 calls and surfaces the wrapped empty-response message. */
  lemma EmptyResponseAfterRateLimits(op: nat -> Outcome, retries: int, k: nat)
    requires k < retries
    requires forall j :: 0 <= j < k ==> IsRateLimit(op(j))
    requires op(k) == Response(None) || op(k) == Response(Some(""))
    ensures var run := Retry(op, retries);
      run.calls == k + 1 && Settle(run.result) == Failed(FailurePrefix + EmptyResponseMessage)
  {
    RetryAfterRateLimits(op, retries, k);
    assert KindOf(None) == UpstreamOther;
  }

  /** With the default three attempts: two rate-limited attempts and then a
      success answer after sleeping 1000 ms and 2000 ms. */
  lemma TwoRateLimitsThenAnswer(op: nat -> Outcome, t: string)
    requires IsRateLimit(op(0)) && IsRateLimit(op(1)) && op(2) == Response(Some(t)) && t != ""
    ensures Retry(op, MaxRetries) == RetryRun(Returned(Some(t)), 3, [1000, 2000])
    ensures Settle(Retry(op, MaxRetries).result) == Answer(t)
  {
    RetryAfterRateLimits(op, MaxRetries, 2);
    assert Backoff(0, 2) == [1000, 2000];
  }

  /** With the default three attempts: a request rate-limited every time makes
      three calls, sleeps 1000 ms and 2000 ms, and surfaces the rate-limit message. */
  lemma AlwaysRateLimitedReply(op: nat -> Outcome)
    requires IsRateLimit(op(0)) && IsRateLimit(op(1)) && IsRateLimit(op(2))
    ensures var run := Retry(op, MaxRetries);
      run.calls == 3 && run.delays == [1000, 2000] && Settle(run.result) == Failed(RateLimitMessage)
  {
    RetryAlwaysRateLimited(op, MaxRetries);
    assert Backoff(0, 2) == [1000, 2000];
  }
}
