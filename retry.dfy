/** The bounded retry around each POST to the Responses API
    (`ChatCompletionsClient.call_responses`, the inner `while True` loop):
    200 ends the loop, a 5xx status or a timeout is retried while the attempt
    number is at most 3 with an exponential base delay scaled by a random factor,
    and every other status raises at once. The transport is an oracle: `post(k)`
    is what the k-th POST of the run returns, and `jitter(k)` is the factor
    `random.uniform(0.5, 1.5)` drew after it. */
module Retry {
  import opened Wrappers
  import opened Json

  /** What one POST produced: a response with its status and body text, or a timeout. */
  datatype Outcome = Reply(status: int, text: string) | TimedOut(detail: string)

  const MaxRetries: nat := 3

  /** `[1.0, 2.0, 4.0][min(attempt - 1, 2)]`. */
  function BaseDelay(attempt: nat): real
    requires attempt >= 1
  {
    [1.0, 2.0, 4.0][if attempt - 1 < 2 then attempt - 1 else 2]
  }

  /** A 5xx status or a timeout. */
  predicate Transient(o: Outcome) {
    o.TimedOut? || o.status >= 500
  }

  /** The result of the attempts from attempt number `attempt` on: the body
      text or the raised message, the number of the last attempt made, and the
      delays slept between attempts. */
  datatype Attempted = Attempted(result: Result<string>, last: nat, delays: seq<real>)

  function ErrorMessage(status: int, text: string): string {
    "Responses API error " + IntStr(status) + ": " + Prefix(text, 2000)
  }

  function TimeoutMessage(attempt: nat, detail: string): string {
    "Responses API timeout after " + IntStr(attempt) + " attempt(s): " + detail
  }

  /** The attempts from number `attempt` on, the first POST of the loop being POST number `first`. */
  function Attempts(post: nat -> Outcome, jitter: nat -> real, first: nat, attempt: nat): (a: Attempted)
    requires 1 <= attempt <= MaxRetries + 1
    ensures attempt <= a.last <= MaxRetries + 1
    ensures |a.delays| == a.last - attempt
    decreases MaxRetries + 1 - attempt
  {
    var o := post(first + attempt - 1);
    if o.Reply? && o.status == 200 then Attempted(Ok(o.text), attempt, [])
    else if Transient(o) && attempt <= MaxRetries then
      var rest := Attempts(post, jitter, first, attempt + 1);
      Attempted(rest.result, rest.last, [BaseDelay(attempt) * jitter(first + attempt - 1)] + rest.delays)
    else if o.Reply? then Attempted(Err(ErrorMessage(o.status, o.text)), attempt, [])
    else Attempted(Err(TimeoutMessage(attempt, o.detail)), attempt, [])
  }

  /** The whole retry loop. */
  function Retrying(post: nat -> Outcome, jitter: nat -> real, first: nat): Attempted {
    Attempts(post, jitter, first, 1)
  }

  /** The retry loop as the source runs it: `attempt` counts up from 1. */
  method PostWithRetries(post: nat -> Outcome, jitter: nat -> real, first: nat)
    returns (result: Result<string>, last: nat, delays: seq<real>)
    ensures Attempted(result, last, delays) == Retrying(post, jitter, first)
  {
    var attempt := 1;
    delays := [];
    while true
      invariant 1 <= attempt <= MaxRetries + 1
      invariant var rest := Attempts(post, jitter, first, attempt);
        Retrying(post, jitter, first) == Attempted(rest.result, rest.last, delays + rest.delays)
      decreases MaxRetries + 1 - attempt
    {
      var o := post(first + attempt - 1);
      if o.Reply? && o.status == 200 {
        return Ok(o.text), attempt, delays;
      }
      if Transient(o) && attempt <= MaxRetries {
        var delay := BaseDelay(attempt) * jitter(first + attempt - 1);
        RetryStep(post, jitter, first, attempt, delays);
        delays := delays + [delay];
        attempt := attempt + 1;
        continue;
      }
      if o.Reply? {
        return Err(ErrorMessage(o.status, o.text)), attempt, delays;
      }
      return Err(TimeoutMessage(attempt, o.detail)), attempt, delays;
    }
  }

  /** A transient failure hands over to the next attempt, one delay later. */
  lemma RetryStep(post: nat -> Outcome, jitter: nat -> real, first: nat, attempt: nat, delays: seq<real>)
    requires 1 <= attempt <= MaxRetries
    requires var o := post(first + attempt - 1); !(o.Reply? && o.status == 200) && Transient(o)
    ensures var here := Attempts(post, jitter, first, attempt);
      var next := Attempts(post, jitter, first, attempt + 1);
      Attempted(here.result, here.last, delays + here.delays)
        == Attempted(next.result, next.last, delays + [BaseDelay(attempt) * jitter(first + attempt - 1)] + next.delays)
  {
    var next := Attempts(post, jitter, first, attempt + 1);
    var d := BaseDelay(attempt) * jitter(first + attempt - 1);
    assert Attempts(post, jitter, first, attempt) == Attempted(next.result, next.last, [d] + next.delays);
    assert delays + ([d] + next.delays) == delays + [d] + next.delays;
  }

  // ---------------------------------------------------------------------------
  // What the loop promises.

  /** The loop succeeds exactly when some attempt answers 200 after transient
      failures only, and it returns that body. */
  lemma {:induction false} OkMeansTransientThen200(post: nat -> Outcome, jitter: nat -> real, first: nat, attempt: nat)
    requires 1 <= attempt <= MaxRetries + 1
    ensures var a := Attempts(post, jitter, first, attempt);
      && (a.result.Ok? <==>
            && post(first + a.last - 1).Reply? && post(first + a.last - 1).status == 200
            && (forall j :: first + attempt - 1 <= j < first + a.last - 1 ==> Transient(post(j))))
      && (a.result.Ok? ==> a.result.value == post(first + a.last - 1).text)
  {
    EarlierTransient(post, jitter, first, attempt);
    LastDecides(post, jitter, first, attempt);
  }

  /** Every attempt before the last one failed transiently. */
  lemma {:induction false} EarlierTransient(post: nat -> Outcome, jitter: nat -> real, first: nat, attempt: nat)
    requires 1 <= attempt <= MaxRetries + 1
    ensures var a := Attempts(post, jitter, first, attempt);
      forall j :: first + attempt - 1 <= j < first + a.last - 1 ==> Transient(post(j))
    decreases MaxRetries + 1 - attempt
  {
    var o := post(first + attempt - 1);
    if !(o.Reply? && o.status == 200) && Transient(o) && attempt <= MaxRetries {
      EarlierTransient(post, jitter, first, attempt + 1);
    }
  }

  /** The last attempt decides: the loop succeeds exactly when it answered 200, with its body. */
  lemma {:induction false} LastDecides(post: nat -> Outcome, jitter: nat -> real, first: nat, attempt: nat)
    requires 1 <= attempt <= MaxRetries + 1
    ensures var a := Attempts(post, jitter, first, attempt);
      && (a.result.Ok? <==> post(first + a.last - 1).Reply? && post(first + a.last - 1).status == 200)
      && (a.result.Ok? ==> a.result.value == post(first + a.last - 1).text)
    decreases MaxRetries + 1 - attempt
  {
    var o := post(first + attempt - 1);
    if !(o.Reply? && o.status == 200) && Transient(o) && attempt <= MaxRetries {
      LastDecides(post, jitter, first, attempt + 1);
    }
  }

  /** A status that is neither 200 nor 5xx raises on the attempt that sees it, without another POST. */
  lemma ClientErrorRaisesAtOnce(post: nat -> Outcome, jitter: nat -> real, first: nat, status: int, text: string)
    requires post(first) == Reply(status, text) && status != 200 && status < 500
    ensures Retrying(post, jitter, first) == Attempted(Err(ErrorMessage(status, text)), 1, [])
  {
  }

  /** Four timeouts in a row raise, naming the four attempts. */
  lemma FourTimeoutsRaise(post: nat -> Outcome, jitter: nat -> real, first: nat)
    requires post(first).TimedOut? && post(first + 1).TimedOut?
    requires post(first + 2).TimedOut? && post(first + 3).TimedOut?
    ensures Retrying(post, jitter, first).result == Err(TimeoutMessage(4, post(first + 3).detail))
    ensures Retrying(post, jitter, first).last == 4
  {
  }

  /** Four 5xx answers in a row raise with the fourth status. */
  lemma FourServerErrorsRaise(post: nat -> Outcome, jitter: nat -> real, first: nat)
    requires forall j :: first <= j < first + 4 ==> post(j).Reply? && post(j).status >= 500
    ensures Retrying(post, jitter, first).result == Err(ErrorMessage(post(first + 3).status, post(first + 3).text))
  {
    assert Transient(post(first)) && Transient(post(first + 1)) && Transient(post(first + 2));
  }

  /** The k-th delay is the k-th base delay (1, 2, 4 seconds) scaled by a factor
      in [0.5, 1.5]; the `min` in the index never takes effect. */
  lemma {:induction false} DelayBounds(post: nat -> Outcome, jitter: nat -> real, first: nat, attempt: nat)
    requires 1 <= attempt <= MaxRetries + 1
    requires forall k :: 0.5 <= jitter(k) <= 1.5
    ensures var a := Attempts(post, jitter, first, attempt);
      forall i :: 0 <= i < |a.delays| ==>
        var base := [1.0, 2.0, 4.0][attempt - 1 + i];
        base * 0.5 <= a.delays[i] <= base * 1.5
    decreases MaxRetries + 1 - attempt
  {
    var o := post(first + attempt - 1);
    if !(o.Reply? && o.status == 200) && Transient(o) && attempt <= MaxRetries {
      DelayBounds(post, jitter, first, attempt + 1);
      var j := jitter(first + attempt - 1);
      assert 0.5 <= j <= 1.5;
    }
  }
}
