/** WooCommerceClient: the retry loop around one request, and the paging loop of get_all. */
module WooClient {
  import opened Outcomes
  import opened Paging

  /** The Retry-After header of a 429 answer; absent means 5 seconds.  Only whole numbers are understood, not HTTP dates. */
  datatype Header = Absent | Garbled | Seconds(n: int)

  /** What one attempt meets.  A transport error is an httpx timeout or request error. */
  datatype Response<+T> =
    | Answer(status: nat, body: T)
    | RateLimited(header: Header)
    | TransportError

  /** StatusError carries the status of the answer that ended the loop; Exhausted says that no attempt is left;
      BadHeader is the ValueError of int(), or of sleeping for a negative time. */
  datatype Outcome<+T> = Value(body: T) | StatusError(status: nat) | Exhausted | BadHeader

  predicate IsWait(header: Header) {
    header.Absent? || (header.Seconds? && 0 <= header.n)
  }

  predicate IsTransient<T>(r: Response<T>) {
    match r
    case Answer(status, _) => 500 <= status
    case RateLimited(header) => IsWait(header)
    case TransportError => true
  }

  predicate IsValue<T>(r: Response<T>) {
    r.Answer? && r.status < 400
  }

  /** Answers with status 429 are those of the RateLimited kind. */
  predicate WellFormed<T>(r: Response<T>) {
    r.Answer? ==> r.status != 429
  }

  function Pow2(n: nat): nat {
    if n == 0 then 1 else 2 * Pow2(n - 1)
  }

  lemma {:induction false} Pow2Grows(a: nat, b: nat)
    requires a <= b
    ensures Pow2(a) <= Pow2(b)
  {
    if a < b {
      Pow2Grows(a, b - 1);
    }
  }

  /** The client's own back-off after the first n attempts: 2 to the power of the attempt, except after 429 and after the last one. */
  function Slept<T>(responses: nat -> Response<T>, maxRetries: nat, n: nat): nat {
    if n == 0 then 0
    else Slept(responses, maxRetries, n - 1) + if responses(n - 1).RateLimited? || n > maxRetries then 0 else Pow2(n - 1)
  }

  lemma {:induction false} SleptBound<T>(responses: nat -> Response<T>, maxRetries: nat, n: nat)
    ensures Slept(responses, maxRetries, n) <= Pow2(if n <= maxRetries then n else maxRetries) - 1
  {
    if n > 0 {
      SleptBound(responses, maxRetries, n - 1);
    }
  }

  /** While nothing is answered 429 it sleeps 1, 2, 4, ... seconds: after n failed attempts one second less than 2 to the n,
      and not at all after the last. */
  lemma {:induction false} SleptExactly<T>(responses: nat -> Response<T>, maxRetries: nat, n: nat)
    requires forall k :: 0 <= k < n ==> !responses(k).RateLimited?
    ensures n <= maxRetries ==> Slept(responses, maxRetries, n) == Pow2(n) - 1
    ensures n == maxRetries + 1 ==> Slept(responses, maxRetries, n) == Pow2(maxRetries) - 1
  {
    if n > 0 {
      SleptExactly(responses, maxRetries, n - 1);
    }
  }

  /** And a 429 adds nothing to the client's own sleep: it waits as long as the shop says. */
  lemma RateLimitedIsNotSlept<T>(responses: nat -> Response<T>, maxRetries: nat, n: nat)
    ensures responses(n).RateLimited? ==> Slept(responses, maxRetries, n + 1) == Slept(responses, maxRetries, n)
  {
  }

  /** With the default of three retries a request that is never answered takes seven seconds of sleep. */
  lemma DefaultSleep<T>(responses: nat -> Response<T>)
    requires forall k :: 0 <= k < 4 ==> !responses(k).RateLimited?
    ensures Slept(responses, 3, 4) == 7
  {
    SleptExactly(responses, 3, 4);
    assert Pow2(0) == 1 && Pow2(1) == 2 && Pow2(2) == 4 && Pow2(3) == 8;
  }

  /** The first n attempts were all answered 429, 5xx or not at all. */
  ghost predicate AllTransient<T>(responses: nat -> Response<T>, n: nat) {
    forall j :: 0 <= j < n ==> IsTransient(responses(j))
  }

  /** One request.  attempts counts the requests sent; backoff the seconds slept, Retry-After waits not included. */
  method Request<T>(responses: nat -> Response<T>, maxRetries: nat) returns (outcome: Outcome<T>, attempts: nat,
      backoff: nat)
    requires forall k :: WellFormed(responses(k))
    ensures 1 <= attempts <= maxRetries + 1 && AllTransient(responses, attempts - 1)
    ensures backoff == Slept(responses, maxRetries, attempts - 1) <= Pow2(maxRetries) - 1
    ensures forall j :: 0 <= j < attempts - 1 && responses(j).Answer? ==> 500 <= responses(j).status
    ensures outcome.Value? <==> exists k: nat :: k <= maxRetries && AllTransient(responses, k) && IsValue(responses(k))
    ensures match outcome
      case Value(body) =>
        responses(attempts - 1).Answer? && responses(attempts - 1).status < 400 && responses(attempts - 1).body == body
      case StatusError(status) =>
        && responses(attempts - 1).Answer? && responses(attempts - 1).status == status && 400 <= status
        && (500 <= status ==> attempts == maxRetries + 1)
      case BadHeader => responses(attempts - 1).RateLimited? && !IsWait(responses(attempts - 1).header)
      case Exhausted => attempts == maxRetries + 1 && AllTransient(responses, attempts) && !responses(maxRetries).Answer?
  {
    backoff := 0;
    for attempt := 0 to maxRetries + 1
      invariant AllTransient(responses, attempt)
      invariant attempt <= maxRetries ==> backoff == Slept(responses, maxRetries, attempt)
      invariant attempt == maxRetries + 1 ==>
        !responses(maxRetries).Answer? && backoff == Slept(responses, maxRetries, maxRetries)
    {
      attempts := attempt + 1;
      SleptBound(responses, maxRetries, attempt);
      Pow2Grows(attempt, maxRetries);
      match responses(attempt) {
        case RateLimited(header) =>
          if !IsWait(header) {
            return BadHeader, attempts, backoff;
          }
        case Answer(status, body) =>
          if status >= 500 && attempt < maxRetries {
            backoff := backoff + Pow2(attempt);
          } else if status >= 400 {
            return StatusError(status), attempts, backoff;
          } else {
            return Value(body), attempts, backoff;
          }
        case TransportError =>
          if attempt < maxRetries {
            backoff := backoff + Pow2(attempt);
          }
      }
    }
    SleptBound(responses, maxRetries, maxRetries);
    return Exhausted, maxRetries + 1, backoff;
  }

  // ---------- a creating request ----------

  /** One send of a POST: what the client hears of it, and whether the shop carried it out. */
  datatype Send<+T> = Send(heard: Response<T>, arrived: bool)

  /** An answer below 400 says that the effect is there; 429 and the other 4xx say that it is not.  After a 5xx or
      without an answer either may be the case. */
  predicate Truthful<T>(s: Send<T>) {
    match s.heard
    case Answer(status, _) => (status < 400 ==> s.arrived) && (400 <= status < 500 ==> !s.arrived)
    case RateLimited(_) => !s.arrived
    case TransportError => true
  }

  function Heard<T>(sends: nat -> Send<T>): nat -> Response<T> {
    (k: nat) => sends(k).heard
  }

  /** How many of the first n sends the shop carried out. */
  function Arrived<T>(sends: nat -> Send<T>, n: nat): (k: nat)
    ensures k <= n
  {
    if n == 0 then 0 else Arrived(sends, n - 1) + if sends(n - 1).arrived then 1 else 0
  }

  /** The loop does not ask whether the shop may have carried out what it sends again.  The request is the Posting that
      the catalogue services see: at most max_retries sends before the last took effect unheard, and a value is
      returned exactly if the last one was heard to succeed. */
  method Post<T>(sends: nat -> Send<T>, maxRetries: nat) returns (outcome: Outcome<T>, posting: Posting)
    requires forall k :: WellFormed(sends(k).heard) && Truthful(sends(k))
    ensures posting.resent <= maxRetries && posting.Effects() <= maxRetries + 1
    ensures exists n :: 1 <= n <= maxRetries + 1 && SentAs(sends, n, posting)
    ensures posting.last.Ok? <==> outcome.Value?
    ensures posting.last.Late? ==>
      posting.last.fault.Api? && (outcome.Exhausted? || (outcome.StatusError? && 500 <= outcome.status))
  {
    var attempts, backoff;
    outcome, attempts, backoff := Request(Heard(sends), maxRetries);
    var fault := if outcome.BadHeader? then Other else Api;
    posting := Posting(Arrived(sends, attempts - 1),
      if outcome.Value? then Ok else if sends(attempts - 1).arrived then Late(fault) else Lost(fault));
    assert SentAs(sends, attempts, posting);
  }

  /** The posting counts what the shop carried out of n sends, all but the last of which were answered 429, 5xx or not at all. */
  ghost predicate SentAs<T>(sends: nat -> Send<T>, n: nat, posting: Posting)
    requires 1 <= n
  {
    && AllTransient(Heard(sends), n - 1)
    && posting.resent == Arrived(sends, n - 1)
    && posting.Effects() == Arrived(sends, n)
  }

  /** And every such posting may happen, up to the fault: resent sends arrive and time out, then one is answered, or all
      the others time out and the last one arrives or does not. */
  lemma EveryPostingHappens(posting: Posting, maxRetries: nat) returns (sends: nat -> Send<bool>, n: nat)
    requires posting.resent <= maxRetries
    ensures forall k :: WellFormed(sends(k).heard) && Truthful(sends(k))
    ensures 1 <= n <= maxRetries + 1 && SentAs(sends, n, posting)
    ensures if posting.last.Ok? then IsValue(sends(n - 1).heard) else n == maxRetries + 1 && AllTransient(Heard(sends), n)
  {
    n := if posting.last.Ok? then posting.resent + 1 else maxRetries + 1;
    var final := n - 1;
    sends := k =>
      Send(if k == final && posting.last.Ok? then Answer(201, true) else TransportError,
           k < posting.resent || (k == final && !posting.last.Lost?));
    FirstArrive(sends, posting.resent, final);
  }

  lemma {:induction false} FirstArrive<T>(sends: nat -> Send<T>, resent: nat, n: nat)
    requires forall k :: 0 <= k < n ==> (sends(k).arrived <==> k < resent)
    ensures Arrived(sends, n) == if n <= resent then n else resent
  {
    if n > 0 {
      FirstArrive(sends, resent, n - 1);
    }
  }

  // ---------- paging ----------

  function Min(a: nat, b: nat): nat {
    if a <= b then a else b
  }

  /** get_all over records that do not change meanwhile: their first maxPages * perPage, without gap or repetition. */
  method GetAll<T>(records: seq<T>, perPage: nat, maxPages: nat) returns (all: seq<T>)
    requires 0 < perPage
    ensures all == records[..Min(|records|, maxPages * perPage)]
  {
    all := [];
    for page := 1 to maxPages + 1
      invariant (page - 1) * perPage <= |records|
      invariant all == records[..(page - 1) * perPage]
    {
      assert page * perPage == (page - 1) * perPage + perPage;
      assert page * perPage <= maxPages * perPage;
      var some := Page(records, perPage, (page - 1) * perPage);
      if some == [] {
        return;
      }
      all := all + some;
      if |some| < perPage {
        assert all == records;
        return;
      }
    }
  }
}
