// Bounded retries and pagination against an arbitrary server.

module HttpRetry {
  import opened Wrappers

  const RETRY_BASE_MS := 1000
  const RETRY_MAX_DELAY_MS := 20000
  const MAX_RATE_LIMIT_WAIT_MS := 90000
  const MAX_PAGES := 200

  /** A `Retry-After` header: a number, a date (in milliseconds), or neither. */
  datatype RetryAfter = Seconds(secs: real) | Date(when: real) | Unreadable

  /** `x-ratelimit-reset` as `Number` reads it: absent reads as 0, nonsense as not finite. */
  datatype Reset = Absent | At(secs: real) | NotFinite

  datatype Headers = Headers(retryAfter: Option<RetryAfter>, remainingIsZero: bool, reset: Reset)

  /** `body` is `None` when reading it fails. */
  datatype Reply = NetworkError | Response(status: nat, headers: Headers, body: Option<string>)

  /** What attempt number `i` meets: the server's reply, the clock, and the jitter drawn. */
  datatype Attempt = Attempt(reply: Reply, now: real, jitter: nat)

  datatype Verdict =
    | Success(body: string) | BodyLost | HttpError(status: nat) | ResetTooFar(status: nat) | Unreached | Exhausted

  function AtLeastZero(x: real): real {
    if x < 0.0 then 0.0 else x
  }

  function RateLimitWait(h: Headers, now: real): (w: Option<real>)
    ensures w.Some? ==> w.value >= 0.0
  {
    if h.retryAfter.Some? && h.retryAfter.value.Seconds? then Some(AtLeastZero(h.retryAfter.value.secs * 1000.0))
    else if h.retryAfter.Some? && h.retryAfter.value.Date? then Some(AtLeastZero(h.retryAfter.value.when - now))
    else if h.remainingIsZero && !h.reset.NotFinite? then
      Some(AtLeastZero((if h.reset.At? then h.reset.secs else 0.0) * 1000.0 - now))
    else None
  }

  function Pow2(n: nat): nat {
    if n == 0 then 1 else 2 * Pow2(n - 1)
  }

  function RetryDelay(attempt: nat, jitter: nat): (d: real)
    requires attempt >= 1
    ensures jitter < 250 ==> 0.0 <= d < (RETRY_MAX_DELAY_MS + 250) as real
  {
    var base := RETRY_BASE_MS * Pow2(attempt - 1);
    (if base < RETRY_MAX_DELAY_MS then base else RETRY_MAX_DELAY_MS) as real + jitter as real
  }

  predicate IsOk(status: nat) {
    200 <= status < 300
  }

  predicate Retryable(r: Reply) {
    || r.NetworkError?
    || (!IsOk(r.status) && (r.status == 429 || r.status >= 500 || (r.status == 403 && r.headers.remainingIsZero)))
  }

  predicate TooFar(a: Attempt) {
    a.reply.Response?
    && (var w := RateLimitWait(a.reply.headers, a.now); w.Some? && w.value > MAX_RATE_LIMIT_WAIT_MS as real)
  }

  /** How long attempt `i`, if it is retried, sleeps. */
  function Pause(i: nat, a: Attempt): real {
    if a.reply.Response? && RateLimitWait(a.reply.headers, a.now).Some? then RateLimitWait(a.reply.headers, a.now).value
    else RetryDelay(i + 1, a.jitter)
  }

  /** Attempt `i` is followed by another one. */
  predicate GoesOn(i: nat, a: Attempt, maxRetries: int) {
    Retryable(a.reply) && i < maxRetries && !TooFar(a)
  }

  /** What a final attempt amounts to. */
  function VerdictOf(i: nat, a: Attempt, maxRetries: int): Verdict {
    if a.reply.NetworkError? then Unreached
    else if IsOk(a.reply.status) then if a.reply.body.Some? then Success(a.reply.body.value) else BodyLost
    else if Retryable(a.reply) && i < maxRetries then ResetTooFar(a.reply.status)
    else HttpError(a.reply.status)
  }

  function TotalPause(world: nat -> Attempt, n: nat): real {
    if n == 0 then 0.0 else TotalPause(world, n - 1) + Pause(n - 1, world(n - 1))
  }

  /** The first attempt that is not followed by another. */
  ghost predicate IsLast(world: nat -> Attempt, maxRetries: int, k: nat) {
    !GoesOn(k, world(k), maxRetries) && forall j: nat | j < k :: GoesOn(j, world(j), maxRetries)
  }

  /**
   * `requestRaw`: one request per attempt up to the last, whose reply decides; at most
   * maxRetries + 1 requests and maxRetries * 90 seconds of sleep; and the throw after the loop is
   * reached exactly when `maxRetries` is negative.
   */
  method RequestRaw(world: nat -> Attempt, maxRetries: int) returns (verdict: Verdict, requests: nat, slept: real)
    requires forall i: nat :: world(i).jitter < 250
    ensures verdict == Exhausted <==> maxRetries < 0
    ensures maxRetries < 0 ==> requests == 0 && slept == 0.0
    ensures maxRetries >= 0 ==>
              && 1 <= requests <= maxRetries + 1
              && IsLast(world, maxRetries, requests - 1)
              && verdict == VerdictOf(requests - 1, world(requests - 1), maxRetries)
              && slept == TotalPause(world, requests - 1)
              && 0.0 <= slept <= (maxRetries * MAX_RATE_LIMIT_WAIT_MS) as real
  {
    requests, slept := 0, 0.0;
    var attempt := 0;
    while attempt <= maxRetries
      invariant 0 <= attempt && (maxRetries >= 0 ==> attempt <= maxRetries) && (maxRetries < 0 ==> attempt == 0)
      invariant requests == attempt
      invariant forall j: nat | j < attempt :: GoesOn(j, world(j), maxRetries)
      invariant slept == TotalPause(world, attempt)
      invariant 0.0 <= slept <= (attempt * MAX_RATE_LIMIT_WAIT_MS) as real
      decreases maxRetries - attempt
    {
      requests := requests + 1;
      var a := world(attempt);
      match a.reply {
        case NetworkError =>
          if attempt < maxRetries {
            slept := slept + RetryDelay(attempt + 1, a.jitter);
            attempt := attempt + 1;
            continue;
          }
          return Unreached, requests, slept;
        case Response(status, headers, body) =>
          if IsOk(status) {
            return if body.Some? then Success(body.value) else BodyLost, requests, slept;
          }
          var retryable := status == 429 || status >= 500 || (status == 403 && headers.remainingIsZero);
          if retryable && attempt < maxRetries {
            var wait := RateLimitWait(headers, a.now);
            if wait.Some? && wait.value > MAX_RATE_LIMIT_WAIT_MS as real {
              return ResetTooFar(status), requests, slept;
            }
            slept := slept + (if wait.Some? then wait.value else RetryDelay(attempt + 1, a.jitter));
            attempt := attempt + 1;
            continue;
          }
          return HttpError(status), requests, slept;
      }
    }
    verdict := Exhausted;
  }

  /** The last attempt is unique, so `RequestRaw`'s outcome is determined. */
  lemma LastIsUnique(world: nat -> Attempt, maxRetries: int, k: nat, m: nat)
    requires IsLast(world, maxRetries, k) && IsLast(world, maxRetries, m)
    ensures k == m
  {
    assert k < m ==> GoesOn(k, world(k), maxRetries);
    assert m < k ==> GoesOn(m, world(m), maxRetries);
  }

  // ---------- What is retried, and when ----------

  /** When the server says to come back, the headers of the first kind going first. */
  function Moment(h: Headers, now: real): Option<real> {
    match h.retryAfter
    case Some(Seconds(secs)) => Some(now + secs * 1000.0)
    case Some(Date(when)) => Some(when)
    case _ =>
      if !h.remainingIsZero then None
      else match h.reset
           case Absent => Some(0.0)
           case At(secs) => Some(secs * 1000.0)
           case NotFinite => None
  }

  /** Sleeping as told ends at the moment the server named, or at once if that is past. */
  lemma WaitEndsAtTheMoment(h: Headers, now: real)
    ensures RateLimitWait(h, now).Some? <==> Moment(h, now).Some?
    ensures RateLimitWait(h, now).Some? ==>
              var end, moment := now + RateLimitWait(h, now).value, Moment(h, now).value;
              if moment <= now then end == now else end == moment
  {
  }

  lemma {:induction false} Pow2Grows(a: nat, b: nat)
    requires a <= b
    ensures Pow2(a) <= Pow2(b)
  {
    if a < b {
      Pow2Grows(a, b - 1);
    }
  }

  /** Untold, it sleeps one second, then twice as long each time up to twenty, and the jitter on top. */
  lemma BackoffDoubles(attempt: nat, jitter: nat)
    requires attempt >= 1
    ensures RetryDelay(attempt, jitter) ==
            (if attempt <= 5 then [1000.0, 2000.0, 4000.0, 8000.0, 16000.0][attempt - 1] else 20000.0) + jitter as real
  {
    if attempt > 5 {
      Pow2Grows(5, attempt - 1);
    }
    assert Pow2(0) == 1 && Pow2(1) == 2 && Pow2(2) == 4 && Pow2(3) == 8 && Pow2(4) == 16 && Pow2(5) == 32;
  }

  /**
   * An attempt is followed by another exactly if retries are left and it met a network error, or status
   * 429, 500 and above, or 403 with the limit used up, told to come back within 90 seconds or untold.
   */
  lemma GoesOnExactly(i: nat, a: Attempt, maxRetries: int)
    ensures GoesOn(i, a, maxRetries) <==>
            i < maxRetries &&
            match a.reply
            case NetworkError => true
            case Response(status, headers, _) =>
              && (status == 429 || status >= 500 || (status == 403 && headers.remainingIsZero))
              && (Moment(headers, a.now).Some? ==> Moment(headers, a.now).value <= a.now + 90000.0)
  {
    if a.reply.Response? {
      WaitEndsAtTheMoment(a.reply.headers, a.now);
    }
  }

  /** What the last attempt, one that is not followed by another, amounts to. */
  lemma VerdictExactly(i: nat, a: Attempt, maxRetries: int)
    requires !GoesOn(i, a, maxRetries)
    ensures var verdict := VerdictOf(i, a, maxRetries);
            match a.reply
            case NetworkError => verdict == Unreached
            case Response(status, headers, body) =>
              && (forall text :: verdict == Success(text) <==> 200 <= status < 300 && body == Some(text))
              && (verdict == BodyLost <==> 200 <= status < 300 && body == None)
              && (verdict == ResetTooFar(status) <==>
                    && i < maxRetries && Moment(headers, a.now).Some? && Moment(headers, a.now).value > a.now + 90000.0
                    && (status == 429 || status >= 500 || (status == 403 && headers.remainingIsZero)))
              && (verdict.Success? || verdict in {BodyLost, HttpError(status), ResetTooFar(status)})
  {
    if a.reply.Response? {
      WaitEndsAtTheMoment(a.reply.headers, a.now);
    }
  }

  // ---------- Pagination ----------

  /** A page as fetched from a cursor (a URL for GitHub, a page token for GCP): its items and the next cursor. */
  datatype Page<C, T> = Page(items: seq<T>, next: Option<C>)

  /**
   * What the server answers to the `n`-th request of the loop for a cursor; the same cursor may be
   * answered differently later. `None` when the request throws.
   */
  type Server<!C, !T> = (nat, C) -> Option<Page<C, T>>

  /** The pages reached from `cursor` by the requests from the `n`-th to the last but one before `cap`. */
  function Pages<C, T>(fetch: Server<C, T>, cursor: Option<C>, n: nat, cap: nat): seq<Page<C, T>>
    requires n <= cap
    decreases cap - n
  {
    if cursor.None? || n == cap || fetch(n, cursor.value).None? then []
    else [fetch(n, cursor.value).value] + Pages(fetch, fetch(n, cursor.value).value.next, n + 1, cap)
  }

  /** Whether some request before the `cap`-th throws. */
  predicate Throws<C, T>(fetch: Server<C, T>, cursor: Option<C>, n: nat, cap: nat)
    requires n <= cap
    decreases cap - n
  {
    cursor.Some? && n < cap
    && (fetch(n, cursor.value).None? || Throws(fetch, fetch(n, cursor.value).value.next, n + 1, cap))
  }

  function Items<C, T>(pages: seq<Page<C, T>>): seq<T> {
    if pages == [] then [] else pages[0].items + Items(pages[1..])
  }

  method FetchPaginated<C, T>(fetch: Server<C, T>, start: C) returns (r: Option<seq<T>>)
    ensures r.None? <==> Throws(fetch, Some(start), 0, 200)
    ensures r.Some? ==> r.value == Items(Pages(fetch, Some(start), 0, 200))
  {
    var out: seq<T> := [];
    var next := Some(start);
    var page := 0;
    while next.Some? && page < MAX_PAGES
      invariant 0 <= page <= MAX_PAGES
      invariant out + Items(Pages(fetch, next, page, MAX_PAGES)) == Items(Pages(fetch, Some(start), 0, MAX_PAGES))
      invariant Throws(fetch, next, page, MAX_PAGES) == Throws(fetch, Some(start), 0, MAX_PAGES)
      decreases MAX_PAGES - page
    {
      var got := fetch(page, next.value);
      if got.None? {
        return None;
      }
      ghost var rest := Pages(fetch, next, page, MAX_PAGES);
      assert rest[1..] == Pages(fetch, got.value.next, page + 1, MAX_PAGES);
      out := out + got.value.items;
      next := got.value.next;
      page := page + 1;
    }
    r := Some(out);
  }

  /** The chain of cursors ends before the `cap`-th request. */
  predicate Ends<C, T>(fetch: Server<C, T>, cursor: Option<C>, n: nat, cap: nat)
    requires n <= cap
    decreases cap - n
  {
    cursor.None?
    || (n < cap && fetch(n, cursor.value).Some? && Ends(fetch, fetch(n, cursor.value).value.next, n + 1, cap))
  }

  /**
   * The cap is silent: with no request throwing, the pages up to the cap are all there are up to a
   * larger one exactly when the chain ends before it; otherwise as many as the cap allows are taken
   * and more remain.
   */
  lemma {:induction false} CapIsSilent<C, T>(fetch: Server<C, T>, cursor: Option<C>, n: nat, cap: nat, more: nat)
    requires n <= cap < more && !Throws(fetch, cursor, n, more)
    ensures Pages(fetch, cursor, n, cap) == Pages(fetch, cursor, n, more) <==> Ends(fetch, cursor, n, cap)
    ensures !Ends(fetch, cursor, n, cap) ==>
              |Pages(fetch, cursor, n, cap)| == cap - n < |Pages(fetch, cursor, n, more)|
    decreases cap - n
  {
    if cursor.Some? && n < cap {
      var next := fetch(n, cursor.value).value.next;
      CapIsSilent(fetch, next, n + 1, cap, more);
      assert Pages(fetch, cursor, n, cap)[1..] == Pages(fetch, next, n + 1, cap);
      assert Pages(fetch, cursor, n, more)[1..] == Pages(fetch, next, n + 1, more);
    }
  }
}
