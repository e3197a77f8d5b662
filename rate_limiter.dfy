/**
 * The fixed-window rate limiter in front of the webhook: a table from client
 * to request count and window end, swept of expired windows on every request.
 * The clock and the client address are parameters.
 */
module RateLimiter {
  import opened Wrappers

  /** The window length in milliseconds. */
  const WindowMs: int := 60 * 1000

  /** Requests allowed per client per window. */
  const MaxRequests: int := 30

  /** A client's requests counted in the current window, and when the window ends. */
  datatype Entry = Entry(count: nat, resetTime: int)

  /**
   * The answer: pass the request on with the rate-limit headers (limit,
   * remaining, reset time), or refuse it with 429 and the seconds to wait.
   */
  datatype Decision = Allowed(limit: int, remaining: int, resetTime: int) | Rejected(retryAfter: int)

  /** The table after a request, and the answer to it. */
  datatype Outcome = Outcome(store: map<string, Entry>, decision: Decision)

  /** `req.ip || 'unknown'`. */
  function ClientKey(ip: Option<string>): string {
    if Truthy(ip) then ip.value else "unknown"
  }

  /** The table without the entries whose window ended before `now`. */
  function Swept(store: map<string, Entry>, now: int): map<string, Entry> {
    map k | k in store && store[k].resetTime >= now :: store[k]
  }

  /** `Math.ceil(a / b)` for a positive divisor. */
  function CeilDiv(a: int, b: int): int
    requires b > 0
  {
    -((-a) / b)
  }

  /** A new window starting at `now`, with no request counted yet. */
  function FreshWindow(now: int): Entry {
    Entry(0, now + WindowMs)
  }

  function Max(a: int, b: int): int {
    if a >= b then a else b
  }

  /**
   * One request from `clientId` at `now`, step by step as the middleware runs
   * it: sweep, create a fresh window for an absent client, reset an expired
   * window, count the request, then decide.
   */
  function Step(store: map<string, Entry>, clientId: string, now: int): Outcome {
    var swept := Swept(store, now);
    var present := if clientId in swept then swept else swept[clientId := FreshWindow(now)];
    var current := present[clientId];
    var window := if current.resetTime < now then FreshWindow(now) else current;
    var counted := window.(count := window.count + 1);
    var decision :=
      if counted.count > MaxRequests then Rejected(CeilDiv(counted.resetTime - now, 1000))
      else Allowed(MaxRequests, Max(0, MaxRequests - counted.count), counted.resetTime);
    Outcome(present[clientId := counted], decision)
  }

  /** `Math.ceil` bounds: the quotient rounded up. */
  lemma CeilDivSpec(a: int, b: int)
    requires b > 0
    ensures (CeilDiv(a, b) - 1) * b < a <= CeilDiv(a, b) * b
  {
    var q := (-a) / b;
    assert q * b <= -a < q * b + b;
  }

  /**
   * What a request does to the table and what it is told.  Other clients'
   * entries survive exactly when their window has not ended, unchanged.  The
   * requesting client's window is kept when it survived the sweep, with its
   * count one higher, and is a fresh window holding this one request
   * otherwise; so the branch that resets an expired window never runs.  The
   * request is refused exactly when the count passes the maximum, with the
   * seconds left in the window rounded up; otherwise the remaining allowance
   * is the maximum less the count, never negative.
   */
  lemma StepSpec(store: map<string, Entry>, clientId: string, now: int)
    ensures var o := Step(store, clientId, now);
      && (forall k :: k != clientId ==> (k in o.store <==> k in store && store[k].resetTime >= now))
      && (forall k :: k != clientId && k in o.store ==> o.store[k] == store[k])
      && clientId in o.store
      && o.store[clientId] == (if clientId in store && store[clientId].resetTime >= now
                               then store[clientId].(count := store[clientId].count + 1)
                               else Entry(1, now + WindowMs))
  {
  }

  /** The answer to a request, in terms of the client's entry after it. */
  lemma {:induction false} DecisionSpec(store: map<string, Entry>, clientId: string, now: int)
    ensures var o := Step(store, clientId, now);
      var e := o.store[clientId];
      && e.resetTime >= now
      && (o.decision.Rejected? <==> e.count > MaxRequests)
      && (o.decision.Rejected? ==>
            (o.decision.retryAfter - 1) * 1000 < e.resetTime - now <= o.decision.retryAfter * 1000)
      && (o.decision.Allowed? ==>
            o.decision.limit == MaxRequests && o.decision.resetTime == e.resetTime
            && o.decision.remaining == MaxRequests - e.count && 0 <= o.decision.remaining < MaxRequests)
  {
    StepSpec(store, clientId, now);
    var e := Step(store, clientId, now).store[clientId];
    CeilDivSpec(e.resetTime - now, 1000);
  }

  /**
   * Within a window every request counts, refused ones included: a second
   * request before the window ends finds the count one higher and the same
   * window end, so a refused client stays refused until the window ends.
   */
  lemma {:induction false} RequestsAccumulate(store: map<string, Entry>, clientId: string, now: int, later: int)
    requires now <= later <= Step(store, clientId, now).store[clientId].resetTime
    ensures var first := Step(store, clientId, now);
      var second := Step(first.store, clientId, later);
      && second.store[clientId] == first.store[clientId].(count := first.store[clientId].count + 1)
      && (first.decision.Rejected? ==> second.decision.Rejected?)
  {
    var first := Step(store, clientId, now);
    StepSpec(store, clientId, now);
    StepSpec(first.store, clientId, later);
    DecisionSpec(store, clientId, now);
    DecisionSpec(first.store, clientId, later);
  }

  /** The middleware's table; `Handle` is one request. */
  class Limiter {
    var store: map<string, Entry>

    constructor ()
      ensures store == map[]
    {
      store := map[];
    }

    /** `rateLimiter`: the table changes and the answer is as `Step` says. */
    method Handle(ip: Option<string>, now: int) returns (d: Decision)
      modifies this
      ensures Outcome(store, d) == Step(old(store), ClientKey(ip), now)
    {
      Sweep(now);
      var clientId := ClientKey(ip);
      if clientId !in store {
        store := store[clientId := FreshWindow(now)];
      }
      var entry := store[clientId];
      if entry.resetTime < now {
        entry := FreshWindow(now);
      }
      entry := entry.(count := entry.count + 1);
      store := store[clientId := entry];
      if entry.count > MaxRequests {
        return Rejected(CeilDiv(entry.resetTime - now, 1000));
      }
      d := Allowed(MaxRequests, Max(0, MaxRequests - entry.count), entry.resetTime);
    }

    /** The `forEach` over the keys that deletes every entry whose window ended before `now`. */
    method Sweep(now: int)
      modifies this
      ensures store == Swept(old(store), now)
    {
      var pending := store.Keys;
      while pending != {}
        invariant pending <= old(store).Keys
        invariant store == map k | k in old(store) && (k in pending || old(store)[k].resetTime >= now) :: old(store)[k]
        decreases pending
      {
        var k :| k in pending;
        if store[k].resetTime < now {
          store := store - {k};
        }
        pending := pending - {k};
      }
    }
  }
}
