/** The fixed-window rate limiter and the rate-limiting middleware of
    internal/server/middleware/ratelimit.go. Time is an integer clock in the
    same unit as the windows; `now` is a parameter instead of time.Now. */
module RateLimit {
  import opened Wrappers
  import opened Strings
  import opened Http
  import Jwt

  /** The counter kept for one identifier. */
  datatype ClientLimit = ClientLimit(requests: int, windowStart: int)

  /** The entry's window has run out: strictly more than `window` has
      elapsed since it started. */
  predicate Expired(limit: ClientLimit, now: int, window: int) {
    now - limit.windowStart > window
  }

  /** The outcome of one admission decision: the verdict and the map of
      counters afterwards. */
  datatype Decision = Decision(allowed: bool, limits: map<string, ClientLimit>)

  /** One admission decision against the map of one class of caller. */
  function Admit(limits: map<string, ClientLimit>, id: string, now: int, maxRequests: int, window: int): (d: Decision)
    ensures d.allowed <==> id !in limits || Expired(limits[id], now, window) || limits[id].requests < maxRequests
    ensures !d.allowed ==> d.limits == limits
    ensures d.limits.Keys == limits.Keys + {id}
    ensures forall k :: k in limits && k != id ==> d.limits[k] == limits[k]
  {
    if id !in limits || Expired(limits[id], now, window) then
      Decision(true, limits[id := ClientLimit(1, now)])
    else if limits[id].requests >= maxRequests then
      Decision(false, limits)
    else
      Decision(true, limits[id := limits[id].(requests := limits[id].requests + 1)])
  }

  /** A missing or expired entry is replaced by a fresh window holding one
      request, and the request is admitted, whatever the maximum (even when
      it is zero or negative). */
  lemma AdmitStartsWindow(limits: map<string, ClientLimit>, id: string, now: int, maxRequests: int, window: int)
    requires id !in limits || Expired(limits[id], now, window)
    ensures Admit(limits, id, now, maxRequests, window) == Decision(true, limits[id := ClientLimit(1, now)])
  {
  }

  /** Inside a live window, an entry below the maximum is counted up by
      exactly one and keeps its window start. */
  lemma AdmitCounts(limits: map<string, ClientLimit>, id: string, now: int, maxRequests: int, window: int)
    requires id in limits && !Expired(limits[id], now, window) && limits[id].requests < maxRequests
    ensures Admit(limits, id, now, maxRequests, window)
      == Decision(true, limits[id := ClientLimit(limits[id].requests + 1, limits[id].windowStart)])
  {
  }

  /** Every counter lies between 1 and the class maximum (or is exactly 1,
      which a fresh window holds even when the maximum is below 1). */
  ghost predicate Bounded(limits: map<string, ClientLimit>, maxRequests: int) {
    forall k :: k in limits ==> 1 <= limits[k].requests && (limits[k].requests <= maxRequests || limits[k].requests == 1)
  }

  lemma AdmitKeepsBounded(limits: map<string, ClientLimit>, id: string, now: int, maxRequests: int, window: int)
    requires Bounded(limits, maxRequests)
    ensures Bounded(Admit(limits, id, now, maxRequests, window).limits, maxRequests)
  {
  }

  /** The map Cleanup leaves behind: exactly the entries that have not
      expired, unchanged. */
  function Evict(limits: map<string, ClientLimit>, now: int, window: int): (r: map<string, ClientLimit>)
    ensures forall k :: k in r <==> k in limits && !Expired(limits[k], now, window)
    ensures forall k :: k in r ==> r[k] == limits[k]
  {
    map k | k in limits && !Expired(limits[k], now, window) :: limits[k]
  }

  /** Sweeping twice at the same time removes nothing more. */
  lemma EvictIdempotent(limits: map<string, ClientLimit>, now: int, window: int)
    ensures Evict(Evict(limits, now, window), now, window) == Evict(limits, now, window)
  {
  }

  /** The sweep never changes an admission decision: admitting after a
      sweep at an earlier (or the same) time gives the same verdict and the
      same counters as admitting without it, up to that sweep's evictions. */
  lemma AdmitAfterEvict(limits: map<string, ClientLimit>, id: string, swept: int, now: int, maxRequests: int, window: int)
    requires swept <= now && window >= 0
    ensures var d := Admit(limits, id, now, maxRequests, window);
      Admit(Evict(limits, swept, window), id, now, maxRequests, window)
        == Decision(d.allowed, Evict(d.limits, swept, window))
  {
    var d := Admit(limits, id, now, maxRequests, window);
    var e := Admit(Evict(limits, swept, window), id, now, maxRequests, window);
    if id in limits && Expired(limits[id], swept, window) {
      assert Expired(limits[id], now, window);
    }
    assert e.allowed == d.allowed;
    assert e.limits == Evict(d.limits, swept, window);
  }

  /** The verdicts of a run of requests from one identifier at the given
      times, threading the counters through. */
  function AdmitAll(limits: map<string, ClientLimit>, id: string, times: seq<int>, maxRequests: int, window: int): (verdicts: seq<bool>)
    decreases |times|
    ensures |verdicts| == |times|
  {
    if times == [] then []
    else
      var d := Admit(limits, id, times[0], maxRequests, window);
      [d.allowed] + AdmitAll(d.limits, id, times[1..], maxRequests, window)
  }

  /** Inside one live window that already holds `count` requests, the
      calls keep being admitted until the maximum is reached and are all
      refused afterwards. */
  lemma {:induction false} LiveWindowVerdicts(limits: map<string, ClientLimit>, id: string, times: seq<int>, maxRequests: int, window: int)
    decreases |times|
    requires id in limits && 1 <= limits[id].requests
    requires forall i :: 0 <= i < |times| ==> !Expired(limits[id], times[i], window)
    ensures forall i :: 0 <= i < |times| ==>
      AdmitAll(limits, id, times, maxRequests, window)[i] == (limits[id].requests + i < maxRequests)
  {
    if times != [] {
      var d := Admit(limits, id, times[0], maxRequests, window);
      var c := limits[id].requests;
      assert d.limits[id].windowStart == limits[id].windowStart;
      assert d.limits[id].requests == if c < maxRequests then c + 1 else c;
      LiveWindowVerdicts(d.limits, id, times[1..], maxRequests, window);
      var rest := AdmitAll(d.limits, id, times[1..], maxRequests, window);
      forall i | 1 <= i < |times|
        ensures AdmitAll(limits, id, times, maxRequests, window)[i] == (c + i < maxRequests)
      {
        assert AdmitAll(limits, id, times, maxRequests, window)[i] == rest[i - 1];
        if c < maxRequests {
          assert rest[i - 1] == (c + 1 + (i - 1) < maxRequests);
        } else {
          assert rest[i - 1] == (c + (i - 1) < maxRequests);
        }
      }
    }
  }

  /** The fixed-window guarantee: starting from no entry (or an expired
      one), a run of calls that all fall within `window` of the first is
      admitted exactly for the first `maxRequests` calls and refused for
      every later one. Elapsed time exactly equal to `window` still counts
      as inside the window. */
  lemma {:induction false} FirstMaxAdmitted(limits: map<string, ClientLimit>, id: string, times: seq<int>, maxRequests: int, window: int)
    requires |times| > 0
    requires id !in limits || Expired(limits[id], times[0], window)
    requires forall i :: 0 <= i < |times| ==> times[i] - times[0] <= window
    ensures forall i :: 0 <= i < |times| ==>
      AdmitAll(limits, id, times, maxRequests, window)[i] == (i == 0 || i < maxRequests)
  {
    var d := Admit(limits, id, times[0], maxRequests, window);
    assert d.limits[id] == ClientLimit(1, times[0]);
    forall i | 0 <= i < |times[1..]| ensures !Expired(d.limits[id], times[1..][i], window) {
      assert times[1..][i] == times[i + 1];
    }
    LiveWindowVerdicts(d.limits, id, times[1..], maxRequests, window);
  }

  /** The seam of a fixed window admits twice the maximum in a short span:
      one call opening a window at `start`, `maxRequests - 1` more at its
      last instant `start + window`, and `maxRequests` more one tick later
      are all admitted: `2 * maxRequests - 1` of them within one tick and
      all `2 * maxRequests` within `window + 1`. */
  lemma {:induction false} BurstAtWindowSeam(limits: map<string, ClientLimit>, id: string, start: int, maxRequests: int, window: int)
    requires maxRequests >= 1 && window >= 0
    requires id !in limits || Expired(limits[id], start, window)
    ensures var times := [start] + seq(maxRequests - 1, _ => start + window) + seq(maxRequests, _ => start + window + 1);
      forall i :: 0 <= i < |times| ==> AdmitAll(limits, id, times, maxRequests, window)[i]
  {
    var first := [start] + seq(maxRequests - 1, _ => start + window);
    var second := seq(maxRequests, _ => start + window + 1);
    FirstMaxAdmitted(limits, id, first, maxRequests, window);
    AdmitAllSplit(limits, id, first, second, maxRequests, window);
    var d := Admit(limits, id, start, maxRequests, window);
    assert d.limits[id] == ClientLimit(1, start);
    LiveWindowKeepsStart(d.limits, id, first[1..], maxRequests, window);
    var after := AdmitAllLimits(limits, id, first, maxRequests, window);
    assert after == AdmitAllLimits(d.limits, id, first[1..], maxRequests, window);
    assert Expired(after[id], second[0], window);
    FirstMaxAdmitted(after, id, second, maxRequests, window);
  }

  /** The counters after a run of calls. */
  function AdmitAllLimits(limits: map<string, ClientLimit>, id: string, times: seq<int>, maxRequests: int, window: int): map<string, ClientLimit>
    decreases |times|
  {
    if times == [] then limits
    else AdmitAllLimits(Admit(limits, id, times[0], maxRequests, window).limits, id, times[1..], maxRequests, window)
  }

  lemma {:induction false} AdmitAllSplit(limits: map<string, ClientLimit>, id: string, xs: seq<int>, ys: seq<int>, maxRequests: int, window: int)
    decreases |xs|
    ensures AdmitAll(limits, id, xs + ys, maxRequests, window)
      == AdmitAll(limits, id, xs, maxRequests, window) + AdmitAll(AdmitAllLimits(limits, id, xs, maxRequests, window), id, ys, maxRequests, window)
  {
    if xs == [] {
      assert xs + ys == ys;
    } else {
      assert (xs + ys)[0] == xs[0];
      assert (xs + ys)[1..] == xs[1..] + ys;
      AdmitAllSplit(Admit(limits, id, xs[0], maxRequests, window).limits, id, xs[1..], ys, maxRequests, window);
    }
  }

  /** Calls inside a live window never move its start. */
  lemma {:induction false} LiveWindowKeepsStart(limits: map<string, ClientLimit>, id: string, times: seq<int>, maxRequests: int, window: int)
    decreases |times|
    requires id in limits
    requires forall i :: 0 <= i < |times| ==> !Expired(limits[id], times[i], window)
    ensures var after := AdmitAllLimits(limits, id, times, maxRequests, window);
      id in after && after[id].windowStart == limits[id].windowStart
  {
    if times != [] {
      var d := Admit(limits, id, times[0], maxRequests, window);
      assert d.limits[id].windowStart == limits[id].windowStart;
      forall i | 0 <= i < |times[1..]| ensures !Expired(d.limits[id], times[1..][i], window) {
        assert times[1..][i] == times[i + 1];
      }
      LiveWindowKeepsStart(d.limits, id, times[1..], maxRequests, window);
    }
  }

  /** The limiter: one map of counters for callers keyed by address, one for
      service callers, and the maximum and window of each class. */
  class RateLimiter {
    var ipLimits: map<string, ClientLimit>
    var serviceLimits: map<string, ClientLimit>
    const ipMaxRequests: int
    const ipWindow: int
    const svcMaxRequests: int
    const svcWindow: int

    ghost predicate Valid()
      reads this
    {
      Bounded(ipLimits, ipMaxRequests) && Bounded(serviceLimits, svcMaxRequests)
    }

    /** NewRateLimiter: both maps empty. */
    constructor (ipMaxRequests: int, ipWindow: int, svcMaxRequests: int, svcWindow: int)
      ensures Valid()
      ensures this.ipLimits == map[] && this.serviceLimits == map[]
      ensures this.ipMaxRequests == ipMaxRequests && this.ipWindow == ipWindow
      ensures this.svcMaxRequests == svcMaxRequests && this.svcWindow == svcWindow
    {
      this.ipLimits := map[];
      this.serviceLimits := map[];
      this.ipMaxRequests := ipMaxRequests;
      this.ipWindow := ipWindow;
      this.svcMaxRequests := svcMaxRequests;
      this.svcWindow := svcWindow;
    }

    /** Allow: decide one request of `identifier` at time `now` against the
        map, maximum and window of its class, and update that map; the other
        class's map is left alone. */
    method Allow(identifier: string, isService: bool, now: int) returns (allowed: bool)
      requires Valid()
      modifies this
      ensures Valid()
      ensures isService ==>
        && Decision(allowed, serviceLimits) == Admit(old(serviceLimits), identifier, now, svcMaxRequests, svcWindow)
        && ipLimits == old(ipLimits)
      ensures !isService ==>
        && Decision(allowed, ipLimits) == Admit(old(ipLimits), identifier, now, ipMaxRequests, ipWindow)
        && serviceLimits == old(serviceLimits)
    {
      var limitsMap := ipLimits;
      var maxRequests := ipMaxRequests;
      var window := ipWindow;
      if isService {
        limitsMap := serviceLimits;
        maxRequests := svcMaxRequests;
        window := svcWindow;
      }
      AdmitKeepsBounded(limitsMap, identifier, now, maxRequests, window);

      if identifier !in limitsMap || now - limitsMap[identifier].windowStart > window {
        limitsMap := limitsMap[identifier := ClientLimit(1, now)];
        allowed := true;
      } else if limitsMap[identifier].requests >= maxRequests {
        return false;
      } else {
        var limit := limitsMap[identifier];
        limitsMap := limitsMap[identifier := limit.(requests := limit.requests + 1)];
        allowed := true;
      }

      // The source's map variable aliases the field; here the updated map
      // is stored back.
      if isService {
        serviceLimits := limitsMap;
      } else {
        ipLimits := limitsMap;
      }
    }

    /** Cleanup: delete every entry whose window has run out in either map,
        one key at a time as the source's range loops do. */
    method Cleanup(now: int)
      requires Valid()
      modifies this
      ensures Valid()
      ensures ipLimits == Evict(old(ipLimits), now, ipWindow)
      ensures serviceLimits == Evict(old(serviceLimits), now, svcWindow)
    {
      var pending := ipLimits.Keys;
      while pending != {}
        invariant pending <= old(ipLimits).Keys
        invariant serviceLimits == old(serviceLimits)
        invariant forall k :: k in ipLimits <==> k in old(ipLimits) && (k in pending || !Expired(old(ipLimits)[k], now, ipWindow))
        invariant forall k :: k in ipLimits ==> ipLimits[k] == old(ipLimits)[k]
        decreases pending
      {
        var ip :| ip in pending;
        if now - ipLimits[ip].windowStart > ipWindow {
          ipLimits := ipLimits - {ip};
        }
        pending := pending - {ip};
      }

      pending := serviceLimits.Keys;
      while pending != {}
        invariant pending <= old(serviceLimits).Keys
        invariant ipLimits == Evict(old(ipLimits), now, ipWindow)
        invariant forall k :: k in serviceLimits <==> k in old(serviceLimits) && (k in pending || !Expired(old(serviceLimits)[k], now, svcWindow))
        invariant forall k :: k in serviceLimits ==> serviceLimits[k] == old(serviceLimits)[k]
        decreases pending
      {
        var service :| service in pending;
        if now - serviceLimits[service].windowStart > svcWindow {
          serviceLimits := serviceLimits - {service};
        }
        pending := pending - {service};
      }
    }
  }

  /** The rate-limit bucket of a request: the identifier and whether it is
      counted as a service. */
  datatype RateKey = RateKey(identifier: string, isService: bool)

  /** `token[:16]` on an API key shorter than 16 bytes is out of range. */
  datatype KeyError = SliceOutOfRange

  const ApiKeyPrefix := "pk_"

  /** The parsed claims mark a service and name it with a non-empty
      string `sub`. */
  predicate NamesService(t: Jwt.Token) {
    t.claims.Some? && "isService" in t.claims.value && t.claims.value["isService"] == Jwt.Bool(true)
    && "sub" in t.claims.value && t.claims.value["sub"].Str? && t.claims.value["sub"].s != ""
  }

  /** The identifier selection of RateLimitMiddleware. */
  function SelectRateKey(remoteAddr: string, authHeader: string, parse: Jwt.Parser): (r: Result<RateKey, KeyError>)
    ensures r.Failure? <==> HasPrefix(authHeader, Jwt.BearerPrefix) && HasPrefix(authHeader[7..], ApiKeyPrefix) && |authHeader| < 7 + 16
    ensures var token := TrimPrefix(authHeader, Jwt.BearerPrefix);
      r.Success? ==>
        (r.value.isService <==>
          HasPrefix(authHeader, Jwt.BearerPrefix)
          && (HasPrefix(token, ApiKeyPrefix)
              || (Jwt.ParseToken(token, parse).Success? && NamesService(Jwt.ParseToken(token, parse).value))))
    ensures var token := TrimPrefix(authHeader, Jwt.BearerPrefix);
      r.Success? && r.value.isService && HasPrefix(token, ApiKeyPrefix) ==> r.value.identifier == "api-key-" + token[..16]
    ensures var token := TrimPrefix(authHeader, Jwt.BearerPrefix);
      r.Success? && r.value.isService && !HasPrefix(token, ApiKeyPrefix) ==>
        r.value.identifier == Jwt.ParseToken(token, parse).value.claims.value["sub"].s
    ensures r.Success? && !r.value.isService ==> r.value.identifier == remoteAddr
  {
    if HasPrefix(authHeader, Jwt.BearerPrefix) then
      var token := TrimPrefix(authHeader, Jwt.BearerPrefix);
      if HasPrefix(token, ApiKeyPrefix) then
        if |token| < 16 then Failure(SliceOutOfRange)
        else Success(RateKey("api-key-" + token[..16], true))
      else
        match Jwt.ParseToken(token, parse)
        case Success(t) =>
          if NamesService(t) then Success(RateKey(t.claims.value["sub"].s, true))
          else Success(RateKey(remoteAddr, false))
        case Failure(_) => Success(RateKey(remoteAddr, false))
    else
      Success(RateKey(remoteAddr, false))
  }

  /** A bearer token that is not an API key and does not verify as a named
      service is charged to the caller's address, as a request without one
      is. */
  lemma UnnamedTokenKeyedByAddress(remoteAddr: string, token: string, parse: Jwt.Parser)
    requires !HasPrefix(token, ApiKeyPrefix)
    requires Jwt.ParseToken(token, parse).Failure? || !NamesService(Jwt.ParseToken(token, parse).value)
    ensures SelectRateKey(remoteAddr, Jwt.BearerPrefix + token, parse) == Success(RateKey(remoteAddr, false))
  {
    assert HasPrefix(Jwt.BearerPrefix + token, Jwt.BearerPrefix);
    assert TrimPrefix(Jwt.BearerPrefix + token, Jwt.BearerPrefix) == token;
  }

  /** shouldSkipRateLimiting: only the health check bypasses the limiter. */
  predicate ShouldSkipRateLimiting(path: string)
    ensures ShouldSkipRateLimiting(path) <==> path == "/api/v1/health"
    ensures HasPrefix(path, "/api/v1/health/") ==> !ShouldSkipRateLimiting(path)
  {
    path == "/api/v1/health"
  }

  /** The 429 answer: Retry-After of 60 seconds (section 4 of RFC 6585),
      then http.Error's plain-text body. */
  function TooManyRequests(): (r: Response)
    ensures r.status == StatusTooManyRequests
    ensures "Retry-After" in r.headers && r.headers["Retry-After"] == "60"
  {
    var e := Error("Rate limit exceeded. Please try again later.", StatusTooManyRequests);
    e.(headers := map["Retry-After" := "60"] + e.headers)
  }

  /** RateLimitMiddleware against an explicit limiter: skip the health
      check, pick the bucket, ask the limiter, answer 429 on refusal. A short
      API key makes the source panic; the step is then Abort and the limiter
      is not consulted. */
  method RateLimitMiddleware(limiter: RateLimiter, req: Request, parse: Jwt.Parser, now: int) returns (step: Step)
    requires limiter.Valid()
    modifies limiter
    ensures limiter.Valid()
    ensures ShouldSkipRateLimiting(req.path) ==> step == Pass(map[]) && unchanged(limiter)
    ensures req.path == "/api/v1/health" ==> step == Pass(map[]) && unchanged(limiter)
    ensures !ShouldSkipRateLimiting(req.path) ==>
      match SelectRateKey(req.remoteAddr, req.authorization, parse)
      case Failure(_) => step == Abort && unchanged(limiter)
      case Success(key) =>
        var d := if key.isService
          then Admit(old(limiter.serviceLimits), key.identifier, now, limiter.svcMaxRequests, limiter.svcWindow)
          else Admit(old(limiter.ipLimits), key.identifier, now, limiter.ipMaxRequests, limiter.ipWindow);
        && step == (if d.allowed then Pass(map[]) else Stop(TooManyRequests()))
        && (if key.isService then limiter.serviceLimits else limiter.ipLimits) == d.limits
        && (if key.isService then limiter.ipLimits == old(limiter.ipLimits) else limiter.serviceLimits == old(limiter.serviceLimits))
  {
    if ShouldSkipRateLimiting(req.path) {
      return Pass(map[]);
    }
    match SelectRateKey(req.remoteAddr, req.authorization, parse)
    case Failure(_) =>
      step := Abort;
    case Success(key) =>
      var allowed := limiter.Allow(key.identifier, key.isService, now);
      if !allowed {
        step := Stop(TooManyRequests());
      } else {
        step := Pass(map[]);
      }
  }
}
