/**
 * The in-memory sliding-window rate limiter of src/middleware/rate_limit.py and the
 * middleware that picks a limiter per route. Times are whole seconds since the epoch.
 */
module RateLimit {
  import opened Wrappers
  import opened Json
  import opened Text

  /** The sliding window: one minute. */
  const Window: int := 60

  /** A limit of at least one request per minute; every limiter of the application has one. */
  type Positive = n: int | n >= 1 witness 1

  // ---------------------------------------------------------------- the window

  /** The timestamps strictly newer than `cutoff`, in their original order. */
  function Recent(times: seq<int>, cutoff: int): (r: seq<int>)
    ensures |r| <= |times|
    ensures forall t :: t in r <==> t in times && t > cutoff
  {
    if times == [] then []
    else (if times[0] > cutoff then [times[0]] else []) + Recent(times[1..], cutoff)
  }

  lemma {:induction false} RecentConcat(a: seq<int>, b: seq<int>, cutoff: int)
    ensures Recent(a + b, cutoff) == Recent(a, cutoff) + Recent(b, cutoff)
  {
    if a != [] {
      assert (a + b)[1..] == a[1..] + b;
      RecentConcat(a[1..], b, cutoff);
    } else {
      assert a + b == b;
    }
  }

  /** Pruning with a later cutoff after an earlier one is the same as pruning once with the later one. */
  lemma {:induction false} RecentRecent(times: seq<int>, c1: int, c2: int)
    requires c1 <= c2
    ensures Recent(Recent(times, c1), c2) == Recent(times, c2)
  {
    if times != [] {
      RecentRecent(times[1..], c1, c2);
      var head := if times[0] > c1 then [times[0]] else [];
      RecentConcat(head, Recent(times[1..], c1), c2);
    }
  }

  /** The smallest element, as `min(...)`. */
  function Min(s: seq<int>): (m: int)
    requires s != []
    ensures m in s && forall t :: t in s ==> m <= t
  {
    if |s| == 1 then s[0]
    else
      var rest := Min(s[1..]);
      assert forall t :: t in s ==> t == s[0] || t in s[1..];
      if s[0] <= rest then s[0] else rest
  }

  /**
   * Seconds until the oldest stored request leaves the window, but at least one:
   * `max(1, int(oldest + 1 minute - now))`.
   */
  function RetryAfter(kept: seq<int>, now: int): (r: int)
    requires kept != []
    ensures r >= 1
    ensures r >= Min(kept) + Window - now
    ensures r == Min(kept) + Window - now || r == 1
  {
    var wait := Min(kept) + Window - now;
    if wait < 1 then 1 else wait
  }

  /**
   * One admission decision for one key: prune to the window, reject when the limit is
   * already reached (recording nothing), otherwise record `now` and admit.
   */
  function Admit(stored: seq<int>, now: int, limit: int): (r: (bool, seq<int>))
    ensures var kept := Recent(stored, now - Window);
      && (r.0 <==> |kept| < limit)
      && (r.0 ==> r.1 == kept + [now])
      && (!r.0 ==> r.1 == kept)
  {
    var kept := Recent(stored, now - Window);
    if |kept| >= limit then (false, kept) else (true, kept + [now])
  }

  /** An admission never leaves more than `limit` entries when there were at most that many before. */
  lemma AdmitBounded(stored: seq<int>, now: int, limit: int)
    requires |stored| <= limit
    ensures |Admit(stored, now, limit).1| <= limit
    ensures forall t :: t in Admit(stored, now, limit).1 ==> now - Window < t
  {
  }

  // ---------------------------------------------------------------- calls on one key

  predicate NonDecreasing(times: seq<int>) {
    forall i, j :: 0 <= i < j < |times| ==> times[i] <= times[j]
  }

  /** What the limiter stores for a key after it checked calls at `times`, starting from nothing. */
  function Replay(times: seq<int>, limit: int): seq<int> {
    if times == [] then []
    else Admit(Replay(times[..|times| - 1], limit), times[|times| - 1], limit).1
  }

  /** The times of the calls that were admitted, in order. */
  function AdmittedTimes(times: seq<int>, limit: int): seq<int> {
    if times == [] then []
    else
      var init := times[..|times| - 1];
      var now := times[|times| - 1];
      AdmittedTimes(init, limit) + (if Admit(Replay(init, limit), now, limit).0 then [now] else [])
  }

  /**
   * One admission keeps the stored list equal to the admitted calls of the last minute: if it
   * was so at the previous call, it is so after this one, and the limit still bounds it.
   */
  lemma AdmitKeepsRecent(stored: seq<int>, admitted: seq<int>, prev: int, now: int, limit: int)
    requires prev <= now && stored == Recent(admitted, prev - Window) && |stored| <= limit
    ensures var r := Admit(stored, now, limit);
      r.1 == Recent(admitted + (if r.0 then [now] else []), now - Window) && |r.1| <= limit
  {
    RecentRecent(admitted, prev - Window, now - Window);
    AdmitBounded(stored, now, limit);
    if Admit(stored, now, limit).0 {
      RecentConcat(admitted, [now], now - Window);
      assert Recent([now], now - Window) == [now];
    } else {
      assert admitted + [] == admitted;
    }
  }

  /**
   * With a clock that does not run backwards, what is stored for a key is exactly the calls
   * admitted during the last minute, and there are never more than the limit of them.
   */
  lemma {:induction false} ReplayIsRecentAdmitted(times: seq<int>, limit: int)
    requires 1 <= limit && times != [] && NonDecreasing(times)
    ensures Replay(times, limit) == Recent(AdmittedTimes(times, limit), times[|times| - 1] - Window)
    ensures |Replay(times, limit)| <= limit
  {
    var init := times[..|times| - 1];
    var now := times[|times| - 1];
    if init == [] {
      assert Recent([now], now - Window) == [now];
    } else {
      var prev := init[|init| - 1];
      assert NonDecreasing(init);
      ReplayIsRecentAdmitted(init, limit);
      AdmitKeepsRecent(Replay(init, limit), AdmittedTimes(init, limit), prev, now, limit);
    }
  }

  /** At every call, at most `limit` calls were admitted within the minute up to and including it. */
  lemma AdmittedPerMinute(times: seq<int>, limit: int, n: int)
    requires 1 <= limit && NonDecreasing(times) && 1 <= n <= |times|
    ensures |Recent(AdmittedTimes(times[..n], limit), times[n - 1] - Window)| <= limit
  {
    var prefix := times[..n];
    assert NonDecreasing(prefix);
    assert prefix[|prefix| - 1] == times[n - 1];
    ReplayIsRecentAdmitted(prefix, limit);
  }

  // ---------------------------------------------------------------- clean-up

  /** The table after clean-up: every list pruned to the window, emptied keys deleted. */
  function Cleaned(m: map<string, seq<int>>, now: int): (r: map<string, seq<int>>)
    ensures forall k :: k in r <==> k in m && Recent(m[k], now - Window) != []
    ensures forall k :: k in r ==> r[k] == Recent(m[k], now - Window)
  {
    map k | k in m && Recent(m[k], now - Window) != [] :: Recent(m[k], now - Window)
  }

  /** `defaultdict(list)` lookup: a key never seen holds no timestamps. */
  function Lookup(m: map<string, seq<int>>, key: string): seq<int> {
    if key in m then m[key] else []
  }

  /** Clean-up never changes a later admission decision: it only does early what the check does lazily. */
  lemma CleanupInvisible(m: map<string, seq<int>>, now: int, later: int, key: string, limit: int)
    requires now <= later
    ensures Admit(Lookup(Cleaned(m, now), key), later, limit) == Admit(Lookup(m, key), later, limit)
  {
    if key in m {
      RecentRecent(m[key], now - Window, later - Window);
    }
  }

  // ---------------------------------------------------------------- the limiter

  class RateLimiter {
    const requestsPerMinute: Positive
    var requests: map<string, seq<int>>

    constructor(requestsPerMinute: Positive)
      ensures this.requestsPerMinute == requestsPerMinute && requests == map[]
    {
      this.requestsPerMinute := requestsPerMinute;
      requests := map[];
    }

    /** No key holds more entries than the limit. */
    predicate Bounded()
      reads this
    {
      forall k :: k in requests ==> |requests[k]| <= requestsPerMinute
    }

    /**
     * `check_rate_limit`: prune this key's list, then reject with a retry delay or record
     * `now` and admit. Every other key is left as it was.
     */
    method CheckRateLimit(key: string, now: int) returns (allowed: bool, retryAfter: int)
      modifies this
      ensures var kept := Recent(Lookup(old(requests), key), now - Window);
        && (allowed <==> |kept| < requestsPerMinute)
        && requests == old(requests)[key := Admit(Lookup(old(requests), key), now, requestsPerMinute).1]
        && (allowed ==> retryAfter == 0)
        && (!allowed ==> kept != [] && retryAfter == RetryAfter(kept, now))
      ensures old(Bounded()) ==> Bounded()
    {
      var kept := Recent(Lookup(requests, key), now - Window);
      requests := requests[key := kept];
      if |kept| >= requestsPerMinute {
        var oldest := Min(kept);
        var wait := oldest + Window - now;
        return false, if wait < 1 then 1 else wait;
      }
      requests := requests[key := kept + [now]];
      return true, 0;
    }

    /** `_cleanup_old_entries`: prune every key's list and delete the keys left empty, one key at a time. */
    method CleanupOldEntries(now: int)
      modifies this
      ensures requests == Cleaned(old(requests), now)
    {
      var pending := requests.Keys;
      ghost var done: set<string> := {};
      while pending != {}
        invariant pending !! done && pending + done == old(requests).Keys
        invariant forall k :: k in pending ==> k in requests && requests[k] == old(requests)[k]
        invariant forall k :: k in requests ==> k in pending || k in done
        invariant forall k :: k in done ==> (k in requests <==> k in Cleaned(old(requests), now))
        invariant forall k :: k in done && k in requests ==> requests[k] == Cleaned(old(requests), now)[k]
        decreases pending
      {
        var key :| key in pending;
        var kept := Recent(requests[key], now - Window);
        if kept == [] {
          requests := requests - {key};
        } else {
          requests := requests[key := kept];
        }
        pending := pending - {key};
        done := done + {key};
      }
    }
  }

  // ---------------------------------------------------------------- the middleware

  /** What the middleware reads from an HTTP request. */
  datatype HttpRequest = HttpRequest(
    path: string,
    verb: string,
    authorization: Option<string>,
    forwardedFor: Option<string>,
    clientHost: Option<string>)

  /**
   * The user id the middleware attaches: the `sub` claim of a bearer token that decodes
   * (the decoder answers None for a token it rejects or that raises).
   */
  function UserIdOf(authorization: Option<string>, decode: string -> Option<Object>): (r: Option<Value>)
    ensures r.Some? ==> authorization.Some? && StartsWith(authorization.value, "Bearer ")
  {
    var header := authorization.GetOr("");
    if StartsWith(header, "Bearer ") then
      CountCharPositive(header, ' ', 6);
      var token := Split(header, ' ')[1];
      match decode(token)
      case Some(payload) => if "sub" in payload then Some(payload["sub"]) else None
      case None => None
    else None
  }

  /** A separator occurring in the string yields at least two pieces. */
  lemma CountCharPositive(s: string, c: char, i: int)
    requires 0 <= i < |s| && s[i] == c
    ensures CountChar(s, c) >= 1
  {
    if i > 0 {
      CountCharPositive(s[1..], c, i - 1);
    }
  }

  /**
   * `_get_client_key`: a truthy user id wins; otherwise the first X-Forwarded-For entry,
   * trimmed; otherwise the socket's host; otherwise "unknown".
   */
  function GetClientKey(userId: Option<Value>, forwardedFor: Option<string>, clientHost: Option<string>): (key: string)
    ensures userId.Some? && Truthy(userId.value) ==> key == "user:" + Display(userId.value)
    ensures !(userId.Some? && Truthy(userId.value)) ==> StartsWith(key, "ip:")
    ensures !(userId.Some? && Truthy(userId.value)) && forwardedFor.Some? && forwardedFor.value != [] ==>
      key == "ip:" + Strip(Split(forwardedFor.value, ',')[0]) && ',' !in key
    ensures !(userId.Some? && Truthy(userId.value)) && (forwardedFor.None? || forwardedFor.value == []) ==>
      key == "ip:" + clientHost.GetOr("unknown")
  {
    var clientIp :=
      if forwardedFor.Some? && forwardedFor.value != [] then Strip(Split(forwardedFor.value, ',')[0])
      else clientHost.GetOr("unknown");
    if userId.Some? && Truthy(userId.value) then "user:" + Display(userId.value) else "ip:" + clientIp
  }

  /** A signed-in caller's bucket is never an address bucket, whatever the address. */
  lemma UserAndAddressKeysDiffer(id: Value, forwardedFor: Option<string>, clientHost: Option<string>)
    requires Truthy(id)
    ensures GetClientKey(Some(id), forwardedFor, clientHost) != GetClientKey(None, forwardedFor, clientHost)
  {
    var u := GetClientKey(Some(id), forwardedFor, clientHost);
    var a := GetClientKey(None, forwardedFor, clientHost);
    assert u[..5] == "user:" && a[..3] == "ip:";
    assert u[0] != a[0];
  }

  datatype LimiterKind = PasswordReset | RecipeCreation | AuthEndpoints | Chat | Api

  /** Requests per minute of each limiter. */
  function Limit(kind: LimiterKind): Positive {
    match kind
    case PasswordReset => 1
    case RecipeCreation => 20
    case AuthEndpoints => 10
    case Chat => 30
    case Api => 300
  }

  /** The first matching rule picks the limiter; paths outside `/v1/` are not limited. */
  function SelectLimiter(path: string, verb: string): (r: Option<LimiterKind>)
    ensures r.None? <==> !StartsWith(path, "/v1/") && !(path == "/v1/recipes" && verb == "POST")
    ensures path == "/v1/auth/forgot-password" && verb == "POST" ==> r == Some(PasswordReset)
    ensures path == "/v1/recipes" && verb == "POST" ==> r == Some(RecipeCreation)
    ensures StartsWith(path, "/v1/auth/") && !(path == "/v1/auth/forgot-password" && verb == "POST") ==>
      r == Some(AuthEndpoints)
    ensures r == Some(Chat) <==> StartsWith(path, "/v1/chat/")
    ensures r == Some(Api) <==>
      StartsWith(path, "/v1/") && !StartsWith(path, "/v1/auth/") && !StartsWith(path, "/v1/chat/")
      && !(path == "/v1/recipes" && verb == "POST")
  {
    if path == "/v1/auth/forgot-password" && verb == "POST" then
      assert path[4] == 'a' && path[5] == 'u';
      assert path[..9][4] == path[4];
      Some(PasswordReset)
    else if path == "/v1/recipes" && verb == "POST" then
      assert path[4] == 'r';
      assert |path| < 9 || path[..9][4] == path[4];
      Some(RecipeCreation)
    else if StartsWith(path, "/v1/auth/") then Some(AuthEndpoints)
    else if StartsWith(path, "/v1/chat/") then Some(Chat)
    else if StartsWith(path, "/v1/") then Some(Api)
    else None
  }

  /** The middleware's answer: pass through unlimited, reject with 429, or admit with headers. */
  datatype Outcome =
    | Unlimited
    | Rejected(status: int, error: string, message: string, retryAfter: int, headers: map<string, string>)
    | Admitted(headers: map<string, string>)

  /** Headers of a 429 answer. */
  function RejectHeaders(retryAfter: int, limit: int, now: int): (h: map<string, string>)
    ensures h.Keys == {"Retry-After", "X-RateLimit-Limit", "X-RateLimit-Remaining", "X-RateLimit-Reset"}
    ensures h["Retry-After"] == IntToDecimal(retryAfter) && h["X-RateLimit-Remaining"] == "0"
    ensures h["X-RateLimit-Limit"] == IntToDecimal(limit) && h["X-RateLimit-Reset"] == IntToDecimal(now + retryAfter)
  {
    map["Retry-After" := IntToDecimal(retryAfter), "X-RateLimit-Limit" := IntToDecimal(limit),
        "X-RateLimit-Remaining" := "0", "X-RateLimit-Reset" := IntToDecimal(now + retryAfter)]
  }

  /** Headers added to an admitted response: the limit, what is left of it (never negative) and the window end. */
  function AdmitHeaders(limit: int, stored: int, now: int): (h: map<string, string>)
    ensures h.Keys == {"X-RateLimit-Limit", "X-RateLimit-Remaining", "X-RateLimit-Reset"}
    ensures h["X-RateLimit-Remaining"] == IntToDecimal(if limit - stored > 0 then limit - stored else 0)
    ensures h["X-RateLimit-Limit"] == IntToDecimal(limit) && h["X-RateLimit-Reset"] == IntToDecimal(now + Window)
  {
    var remaining := limit - stored;
    map["X-RateLimit-Limit" := IntToDecimal(limit),
        "X-RateLimit-Remaining" := IntToDecimal(if remaining > 0 then remaining else 0),
        "X-RateLimit-Reset" := IntToDecimal(now + Window)]
  }

  const TooManyMessage: string := "Too many requests. Please wait before trying again."

  /**
   * The middleware's answer for a limiter with `limit` whose table holds `stored` for the caller,
   * and what the table then holds: an admitted request reports the room left after it; a
   * rejected one reports 429, its retry delay and no room.
   */
  function Respond(limit: Positive, stored: seq<int>, now: int): (r: (Outcome, seq<int>))
    ensures var kept := Recent(stored, now - Window);
      && (|kept| < limit ==> r.0 == Admitted(AdmitHeaders(limit, |kept| + 1, now)) && r.1 == kept + [now])
      && (|kept| >= limit ==>
            && kept != [] && r.1 == kept
            && r.0 == Rejected(429, "rate_limit_exceeded", TooManyMessage, RetryAfter(kept, now),
                 RejectHeaders(RetryAfter(kept, now), limit, now)))
  {
    var step := Admit(stored, now, limit);
    if step.0 then (Admitted(AdmitHeaders(limit, |step.1|, now)), step.1)
    else (Rejected(429, "rate_limit_exceeded", TooManyMessage, RetryAfter(step.1, now),
            RejectHeaders(RetryAfter(step.1, now), limit, now)), step.1)
  }

  /** An admitted request never reports negative room; a rejected one waits at least a second. */
  lemma RespondHeaders(limit: Positive, stored: seq<int>, now: int)
    requires |stored| <= limit
    ensures var r := Respond(limit, stored, now);
      && (r.0.Admitted? ==> r.0.headers["X-RateLimit-Remaining"] == IntToDecimal(limit - |r.1|))
      && (r.0.Rejected? ==> r.0.retryAfter >= 1 && r.0.headers["X-RateLimit-Remaining"] == "0")
  {
  }

  /** The five process-wide limiters and `rate_limit_middleware`. */
  class Middleware {
    const passwordReset: RateLimiter
    const recipeCreation: RateLimiter
    const authEndpoints: RateLimiter
    const chat: RateLimiter
    const api: RateLimiter

    constructor()
      ensures Valid() && fresh(passwordReset) && fresh(recipeCreation) && fresh(authEndpoints)
      ensures fresh(chat) && fresh(api)
      ensures passwordReset.requests == recipeCreation.requests == authEndpoints.requests == map[]
      ensures chat.requests == api.requests == map[]
    {
      passwordReset := new RateLimiter(Limit(PasswordReset));
      recipeCreation := new RateLimiter(Limit(RecipeCreation));
      authEndpoints := new RateLimiter(Limit(AuthEndpoints));
      chat := new RateLimiter(Limit(Chat));
      api := new RateLimiter(Limit(Api));
    }

    /** Five distinct limiters, each with its route's limit. */
    predicate Valid()
      reads this
    {
      && passwordReset != recipeCreation && passwordReset != authEndpoints && passwordReset != chat
      && passwordReset != api && recipeCreation != authEndpoints && recipeCreation != chat
      && recipeCreation != api && authEndpoints != chat && authEndpoints != api && chat != api
      && passwordReset.requestsPerMinute == Limit(PasswordReset)
      && recipeCreation.requestsPerMinute == Limit(RecipeCreation)
      && authEndpoints.requestsPerMinute == Limit(AuthEndpoints)
      && chat.requestsPerMinute == Limit(Chat)
      && api.requestsPerMinute == Limit(Api)
    }

    function LimiterFor(kind: LimiterKind): RateLimiter
      reads this
    {
      match kind
      case PasswordReset => passwordReset
      case RecipeCreation => recipeCreation
      case AuthEndpoints => authEndpoints
      case Chat => chat
      case Api => api
    }

    /** The limiter a request is counted against, if any. */
    function Chosen(req: HttpRequest): set<RateLimiter>
      reads this
    {
      var kind := SelectLimiter(req.path, req.verb);
      if kind.Some? then {LimiterFor(kind.value)} else {}
    }

    /**
     * `rate_limit_middleware` for one request at time `now`: pick the limiter by route, key the
     * caller, and answer as `Respond` says. Only the chosen limiter's table changes.
     */
    method Handle(req: HttpRequest, now: int, decode: string -> Option<Object>) returns (out: Outcome)
      requires Valid()
      modifies Chosen(req)
      ensures SelectLimiter(req.path, req.verb).None? ==> out == Unlimited
      ensures SelectLimiter(req.path, req.verb).Some? ==>
        var kind := SelectLimiter(req.path, req.verb).value;
        var l := LimiterFor(kind);
        var key := GetClientKey(UserIdOf(req.authorization, decode), req.forwardedFor, req.clientHost);
        var r := Respond(Limit(kind), Lookup(old(l.requests), key), now);
        out == r.0 && l.requests == old(l.requests)[key := r.1]
    {
      var kind := SelectLimiter(req.path, req.verb);
      if kind.None? {
        return Unlimited;
      }
      var limiter := LimiterFor(kind.value);
      var limit := limiter.requestsPerMinute;
      assert limit == Limit(kind.value);
      var key := GetClientKey(UserIdOf(req.authorization, decode), req.forwardedFor, req.clientHost);
      ghost var expected := Respond(limit, Lookup(limiter.requests, key), now);
      var allowed, retryAfter := limiter.CheckRateLimit(key, now);
      assert limiter.requests[key] == expected.1;
      if !allowed {
        out := Rejected(429, "rate_limit_exceeded", TooManyMessage, retryAfter, RejectHeaders(retryAfter, limit, now));
      } else {
        out := Admitted(AdmitHeaders(limit, |limiter.requests[key]|, now));
      }
      assert out == expected.0;
    }
  }
}
