/**
 * The fixed-window request limiter. One table, keyed by `"<ip>:<scope>"`,
 * holds a counter and the instant its window closes. A request opens a new
 * window when its key has none or the window is over, is counted while the
 * window has room, and is refused with status 429 once the window's budget
 * is spent. Two entry points share the table: the general limiter, whose
 * scope is one of three endpoint classes, and the WhatsApp limiter.
 *
 * The clock is a parameter `now` in milliseconds.
 */
module RateLimiter {
  import opened Wrappers
  import opened Text
  import opened ErrorHandler

  /** A budget of `requests` per window of `windowMs` milliseconds. */
  datatype Limit = Limit(requests: nat, windowMs: nat)

  /** The endpoint classes of the general limiter (the keys of its configuration table). */
  datatype Endpoint = General | Upload | Send

  /** What a table key counts requests for. */
  datatype Scope = Api(endpoint: Endpoint) | WhatsApp

  /** One table entry: requests counted so far and the instant the window closes. */
  datatype RateLimitInfo = RateLimitInfo(count: int, resetTime: int)

  type Store = map<string, RateLimitInfo>

  /** The parts of an HTTP request the limiter reads. */
  datatype Request = Request(ip: Option<string>, remoteAddress: Option<string>, path: string)

  /** The values written to `X-RateLimit-Limit`, `X-RateLimit-Remaining` and `X-RateLimit-Reset`. */
  datatype RateHeaders = RateHeaders(limit: int, remaining: int, reset: int)

  /** What the middleware does: call `next()` or `next(error)`, after setting the headers if any. */
  datatype Decision =
    | Allow(headers: Option<RateHeaders>)
    | Reject(headers: Option<RateHeaders>, error: AppError)

  /** The result of one request against one key. */
  datatype Outcome = Admitted(count: int, resetTime: int) | Refused(resetTime: int)

  datatype Tally = Tally(store: Store, outcome: Outcome)

  const WindowMs: nat := 60 * 1000

  const RateLimits: map<Endpoint, Limit> := map[
    General := Limit(100, WindowMs),
    Upload := Limit(5, WindowMs),
    Send := Limit(30, WindowMs)]

  const WhatsAppLimit: Limit := Limit(30, WindowMs)

  const WhatsAppRejectText: string :=
    "WhatsApp rate limit exceeded. Please wait before sending more messages."

  // ---------------------------------------------------------------------------
  // Configuration and request classification
  // ---------------------------------------------------------------------------

  function LimitOf(s: Scope): (lim: Limit)
    ensures lim.requests >= 1 && lim.windowMs == WindowMs
  {
    match s
    case Api(e) =>
      assert e.General? || e.Upload? || e.Send?;
      RateLimits[e]
    case WhatsApp => WhatsAppLimit
  }

  /**
   * `getEndpointType`: `upload` when the path mentions `/upload` (checked
   * first), else `send` when it mentions `/send` or `/messages`, else
   * `general`. Every class is a key of the configuration table, so the
   * limiter's pass-through for an unconfigured class never happens.
   */
  function EndpointType(path: string): (e: Endpoint)
    ensures e in RateLimits
    ensures e == Upload <==> Occurs(path, "/upload")
    ensures e == Send <==> !Occurs(path, "/upload") && (Occurs(path, "/send") || Occurs(path, "/messages"))
    ensures e == General <==> !Occurs(path, "/upload") && !Occurs(path, "/send") && !Occurs(path, "/messages")
  {
    if Contains(path, "/upload") then Upload
    else if Contains(path, "/send") || Contains(path, "/messages") then Send
    else General
  }

  /** `req.ip || req.connection.remoteAddress || 'unknown'`. */
  function ClientIp(req: Request): (ip: string)
    ensures ip != []
    ensures req.ip.Some? && req.ip.value != [] ==> ip == req.ip.value
    ensures req.ip.GetOr([]) == [] && req.remoteAddress.Some? && req.remoteAddress.value != [] ==>
      ip == req.remoteAddress.value
    ensures req.ip.GetOr([]) == [] && req.remoteAddress.GetOr([]) == [] ==> ip == "unknown"
    ensures ip == "unknown" || ip == req.ip.GetOr([]) || ip == req.remoteAddress.GetOr([])
  {
    OrElse(req.ip.GetOr([]), OrElse(req.remoteAddress.GetOr([]), "unknown"))
  }

  // ---------------------------------------------------------------------------
  // Table keys
  // ---------------------------------------------------------------------------

  function ScopeName(s: Scope): string {
    match s
    case Api(General) => "general"
    case Api(Upload) => "upload"
    case Api(Send) => "send"
    case WhatsApp => "whatsapp"
  }

  /** `${clientIp}:${endpoint}` and `${clientIp}:whatsapp`. */
  function Key(ip: string, s: Scope): string {
    ip + ":" + ScopeName(s)
  }

  /** The client part of `k` if `k` ends in `":" + ScopeName(s)`. */
  function SplitKey(k: string, s: Scope): Option<string> {
    var n := ScopeName(s);
    if |k| > |n| && k[|k| - |n| - 1] == ':' && k[|k| - |n|..] == n then Some(k[..|k| - |n| - 1])
    else None
  }

  /** The client and scope a key was built from, if it was built by `Key`. */
  function ParseKey(k: string): Option<(string, Scope)> {
    match SplitKey(k, Api(General))
    case Some(ip) => Some((ip, Api(General)))
    case None =>
      match SplitKey(k, Api(Upload))
      case Some(ip) => Some((ip, Api(Upload)))
      case None =>
        match SplitKey(k, Api(Send))
        case Some(ip) => Some((ip, Api(Send)))
        case None =>
          match SplitKey(k, WhatsApp)
          case Some(ip) => Some((ip, WhatsApp))
          case None => None
  }

  lemma SplitOwnKey(ip: string, s: Scope)
    ensures SplitKey(Key(ip, s), s) == Some(ip)
  {
    var k, n := Key(ip, s), ScopeName(s);
    assert k[|k| - |n|..] == n;
    assert k[..|k| - |n| - 1] == ip;
  }

  /** Inside a colon-free suffix of `k` there is no colon. */
  lemma SuffixHasNoColon(k: string, n: string, j: int)
    requires |n| <= |k| && k[|k| - |n|..] == n
    requires forall i :: 0 <= i < |n| ==> n[i] != ':'
    requires |k| - |n| <= j < |k|
    ensures k[j] != ':'
  {
    assert k[j] == k[|k| - |n|..][j - (|k| - |n|)];
  }

  /**
   * A key never ends in another scope's suffix: scope names differ in
   * length and contain no colon, so the colon before the longer name would
   * fall inside the shorter one.
   */
  lemma SplitOtherKey(ip: string, s: Scope, t: Scope)
    requires s != t
    ensures SplitKey(Key(ip, s), t).None?
  {
    var k, n, m := Key(ip, s), ScopeName(s), ScopeName(t);
    assert |n| != |m|;
    assert forall i :: 0 <= i < |n| ==> n[i] != ':';
    assert forall i :: 0 <= i < |m| ==> m[i] != ':';
    assert k[|k| - |n|..] == n;
    if SplitKey(k, t).Some? {
      if |m| < |n| {
        SuffixHasNoColon(k, n, |k| - |m| - 1);
      } else {
        SuffixHasNoColon(k, m, |k| - |n| - 1);
      }
      assert false;
    }
  }

  /** Building a key and parsing it back recovers the client and the scope. */
  lemma KeyRoundTrip(ip: string, s: Scope)
    ensures ParseKey(Key(ip, s)) == Some((ip, s))
  {
    SplitOwnKey(ip, s);
    if s != Api(General) { SplitOtherKey(ip, s, Api(General)); }
    if s != Api(Upload) { SplitOtherKey(ip, s, Api(Upload)); }
    if s != Api(Send) { SplitOtherKey(ip, s, Api(Send)); }
  }

  /** A key that parses was built from what it parses to. */
  lemma ParseKeySound(k: string)
    requires ParseKey(k).Some?
    ensures Key(ParseKey(k).value.0, ParseKey(k).value.1) == k
  {
    var (ip, s) := ParseKey(k).value;
    var n := ScopeName(s);
    assert SplitKey(k, s) == Some(ip);
    assert k == k[..|k| - |n| - 1] + [k[|k| - |n| - 1]] + k[|k| - |n|..];
  }

  /** Two clients, or two scopes, never share a counter. */
  lemma KeyInjective(ip1: string, s1: Scope, ip2: string, s2: Scope)
    requires Key(ip1, s1) == Key(ip2, s2)
    ensures ip1 == ip2 && s1 == s2
  {
    KeyRoundTrip(ip1, s1);
    KeyRoundTrip(ip2, s2);
  }

  /** The budget of the scope a key counts for; 0 for a key no limiter builds. */
  function Cap(k: string): nat {
    match ParseKey(k)
    case Some((_, s)) => LimitOf(s).requests
    case None => 0
  }

  /** The table invariant: every entry has counted at least one and at most its budget of requests. */
  ghost predicate WellFormed(m: Store) {
    forall k :: k in m ==> 1 <= m[k].count <= Cap(k)
  }

  // ---------------------------------------------------------------------------
  // Header values
  // ---------------------------------------------------------------------------

  /** `Math.ceil(ms / 1000)`: the reset instant in whole seconds, rounded up. */
  function ResetSeconds(ms: int): (sec: int)
    ensures (sec - 1) * 1000 < ms <= sec * 1000
  {
    (ms + 999) / 1000
  }

  /** `setRateLimitHeaders`: the remaining count is clamped at 0 and the reset time given in seconds. */
  function HeaderValues(limit: int, remaining: int, resetTime: int): (h: RateHeaders)
    ensures h.limit == limit
    ensures h.remaining >= 0 && h.remaining >= remaining
    ensures remaining >= 0 ==> h.remaining == remaining
    ensures remaining < 0 ==> h.remaining == 0
    ensures (h.reset - 1) * 1000 < resetTime <= h.reset * 1000
  {
    RateHeaders(limit, if remaining < 0 then 0 else remaining, ResetSeconds(resetTime))
  }

  // ---------------------------------------------------------------------------
  // The window rule, on values
  // ---------------------------------------------------------------------------

  /** `cleanup(cutoff)`: the table without the entries whose window closed before `cutoff`. */
  function Sweep(m: Store, cutoff: int): (r: Store)
    ensures forall k :: k in r <==> k in m && m[k].resetTime >= cutoff
    ensures forall k :: k in r ==> r[k] == m[k]
    ensures WellFormed(m) ==> WellFormed(r)
  {
    map k | k in m && m[k].resetTime >= cutoff :: m[k]
  }

  /**
   * One request against `key` at `now`. It is admitted exactly when the key
   * has no live window or its window has room; an admitted request leaves
   * the key's entry equal to what it reports; a refused one changes nothing;
   * no other key is touched.
   */
  function Hit(m: Store, key: string, lim: Limit, now: int): (t: Tally)
    ensures t.outcome.Admitted? <==> key !in m || m[key].resetTime < now || m[key].count < lim.requests
    ensures t.outcome.Admitted? ==> t.store == m[key := RateLimitInfo(t.outcome.count, t.outcome.resetTime)]
    ensures t.outcome.Refused? ==> t.store == m && t.outcome.resetTime == m[key].resetTime
    ensures (key !in m || m[key].resetTime < now) ==> t.outcome == Admitted(1, now + lim.windowMs)
    ensures key in m && m[key].resetTime >= now && t.outcome.Admitted? ==>
      t.outcome == Admitted(m[key].count + 1, m[key].resetTime)
    ensures lim.requests >= 1 && t.outcome.Admitted? ==> t.outcome.count <= lim.requests
  {
    if key !in m || m[key].resetTime < now then
      var info := RateLimitInfo(1, now + lim.windowMs);
      Tally(m[key := info], Admitted(info.count, info.resetTime))
    else if m[key].count >= lim.requests then
      Tally(m, Refused(m[key].resetTime))
    else
      var info := m[key].(count := m[key].count + 1);
      Tally(m[key := info], Admitted(info.count, info.resetTime))
  }

  /** A request as a limiter serves it: optionally the cleanup pass first, then the window rule. */
  function Step(m: Store, key: string, lim: Limit, now: int, sweep: bool): Tally {
    Hit(if sweep then Sweep(m, now - lim.windowMs) else m, key, lim, now)
  }

  /** Counting keeps the table invariant, for any client and scope. */
  lemma HitPreservesWellFormed(m: Store, ip: string, s: Scope, now: int)
    requires WellFormed(m)
    ensures WellFormed(Hit(m, Key(ip, s), LimitOf(s), now).store)
  {
    KeyRoundTrip(ip, s);
  }

  /** Cleanup with the cutoff `now - windowMs` spares every entry whose window is still open at `now`. */
  lemma SweepSparesOpenWindows(m: Store, now: int, windowMs: nat, k: string)
    requires k in m && m[k].resetTime >= now
    ensures k in Sweep(m, now - windowMs) && Sweep(m, now - windowMs)[k] == m[k]
  {
  }

  /** The cleanup pass before a request never changes what happens to that request. */
  lemma SweepInvisible(m: Store, key: string, lim: Limit, now: int)
    ensures Step(m, key, lim, now, true).outcome == Step(m, key, lim, now, false).outcome
    ensures var a, b := Step(m, key, lim, now, true).store, Step(m, key, lim, now, false).store;
      key in a && key in b && a[key] == b[key]
  {
  }

  // ---------------------------------------------------------------------------
  // Decisions
  // ---------------------------------------------------------------------------

  /** The rejection text of the general limiter, `windowMs / 1000` being a whole number of seconds. */
  function LimitMessage(lim: Limit): string
    requires lim.windowMs % 1000 == 0
  {
    "Rate limit exceeded. Maximum " + DecimalString(lim.requests) + " requests per "
      + DecimalString(lim.windowMs / 1000) + " seconds."
  }

  /** The 429 error a limiter passes to `next`; `stack` is the trace the runtime records in `new Error`. */
  function RejectError(text: string, stack: string): (e: AppError)
    ensures e.statusCode == Some(429) && e.code == Some(CodeName(RateLimitExceeded)) && e.message == text
    ensures e.stack == Some(stack) && e.details.None?
  {
    CreateError(text, Some(429), Some(RateLimitExceeded), None, stack)
  }

  /** The general limiter's decision: headers always, and a 429 error when refused. */
  function ApiDecision(lim: Limit, o: Outcome, stack: string): (d: Decision)
    requires lim.windowMs % 1000 == 0
    ensures d.headers.Some? && d.headers.value.limit == lim.requests
    ensures d.Allow? <==> o.Admitted?
    ensures o.Admitted? ==> d.headers.value == HeaderValues(lim.requests, lim.requests - o.count, o.resetTime)
    ensures o.Refused? ==> d.headers.value == HeaderValues(lim.requests, 0, o.resetTime)
    ensures o.Refused? ==> d.headers.value.remaining == 0 && d.error == RejectError(LimitMessage(lim), stack)
  {
    match o
    case Admitted(c, reset) => Allow(Some(HeaderValues(lim.requests, lim.requests - c, reset)))
    case Refused(reset) => Reject(Some(HeaderValues(lim.requests, 0, reset)), RejectError(LimitMessage(lim), stack))
  }

  /** The WhatsApp limiter's decision: no headers, and a 429 error when refused. */
  function WhatsAppDecision(o: Outcome, stack: string): (d: Decision)
    ensures d.headers.None?
    ensures d.Allow? <==> o.Admitted?
    ensures o.Refused? ==> d.error == RejectError(WhatsAppRejectText, stack)
  {
    match o
    case Admitted(_, _) => Allow(None)
    case Refused(_) => Reject(None, RejectError(WhatsAppRejectText, stack))
  }

  /**
   * A refusal from either limiter reaches the client as status 429 with the
   * body message for `RATE_LIMIT_EXCEEDED` and the limiter's own text as `error`.
   */
  lemma RejectionResponse(lim: Limit, o: Outcome, stack: string, development: bool)
    requires lim.windowMs % 1000 == 0 && o.Refused?
    ensures var r := HandleError(ApiDecision(lim, o, stack).error, development);
      && r.status == 429
      && !r.body.success
      && r.body.message == "Rate limit exceeded"
      && r.body.error == LimitMessage(lim)
      && (r.body.stack.Some? <==> development)
      && (development ==> r.body.stack == Some(stack))
      && r.body.details.None?
    ensures var r := HandleError(WhatsAppDecision(o, stack).error, development);
      && r.status == 429
      && !r.body.success
      && r.body.message == "Rate limit exceeded"
      && r.body.error == WhatsAppRejectText
      && (r.body.stack.Some? <==> development)
      && (development ==> r.body.stack == Some(stack))
      && r.body.details.None?
  {
    CodeNameRoundTrip(RateLimitExceeded);
  }

  /** The general limiter's refusal text for each configured class. */
  lemma ApiRejectionText(e: Endpoint)
    ensures LimitMessage(LimitOf(Api(e))) == "Rate limit exceeded. Maximum "
      + (match e case General => "100" case Upload => "5" case Send => "30")
      + " requests per 60 seconds."
  {
    assert DecimalString(60) == "60";
    assert DecimalString(100) == "100";
    assert DecimalString(30) == "30";
  }

  /**
   * The general limiter on a request whose key has no open window: a new
   * window of one request is stored and the request passes with
   * `requests - 1` remaining.
   */
  lemma ApiOpensWindow(m: Store, ip: string, e: Endpoint, now: int)
    requires var k := Key(ip, Api(e));
      k !in m || m[k].resetTime < now
    ensures var lim, k := RateLimits[e], Key(ip, Api(e));
      var t := Step(m, k, lim, now, true);
      && t.store == Sweep(m, now - WindowMs)[k := RateLimitInfo(1, now + WindowMs)]
      && ApiDecision(lim, t.outcome, "") == Allow(Some(HeaderValues(lim.requests, lim.requests - 1, now + WindowMs)))
  {
  }

  /**
   * The general limiter on a request whose open window is full: the table
   * loses only what cleanup removes, and the client gets status 429 with
   * zero remaining.
   */
  lemma ApiRefusesFullWindow(m: Store, ip: string, e: Endpoint, now: int, stack: string, development: bool)
    requires var k := Key(ip, Api(e));
      k in m && m[k].resetTime >= now && m[k].count >= RateLimits[e].requests
    ensures var lim, k := RateLimits[e], Key(ip, Api(e));
      var t := Step(m, k, lim, now, true);
      var d := ApiDecision(lim, t.outcome, stack);
      && t.store == Sweep(m, now - WindowMs)
      && d.Reject?
      && d.headers == Some(HeaderValues(lim.requests, 0, m[k].resetTime))
      && HandleError(d.error, development).status == 429
      && HandleError(d.error, development).body.message == "Rate limit exceeded"
  {
    SweepSparesOpenWindows(m, now, WindowMs, Key(ip, Api(e)));
  }

  /**
   * The general limiter on a request whose open window has room: the count
   * goes up by one, the close time stays, and the remaining budget reported
   * is what is left after this request.
   */
  lemma ApiCountsInWindow(m: Store, ip: string, e: Endpoint, now: int)
    requires var k := Key(ip, Api(e));
      k in m && m[k].resetTime >= now && m[k].count < RateLimits[e].requests
    ensures var lim, k := RateLimits[e], Key(ip, Api(e));
      var t := Step(m, k, lim, now, true);
      && t.store == Sweep(m, now - WindowMs)[k := RateLimitInfo(m[k].count + 1, m[k].resetTime)]
      && ApiDecision(lim, t.outcome, "")
         == Allow(Some(HeaderValues(lim.requests, lim.requests - (m[k].count + 1), m[k].resetTime)))
  {
    SweepSparesOpenWindows(m, now, WindowMs, Key(ip, Api(e)));
  }

  // ---------------------------------------------------------------------------
  // Budgets over a run of requests
  // ---------------------------------------------------------------------------

  datatype Trace = Trace(store: Store, admitted: nat)

  /** Requests against one key at the instants `times`, in order; counts the admitted ones. */
  function Run(m: Store, key: string, lim: Limit, times: seq<int>, sweep: bool): Trace
    decreases |times|
  {
    if times == [] then Trace(m, 0)
    else
      var t := Step(m, key, lim, times[0], sweep);
      var rest := Run(t.store, key, lim, times[1..], sweep);
      Trace(rest.store, rest.admitted + if t.outcome.Admitted? then 1 else 0)
  }

  function Min(a: int, b: int): int { if a <= b then a else b }

  function Room(lim: Limit, count: int): nat { if lim.requests <= count then 0 else lim.requests - count }

  /**
   * While a key's window stays open, exactly its remaining room is admitted
   * (or every request, if fewer arrive); the window's close time does not move.
   */
  lemma {:induction false} LiveWindowBudget(m: Store, key: string, lim: Limit, times: seq<int>, sweep: bool)
    requires key in m
    requires forall i :: 0 <= i < |times| ==> times[i] <= m[key].resetTime
    ensures var r := Run(m, key, lim, times, sweep);
      && r.admitted == Min(|times|, Room(lim, m[key].count))
      && key in r.store
      && r.store[key] == RateLimitInfo(m[key].count + r.admitted, m[key].resetTime)
    decreases |times|
  {
    if times != [] {
      var now := times[0];
      var swept := if sweep then Sweep(m, now - lim.windowMs) else m;
      assert key in swept && swept[key] == m[key];
      var t := Step(m, key, lim, now, sweep);
      assert key in t.store;
      assert forall i :: 0 <= i < |times[1..]| ==> times[1..][i] <= t.store[key].resetTime by {
        forall i | 0 <= i < |times[1..]| ensures times[1..][i] <= t.store[key].resetTime {
          assert times[1..][i] == times[i + 1];
        }
      }
      LiveWindowBudget(t.store, key, lim, times[1..], sweep);
    }
  }

  /**
   * A request that finds no open window opens one; within that window (up to
   * `windowMs` later) at most `requests` requests in total are admitted:
   * exactly `requests` if at least that many arrive.
   */
  lemma FreshWindowBudget(m: Store, key: string, lim: Limit, first: int, later: seq<int>, sweep: bool)
    requires key !in m || m[key].resetTime < first
    requires lim.requests >= 1
    requires forall i :: 0 <= i < |later| ==> later[i] <= first + lim.windowMs
    ensures Run(m, key, lim, [first] + later, sweep).admitted == Min(1 + |later|, lim.requests)
  {
    var times := [first] + later;
    assert times[0] == first && times[1..] == later;
    var t := Step(m, key, lim, first, sweep);
    assert t.outcome == Admitted(1, first + lim.windowMs);
    LiveWindowBudget(t.store, key, lim, later, sweep);
  }

  // ---------------------------------------------------------------------------
  // The shared table and the two middlewares
  // ---------------------------------------------------------------------------

  /** The module-level `rateLimitStore` and the operations that update it in place. */
  class RateLimitStore {
    var store: Store

    ghost predicate Valid()
      reads this
    {
      WellFormed(store)
    }

    constructor ()
      ensures Valid() && store == map[]
    {
      store := map[];
    }

    /** `cleanup(cutoff)`: walks the entries and deletes each one whose window closed before `cutoff`. */
    method Cleanup(cutoff: int)
      requires Valid()
      modifies this
      ensures Valid()
      ensures store == Sweep(old(store), cutoff)
    {
      ghost var m := store;
      var pending := store.Keys;
      while pending != {}
        invariant pending <= m.Keys
        invariant store == map k | k in m && (k in pending || m[k].resetTime >= cutoff) :: m[k]
        decreases pending
      {
        var key :| key in pending;
        if store[key].resetTime < cutoff {
          store := store - {key};
        }
        pending := pending - {key};
      }
      assert store == Sweep(m, cutoff);
    }

    /** The open / count / refuse rule both middlewares apply to their key. */
    method Admit(key: string, lim: Limit, now: int) returns (o: Outcome)
      modifies this
      ensures Tally(store, o) == Hit(old(store), key, lim, now)
    {
      if key !in store || store[key].resetTime < now {
        store := store[key := RateLimitInfo(1, now + lim.windowMs)];
        o := Admitted(1, now + lim.windowMs);
      } else if store[key].count >= lim.requests {
        o := Refused(store[key].resetTime);
      } else {
        var current := store[key];
        current := current.(count := current.count + 1);
        store := store[key := current];
        o := Admitted(current.count, current.resetTime);
      }
    }

    /** `rateLimiter`: classify the path, clean up, then apply the window rule to `"<ip>:<class>"`. */
    method Handle(req: Request, now: int, stack: string) returns (d: Decision)
      requires Valid()
      modifies this
      ensures Valid()
      ensures var e := EndpointType(req.path);
        var t := Step(old(store), Key(ClientIp(req), Api(e)), RateLimits[e], now, true);
        store == t.store && d == ApiDecision(RateLimits[e], t.outcome, stack)
    {
      var clientIp := ClientIp(req);
      var endpoint := EndpointType(req.path);
      var limit := RateLimits[endpoint];
      var key := Key(clientIp, Api(endpoint));
      Cleanup(now - limit.windowMs);
      ghost var swept := store;
      var outcome := Admit(key, limit, now);
      HitPreservesWellFormed(swept, clientIp, Api(endpoint), now);
      d := ApiDecision(limit, outcome, stack);
    }

    /** `whatsappRateLimiter`: the window rule on `"<ip>:whatsapp"`, 30 per minute, with no cleanup and no headers. */
    method HandleWhatsApp(req: Request, now: int, stack: string) returns (d: Decision)
      requires Valid()
      modifies this
      ensures Valid()
      ensures var t := Step(old(store), Key(ClientIp(req), WhatsApp), WhatsAppLimit, now, false);
        store == t.store && d == WhatsAppDecision(t.outcome, stack)
    {
      var clientIp := ClientIp(req);
      var key := Key(clientIp, WhatsApp);
      ghost var before := store;
      var outcome := Admit(key, WhatsAppLimit, now);
      HitPreservesWellFormed(before, clientIp, WhatsApp, now);
      d := WhatsAppDecision(outcome, stack);
    }
  }
}
