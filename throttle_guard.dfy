/**
 * The throttling guard in front of login, forgot-password and
 * reset-password: which identity a request is counted under, the fixed list
 * of refused IP addresses, and the decision that either refuses a listed IP
 * outright or hands the request to the base throttler.
 *
 * The base throttler's request counting is not modelled; its decision is
 * the parameter `baseDecision`.
 */
module ThrottleGuard {
  import opened Wrappers

  /** `user.id` on a request, typed `string | number`. */
  datatype UserId = NumericId(n: int) | TextId(s: string)

  /** `request.user`, present once an authentication guard has run. */
  datatype RequestUser = RequestUser(id: Option<UserId>)

  /** The parts of an HTTP request the guard reads; `ip` may be missing. */
  datatype Request = Request(ip: Option<string>, user: Option<RequestUser>)

  const UNKNOWN_TRACKER := "unknown"
  const BLACKLISTED_IPS := ["192.168.1.100", "10.0.0.50"]
  const TOO_MANY_REQUESTS := 429
  const BLACKLISTED_MESSAGE := "Too many requests from this IP"

  /** JavaScript truthiness of a possibly-undefined string: defined and non-empty. */
  predicate Truthy(s: Option<string>)
  {
    s.Some? && s.value != ""
  }

  /** `a || b` on possibly-undefined strings. */
  function Or(a: Option<string>, b: Option<string>): Option<string>
  {
    if Truthy(a) then a else b
  }

  predicate IsDigits(s: string)
  {
    forall i :: 0 <= i < |s| ==> '0' <= s[i] <= '9'
  }

  /** The number a string of decimal digits spells, most significant digit first. */
  function DecimalValue(s: string): nat
    requires IsDigits(s)
  {
    if s == [] then 0
    else DecimalValue(s[..|s| - 1]) * 10 + (s[|s| - 1] as int - '0' as int)
  }

  /** `n.toString()` for a non-negative integer: its decimal digits, without leading zeros. */
  function NatToDecimal(n: nat): (s: string)
    ensures |s| >= 1
    ensures IsDigits(s)
    ensures s[0] == '0' ==> n == 0
    ensures s[0] == '0' ==> s == "0"
    decreases n
  {
    if n < 10 then [('0' as int + n) as char]
    else NatToDecimal(n / 10) + [('0' as int + n % 10) as char]
  }

  /** The decimal rendering spells the number it renders. */
  lemma {:induction false} NatToDecimalValue(n: nat)
    ensures DecimalValue(NatToDecimal(n)) == n
  {
    if n >= 10 {
      NatToDecimalValue(n / 10);
      var s := NatToDecimal(n);
      assert s[..|s| - 1] == NatToDecimal(n / 10);
    }
  }

  /** `n.toString()` for an integer: a minus sign before the digits of a negative one. */
  function IntToDecimal(n: int): (s: string)
    ensures |s| >= 1
    ensures n >= 0 ==> IsDigits(s) && DecimalValue(s) == n && (s[0] == '0' ==> n == 0 && s == "0")
    ensures n < 0 ==> |s| >= 2 && s[0] == '-' && s[1] != '0' && IsDigits(s[1..]) && DecimalValue(s[1..]) == -n
  {
    if n < 0 then
      NatToDecimalValue(-n);
      assert ("-" + NatToDecimal(-n))[1..] == NatToDecimal(-n);
      "-" + NatToDecimal(-n)
    else
      NatToDecimalValue(n);
      NatToDecimal(n)
  }

  /** Two different numeric ids never render to the same text. */
  lemma IntToDecimalInjective(a: int, b: int)
    requires IntToDecimal(a) == IntToDecimal(b)
    ensures a == b
  {
  }

  /**
   * `req.user?.id?.toString()`: undefined when the user or its id is
   * missing; a numeric id gives its decimal text, a text id itself.
   */
  function UserIdText(req: Request): (text: Option<string>)
    ensures text.Some? <==> req.user.Some? && req.user.value.id.Some?
    ensures text.Some? && req.user.value.id.value.TextId? ==> text.value == req.user.value.id.value.s
    ensures text.Some? && req.user.value.id.value.NumericId? ==>
      var n := req.user.value.id.value.n;
      && text.value == IntToDecimal(n)
      && text.value != ""
      && (n >= 0 ==> IsDigits(text.value) && DecimalValue(text.value) == n)
      && (n < 0 ==> text.value[0] == '-' && IsDigits(text.value[1..]) && DecimalValue(text.value[1..]) == -n)
  {
    match req.user
    case None => None
    case Some(u) =>
      match u.id
      case None => None
      case Some(NumericId(n)) => Some(IntToDecimal(n))
      case Some(TextId(s)) => Some(s)
  }

  /** `getTracker`: `req.ip || req.user?.id?.toString() || 'unknown'`. */
  function GetTracker(req: Request): (tracker: string)
    ensures tracker != ""
    ensures req.ip.Some? && req.ip.value != "" ==> tracker == req.ip.value
    ensures (req.ip.None? || req.ip.value == "") && req.user.Some? && req.user.value.id.Some? ==>
      match req.user.value.id.value
      case NumericId(n) => tracker == IntToDecimal(n)
      case TextId(s) => tracker == if s != "" then s else UNKNOWN_TRACKER
    ensures (req.ip.None? || req.ip.value == "") && (req.user.None? || req.user.value.id.None?) ==>
      tracker == UNKNOWN_TRACKER
  {
    Or(Or(req.ip, UserIdText(req)), Some(UNKNOWN_TRACKER)).value
  }

  /** `isBlacklisted`: membership in the fixed list; a missing IP is not listed. */
  function IsBlacklisted(ip: Option<string>): (listed: bool)
    ensures listed <==> ip == Some("192.168.1.100") || ip == Some("10.0.0.50")
  {
    ip.Some? && ip.value in BLACKLISTED_IPS
  }

  /** The JSON body of the 429 response written for a listed IP. */
  datatype RejectionBody = RejectionBody(message: string, retryAfter: int, limit: int)

  datatype HttpResponse = HttpResponse(status: int, body: RejectionBody)

  /** Whether the request may proceed, and the response the guard wrote itself, if any. */
  datatype GuardOutcome = GuardOutcome(allowed: bool, response: Option<HttpResponse>)

  /**
   * `handleRequest`: a listed IP is refused with a 429 carrying the route's
   * `ttl` and `limit`; any other request gets the base throttler's decision.
   */
  function HandleRequest(req: Request, limit: int, ttl: int, baseDecision: bool): (outcome: GuardOutcome)
    ensures IsBlacklisted(req.ip) ==>
      outcome == GuardOutcome(false, Some(HttpResponse(TOO_MANY_REQUESTS, RejectionBody(BLACKLISTED_MESSAGE, ttl, limit))))
    ensures !IsBlacklisted(req.ip) ==> outcome == GuardOutcome(baseDecision, None)
  {
    if IsBlacklisted(req.ip) then
      GuardOutcome(false, Some(HttpResponse(TOO_MANY_REQUESTS, RejectionBody(BLACKLISTED_MESSAGE, ttl, limit))))
    else
      GuardOutcome(baseDecision, None)
  }

  /** A listed IP is refused whatever the base throttler would have decided. */
  lemma BlacklistIgnoresBaseThrottler(req: Request, limit: int, ttl: int, a: bool, b: bool)
    requires IsBlacklisted(req.ip)
    ensures HandleRequest(req, limit, ttl, a) == HandleRequest(req, limit, ttl, b)
    ensures !HandleRequest(req, limit, ttl, a).allowed
  {
  }

  /**
   * The list is checked against the raw `request.ip`, not the tracker: a
   * request without a usable IP is never refused by the list, even when its
   * tracker (a user id) spells a listed address.
   */
  lemma BlacklistUsesRawIp(req: Request, limit: int, ttl: int, baseDecision: bool)
    requires !Truthy(req.ip)
    ensures HandleRequest(req, limit, ttl, baseDecision) == GuardOutcome(baseDecision, None)
  {
  }

  lemma ListedTrackerWithoutIpIsDelegated()
    ensures var req := Request(None, Some(RequestUser(Some(TextId("10.0.0.50")))));
      && IsBlacklisted(Some(GetTracker(req)))
      && HandleRequest(req, 5, 60, true).allowed
  {
  }

  /** The routes of the authentication controller. */
  datatype Route = Register | Login | Refresh | ForgotPassword | ResetPassword | Logout | RevokeAll

  /** The `limit` and `ttl` a route's `@Throttle` decorator passes to the guard. */
  datatype ThrottleLimit = ThrottleLimit(limit: nat, ttl: nat)

  /**
   * The throttled routes and their limits: login and the two password-reset
   * routes, each with a ttl of 60, the reset-link request most
   * tightly. The other routes have no throttling guard.
   */
  function ThrottleFor(route: Route): (t: Option<ThrottleLimit>)
    ensures t.Some? <==> route == Login || route == ForgotPassword || route == ResetPassword
    ensures route == Login || route == ResetPassword ==> t == Some(ThrottleLimit(5, 60))
    ensures route == ForgotPassword ==> t == Some(ThrottleLimit(3, 60))
  {
    match route
    case Login => Some(ThrottleLimit(5, 60))
    case ForgotPassword => Some(ThrottleLimit(3, 60))
    case ResetPassword => Some(ThrottleLimit(5, 60))
    case _ => None
  }

  /**
   * A listed IP on a throttled route gets the 429 with that route's limit
   * and ttl; any other request on a throttled route gets the base
   * throttler's decision; an unthrottled route never runs the guard.
   */
  function GuardRoute(route: Route, req: Request, baseDecision: bool): (outcome: GuardOutcome)
    ensures ThrottleFor(route).None? ==> outcome == GuardOutcome(true, None)
    ensures ThrottleFor(route).Some? && IsBlacklisted(req.ip) ==>
      !outcome.allowed
    ensures ThrottleFor(route).Some? && IsBlacklisted(req.ip) ==>
      outcome.response == Some(HttpResponse(TOO_MANY_REQUESTS,
                                            RejectionBody(BLACKLISTED_MESSAGE, ThrottleFor(route).value.ttl,
                                                          ThrottleFor(route).value.limit)))
    ensures ThrottleFor(route).Some? && !IsBlacklisted(req.ip) ==> outcome == GuardOutcome(baseDecision, None)
  {
    match ThrottleFor(route)
    case None => GuardOutcome(true, None)
    case Some(t) => HandleRequest(req, t.limit, t.ttl, baseDecision)
  }
}
