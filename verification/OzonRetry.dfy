/**
  The deadline-bounded retry loop of the Ozon client: `post_within_deadline` and the
  plan functions in src/ozon.rs, the retry decision of one attempt in
  src/ozon/attempt.rs, and the backoff policy in src/retry.rs. What the network does
  on each attempt is arbitrary.
 */
module OzonRetry {
  import opened Common

  /** Milliseconds. */
  type Duration = nat

  const MAX_ATTEMPTS: nat := 3
  const BASE_RETRY_DELAY: Duration := 100
  const MAX_RETRY_DELAY: Duration := 5_000
  const ANALYTICS_QUEUED_RETRY_BUDGET: Duration := 600_000

  datatype Kind =
    | Unauthorized | Forbidden | NotFound | RateLimited | Server | Http
    | Timeout | Network | Overloaded | InvalidJson | ResponseTooLarge

  /** `detail` stands for the rest of the diagnostic: status, body and source. */
  datatype OzonError =
    | DeadlineExceeded
    | Failed(kind: Kind, requestId: Option<string>, detail: string)

  function KindOf(e: OzonError): (k: Kind)
  {
    if e.DeadlineExceeded? then Timeout else e.kind
  }

  predicate HasRequestId(e: OzonError)
  {
    e.Failed? && e.requestId.Some?
  }

  datatype Path = AnalyticsData | SearchPath | OtherPath
  datatype Mode = FailFast | Queue
  datatype RetryAfter = Absent | Valid(delay: Duration) | Invalid

  // ----- src/retry.rs -----

  predicate AllowsAttempt(attempt: nat)
  {
    attempt < MAX_ATTEMPTS
  }

  function Pow2(n: nat): (p: nat)
    ensures p > 0
  {
    if n == 0 then 1 else 2 * Pow2(n - 1)
  }

  function Min(a: nat, b: nat): (m: nat)
  {
    if a < b then a else b
  }

  function Delay(attempt: nat, serverDelay: Option<Duration>): (d: Duration)
    ensures serverDelay.None? ==> d <= MAX_RETRY_DELAY
    ensures serverDelay.Some? ==> d == serverDelay.value
  {
    if serverDelay.Some? then serverDelay.value
    else Min(BASE_RETRY_DELAY * Pow2(Min(if attempt == 0 then 0 else attempt - 1, 8)), MAX_RETRY_DELAY)
  }

  // ----- The plan functions of src/ozon.rs -----

  const TOO_MANY_REQUESTS: nat := 429

  predicate IsRetriable(status: nat)
  {
    status == TOO_MANY_REQUESTS || status == 502 || status == 503 || status == 504
  }

  predicate IsRetriableTransport(k: Kind)
  {
    k == Timeout || k == Network
  }

  function RetryPlan(path: Path, status: nat, attempt: nat, retryAfter: RetryAfter): (plan: Option<Duration>)
  {
    if path == AnalyticsData && status == TOO_MANY_REQUESTS then None
    else if !IsRetriable(status) || !AllowsAttempt(attempt) then None
    else match retryAfter
      case Absent => Some(Delay(attempt, None))
      case Valid(delay) => if delay <= MAX_RETRY_DELAY then Some(Delay(attempt, Some(delay))) else None
      case Invalid => None
  }

  function AnalyticsQueuedRetryPlan(path: Path, status: nat, mode: Mode, attempt: nat, retryAfter: Option<Duration>): (plan: Option<Duration>)
  {
    if path != AnalyticsData || status != TOO_MANY_REQUESTS || mode != Queue || !AllowsAttempt(attempt) then None
    else if retryAfter.Some? && retryAfter.value <= ANALYTICS_QUEUED_RETRY_BUDGET then retryAfter
    else None
  }

  function SharedRetryCooldown(status: nat, retryAfter: RetryAfter): (delay: Option<Duration>)
  {
    if retryAfter.Valid? && IsRetriable(status) && retryAfter.delay <= MAX_RETRY_DELAY then Some(retryAfter.delay) else None
  }

  // ----- One attempt -----

  datatype Body = Decoded(value: string) | Broken(error: OzonError)

  /** What one attempt meets, from admission to the last body byte. */
  datatype Reply =
    | NotAdmitted(error: OzonError)
    | NoResponse(kind: Kind, detail: string)
    | Answered(status: nat, requestId: Option<string>, retryAfter: RetryAfter, localCooldown: Option<Duration>,
               quotaFailure: Option<OzonError>, body: Body, detail: string)

  datatype Attempt = Success(value: string) | Failure(error: OzonError, retryDelay: Option<Duration>)

  function ClassifyHttpError(status: nat, requestId: Option<string>, detail: string): (e: OzonError)
  {
    var kind :=
      if status == 401 then Unauthorized else if status == 403 then Forbidden else if status == 404 then NotFound
      else if status == TOO_MANY_REQUESTS then RateLimited
      else if 500 <= status < 600 then Server else Http;
    Failed(kind, requestId, detail)
  }

  function Later(a: Option<Duration>, b: Option<Duration>): (d: Option<Duration>)
  {
    if a.None? then b else if b.None? then a else if a.value < b.value then b else a
  }

  function SendAttempt(path: Path, mode: Mode, attempt: nat, reply: Reply): (outcome: Attempt)
  {
    var canRetry := AllowsAttempt(attempt) && path != SearchPath;
    match reply
    case NotAdmitted(error) => Failure(error, None)
    case NoResponse(kind, detail) =>
      var error := Failed(kind, None, detail);
      Failure(error, if IsRetriableTransport(kind) && canRetry then Some(Delay(attempt, None)) else None)
    case Answered(status, requestId, retryAfter, localCooldown, quotaFailure, body, detail) =>
      if quotaFailure.Some? then Failure(quotaFailure.value, None)
      else
        var vendor := if retryAfter.Valid? then Some(retryAfter.delay) else None;
        var queued := AnalyticsQueuedRetryPlan(path, status, mode, attempt, Later(localCooldown, vendor));
        var planned := if !canRetry then None else if queued.Some? then queued else RetryPlan(path, status, attempt, retryAfter);
        if planned.Some? then Failure(ClassifyHttpError(status, requestId, detail), planned)
        else if !(200 <= status < 300) then Failure(ClassifyHttpError(status, requestId, detail), None)
        else match body
          case Decoded(value) => Success(value)
          case Broken(error) =>
            Failure(error, if IsRetriableTransport(KindOf(error)) && canRetry then Some(Delay(attempt, None)) else None)
  }

  /** The kinds of the statuses outside 200..299, one by one. */
  predicate KindFits(status: nat, kind: Kind)
  {
    && (kind == Unauthorized <==> status == 401) && (kind == Forbidden <==> status == 403) && (kind == NotFound <==> status == 404)
    && (kind == RateLimited <==> status == 429) && (kind == Server <==> 500 <= status <= 599)
    && (kind == Http <==> status !in {401, 403, 404, 429} && !(500 <= status <= 599))
  }

  /** An attempt succeeds exactly on a complete 2xx reply, with the value of its body. */
  lemma SucceedsExactlyOnDecoded2xx(path: Path, mode: Mode, attempt: nat, reply: Reply, value: string)
    ensures SendAttempt(path, mode, attempt, reply) == Success(value) <==>
            reply.Answered? && reply.quotaFailure.None? && 200 <= reply.status <= 299 && reply.body == Decoded(value)
  {
  }

  /** Every failure carries the error of what went wrong, and an error reply its own request-id and kind. */
  lemma FailsWithOwnError(path: Path, mode: Mode, attempt: nat, reply: Reply)
    requires SendAttempt(path, mode, attempt, reply).Failure?
    ensures var error := SendAttempt(path, mode, attempt, reply).error;
            match reply
            case NotAdmitted(e) => error == e
            case NoResponse(kind, detail) => error == Failed(kind, None, detail)
            case Answered(status, requestId, _, _, quotaFailure, body, detail) =>
              if quotaFailure.Some? then error == quotaFailure.value
              else if 200 <= status <= 299 then body == Broken(error)
              else error.Failed? && error.requestId == requestId && error.detail == detail && KindFits(status, error.kind)
  {
  }

  /** The backoff without a vendor delay, in milliseconds. */
  predicate IsBackoff(attempt: nat, delay: Duration)
  {
    (attempt <= 1 && delay == 100) || (attempt == 2 && delay == 200)
  }

  lemma BackoffInNumbers(attempt: nat)
    requires attempt < 3
    ensures IsBackoff(attempt, Delay(attempt, None))
  {
    assert Pow2(0) == 1 && Pow2(1) == 2 * Pow2(0);
  }

  predicate LostOnTheWay(reply: Reply)
  {
    || (reply.NoResponse? && (reply.kind == Timeout || reply.kind == Network))
    || (reply.Answered? && reply.quotaFailure.None? && 200 <= reply.status <= 299 && reply.body.Broken? &&
        (KindOf(reply.body.error) == Timeout || KindOf(reply.body.error) == Network))
  }

  /** Gateway trouble or a 429, the analytics one apart, with a header that is absent or asks for at most 5 s. */
  predicate Busy(path: Path, reply: Reply)
  {
    && reply.Answered? && reply.quotaFailure.None? && reply.status in {429, 502, 503, 504}
    && !(path == AnalyticsData && reply.status == 429)
    && (reply.retryAfter.Absent? || (reply.retryAfter.Valid? && reply.retryAfter.delay <= 5_000))
  }

  /** The analytics 429 of a queueing caller, with a delay enforced locally or by the vendor, the later within 600 s. */
  predicate Queued(path: Path, mode: Mode, reply: Reply, delay: Duration)
  {
    && reply.Answered? && reply.quotaFailure.None? && path == AnalyticsData && reply.status == 429 && mode == Queue && delay <= 600_000
    && (reply.localCooldown == Some(delay) || (reply.retryAfter.Valid? && reply.retryAfter.delay == delay))
    && (reply.localCooldown.Some? ==> reply.localCooldown.value <= delay)
    && (reply.retryAfter.Valid? ==> reply.retryAfter.delay <= delay)
  }

  /**
    When and how long an attempt plans to sleep, for every reply: only the first two attempts, never on
    the search path; 100 and then 200 ms after a transport failure or a busy reply without a vendor
    delay; the vendor's delay after a busy reply with one; the later of the two delays for a queued
    analytics 429.
   */
  lemma SleepsExactlyWhenPlanned(path: Path, mode: Mode, attempt: nat, reply: Reply, delay: Duration)
    requires SendAttempt(path, mode, attempt, reply).Failure?
    ensures SendAttempt(path, mode, attempt, reply).retryDelay == Some(delay) <==>
            attempt < 3 && path != SearchPath &&
            (|| (LostOnTheWay(reply) && IsBackoff(attempt, delay))
             || (Busy(path, reply) && if reply.retryAfter.Valid? then delay == reply.retryAfter.delay else IsBackoff(attempt, delay))
             || Queued(path, mode, reply, delay))
  {
    if attempt < 3 { BackoffInNumbers(attempt); }
    if reply.Answered? {
      var vendor := if reply.retryAfter.Valid? then Some(reply.retryAfter.delay) else None;
      LaterIsTheMaximum(reply.localCooldown, vendor);
    }
  }

  lemma LaterIsTheMaximum(a: Option<Duration>, b: Option<Duration>)
    ensures Later(a, b).None? <==> a.None? && b.None?
    ensures Later(a, b).Some? ==> Later(a, b) == a || Later(a, b) == b
    ensures a.Some? ==> a.value <= Later(a, b).value
    ensures b.Some? ==> b.value <= Later(a, b).value
  {
  }

  /**
    The delay an attempt installs in the general gate of its Client-Id before it returns its permits.
    A quota failure ends the attempt first, and the analytics path has a gate of its own.
   */
  function InstalledCooldown(path: Path, reply: Reply): (delay: Option<Duration>)
  {
    if !reply.Answered? || reply.quotaFailure.Some? || path == AnalyticsData then None
    else SharedRetryCooldown(reply.status, reply.retryAfter)
  }

  /** The vendor asks for a delay on a status that may be retried, and not on the analytics 429, which has its own plan. */
  predicate VendorDelays(path: Path, reply: Reply)
  {
    && reply.Answered? && reply.retryAfter.Valid? && IsRetriable(reply.status)
    && !(path == AnalyticsData && reply.status == TOO_MANY_REQUESTS)
  }

  /** When a vendor delay is slept: exactly with an attempt left, off the search path, within the limit and without a quota failure. */
  predicate SleepsVendorDelay(path: Path, attempt: nat, reply: Reply)
    requires VendorDelays(path, reply)
  {
    && AllowsAttempt(attempt) && path != SearchPath
    && reply.retryAfter.delay <= 5_000 && reply.quotaFailure.None?
  }

  /**
    What an attempt does with a vendor delay, for every reply. It is slept exactly under
    `SleepsVendorDelay`, and verbatim. Slept and installed go together exactly off the analytics path;
    installed and slept go together exactly with an attempt left, off the search path.
   */
  lemma VendorDelayIsShared(path: Path, mode: Mode, attempt: nat, reply: Reply)
    requires VendorDelays(path, reply)
    ensures var outcome, installed := SendAttempt(path, mode, attempt, reply), InstalledCooldown(path, reply);
            && outcome.Failure?
            && (outcome.retryDelay.Some? <==> SleepsVendorDelay(path, attempt, reply))
            && (outcome.retryDelay.Some? ==> outcome.retryDelay.value == reply.retryAfter.delay)
            && (installed.Some? <==>
                  path != AnalyticsData && reply.retryAfter.delay <= 5_000 && reply.quotaFailure.None?)
            && (outcome.retryDelay.Some? ==> (installed == outcome.retryDelay <==> path != AnalyticsData))
            && (installed.Some? ==> (outcome.retryDelay == installed <==> AllowsAttempt(attempt) && path != SearchPath))
  {
    var outcome := SendAttempt(path, mode, attempt, reply);
    assert AnalyticsQueuedRetryPlan(path, reply.status, mode, attempt, Later(reply.localCooldown, Some(reply.retryAfter.delay))) == None;
    assert !(200 <= reply.status < 300);
    if AllowsAttempt(attempt) && path != SearchPath && reply.quotaFailure.None? {
      assert outcome.retryDelay == RetryPlan(path, reply.status, attempt, reply.retryAfter);
    }
  }

  /** Nothing is installed that the vendor did not ask for: every installed delay is one of those above. */
  lemma OnlyVendorDelaysAreInstalled(path: Path, reply: Reply)
    ensures InstalledCooldown(path, reply).Some? ==> VendorDelays(path, reply) && InstalledCooldown(path, reply).value == reply.retryAfter.delay
  {
  }

  /** On the analytics path a 503 with `Retry-After: 2` is slept by its caller, and siblings are not held back. */
  lemma AnalyticsDelayIsNotShared(mode: Mode, requestId: Option<string>, body: Body, detail: string)
    ensures var reply := Answered(503, requestId, Valid(2_000), None, None, body, detail);
            SendAttempt(AnalyticsData, mode, 1, reply).retryDelay == Some(2_000) && InstalledCooldown(AnalyticsData, reply) == None
  {
    VendorDelayIsShared(AnalyticsData, mode, 1, Answered(503, requestId, Valid(2_000), None, None, body, detail));
  }

  /** On the search path a 429 with `Retry-After: 2` holds every sibling back, and its caller does not retry. */
  lemma SearchDelayIsNotSlept(mode: Mode, requestId: Option<string>, body: Body, detail: string)
    ensures var reply := Answered(TOO_MANY_REQUESTS, requestId, Valid(2_000), None, None, body, detail);
            SendAttempt(SearchPath, mode, 1, reply).retryDelay == None && InstalledCooldown(SearchPath, reply) == Some(2_000)
  {
    VendorDelayIsShared(SearchPath, mode, 1, Answered(TOO_MANY_REQUESTS, requestId, Valid(2_000), None, None, body, detail));
  }

  /** The longest sleep a call may plan before a retry. */
  function SleepBudget(path: Path, mode: Mode): (d: Duration)
  {
    if path == AnalyticsData && mode == Queue then ANALYTICS_QUEUED_RETRY_BUDGET else MAX_RETRY_DELAY
  }

  /** A retry is planned only below the attempt limit, and never sleeps longer than its budget. */
  lemma PlansStayInBudget(path: Path, mode: Mode, attempt: nat, reply: Reply)
    requires SendAttempt(path, mode, attempt, reply).Failure? && SendAttempt(path, mode, attempt, reply).retryDelay.Some?
    ensures attempt < MAX_ATTEMPTS && path != SearchPath
    ensures var delay := SendAttempt(path, mode, attempt, reply).retryDelay.value;
            delay <= SleepBudget(path, mode)
  {
  }

  // ----- The loop -----

  /** The environment of one call: replies, and which attempts and sleeps run into the deadline. */
  datatype Script = Script(path: Path, mode: Mode, reply: nat -> Reply, attemptExpires: nat -> bool, sleepExpires: nat -> bool)

  function Outcome(s: Script, attempt: nat): (a: Attempt)
  {
    SendAttempt(s.path, s.mode, attempt, s.reply(attempt))
  }

  /** This attempt failed in time with this error and a planned retry. */
  ghost predicate PlannedAt(s: Script, attempt: nat, error: OzonError)
  {
    && !s.attemptExpires(attempt)
    && Outcome(s, attempt).Failure? && Outcome(s, attempt).retryDelay.Some? && Outcome(s, attempt).error == error
  }

  ghost predicate SleepsWithinBudget(s: Script, attempt: nat, error: OzonError)
  {
    PlannedAt(s, attempt, error) && Outcome(s, attempt).retryDelay.value <= SleepBudget(s.path, s.mode)
  }

  /** Attempts 1..|planned| failed with these errors and a planned retry, and all but the last sleep finished. */
  ghost predicate Planned(s: Script, planned: seq<OzonError>)
  {
    forall i :: 0 <= i < |planned| ==>
      PlannedAt(s, i + 1, planned[i]) && (i + 1 < |planned| ==> !s.sleepExpires(i + 1))
  }

  /** The diagnostic to preserve: the last planned error with a request-id, or the first error when none has one. */
  ghost predicate IsDiagnostic(planned: seq<OzonError>, e: OzonError)
  {
    exists k :: 0 <= k < |planned| && planned[k] == e &&
      if HasRequestId(e) then forall j :: k < j < |planned| ==> !HasRequestId(planned[j])
      else k == 0 && forall j :: 0 <= j < |planned| ==> !HasRequestId(planned[j])
  }

  /** The diagnostic is unique, so the loop has no freedom in what it returns. */
  lemma DiagnosticIsUnique(planned: seq<OzonError>, d: OzonError, e: OzonError)
    requires IsDiagnostic(planned, d) && IsDiagnostic(planned, e)
    ensures d == e
  {
    var i :| 0 <= i < |planned| && planned[i] == d &&
      if HasRequestId(d) then forall j :: i < j < |planned| ==> !HasRequestId(planned[j])
      else i == 0 && forall j :: 0 <= j < |planned| ==> !HasRequestId(planned[j]);
    var k :| 0 <= k < |planned| && planned[k] == e &&
      if HasRequestId(e) then forall j :: k < j < |planned| ==> !HasRequestId(planned[j])
      else k == 0 && forall j :: 0 <= j < |planned| ==> !HasRequestId(planned[j]);
    assert HasRequestId(planned[i]) == HasRequestId(planned[k]);
  }

  /** A terminal failure that yields to an earlier upstream diagnostic. */
  predicate YieldsToDiagnostic(e: OzonError)
  {
    KindOf(e) == Overloaded || IsRetriableTransport(KindOf(e))
  }

  /** How a call may end after `attempts` attempts, of which the first |planned| had a retry planned. */
  ghost predicate Explains(s: Script, attempts: nat, planned: seq<OzonError>, r: Result<string, OzonError>)
  {
    && Planned(s, planned)
    && if attempts == |planned| then
         // The deadline cut the sleep that follows the last planned error.
         0 < attempts && s.sleepExpires(attempts) && r.Err? && IsDiagnostic(planned, r.error)
       else
         && attempts == |planned| + 1
         && (planned != [] ==> !s.sleepExpires(|planned|))
         && if s.attemptExpires(attempts) then
              r.Err? && if planned == [] then r.error == DeadlineExceeded else IsDiagnostic(planned, r.error)
            else match Outcome(s, attempts)
              case Success(value) => r == Ok(value)
              case Failure(error, delay) =>
                delay.None? && r.Err? &&
                if YieldsToDiagnostic(error) && planned != [] then IsDiagnostic(planned, r.error) else r.error == error
  }

  lemma DiagnosticExtends(planned: seq<OzonError>, kept: OzonError, e: OzonError)
    requires IsDiagnostic(planned, kept)
    ensures IsDiagnostic(planned + [e], if HasRequestId(e) then e else kept)
  {
    var all := planned + [e];
    if HasRequestId(e) {
      assert all[|planned|] == e;
    } else {
      var k :| 0 <= k < |planned| && planned[k] == kept &&
        if HasRequestId(kept) then forall j :: k < j < |planned| ==> !HasRequestId(planned[j])
        else k == 0 && forall j :: 0 <= j < |planned| ==> !HasRequestId(planned[j]);
      assert all[k] == kept;
    }
  }

  /** One planned error more, and what becomes of the diagnostic to preserve. */
  lemma PlanGrows(s: Script, planned: seq<OzonError>, previous: Option<OzonError>, error: OzonError)
    requires Planned(s, planned) && PlannedAt(s, |planned| + 1, error) && (planned != [] ==> !s.sleepExpires(|planned|))
    requires (previous.Some? <==> planned != []) && (previous.Some? ==> IsDiagnostic(planned, previous.value))
    ensures Planned(s, planned + [error]) && SleepsWithinBudget(s, |planned| + 1, error)
    ensures s.path != SearchPath && |planned| + 1 < MAX_ATTEMPTS
    ensures IsDiagnostic(planned + [error], if previous.None? || HasRequestId(error) then error else previous.value)
  {
    PlansStayInBudget(s.path, s.mode, |planned| + 1, s.reply(|planned| + 1));
    if planned == [] {
      assert (planned + [error])[0] == error;
    } else {
      DiagnosticExtends(planned, previous.value, error);
    }
  }

  method PostWithinDeadline(s: Script) returns (r: Result<string, OzonError>, attempts: nat, ghost planned: seq<OzonError>)
    ensures 1 <= attempts <= 3 && (s.path == SearchPath ==> attempts == 1)
    ensures Explains(s, attempts, planned, r)
    ensures forall i :: 0 <= i < |planned| ==> SleepsWithinBudget(s, i + 1, planned[i])
    ensures r.Ok? ==>
              var reply := s.reply(attempts);
              reply.Answered? && reply.quotaFailure.None? && 200 <= reply.status <= 299 && reply.body == Decoded(r.value)
  {
    attempts := 1;
    planned := [];
    var previousRetryError: Option<OzonError> := None;
    while true
      invariant 1 <= attempts <= MAX_ATTEMPTS && attempts == |planned| + 1
      invariant Planned(s, planned) && (planned != [] ==> !s.sleepExpires(|planned|))
      invariant s.path == SearchPath ==> planned == []
      invariant forall i :: 0 <= i < |planned| ==> SleepsWithinBudget(s, i + 1, planned[i])
      invariant previousRetryError.Some? <==> planned != []
      invariant previousRetryError.Some? ==> IsDiagnostic(planned, previousRetryError.value)
      decreases MAX_ATTEMPTS - attempts
    {
      if s.attemptExpires(attempts) {
        return Err(if previousRetryError.Some? then previousRetryError.value else DeadlineExceeded), attempts, planned;
      }
      match Outcome(s, attempts) {
        case Success(value) =>
          SucceedsExactlyOnDecoded2xx(s.path, s.mode, attempts, s.reply(attempts), value);
          return Ok(value), attempts, planned;
        case Failure(error, retryDelay) =>
          if retryDelay.None? {
            if KindOf(error) == Overloaded {
              return Err(if previousRetryError.Some? then previousRetryError.value else error), attempts, planned;
            }
            if IsRetriableTransport(KindOf(error)) && previousRetryError.Some? {
              return Err(previousRetryError.value), attempts, planned;
            }
            return Err(error), attempts, planned;
          }
          PlanGrows(s, planned, previousRetryError, error);
          planned := planned + [error];
          if previousRetryError.None? || HasRequestId(error) {
            previousRetryError := Some(error);
          }
          if s.sleepExpires(attempts) {
            return Err(previousRetryError.value), attempts, planned;
          }
          attempts := attempts + 1;
      }
    }
  }

  lemma PlannedAgree(s: Script, p: seq<OzonError>, q: seq<OzonError>)
    requires Planned(s, p) && Planned(s, q) && |p| <= |q|
    ensures p == q[..|p|]
  {
    forall i | 0 <= i < |p| ensures p[i] == q[i] {
      assert PlannedAt(s, i + 1, p[i]) && PlannedAt(s, i + 1, q[i]);
    }
  }

  lemma SleepFinished(s: Script, q: seq<OzonError>, i: nat)
    requires Planned(s, q) && i + 1 < |q|
    ensures !s.sleepExpires(i + 1)
  {
    assert PlannedAt(s, i + 1, q[i]);
  }

  /** A run that ended has not planned more: the other run cannot have gone past its end. */
  lemma EndsAlike(s: Script, a: nat, p: seq<OzonError>, r: Result<string, OzonError>, b: nat, q: seq<OzonError>, t: Result<string, OzonError>)
    requires Explains(s, a, p, r) && Explains(s, b, q, t) && |p| <= |q|
    ensures |p| == |q| && a == b
  {
    if |p| < |q| {
      var n := |p|;
      assert PlannedAt(s, n + 1, q[n]);
      if n > 0 { SleepFinished(s, q, n - 1); }
    }
  }

  /** The specification leaves no freedom: what the network and the deadline do determines attempts, plans and result. */
  lemma EndIsDetermined(s: Script, a: nat, p: seq<OzonError>, r: Result<string, OzonError>, b: nat, q: seq<OzonError>, t: Result<string, OzonError>)
    requires Explains(s, a, p, r) && Explains(s, b, q, t)
    ensures a == b && p == q && r == t
  {
    if |p| <= |q| {
      EndsAlike(s, a, p, r, b, q, t);
      PlannedAgree(s, p, q);
    } else {
      EndsAlike(s, b, q, t, a, p, r);
      PlannedAgree(s, q, p);
    }
    assert p == q;
    if r.Err? && t.Err? && IsDiagnostic(p, r.error) && IsDiagnostic(p, t.error) {
      DiagnosticIsUnique(p, r.error, t.error);
    }
  }
}
