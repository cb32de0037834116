/**
  Departure pacing and in-flight permits of the Ozon client (src/ozon.rs).

  A `RateLimiter` is shared by every store alias with the same Client-Id. Its
  methods are the atomic updates the source performs under its locks. The machine
  below interleaves any number of callers of `acquire_request_permits`, any number
  of limiters, cooldowns recorded by responses, and cancellation at every point.
 */
module OzonPacing {
  import opened Common

  /** Nanoseconds on the monotone clock. */
  type Time = nat

  const MILLISECOND: nat := 1_000_000
  const SECOND: nat := 1_000 * MILLISECOND
  const MAX_IN_FLIGHT_REQUESTS_PER_CLIENT: nat := 16
  const MAX_GLOBAL_IN_FLIGHT_REQUESTS: nat := 32
  const MIN_REQUEST_INTERVAL: nat := 20 * MILLISECOND
  const ANALYTICS_REQUEST_INTERVAL: nat := 65 * SECOND
  const ANALYTICS_RATE_LIMIT_BASE_COOLDOWN: nat := 120 * SECOND
  const ANALYTICS_RATE_LIMIT_MAX_COOLDOWN: nat := 3_600 * SECOND

  datatype Gate = General | Analytics | Search
  /** Where a request goes: the analytics path and the search paths have a gate of their own. */
  datatype Endpoint = Plain | Paced(gate: Gate)

  predicate ValidEndpoint(e: Endpoint)
  {
    e.Paced? ==> e.gate != General
  }

  datatype Gates = Gates(general: Time, analytics: Time, search: Time)

  function At(g: Gates, gate: Gate): (t: Time)
  {
    match gate case General => g.general case Analytics => g.analytics case Search => g.search
  }

  function Set(g: Gates, gate: Gate, t: Time): (r: Gates)
    ensures forall other: Gate :: At(r, other) == if other == gate then t else At(g, other)
  {
    match gate case General => g.(general := t) case Analytics => g.(analytics := t) case Search => g.(search := t)
  }

  function Max(a: nat, b: nat): (m: nat)
  {
    if a < b then b else a
  }

  function Min(a: nat, b: nat): (m: nat)
  {
    if a < b then a else b
  }

  /** `saturating_duration_since`. */
  function Until(t: Time, now: Time): (d: nat)
  {
    if t > now then t - now else 0
  }

  /** A departure stamped `now` passes every gate of its endpoint. */
  predicate Open(g: Gates, e: Endpoint, now: Time)
  {
    g.general <= now && (e.Paced? ==> At(g, e.gate) <= now)
  }

  function Claimed(g: Gates, e: Endpoint, now: Time): (r: Gates)
  {
    var r := Set(g, General, now + MIN_REQUEST_INTERVAL);
    if e.Paced? then Set(r, e.gate, now + ANALYTICS_REQUEST_INTERVAL) else r
  }

  function Raised(g: Gates, gate: Gate, until: Time): (r: Gates)
  {
    if At(g, gate) < until then Set(g, gate, until) else g
  }

  function Pow2(n: nat): (p: nat)
  {
    if n == 0 then 1 else 2 * Pow2(n - 1)
  }

  /** The adaptive delay after a 429 on the analytics path. */
  function AnalyticsCooldown(strikes: nat, retryAfter: Option<nat>): (delay: nat)
    ensures ANALYTICS_REQUEST_INTERVAL <= delay <= ANALYTICS_RATE_LIMIT_MAX_COOLDOWN
  {
    var fallback := Min(ANALYTICS_RATE_LIMIT_BASE_COOLDOWN * Pow2(Min(strikes, 5)), ANALYTICS_RATE_LIMIT_MAX_COOLDOWN);
    var delay := if retryAfter.Some? then retryAfter.value else fallback;
    Min(Max(delay, ANALYTICS_REQUEST_INTERVAL), ANALYTICS_RATE_LIMIT_MAX_COOLDOWN)
  }

  function NextStrikes(strikes: nat): (s: nat)
  {
    Min(Min(strikes + 1, 255), 6)
  }

  function StrikesAfter(misses: nat): (s: nat)
  {
    if misses == 0 then 0 else NextStrikes(StrikesAfter(misses - 1))
  }

  lemma {:induction false} StrikesSaturate(misses: nat)
    ensures StrikesAfter(misses) == Min(misses, 6)
  {
    if misses > 0 {
      StrikesSaturate(misses - 1);
    }
  }

  lemma SmallPowers()
    ensures Pow2(0) == 1 && Pow2(1) == 2 && Pow2(2) == 4 && Pow2(3) == 8 && Pow2(4) == 16 && Pow2(5) == 32
  {
    assert Pow2(1) == 2 * Pow2(0);
    assert Pow2(2) == 2 * Pow2(1);
    assert Pow2(3) == 2 * Pow2(2);
    assert Pow2(4) == 2 * Pow2(3);
  }

  /** A vendor delay as it is enforced: itself, but at least 65 seconds and at most an hour. */
  function WithinMinuteAndHour(delay: nat): (d: nat)
  {
    if delay < 65_000_000_000 then 65_000_000_000 else if delay > 3_600_000_000_000 then 3_600_000_000_000 else delay
  }

  /** The delay after so many earlier 429s in a row, without a vendor header: 2, 4, 8, 16, 32 and then 60 minutes. */
  function StrikeDelay(strikes: nat): (d: nat)
  {
    if strikes == 0 then 120_000_000_000
    else if strikes == 1 then 240_000_000_000
    else if strikes == 2 then 480_000_000_000
    else if strikes == 3 then 960_000_000_000
    else if strikes == 4 then 1_920_000_000_000
    else 3_600_000_000_000
  }

  /** The adaptive delay in numbers: the vendor's wish decides whatever the strikes, and the strikes decide without one. */
  lemma CooldownInNumbers(strikes: nat, retryAfter: Option<nat>)
    ensures retryAfter.Some? ==> AnalyticsCooldown(strikes, retryAfter) == WithinMinuteAndHour(retryAfter.value)
    ensures retryAfter.None? ==> AnalyticsCooldown(strikes, retryAfter) == StrikeDelay(strikes)
  {
    SmallPowers();
    var power := Pow2(Min(strikes, 5));
    assert power == (if strikes == 0 then 1 else if strikes == 1 then 2 else if strikes == 2 then 4
                     else if strikes == 3 then 8 else if strikes == 4 then 16 else 32);
    assert ANALYTICS_RATE_LIMIT_BASE_COOLDOWN * power == 120_000_000_000 * power;
  }

  /** The n-th 429 in a row, told from how many came before it. */
  lemma CooldownAfterMisses(misses: nat, retryAfter: Option<nat>)
    ensures retryAfter.Some? ==> AnalyticsCooldown(StrikesAfter(misses), retryAfter) == WithinMinuteAndHour(retryAfter.value)
    ensures retryAfter.None? ==> AnalyticsCooldown(StrikesAfter(misses), retryAfter) == StrikeDelay(misses)
  {
    StrikesSaturate(misses);
    CooldownInNumbers(StrikesAfter(misses), retryAfter);
  }

  /** Without a vendor header each consecutive 429 waits twice as long as the one before, up to an hour. */
  lemma CooldownDoubles(misses: nat)
    ensures AnalyticsCooldown(StrikesAfter(misses + 1), None) ==
            Min(2 * AnalyticsCooldown(StrikesAfter(misses), None), ANALYTICS_RATE_LIMIT_MAX_COOLDOWN)
  {
    CooldownAfterMisses(misses, None);
    CooldownAfterMisses(misses + 1, None);
  }

  class RateLimiter {
    var nextAllowed: Time
    var analyticsNextAllowed: Time
    var searchNextAllowed: Time
    var analyticsRateLimitStrikes: nat

    ghost function View(): Gates
      reads this
    {
      Gates(nextAllowed, analyticsNextAllowed, searchNextAllowed)
    }

    constructor (now: Time)
      ensures View() == Gates(now, now, now) && analyticsRateLimitStrikes == 0
    {
      nextAllowed, analyticsNextAllowed, searchNextAllowed, analyticsRateLimitStrikes := now, now, now, 0;
    }

    /** Zero consumes a departure; anything else is the remaining wait, and nothing changes. */
    method TryClaimFor(e: Endpoint, now: Time) returns (wait: nat)
      requires ValidEndpoint(e)
      modifies this
      ensures wait == 0 <==> Open(old(View()), e, now)
      ensures wait == 0 ==> View() == Claimed(old(View()), e, now)
      ensures wait > 0 ==> View() == old(View()) && Open(View(), e, now + wait) && !Open(View(), e, now + wait - 1)
      ensures analyticsRateLimitStrikes == old(analyticsRateLimitStrikes)
    {
      var generalWait := Until(nextAllowed, now);
      var pacedWait := 0;
      if e == Paced(Analytics) {
        pacedWait := Until(analyticsNextAllowed, now);
      } else if e == Paced(Search) {
        pacedWait := Until(searchNextAllowed, now);
      }
      wait := Max(generalWait, pacedWait);
      if wait == 0 {
        nextAllowed := now + MIN_REQUEST_INTERVAL;
        if e == Paced(Analytics) {
          analyticsNextAllowed := now + ANALYTICS_REQUEST_INTERVAL;
        } else if e == Paced(Search) {
          searchNextAllowed := now + ANALYTICS_REQUEST_INTERVAL;
        }
      }
    }

    method ExtendCooldown(now: Time, delay: nat)
      modifies this
      ensures View() == Raised(old(View()), General, now + delay)
      ensures analyticsRateLimitStrikes == old(analyticsRateLimitStrikes)
    {
      if nextAllowed < now + delay {
        nextAllowed := now + delay;
      }
    }

    /** A success forgets the strikes, so the next 429 without a header waits two minutes again. */
    method ClearAnalyticsRateLimit()
      modifies this`analyticsRateLimitStrikes
      ensures AnalyticsCooldown(analyticsRateLimitStrikes, None) == 120_000_000_000
      ensures analyticsRateLimitStrikes == 0
    {
      analyticsRateLimitStrikes := 0;
      CooldownInNumbers(0, None);
    }

    method RecordAnalyticsRateLimit(now: Time, retryAfter: Option<nat>) returns (delay: nat)
      modifies this
      ensures delay == AnalyticsCooldown(old(analyticsRateLimitStrikes), retryAfter)
      ensures retryAfter.Some? ==> delay == WithinMinuteAndHour(retryAfter.value)
      ensures retryAfter.None? ==> delay == StrikeDelay(old(analyticsRateLimitStrikes))
      ensures View() == Raised(old(View()), Analytics, now + delay)
      ensures analyticsRateLimitStrikes == NextStrikes(old(analyticsRateLimitStrikes))
    {
      var exponent := Min(analyticsRateLimitStrikes, 5);
      var fallback := Min(ANALYTICS_RATE_LIMIT_BASE_COOLDOWN * Pow2(exponent), ANALYTICS_RATE_LIMIT_MAX_COOLDOWN);
      delay := if retryAfter.Some? then retryAfter.value else fallback;
      delay := Min(Max(delay, ANALYTICS_REQUEST_INTERVAL), ANALYTICS_RATE_LIMIT_MAX_COOLDOWN);
      CooldownInNumbers(analyticsRateLimitStrikes, retryAfter);
      analyticsRateLimitStrikes := NextStrikes(analyticsRateLimitStrikes);
      if analyticsNextAllowed < now + delay {
        analyticsNextAllowed := now + delay;
      }
    }
  }

  /** One limiter per Client-Id: two stores share a limiter exactly when they share the Client-Id. */
  method BuildLimiters(stores: seq<(string, string)>, now: Time) returns (limiters: map<string, RateLimiter>)
    requires forall i, j :: 0 <= i < j < |stores| ==> stores[i].0 != stores[j].0
    ensures forall i :: 0 <= i < |stores| ==> stores[i].0 in limiters && fresh(limiters[stores[i].0])
    ensures forall s :: s in limiters ==> exists i :: 0 <= i < |stores| && stores[i].0 == s
    ensures forall i, j :: 0 <= i < |stores| && 0 <= j < |stores| ==>
              (limiters[stores[i].0] == limiters[stores[j].0] <==> stores[i].1 == stores[j].1)
  {
    var byClientId: map<string, RateLimiter> := map[];
    limiters := map[];
    for i := 0 to |stores|
      invariant forall k :: 0 <= k < i ==>
                  stores[k].0 in limiters && stores[k].1 in byClientId && limiters[stores[k].0] == byClientId[stores[k].1]
      invariant forall s :: s in limiters ==> exists k :: 0 <= k < i && stores[k].0 == s
      invariant forall c :: c in byClientId ==> fresh(byClientId[c])
      invariant forall c, d :: c in byClientId && d in byClientId && c != d ==> byClientId[c] != byClientId[d]
    {
      var (store, clientId) := stores[i];
      if clientId !in byClientId {
        var limiter := new RateLimiter(now);
        byClientId := byClientId[clientId := limiter];
      }
      limiters := limiters[store := byClientId[clientId]];
    }
  }

  // ----- Any interleaving of callers -----

  datatype Call = Call(client: nat, endpoint: Endpoint, queue: bool)

  datatype Refusal = LocalRateLimited(wait: nat) | Overloaded

  datatype Phase =
    | Checking(call: Call)
    | GeneralRead(call: Call, now: Time, wait: nat)
    | Sleeping(call: Call, until: Time)
    | Ready(call: Call)
    | HasGlobal(call: Call)
    | HasBoth(call: Call)
    | Claiming(call: Call, stamp: Time)
    | LostRace(call: Call)
    | DroppingGlobal(call: Call)
    | Admitted(call: Call, stamp: Time)
    | Penalized(call: Call, stamp: Time, gate: Gate, until: Time)
    | Refused(call: Call, reason: Refusal)
    | Finished(call: Call)

  predicate RetainsGlobal(p: Phase)
  {
    p.HasGlobal? || p.DroppingGlobal? || RetainsBoth(p)
  }

  predicate RetainsBoth(p: Phase)
  {
    p.HasBoth? || p.Claiming? || p.LostRace? || Departed(p)
  }

  /** The call has consumed its departure and has not returned its permits. */
  predicate Departed(p: Phase)
  {
    p.Admitted? || p.Penalized?
  }

  function RetainsClient(client: nat): Phase -> bool
  {
    (p: Phase) => RetainsBoth(p) && p.call.client == client
  }

  datatype Client = Client(gates: Gates, free: nat, strikes: nat)

  /** What was decided, in the order of the decisions. */
  datatype Event =
    | Departure(caller: nat, client: nat, endpoint: Endpoint, stamp: Time)
    | Cooldown(client: nat, gate: Gate, until: Time)

  datatype Machine = Machine(clock: Time, free: nat, clients: map<nat, Client>, calls: map<nat, Phase>, events: seq<Event>)

  datatype Step =
    | Begin(c: nat, call: Call)
    | ReadGeneral(c: nat, t: Time)
    | ReadPaced(c: nat)
    | Wake(c: nat, t: Time)
    | TakeGlobal(c: nat)
    | TakeClient(c: nat)
    | SampleStamp(c: nat, t: Time)
    | Decide(c: nat)
    | DropClient(c: nat)
    | DropGlobal(c: nat)
    | PlanAnalyticsCooldown(c: nat, t: Time, retryAfter: Option<nat>)
    | PlanCooldown(c: nat, t: Time, gate: Gate, delay: nat)
    | InstallCooldown(c: nat)
    | ClearStrikes(c: nat)
    | Finish(c: nat)
    | Cancel(c: nat)

  predicate Enabled(m: Machine, step: Step)
  {
    if step.Begin? then
      step.c !in m.calls && step.call.client in m.clients && ValidEndpoint(step.call.endpoint)
    else
      step.c in m.calls &&
      var p := m.calls[step.c];
      p.call.client in m.clients &&
      match step
      case ReadGeneral(_, t) => p.Checking? && m.clock <= t
      case ReadPaced(_) => p.GeneralRead?
      case Wake(_, t) => p.Sleeping? && m.clock <= t && p.until <= t
      case TakeGlobal(_) => p.Ready?
      case TakeClient(_) => p.HasGlobal?
      case SampleStamp(_, t) => p.HasBoth? && m.clock <= t
      case Decide(_) => p.Claiming?
      case DropClient(_) => p.LostRace?
      case DropGlobal(_) => p.DroppingGlobal?
      case PlanAnalyticsCooldown(_, t, _) => p.Admitted? && m.clock <= t
      case PlanCooldown(_, t, gate, _) => p.Admitted? && m.clock <= t && gate != Analytics
      case InstallCooldown(_) => p.Penalized?
      case ClearStrikes(_) => p.Admitted?
      case Finish(_) => p.Admitted?
      case Cancel(_) => !p.Refused? && !p.Finished?
  }

  function Move(m: Machine, c: nat, p: Phase): (m': Machine)
  {
    m.(calls := m.calls[c := p])
  }

  function WithClient(m: Machine, k: nat, client: Client): (m': Machine)
  {
    m.(clients := m.clients[k := client])
  }

  /** Returning the permits a phase retains: what dropping the permits does. */
  function Released(m: Machine, p: Phase): (m': Machine)
    requires p.call.client in m.clients
  {
    var k := p.call.client;
    var m1 := if RetainsGlobal(p) then m.(free := m.free + 1) else m;
    if RetainsBoth(p) then WithClient(m1, k, m1.clients[k].(free := m1.clients[k].free + 1)) else m1
  }

  function Apply(m: Machine, step: Step): (m': Machine)
    requires Enabled(m, step)
  {
    var c := step.c;
    if step.Begin? then Move(m, c, Checking(step.call)) else
    var p := m.calls[c];
    var call := p.call;
    var client := m.clients[call.client];
    match step
    case ReadGeneral(_, t) => Move(m.(clock := t), c, GeneralRead(call, t, Until(client.gates.general, t)))
    case ReadPaced(_) =>
      var wait := Max(p.wait, if call.endpoint.Paced? then Until(At(client.gates, call.endpoint.gate), p.now) else 0);
      if wait == 0 then Move(m, c, Ready(call))
      else if call.endpoint.Paced? && !call.queue then Move(m, c, Refused(call, LocalRateLimited(wait)))
      else Move(m, c, Sleeping(call, p.now + wait))
    case Wake(_, t) => Move(m.(clock := t), c, Checking(call))
    case TakeGlobal(_) =>
      if m.free == 0 then Move(m, c, Refused(call, Overloaded))
      else Move(m.(free := m.free - 1), c, HasGlobal(call))
    case TakeClient(_) =>
      if client.free == 0 then Move(Released(m, p), c, Refused(call, Overloaded))
      else Move(WithClient(m, call.client, client.(free := client.free - 1)), c, HasBoth(call))
    case SampleStamp(_, t) => Move(m.(clock := t), c, Claiming(call, t))
    case Decide(_) =>
      if !Open(client.gates, call.endpoint, p.stamp) then Move(m, c, LostRace(call))
      else
        var m1 := WithClient(m, call.client, client.(gates := Claimed(client.gates, call.endpoint, p.stamp)));
        Move(m1.(events := m.events + [Departure(c, call.client, call.endpoint, p.stamp)]), c, Admitted(call, p.stamp))
    case DropClient(_) =>
      Move(WithClient(m, call.client, client.(free := client.free + 1)), c, DroppingGlobal(call))
    case DropGlobal(_) => Move(m.(free := m.free + 1), c, Checking(call))
    case PlanAnalyticsCooldown(_, t, retryAfter) =>
      var delay := AnalyticsCooldown(client.strikes, retryAfter);
      var m1 := WithClient(m.(clock := t), call.client, client.(strikes := NextStrikes(client.strikes)));
      Move(m1, c, Penalized(call, p.stamp, Analytics, t + delay))
    case PlanCooldown(_, t, gate, delay) => Move(m.(clock := t), c, Penalized(call, p.stamp, gate, t + delay))
    case InstallCooldown(_) =>
      var m1 := WithClient(m, call.client, client.(gates := Raised(client.gates, p.gate, p.until)));
      Move(m1.(events := m.events + [Cooldown(call.client, p.gate, p.until)]), c, Admitted(call, p.stamp))
    case ClearStrikes(_) => WithClient(m, call.client, client.(strikes := 0))
    case Finish(_) => Move(Released(m, p), c, Finished(call))
    case Cancel(_) => Move(Released(m, p), c, Finished(call))
  }

  /** Every limiter starts with its full permits, gates at its own creation time and no strike. */
  predicate Initial(m: Machine)
  {
    && m.free == MAX_GLOBAL_IN_FLIGHT_REQUESTS && m.calls == map[] && m.events == []
    && forall k :: k in m.clients ==> m.clients[k].free == MAX_IN_FLIGHT_REQUESTS_PER_CLIENT && m.clients[k].strikes == 0
  }

  function Exec(start: Machine, steps: seq<Step>): (m: Option<Machine>)
  {
    if steps == [] then Some(start)
    else
      var last := steps[|steps| - 1];
      match Exec(start, steps[..|steps| - 1])
      case None => None
      case Some(m) => if Enabled(m, last) then Some(Apply(m, last)) else None
  }

  // ----- Permits -----

  ghost predicate CallsKnown(m: Machine)
  {
    forall c :: c in m.calls ==> m.calls[c].call.client in m.clients && ValidEndpoint(m.calls[c].call.endpoint)
  }

  ghost predicate PermitsConserved(m: Machine)
  {
    && m.free + |Holders(m.calls, RetainsGlobal)| == MAX_GLOBAL_IN_FLIGHT_REQUESTS
    && forall k :: k in m.clients ==>
         m.clients[k].free + |Holders(m.calls, RetainsClient(k))| == MAX_IN_FLIGHT_REQUESTS_PER_CLIENT
  }

  /** One call moves, and the free permits move with what that call retains. */
  ghost predicate PermitsFollow(m: Machine, m': Machine, c: nat, k: nat)
  {
    && c in m'.calls && m'.calls == m.calls[c := m'.calls[c]] && m'.clients.Keys == m.clients.Keys
    && m'.calls[c].call.client in m.clients && ValidEndpoint(m'.calls[c].call.endpoint)
    && m'.free + One(RetainsGlobal(m'.calls[c])) == m.free + One(c in m.calls && RetainsGlobal(m.calls[c]))
    && (k in m.clients ==>
          m'.clients[k].free + One(RetainsClient(k)(m'.calls[c])) ==
          m.clients[k].free + One(c in m.calls && RetainsClient(k)(m.calls[c])))
  }

  lemma PermitEffect(m: Machine, step: Step, k: nat)
    requires CallsKnown(m) && Enabled(m, step)
    ensures PermitsFollow(m, Apply(m, step), step.c, k)
  {
    if step.Finish? || step.Cancel? || step.TakeClient? {
      ReleaseEffect(m, step, k);
    } else if step.Begin? || step.ReadGeneral? || step.ReadPaced? || step.Wake? || step.TakeGlobal? {
      QueueEffect(m, step, k);
    } else if step.SampleStamp? || step.Decide? || step.DropClient? || step.DropGlobal? {
      ClaimEffect(m, step, k);
    } else {
      CooldownEffect(m, step, k);
    }
  }

  /** Before any client permit is held. */
  lemma QueueEffect(m: Machine, step: Step, k: nat)
    requires CallsKnown(m) && Enabled(m, step)
    requires step.Begin? || step.ReadGeneral? || step.ReadPaced? || step.Wake? || step.TakeGlobal?
    ensures PermitsFollow(m, Apply(m, step), step.c, k)
  {
  }

  /** While the claim is decided, and on the way back after a lost race. */
  lemma ClaimEffect(m: Machine, step: Step, k: nat)
    requires CallsKnown(m) && Enabled(m, step)
    requires step.SampleStamp? || step.Decide? || step.DropClient? || step.DropGlobal?
    ensures PermitsFollow(m, Apply(m, step), step.c, k)
  {
  }

  /** After admission, while the response is turned into cooldowns. */
  lemma CooldownEffect(m: Machine, step: Step, k: nat)
    requires CallsKnown(m) && Enabled(m, step)
    requires step.PlanAnalyticsCooldown? || step.PlanCooldown? || step.InstallCooldown? || step.ClearStrikes?
    ensures PermitsFollow(m, Apply(m, step), step.c, k)
  {
  }

  /** The three steps that can drop permits on the way out. */
  lemma ReleaseEffect(m: Machine, step: Step, k: nat)
    requires CallsKnown(m) && Enabled(m, step) && (step.Finish? || step.Cancel? || step.TakeClient?)
    ensures PermitsFollow(m, Apply(m, step), step.c, k)
  {
  }

  lemma ClientPermitsFollow(m: Machine, m': Machine, c: nat, k: nat)
    requires PermitsFollow(m, m', c, k) && k in m.clients
    requires m.clients[k].free + |Holders(m.calls, RetainsClient(k))| == MAX_IN_FLIGHT_REQUESTS_PER_CLIENT
    ensures m'.clients[k].free + |Holders(m'.calls, RetainsClient(k))| == MAX_IN_FLIGHT_REQUESTS_PER_CLIENT
  {
    PermitsMoveWithHolders(m.calls, m'.calls, c, RetainsClient(k), m.clients[k].free, m'.clients[k].free, MAX_IN_FLIGHT_REQUESTS_PER_CLIENT);
  }

  lemma CallsStayKnown(m: Machine, m': Machine, c: nat)
    requires CallsKnown(m) && PermitsFollow(m, m', c, 0)
    ensures CallsKnown(m')
  {
  }

  lemma FollowingKeepsPermits(m: Machine, m': Machine, c: nat)
    requires CallsKnown(m) && PermitsConserved(m) && forall k :: PermitsFollow(m, m', c, k)
    ensures CallsKnown(m') && PermitsConserved(m')
  {
    assert PermitsFollow(m, m', c, 0);
    PermitsMoveWithHolders(m.calls, m'.calls, c, RetainsGlobal, m.free, m'.free, MAX_GLOBAL_IN_FLIGHT_REQUESTS);
    forall k | k in m'.clients
      ensures m'.clients[k].free + |Holders(m'.calls, RetainsClient(k))| == MAX_IN_FLIGHT_REQUESTS_PER_CLIENT
    {
      ClientPermitsFollow(m, m', c, k);
    }
    CallsStayKnown(m, m', c);
  }

  lemma StepKeepsPermits(m: Machine, step: Step)
    requires CallsKnown(m) && PermitsConserved(m) && Enabled(m, step)
    ensures CallsKnown(Apply(m, step)) && PermitsConserved(Apply(m, step))
  {
    forall k ensures PermitsFollow(m, Apply(m, step), step.c, k) {
      PermitEffect(m, step, k);
    }
    FollowingKeepsPermits(m, Apply(m, step), step.c);
  }

  // ----- Departures -----

  /** The earliest stamp an event leaves to later departures of a client through a gate. */
  function Floor(event: Event, client: nat, gate: Gate): (t: Time)
  {
    match event
    case Departure(_, k, e, stamp) =>
      if k != client then 0
      else if gate == General then stamp + MIN_REQUEST_INTERVAL
      else if e == Paced(gate) then stamp + ANALYTICS_REQUEST_INTERVAL
      else 0
    case Cooldown(k, g, until) => if k == client && g == gate then until else 0
  }

  /** Every departure respects every earlier event of its client. */
  ghost predicate Spaced(events: seq<Event>)
  {
    forall i, j :: 0 <= i < j < |events| && events[j].Departure? ==>
      var e := events[j];
      && Floor(events[i], e.client, General) <= e.stamp
      && (e.endpoint.Paced? ==> Floor(events[i], e.client, e.endpoint.gate) <= e.stamp)
  }

  ghost predicate GatesCover(m: Machine)
  {
    forall i, k, gate: Gate :: 0 <= i < |m.events| && k in m.clients ==> Floor(m.events[i], k, gate) <= At(m.clients[k].gates, gate)
  }

  /** A caller has consumed one departure exactly when it is past its claim. */
  ghost predicate Consumed(m: Machine, c: nat)
    requires c in m.calls
  {
    var p := m.calls[c];
    && (forall i, j :: 0 <= i < j < |m.events| && m.events[i].Departure? && m.events[j].Departure? ==>
          !(m.events[i].caller == c && m.events[j].caller == c))
    && (!Departed(p) && !p.Finished? ==> forall i :: 0 <= i < |m.events| && m.events[i].Departure? ==> m.events[i].caller != c)
    && (Departed(p) ==> Departure(c, p.call.client, p.call.endpoint, p.stamp) in m.events)
  }

  ghost predicate DeparturesInOrder(m: Machine)
  {
    && (forall i :: 0 <= i < |m.events| && m.events[i].Departure? ==> m.events[i].caller in m.calls)
    && (forall c :: c in m.calls ==> Consumed(m, c))
  }

  ghost predicate Inv(m: Machine)
  {
    CallsKnown(m) && PermitsConserved(m) && Spaced(m.events) && GatesCover(m) && DeparturesInOrder(m)
  }

  /** No gate of any limiter ever moves backwards. */
  lemma GatesNeverMoveBack(m: Machine, step: Step, k: nat, gate: Gate)
    requires CallsKnown(m) && Enabled(m, step) && k in m.clients
    ensures k in Apply(m, step).clients && At(m.clients[k].gates, gate) <= At(Apply(m, step).clients[k].gates, gate)
  {
  }

  /** What a step decides, if anything: a departure through open gates, or a cooldown that raised its gate. */
  lemma DecisionEffect(m: Machine, step: Step)
    requires CallsKnown(m) && Enabled(m, step)
    ensures var m' := Apply(m, step);
            || m'.events == m.events
            || (m'.events == m.events + [m'.events[|m.events|]] &&
                var event := m'.events[|m.events|];
                && event.client in m.clients
                && (event.Departure? ==>
                      && Open(m.clients[event.client].gates, event.endpoint, event.stamp)
                      && m'.clients[event.client].gates == Claimed(m.clients[event.client].gates, event.endpoint, event.stamp))
                && (event.Cooldown? ==> event.until <= At(m'.clients[event.client].gates, event.gate)))
  {
  }

  lemma StepKeepsSpacing(m: Machine, step: Step)
    requires CallsKnown(m) && Spaced(m.events) && GatesCover(m) && Enabled(m, step)
    ensures Spaced(Apply(m, step).events) && GatesCover(Apply(m, step))
  {
    var m' := Apply(m, step);
    var n := |m.events|;
    DecisionEffect(m, step);
    forall i, j | 0 <= i < j < |m'.events| && m'.events[j].Departure?
      ensures Floor(m'.events[i], m'.events[j].client, General) <= m'.events[j].stamp
      ensures m'.events[j].endpoint.Paced? ==> Floor(m'.events[i], m'.events[j].client, m'.events[j].endpoint.gate) <= m'.events[j].stamp
    {
      assert m'.events[i] == m.events[i];
      var e := m'.events[j];
      if j == n {
        assert Floor(m.events[i], e.client, General) <= At(m.clients[e.client].gates, General);
        if e.endpoint.Paced? {
          assert Floor(m.events[i], e.client, e.endpoint.gate) <= At(m.clients[e.client].gates, e.endpoint.gate);
        }
      } else {
        assert m'.events[j] == m.events[j];
      }
    }
    forall i, k, gate: Gate | 0 <= i < |m'.events| && k in m'.clients
      ensures Floor(m'.events[i], k, gate) <= At(m'.clients[k].gates, gate)
    {
      PermitEffect(m, step, k);
      GatesNeverMoveBack(m, step, k, gate);
      if i < n {
        assert m'.events[i] == m.events[i];
        assert Floor(m.events[i], k, gate) <= At(m.clients[k].gates, gate);
      }
    }
  }

  /** A step consumes a departure exactly when it moves its call past the claim. */
  lemma ConsumptionEffect(m: Machine, step: Step)
    requires CallsKnown(m) && Enabled(m, step)
    ensures var m' := Apply(m, step);
            var c := step.c;
            var now := m'.calls[c];
            && m'.calls == m.calls[c := now]
            && (c in m.calls && m.calls[c].Finished? ==> m' == m)
            && (|| (m'.events == m.events &&
                    (Departed(now) ==> c in m.calls && Departed(m.calls[c]) && now.call == m.calls[c].call && now.stamp == m.calls[c].stamp) &&
                    (c in m.calls && Departed(m.calls[c]) ==> Departed(now) || now.Finished?))
                || (|m'.events| == |m.events| + 1 && m'.events == m.events + [m'.events[|m.events|]] && m'.events[|m.events|].Cooldown? &&
                    c in m.calls && Departed(m.calls[c]) && Departed(now) && now.call == m.calls[c].call && now.stamp == m.calls[c].stamp)
                || (m'.events == m.events + [Departure(c, now.call.client, now.call.endpoint, now.stamp)] && now.Admitted? &&
                    c in m.calls && !Departed(m.calls[c]) && !m.calls[c].Finished?))
  {
  }

  lemma StepKeepsDepartures(m: Machine, step: Step)
    requires CallsKnown(m) && DeparturesInOrder(m) && Enabled(m, step)
    ensures DeparturesInOrder(Apply(m, step))
  {
    var m' := Apply(m, step);
    ConsumptionEffect(m, step);
    forall d | d in m'.calls ensures Consumed(m', d) {
      if d in m.calls {
        assert Consumed(m, d);
      }
    }
  }

  lemma {:induction false} ReachableInv(start: Machine, steps: seq<Step>)
    requires Initial(start)
    ensures Exec(start, steps).Some? ==> Inv(Exec(start, steps).value)
  {
    if steps == [] {
      assert Holders(start.calls, RetainsGlobal) == {};
      assert forall k :: Holders(start.calls, RetainsClient(k)) == {};
    } else {
      var before := steps[..|steps| - 1];
      ReachableInv(start, before);
      if Exec(start, steps).Some? {
        var m, step := Exec(start, before).value, steps[|steps| - 1];
        StepKeepsPermits(m, step);
        StepKeepsSpacing(m, step);
        StepKeepsDepartures(m, step);
      }
    }
  }

  // ----- Main results -----

  lemma ReachableSpacing(start: Machine, steps: seq<Step>)
    requires Initial(start) && Exec(start, steps).Some?
    ensures Spaced(Exec(start, steps).value.events)
  {
    ReachableInv(start, steps);
  }

  lemma ReachablePermits(start: Machine, steps: seq<Step>)
    requires Initial(start) && Exec(start, steps).Some?
    ensures PermitsConserved(Exec(start, steps).value)
  {
    ReachableInv(start, steps);
  }

  lemma ReachableCalls(start: Machine, steps: seq<Step>)
    requires Initial(start) && Exec(start, steps).Some?
    ensures CallsKnown(Exec(start, steps).value)
  {
    ReachableInv(start, steps);
  }

  /** Over a whole run no gate of any limiter is ever earlier than it was after any prefix of that run. */
  lemma {:induction false} GatesOnlyAdvance(start: Machine, steps: seq<Step>, n: nat, k: nat, gate: Gate)
    requires Initial(start) && Exec(start, steps).Some? && n <= |steps| && k in start.clients
    ensures Exec(start, steps[..n]).Some? && k in Exec(start, steps[..n]).value.clients && k in Exec(start, steps).value.clients
    ensures At(Exec(start, steps[..n]).value.clients[k].gates, gate) <= At(Exec(start, steps).value.clients[k].gates, gate)
  {
    if n == |steps| {
      assert steps[..n] == steps;
      if steps != [] {
        var before := steps[..n - 1];
        assert before[..n - 1] == before;
        GatesOnlyAdvance(start, before, n - 1, k, gate);
        ReachableCalls(start, before);
        GatesNeverMoveBack(Exec(start, before).value, steps[n - 1], k, gate);
      }
    } else {
      var before := steps[..|steps| - 1];
      assert before[..n] == steps[..n];
      GatesOnlyAdvance(start, before, n, k, gate);
      ReachableCalls(start, before);
      GatesNeverMoveBack(Exec(start, before).value, steps[|steps| - 1], k, gate);
    }
  }

  /** Departures of one Client-Id are 20 ms apart, and 65 s apart on the same paced endpoint. */
  lemma DeparturesAreSpaced(start: Machine, steps: seq<Step>, i: nat, j: nat)
    requires Initial(start) && Exec(start, steps).Some?
    requires var events := Exec(start, steps).value.events;
             i < j < |events| && events[i].Departure? && events[j].Departure? && events[i].client == events[j].client
    ensures var events := Exec(start, steps).value.events;
            && events[i].stamp + 20_000_000 <= events[j].stamp
            && (events[i].endpoint == events[j].endpoint && events[i].endpoint.Paced? && events[i].endpoint.gate != General ==>
                  events[i].stamp + 65_000_000_000 <= events[j].stamp)
  {
    ReachableSpacing(start, steps);
    var events := Exec(start, steps).value.events;
    assert Floor(events[i], events[j].client, General) <= events[j].stamp;
  }

  /** After a cooldown is installed no later decision departs before it ends. */
  lemma CooldownsHold(start: Machine, steps: seq<Step>, i: nat, j: nat)
    requires Initial(start) && Exec(start, steps).Some?
    requires var events := Exec(start, steps).value.events;
             && i < j < |events| && events[i].Cooldown? && events[j].Departure? && events[i].client == events[j].client
             && (events[i].gate == General || events[j].endpoint == Paced(events[i].gate))
    ensures Exec(start, steps).value.events[i].until <= Exec(start, steps).value.events[j].stamp
  {
    ReachableSpacing(start, steps);
    var events := Exec(start, steps).value.events;
    assert Floor(events[i], events[j].client, General) <= events[j].stamp;
  }

  lemma {:induction false} PrefixRuns(start: Machine, steps: seq<Step>, n: nat)
    requires Exec(start, steps).Some? && n <= |steps|
    ensures Exec(start, steps[..n]).Some?
    ensures Exec(start, steps[..n]).value.events <= Exec(start, steps).value.events
  {
    if n == |steps| {
      assert steps[..n] == steps;
    } else {
      var before := steps[..|steps| - 1];
      assert before[..n] == steps[..n];
      PrefixRuns(start, before, n);
      EventsGrow(Exec(start, before).value, steps[|steps| - 1]);
    }
  }

  lemma EventsGrow(m: Machine, step: Step)
    requires Enabled(m, step)
    ensures m.events <= Apply(m, step).events
  {
  }

  lemma OthersLeaveCallAlone(m: Machine, step: Step, c: nat)
    requires Enabled(m, step) && c in m.calls && step.c != c
    ensures c in Apply(m, step).calls && Apply(m, step).calls[c] == m.calls[c]
  {
  }

  lemma OneStepOn(start: Machine, steps: seq<Step>, p: nat)
    requires Exec(start, steps).Some? && p < |steps|
    ensures Exec(start, steps[..p]).Some? && Enabled(Exec(start, steps[..p]).value, steps[p])
    ensures Exec(start, steps[..p + 1]) == Some(Apply(Exec(start, steps[..p]).value, steps[p]))
  {
    PrefixRuns(start, steps, p + 1);
    assert steps[..p + 1][..p] == steps[..p];
  }

  lemma PlanEffect(m: Machine, step: Step)
    requires step.PlanAnalyticsCooldown? && Enabled(m, step)
    ensures var p := m.calls[step.c];
            var m' := Apply(m, step);
            && step.c in m'.calls
            && m'.calls[step.c] == Penalized(p.call, p.stamp, Analytics,
                                             step.t + AnalyticsCooldown(m.clients[p.call.client].strikes, step.retryAfter))
  {
  }

  lemma InstallEffect(m: Machine, c: nat)
    requires Enabled(m, InstallCooldown(c))
    ensures var p := m.calls[c]; Apply(m, InstallCooldown(c)).events == m.events + [Cooldown(p.call.client, p.gate, p.until)]
  {
  }

  /** Plan in step `p`, install in step `q`, which is the caller's own next one, whatever others do in between. */
  predicate InstallsPlan(steps: seq<Step>, p: nat, q: nat)
  {
    && p < q < |steps| && steps[p].PlanAnalyticsCooldown? && steps[q] == InstallCooldown(steps[p].c)
    && forall k :: p < k < q ==> steps[k].c != steps[p].c
  }

  /** Every machine a run passes through, from its start to its end. */
  ghost function Trace(start: Machine, steps: seq<Step>): (trace: seq<Machine>)
    requires Exec(start, steps).Some?
    ensures |trace| == |steps| + 1
  {
    if steps == [] then [start] else Trace(start, steps[..|steps| - 1]) + [Exec(start, steps).value]
  }

  lemma {:induction false} TraceIsExec(start: Machine, steps: seq<Step>, n: nat)
    requires Exec(start, steps).Some? && n <= |steps|
    ensures Exec(start, steps[..n]) == Some(Trace(start, steps)[n])
  {
    if n == |steps| {
      assert steps[..n] == steps;
    } else {
      assert steps[..|steps| - 1][..n] == steps[..n];
      TraceIsExec(start, steps[..|steps| - 1], n);
    }
  }

  lemma TraceSteps(start: Machine, steps: seq<Step>, n: nat)
    requires Exec(start, steps).Some? && n < |steps|
    ensures var trace := Trace(start, steps); Enabled(trace[n], steps[n]) && trace[n + 1] == Apply(trace[n], steps[n])
  {
    OneStepOn(start, steps, n);
    TraceIsExec(start, steps, n);
    TraceIsExec(start, steps, n + 1);
  }

  /** A call stays where it is until its own next step. */
  lemma {:induction false} CallWaits(trace: seq<Machine>, steps: seq<Step>, p: nat, q: nat, c: nat)
    requires |trace| == |steps| + 1 && p <= q <= |steps| && c in trace[p].calls
    requires forall k :: p <= k < q ==> steps[k].c != c && Enabled(trace[k], steps[k]) && trace[k + 1] == Apply(trace[k], steps[k])
    ensures c in trace[q].calls && trace[q].calls[c] == trace[p].calls[c]
  {
    if p < q {
      CallWaits(trace, steps, p, q - 1, c);
      OthersLeaveCallAlone(trace[q - 1], steps[q - 1], c);
    }
  }

  /** The end of the cooldown that a caller plans in this step. */
  function PlannedEnd(m: Machine, step: Step): (until: Time)
    requires step.PlanAnalyticsCooldown? && Enabled(m, step)
  {
    step.t + AnalyticsCooldown(m.clients[m.calls[step.c].call.client].strikes, step.retryAfter)
  }

  lemma PlanIsInstalled(trace: seq<Machine>, steps: seq<Step>, p: nat, q: nat)
    requires |trace| == |steps| + 1 && InstallsPlan(steps, p, q)
    requires forall k :: p <= k <= q ==> Enabled(trace[k], steps[k]) && trace[k + 1] == Apply(trace[k], steps[k])
    ensures Enabled(trace[p], steps[p]) && steps[p].c in trace[p].calls
    ensures trace[q + 1].events ==
            trace[q].events + [Cooldown(trace[p].calls[steps[p].c].call.client, Analytics, PlannedEnd(trace[p], steps[p]))]
  {
    PlanEffect(trace[p], steps[p]);
    CallWaits(trace, steps, p + 1, q, steps[p].c);
    InstallEffect(trace[q], steps[p].c);
  }

  lemma EventsStay(start: Machine, steps: seq<Step>, n: nat)
    requires Exec(start, steps).Some? && n <= |steps|
    ensures Trace(start, steps)[n].events <= Exec(start, steps).value.events
  {
    TraceIsExec(start, steps, n);
    PrefixRuns(start, steps, n);
  }

  lemma PlannedCooldownIsRecorded(start: Machine, steps: seq<Step>, p: nat, q: nat)
    requires Exec(start, steps).Some? && InstallsPlan(steps, p, q)
    ensures var trace, events := Trace(start, steps), Exec(start, steps).value.events;
            && Enabled(trace[p], steps[p]) && |trace[q].events| < |events|
            && events[|trace[q].events|] == Cooldown(trace[p].calls[steps[p].c].call.client, Analytics, PlannedEnd(trace[p], steps[p]))
  {
    var trace := Trace(start, steps);
    forall k | p <= k <= q ensures Enabled(trace[k], steps[k]) && trace[k + 1] == Apply(trace[k], steps[k]) {
      TraceSteps(start, steps, k);
    }
    PlanIsInstalled(trace, steps, p, q);
    EventsStay(start, steps, q + 1);
  }

  /**
    What a 429 means, from the steps themselves. A caller plans its cooldown in step `p` and installs
    it in step `q`, its own next one, whatever others do in between. Every analytics departure of that
    Client-Id decided after the installation has a stamp of at least the planning instant plus the
    adaptive delay for the strikes found there.
   */
  lemma AnalyticsCooldownHolds(start: Machine, steps: seq<Step>, p: nat, q: nat, j: nat)
    requires Initial(start) && Exec(start, steps).Some? && InstallsPlan(steps, p, q)
    requires |Trace(start, steps)[q].events| < j < |Exec(start, steps).value.events|
    requires Exec(start, steps).value.events[j].Departure?
    requires Exec(start, steps).value.events[j].endpoint == Paced(Analytics)
    ensures var trace, event := Trace(start, steps), Exec(start, steps).value.events[j];
            && Enabled(trace[p], steps[p])
            && (event.client == trace[p].calls[steps[p].c].call.client ==>
                  && PlannedEnd(trace[p], steps[p]) <= event.stamp
                  && (steps[p].retryAfter.Some? ==> steps[p].t + WithinMinuteAndHour(steps[p].retryAfter.value) <= event.stamp)
                  && (steps[p].retryAfter.None? ==> steps[p].t + 120_000_000_000 <= event.stamp))
  {
    PlannedCooldownIsRecorded(start, steps, p, q);
    var trace := Trace(start, steps);
    if Exec(start, steps).value.events[j].client == trace[p].calls[steps[p].c].call.client {
      CooldownsHold(start, steps, |trace[q].events|, j);
      CooldownInNumbers(trace[p].clients[trace[p].calls[steps[p].c].call.client].strikes, steps[p].retryAfter);
    }
  }

  /** Permits are conserved, and whoever sleeps, is refused or is back at the readiness check retains none. */
  lemma PermitsAreConserved(start: Machine, steps: seq<Step>, k: nat, c: nat)
    requires Initial(start) && Exec(start, steps).Some? && k in Exec(start, steps).value.clients
    ensures var m := Exec(start, steps).value;
            && m.free + |Holders(m.calls, RetainsGlobal)| == 32
            && m.clients[k].free + |Holders(m.calls, RetainsClient(k))| == 16
            && (c in m.calls && (m.calls[c].Sleeping? || m.calls[c].Checking? || m.calls[c].Refused? || m.calls[c].Finished?) ==>
                  c !in Holders(m.calls, RetainsGlobal) && c !in Holders(m.calls, RetainsClient(k)))
  {
    ReachablePermits(start, steps);
  }

  /** Whoever was admitted retains both permits and has consumed exactly one departure. */
  lemma AdmissionTakesBothAndOneDeparture(start: Machine, steps: seq<Step>, c: nat) returns (i: nat)
    requires Initial(start) && Exec(start, steps).Some?
    requires c in Exec(start, steps).value.calls && Exec(start, steps).value.calls[c].Admitted?
    ensures var m := Exec(start, steps).value;
            var p := m.calls[c];
            && c in Holders(m.calls, RetainsGlobal) && c in Holders(m.calls, RetainsClient(p.call.client))
            && i < |m.events| && m.events[i] == Departure(c, p.call.client, p.call.endpoint, p.stamp)
            && forall j :: 0 <= j < |m.events| && m.events[j].Departure? && m.events[j].caller == c ==> j == i
  {
    ReachableInv(start, steps);
    var m := Exec(start, steps).value;
    assert Consumed(m, c);
    i :| 0 <= i < |m.events| && m.events[i] == Departure(c, m.calls[c].call.client, m.calls[c].call.endpoint, m.calls[c].stamp);
  }

  // ----- What a claim must decide -----

  /** A gate stands where it was created or where one recorded event put it. */
  ghost predicate GateIsTight(start: Machine, m: Machine, k: nat, gate: Gate)
  {
    k in start.clients && k in m.clients ==>
      || At(m.clients[k].gates, gate) == At(start.clients[k].gates, gate)
      || exists i :: 0 <= i < |m.events| && Floor(m.events[i], k, gate) == At(m.clients[k].gates, gate)
  }

  /** A gate moves only by the event recorded with it, and exactly to that event's floor. */
  lemma GateMovesByEvent(m: Machine, step: Step, k: nat, gate: Gate)
    requires CallsKnown(m) && Enabled(m, step) && k in m.clients
    ensures var m' := Apply(m, step);
            && k in m'.clients
            && (At(m'.clients[k].gates, gate) != At(m.clients[k].gates, gate) ==>
                  |m'.events| == |m.events| + 1 && Floor(m'.events[|m.events|], k, gate) == At(m'.clients[k].gates, gate))
  {
  }

  lemma {:induction false} GatesAreTight(start: Machine, steps: seq<Step>, k: nat, gate: Gate)
    requires Initial(start) && Exec(start, steps).Some? && k in start.clients
    ensures k in Exec(start, steps).value.clients && GateIsTight(start, Exec(start, steps).value, k, gate)
  {
    if steps != [] {
      var before, step := steps[..|steps| - 1], steps[|steps| - 1];
      var m := Exec(start, before).value;
      GatesAreTight(start, before, k, gate);
      ReachableCalls(start, before);
      GateMovesByEvent(m, step, k, gate);
      EventsGrow(m, step);
      if At(m.clients[k].gates, gate) != At(start.clients[k].gates, gate) {
        var i :| 0 <= i < |m.events| && Floor(m.events[i], k, gate) == At(m.clients[k].gates, gate);
        assert Apply(m, step).events[i] == m.events[i];
      }
    }
  }

  /** A stamp is free on a gate: the limiter existed, and every recorded event of the client is over there. */
  ghost predicate FreeOn(start: Machine, m: Machine, k: nat, gate: Gate, stamp: Time)
    requires k in start.clients
  {
    At(start.clients[k].gates, gate) <= stamp && forall i :: 0 <= i < |m.events| ==> Floor(m.events[i], k, gate) <= stamp
  }

  lemma GateIsTheBound(start: Machine, steps: seq<Step>, k: nat, gate: Gate, stamp: Time)
    requires Initial(start) && Exec(start, steps).Some? && k in start.clients
    ensures k in Exec(start, steps).value.clients
    ensures At(Exec(start, steps).value.clients[k].gates, gate) <= stamp <==> FreeOn(start, Exec(start, steps).value, k, gate, stamp)
  {
    GatesAreTight(start, steps, k, gate);
    GatesOnlyAdvance(start, steps, 0, k, gate);
    assert steps[..0] == [];
    ReachableCover(start, steps);
  }

  lemma ReachableCover(start: Machine, steps: seq<Step>)
    requires Initial(start) && Exec(start, steps).Some?
    ensures GatesCover(Exec(start, steps).value)
  {
    ReachableInv(start, steps);
  }

  lemma {:induction false} ClientsStay(start: Machine, steps: seq<Step>)
    requires Initial(start) && Exec(start, steps).Some?
    ensures Exec(start, steps).value.clients.Keys == start.clients.Keys
  {
    if steps != [] {
      var before := steps[..|steps| - 1];
      ClientsStay(start, before);
      ReachableCalls(start, before);
      PermitEffect(Exec(start, before).value, steps[|steps| - 1], 0);
    }
  }

  lemma DecideEffect(m: Machine, c: nat)
    requires Enabled(m, Decide(c))
    ensures var p := m.calls[c];
            var p' := Apply(m, Decide(c)).calls[c];
            && p.call.client in m.clients
            && (p'.Admitted? <==> Open(m.clients[p.call.client].gates, p.call.endpoint, p.stamp))
            && (p'.Admitted? ==> p'.stamp == p.stamp) && (!p'.Admitted? ==> p'.LostRace?)
  {
  }

  /**
    A claim succeeds exactly when its stamp is free on the general gate and, on a paced endpoint, on
    that endpoint's own gate; otherwise it loses the race. Nothing else can hold a caller back.
   */
  lemma ClaimsSucceedExactlyWhenFree(start: Machine, steps: seq<Step>, c: nat)
    requires Initial(start) && Exec(start, steps).Some? && Enabled(Exec(start, steps).value, Decide(c))
    ensures Exec(start, steps).value.calls[c].call.client in start.clients
    ensures var m := Exec(start, steps).value;
            var p := m.calls[c];
            var k := p.call.client;
            Apply(m, Decide(c)).calls[c].Admitted? <==>
              && FreeOn(start, m, k, General, p.stamp)
              && (p.call.endpoint.Paced? ==> FreeOn(start, m, k, p.call.endpoint.gate, p.stamp))
  {
    var m := Exec(start, steps).value;
    var p := m.calls[c];
    DecideEffect(m, c);
    ClientsStay(start, steps);
    GateIsTheBound(start, steps, p.call.client, General, p.stamp);
    if p.call.endpoint.Paced? { GateIsTheBound(start, steps, p.call.client, p.call.endpoint.gate, p.stamp); }
  }

  /** The client whose call takes a step, once that call exists. */
  ghost predicate StepOf(m: Machine, step: Step, k: nat)
  {
    step.c in m.calls && m.calls[step.c].call.client == k
  }

  /** How many analytics 429s a client has planned for since its last success, told from the steps. */
  ghost function Misses(start: Machine, steps: seq<Step>, k: nat): (n: nat)
  {
    if steps == [] then 0
    else
      var before, last := steps[..|steps| - 1], steps[|steps| - 1];
      if Exec(start, before).None? || !StepOf(Exec(start, before).value, last, k) then Misses(start, before, k)
      else if last.PlanAnalyticsCooldown? then Misses(start, before, k) + 1
      else if last.ClearStrikes? then 0
      else Misses(start, before, k)
  }

  lemma StrikesMove(m: Machine, step: Step, k: nat)
    requires CallsKnown(m) && Enabled(m, step) && k in m.clients
    ensures k in Apply(m, step).clients
    ensures Apply(m, step).clients[k].strikes ==
            if !StepOf(m, step, k) then m.clients[k].strikes
            else if step.PlanAnalyticsCooldown? then NextStrikes(m.clients[k].strikes)
            else if step.ClearStrikes? then 0
            else m.clients[k].strikes
  {
  }

  /** A limiter's strikes are the 429s in a row, up to six. */
  lemma {:induction false} StrikesAreMissesInARow(start: Machine, steps: seq<Step>, k: nat)
    requires Initial(start) && Exec(start, steps).Some? && k in start.clients
    ensures k in Exec(start, steps).value.clients
    ensures Exec(start, steps).value.clients[k].strikes == Min(Misses(start, steps, k), 6)
  {
    if steps != [] {
      var before, last := steps[..|steps| - 1], steps[|steps| - 1];
      StrikesAreMissesInARow(start, before, k);
      ReachableCalls(start, before);
      StrikesMove(Exec(start, before).value, last, k);
    }
  }

  /** So the delay planned without a vendor header grows with the 429s in a row, in minutes 2, 4, 8, 16, 32 and then 60. */
  lemma PlannedDelayFollowsMisses(start: Machine, steps: seq<Step>, step: Step)
    requires Initial(start) && Exec(start, steps).Some? && step.PlanAnalyticsCooldown? && Enabled(Exec(start, steps).value, step)
    ensures var k := Exec(start, steps).value.calls[step.c].call.client;
            PlannedEnd(Exec(start, steps).value, step) == step.t +
              if step.retryAfter.Some? then WithinMinuteAndHour(step.retryAfter.value) else StrikeDelay(Misses(start, steps, k))
  {
    var m := Exec(start, steps).value;
    var k := m.calls[step.c].call.client;
    ClientsStay(start, steps);
    assert k in start.clients;
    StrikesAreMissesInARow(start, steps, k);
    CooldownInNumbers(m.clients[k].strikes, step.retryAfter);
  }

  /** What the readiness check decides once both gates were read: go on, refuse with the wait, or sleep until both are open. */
  lemma ReadinessDecides(m: Machine, c: nat)
    requires Enabled(m, ReadPaced(c))
    ensures var p, p' := m.calls[c], Apply(m, ReadPaced(c)).calls[c];
            var e := p.call.endpoint;
            var own := if e.Paced? then At(m.clients[p.call.client].gates, e.gate) else 0;
            && (p'.Ready? <==> p.wait == 0 && own <= p.now)
            && (p'.Refused? <==> !p'.Ready? && e.Paced? && !p.call.queue)
            && (p'.Refused? ==> p'.reason.LocalRateLimited? && p.now + p'.reason.wait >= own && p'.reason.wait >= p.wait
                                && (p'.reason.wait == p.wait || p.now + p'.reason.wait == own))
            && (!p'.Ready? && !p'.Refused? ==>
                  p'.Sleeping? && own <= p'.until && p.now + p.wait <= p'.until && (p'.until == own || p'.until == p.now + p.wait))
  {
  }

  /** Local overload is reported exactly when all 32 global, or all 16 permits of the Client-Id, are out. */
  lemma OverloadExactlyWhenFull(start: Machine, steps: seq<Step>, c: nat)
    requires Initial(start) && Exec(start, steps).Some?
    ensures var m := Exec(start, steps).value;
            && (Enabled(m, TakeGlobal(c)) ==>
                  var p := Apply(m, TakeGlobal(c)).calls[c];
                  if |Holders(m.calls, RetainsGlobal)| == 32 then p == Refused(m.calls[c].call, Overloaded) else p == HasGlobal(m.calls[c].call))
            && (Enabled(m, TakeClient(c)) ==>
                  var p := Apply(m, TakeClient(c)).calls[c];
                  if |Holders(m.calls, RetainsClient(m.calls[c].call.client))| == 16
                  then p == Refused(m.calls[c].call, Overloaded) else p == HasBoth(m.calls[c].call))
  {
    ReachablePermits(start, steps);
  }
}
