/**
  Request pacing for one Ozon Performance credential scope, from src/ozon_performance.rs:
  short read claims and an exclusive write guard share one time boundary behind a mutex.
  Instants are integers; durations are naturals.
 */
module PerformancePacing {
  import opened Common

  type Instant = int

  datatype Mode = Read | Write

  /** The departure of one request and the distance it demands of whatever comes next. */
  datatype Start = Start(caller: nat, mode: Mode, at: Instant, interval: nat)

  /** The shared boundary, with every departure that has moved it. */
  datatype Pacing = Pacing(nextAllowed: Instant, starts: seq<Start>)

  predicate Due(p: Pacing, now: Instant)
  {
    p.nextAllowed <= now
  }

  /** `saturating_duration_since`: how long until the boundary. */
  function Until(p: Pacing, now: Instant): (wait: nat)
  {
    if Due(p, now) then 0 else p.nextAllowed - now
  }

  function Departed(p: Pacing, start: Start): (r: Pacing)
  {
    Pacing(start.at + start.interval, p.starts + [start])
  }

  function Claimed(p: Pacing, start: Start): (r: Pacing)
  {
    if Due(p, start.at) then Departed(p, start) else p
  }

  function Reserved(p: Pacing, woken: Instant): (r: Pacing)
  {
    p.(nextAllowed := woken)
  }

  /** Every departure keeps the distance demanded by every earlier one, and so does the boundary. */
  ghost predicate Spaced(p: Pacing)
  {
    && (forall i, j :: 0 <= i < j < |p.starts| ==> p.starts[i].at + p.starts[i].interval <= p.starts[j].at)
    && (forall i :: 0 <= i < |p.starts| ==> p.starts[i].at + p.starts[i].interval <= p.nextAllowed)
  }

  lemma DepartingWhenDue(p: Pacing, start: Start)
    requires Spaced(p) && Due(p, start.at)
    ensures Spaced(Departed(p, start))
  {
  }

  /** The monotone clock: reading it and sleeping may take any time, sleeping at least the time asked for. */
  class Clock {
    var now: Instant

    method Now() returns (t: Instant)
      modifies this
      ensures old(now) <= t == now
    {
      var reading: Instant := *;
      now := if now <= reading then reading else now;
      t := now;
    }

    method Sleep(duration: nat)
      modifies this
      ensures old(now) + duration <= now
    {
      now := now + duration;
      var woken := Now();
    }
  }

  class PerformanceRequestPacer {
    var nextAllowed: Instant
    ghost var starts: seq<Start>

    ghost function View(): Pacing
      reads this
    {
      Pacing(nextAllowed, starts)
    }

    constructor (now: Instant)
      ensures View() == Pacing(now, []) && Spaced(View())
    {
      nextAllowed, starts := now, [];
    }

    /** A read claim succeeds exactly at or after the boundary, and never breaks the spacing. */
    method TryClaimRequestSlot(c: nat, clock: Clock, interval: nat) returns (claimed: bool, ghost at: Instant)
      modifies this, clock
      ensures old(clock.now) <= at <= clock.now
      ensures claimed <==> Due(old(View()), at)
      ensures View() == Claimed(old(View()), Start(c, Read, at, interval))
      ensures claimed ==> starts == old(starts) + [Start(c, Read, at, interval)] && nextAllowed == at + interval
      ensures !claimed ==> starts == old(starts) && nextAllowed == old(nextAllowed)
      ensures old(nextAllowed) <= nextAllowed && (old(Spaced(View())) ==> Spaced(View()))
    {
      var now := clock.Now();
      at := now;
      if nextAllowed > now {
        return false, at;
      }
      if Spaced(View()) { DepartingWhenDue(View(), Start(c, Read, at, interval)); }
      nextAllowed := now + interval;
      starts := starts + [Start(c, Read, at, interval)];
      return true, at;
    }

    /** The sleep is long enough: whoever comes back from here finds the old boundary behind it. */
    method ReserveWrite(clock: Clock)
      modifies this, clock
      ensures old(clock.now) <= clock.now && Due(old(View()), clock.now)
      ensures View() == Reserved(old(View()), clock.now)
      ensures old(Spaced(View())) ==> Spaced(View())
    {
      var now := clock.Now();
      var wait := Until(Pacing(nextAllowed, []), now);
      if wait != 0 {
        clock.Sleep(wait);
      }
      nextAllowed := clock.Now();
    }

    /** Marking when the boundary is due, as it is under a new guard, keeps the spacing. */
    method MarkRequestStarted(c: nat, clock: Clock, interval: nat)
      modifies this, clock
      ensures old(clock.now) <= clock.now
      ensures View() == Departed(old(View()), Start(c, Write, clock.now, interval))
      ensures starts == old(starts) + [Start(c, Write, clock.now, interval)] && nextAllowed == clock.now + interval
      ensures old(Spaced(View()) && Due(View(), clock.now)) ==> Spaced(View()) && old(nextAllowed) <= nextAllowed
    {
      var now := clock.Now();
      if Spaced(View()) && Due(View(), now) { DepartingWhenDue(View(), Start(c, Write, now, interval)); }
      nextAllowed := now + interval;
      starts := starts + [Start(c, Write, now, interval)];
    }

    /**
      What the write client does with its guard: reserve, ask for the durable permit and the shared
      quota, either of which may refuse, and mark once. A refusal departs nowhere; a departure
      keeps the distance from everything before it.
     */
    method WriteGuarded(c: nat, clock: Clock, interval: nat) returns (sent: bool)
      requires Spaced(View())
      modifies this, clock
      ensures Spaced(View()) && old(nextAllowed) <= nextAllowed
      ensures !sent ==> starts == old(starts)
      ensures sent ==> starts == old(starts) + [Start(c, Write, clock.now, interval)] && Due(old(View()), clock.now)
    {
      ReserveWrite(clock);
      var asked := clock.Now();
      sent := *;
      if sent {
        MarkRequestStarted(c, clock, interval);
      }
    }
  }

  // ----- Any interleaving of readers and writers -----

  /** Who owns the mutex, and how far that owner has come. */
  datatype Owner =
    | Nobody
    /** A reader that has the lock and has not looked at the clock yet. */
    | Claiming(c: nat, interval: nat)
    | Sampled(c: nat, interval: nat, stamp: Instant)
    /** A writer that keeps the lock while it sleeps. */
    | Sleeping(c: nat, wakeAt: Instant)
    /** A live write guard, and whether it has marked its request start. */
    | Guarding(c: nat, marked: bool)

  datatype Machine = Machine(now: Instant, pacing: Pacing, owner: Owner)

  datatype Step =
    | Tick(elapsed: nat)
    | LockForRead(c: nat, interval: nat)
    | SampleClock
    | DecideClaim
    | LockForWrite(c: nat)
    | Wake
    | Mark(interval: nat)
    /** The owner lets go: a guard dropped after its result, or a future dropped anywhere. */
    | Release

  predicate Enabled(m: Machine, step: Step)
  {
    match step
    case Tick(_) => true
    case LockForRead(_, _) => m.owner.Nobody?
    case SampleClock => m.owner.Claiming?
    case DecideClaim => m.owner.Sampled?
    case LockForWrite(_) => m.owner.Nobody?
    case Wake => m.owner.Sleeping? && m.owner.wakeAt <= m.now
    case Mark(_) => m.owner.Guarding?
    case Release => !m.owner.Nobody?
  }

  function Apply(m: Machine, step: Step): (m': Machine)
    requires Enabled(m, step)
  {
    match step
    case Tick(elapsed) => m.(now := m.now + elapsed)
    case LockForRead(c, interval) => m.(owner := Claiming(c, interval))
    case SampleClock => m.(owner := Sampled(m.owner.c, m.owner.interval, m.now))
    case DecideClaim =>
      m.(owner := Nobody, pacing := Claimed(m.pacing, Start(m.owner.c, Read, m.owner.stamp, m.owner.interval)))
    case LockForWrite(c) => m.(owner := Sleeping(c, m.now + Until(m.pacing, m.now)))
    case Wake => m.(owner := Guarding(m.owner.c, false), pacing := Reserved(m.pacing, m.now))
    case Mark(interval) =>
      m.(owner := Guarding(m.owner.c, true), pacing := Departed(m.pacing, Start(m.owner.c, Write, m.now, interval)))
    case Release => m.(owner := Nobody)
  }

  /** The machine after a run, and `None` for a list of steps that is not one. */
  function Exec(created: Instant, steps: seq<Step>): (m: Option<Machine>)
  {
    if steps == [] then Some(Machine(created, Pacing(created, []), Nobody))
    else
      var last := steps[|steps| - 1];
      match Exec(created, steps[..|steps| - 1])
      case None => None
      case Some(m) => if Enabled(m, last) then Some(Apply(m, last)) else None
  }

  /** A second mark by the same guard. */
  predicate Remarks(m: Machine, step: Step)
  {
    step.Mark? && m.owner.Guarding? && m.owner.marked
  }

  /** Every guard marks at most once, as the write client does. */
  predicate MarksOnce(created: Instant, steps: seq<Step>)
  {
    steps == [] ||
    (var before := steps[..|steps| - 1];
     MarksOnce(created, before) && (Exec(created, before).Some? ==> !Remarks(Exec(created, before).value, steps[|steps| - 1])))
  }

  /** What every owner knows about the boundary, in every run. */
  ghost predicate Inv(m: Machine)
  {
    match m.owner
    case Sampled(_, _, stamp) => stamp <= m.now
    case Sleeping(_, wakeAt) => m.pacing.nextAllowed <= wakeAt
    case Guarding(_, marked) => !marked ==> m.pacing.nextAllowed <= m.now
    case _ => true
  }

  lemma StepKeepsInv(m: Machine, step: Step)
    requires Inv(m) && Enabled(m, step)
    ensures Inv(Apply(m, step))
  {
  }

  lemma {:induction false} ReachableInv(created: Instant, steps: seq<Step>)
    ensures Exec(created, steps).Some? ==> Inv(Exec(created, steps).value)
  {
    if steps != [] {
      ReachableInv(created, steps[..|steps| - 1]);
      if Exec(created, steps).Some? {
        StepKeepsInv(Exec(created, steps[..|steps| - 1]).value, steps[|steps| - 1]);
      }
    }
  }

  lemma StepKeepsSpacing(m: Machine, step: Step)
    requires Inv(m) && Enabled(m, step) && !Remarks(m, step) && Spaced(m.pacing)
    ensures Spaced(Apply(m, step).pacing)
  {
    var p' := Apply(m, step).pacing;
    if p'.starts != m.pacing.starts {
      DepartingWhenDue(m.pacing, p'.starts[|m.pacing.starts|]);
    }
  }

  // ----- Main results -----

  /** Every request start keeps the distance demanded by every earlier start, and so does whatever comes next. */
  lemma {:induction false} StartsAreSpaced(created: Instant, steps: seq<Step>)
    requires Exec(created, steps).Some? && MarksOnce(created, steps)
    ensures Spaced(Exec(created, steps).value.pacing)
  {
    if steps != [] {
      var before := steps[..|steps| - 1];
      StartsAreSpaced(created, before);
      ReachableInv(created, before);
      StepKeepsSpacing(Exec(created, before).value, steps[|steps| - 1]);
    }
  }

  /** A claim decides by its stamp alone: at or after the boundary it departs and sets the next one, before it nothing changes. */
  lemma ClaimsDepartExactlyWhenDue(m: Machine)
    requires Enabled(m, DecideClaim)
    ensures var o, p, p' := m.owner, m.pacing, Apply(m, DecideClaim).pacing;
            && (p.nextAllowed <= o.stamp ==>
                  p'.starts == p.starts + [Start(o.c, Read, o.stamp, o.interval)] && p'.nextAllowed == o.stamp + o.interval)
            && (p.nextAllowed > o.stamp ==> p' == p)
  {
  }

  /** A guard that marks departs there and then, and holds the next departure back for its interval. */
  lemma MarksDepart(m: Machine, interval: nat)
    requires Enabled(m, Mark(interval))
    ensures var p, p' := m.pacing, Apply(m, Mark(interval)).pacing;
            p'.starts == p.starts + [Start(m.owner.c, Write, m.now, interval)] && p'.nextAllowed == m.now + interval
  {
  }

  /** Exactly one thing moves the boundary backwards: a second mark whose interval ends before the first one's does. */
  lemma RetreatsExactlyOnEarlierRemark(created: Instant, steps: seq<Step>, step: Step)
    requires Exec(created, steps).Some? && Enabled(Exec(created, steps).value, step)
    ensures var m := Exec(created, steps).value;
            Apply(m, step).pacing.nextAllowed < m.pacing.nextAllowed
            <==> Remarks(m, step) && m.now + step.interval < m.pacing.nextAllowed
  {
    ReachableInv(created, steps);
  }

  lemma {:induction false} BoundaryNeverRetreats(created: Instant, steps: seq<Step>, k: nat)
    requires k <= |steps| && Exec(created, steps).Some? && MarksOnce(created, steps)
    ensures Exec(created, steps[..k]).Some?
    ensures Exec(created, steps[..k]).value.pacing.nextAllowed <= Exec(created, steps).value.pacing.nextAllowed
  {
    if k == |steps| {
      assert steps[..k] == steps;
    } else {
      var before := steps[..|steps| - 1];
      assert before[..k] == steps[..k];
      BoundaryNeverRetreats(created, before, k);
      RetreatsExactlyOnEarlierRemark(created, before, steps[|steps| - 1]);
    }
  }

  /** A marked guard has just set the boundary by its own start. */
  ghost predicate MarkedByLast(m: Machine)
  {
    m.owner.Guarding? && m.owner.marked ==>
      m.pacing.starts != [] && (var last := m.pacing.starts[|m.pacing.starts| - 1]; last.at + last.interval == m.pacing.nextAllowed)
  }

  lemma {:induction false} MarkedByLastStart(created: Instant, steps: seq<Step>)
    requires Exec(created, steps).Some?
    ensures MarkedByLast(Exec(created, steps).value)
  {
    if steps != [] {
      MarkedByLastStart(created, steps[..|steps| - 1]);
    }
  }

  /** When a second mark is harmless: exactly when the interval of the first is already over. */
  lemma RemarkIsHarmlessExactlyWhenDue(created: Instant, steps: seq<Step>, interval: nat)
    requires Exec(created, steps).Some? && MarksOnce(created, steps) && Remarks(Exec(created, steps).value, Mark(interval))
    ensures var m := Exec(created, steps).value;
            Spaced(Apply(m, Mark(interval)).pacing) <==> m.pacing.nextAllowed <= m.now
  {
    var m := Exec(created, steps).value;
    StartsAreSpaced(created, steps);
    MarkedByLastStart(created, steps);
    var m' := Apply(m, Mark(interval));
    var n := |m.pacing.starts|;
    if m.pacing.nextAllowed <= m.now {
      DepartingWhenDue(m.pacing, m'.pacing.starts[n]);
    } else {
      assert m'.pacing.starts[n - 1] == m.pacing.starts[n - 1];
      assert m'.pacing.starts[n - 1].at + m'.pacing.starts[n - 1].interval > m'.pacing.starts[n].at;
    }
  }

  predicate Alive(m: Option<Machine>, c: nat)
  {
    m.Some? && m.value.owner.Guarding? && m.value.owner.c == c
  }

  /** What may have happened since a guard was last looked at: at most its own one departure. */
  ghost predicate OnlyItsOwnStart(was: Machine, now: Machine, c: nat)
    requires was.owner.Guarding? && now.owner.Guarding?
  {
    && (was.owner.marked ==> now.owner.marked)
    && (was.owner.marked == now.owner.marked ==> now.pacing.starts == was.pacing.starts)
    && (was.owner.marked != now.owner.marked ==>
          |now.pacing.starts| == |was.pacing.starts| + 1 && was.pacing.starts == now.pacing.starts[..|was.pacing.starts|] &&
          (var start := now.pacing.starts[|was.pacing.starts|]; start.caller == c && start.mode == Write))
  }

  lemma GuardStep(was: Machine, m: Machine, step: Step, c: nat)
    requires was.owner.Guarding? && Alive(Some(m), c) && OnlyItsOwnStart(was, m, c)
    requires Enabled(m, step) && !Remarks(m, step) && Alive(Some(Apply(m, step)), c)
    ensures OnlyItsOwnStart(was, Apply(m, step), c)
  {
  }

  /**
    For as long as one write guard is alive, from the state after the first `n` steps on, nobody
    departs but that guard, and it departs at most once.
   */
  lemma {:induction false} GuardExcludesEverybodyElse(created: Instant, steps: seq<Step>, n: nat, c: nat)
    requires n <= |steps| && MarksOnce(created, steps)
    requires forall k :: n <= k <= |steps| ==> Alive(Exec(created, steps[..k]), c)
    ensures Alive(Exec(created, steps[..n]), c) && Alive(Exec(created, steps), c)
    ensures OnlyItsOwnStart(Exec(created, steps[..n]).value, Exec(created, steps).value, c)
  {
    assert steps[..|steps|] == steps;
    if n < |steps| {
      var before := steps[..|steps| - 1];
      forall k | n <= k <= |before| ensures Alive(Exec(created, before[..k]), c) {
        assert before[..k] == steps[..k];
      }
      GuardExcludesEverybodyElse(created, before, n, c);
      assert before[..n] == steps[..n];
      GuardStep(Exec(created, steps[..n]).value, Exec(created, before).value, steps[|steps| - 1], c);
    }
  }
}
