/**
  The verified-key cache of the JWT authenticator (src/auth/jwks.rs).

  The sequential pieces are the key index built once per fetch, the decision taken
  from a cache snapshot, and the update written after a fetch. The protocol is a
  machine over any number of concurrent calls: every lock acquisition and every
  clock sample that the source takes separately is a separate step here.
 */
module JwksCache {
  import opened Common

  /** Nanoseconds on the monotone clock. */
  type Time = nat
  type Kid = string
  type Key = string

  const SECOND: nat := 1_000_000_000
  const UNKNOWN_KID_REFRESH_COOLDOWN: nat := 30 * SECOND
  const FAILED_REFRESH_COOLDOWN: nat := 5 * SECOND

  /** `material` is what `DecodingKey::from_jwk` yields: `None` when it is unusable. */
  datatype Jwk = Jwk(kid: Option<Kid>, material: Option<Key>)

  datatype Failure = VerifierUnavailable | InvalidToken

  /** `JwkSet::find`: the first JWK that carries the `kid`. */
  function Find(keys: seq<Jwk>, kid: Kid): (found: Option<Jwk>)
  {
    if keys == [] then None
    else if keys[0].kid == Some(kid) then Some(keys[0])
    else Find(keys[1..], kid)
  }

  /** What a lookup finds is the first match, and it misses only what no JWK carries. */
  lemma {:induction false} FindIsFirst(keys: seq<Jwk>, kid: Kid) returns (k: nat)
    ensures Find(keys, kid).Some? ==>
              k < |keys| && keys[k] == Find(keys, kid).value && keys[k].kid == Some(kid) &&
              forall i :: 0 <= i < k ==> keys[i].kid != Some(kid)
    ensures Find(keys, kid).None? ==> forall i :: 0 <= i < |keys| ==> keys[i].kid != Some(kid)
  {
    if keys == [] || keys[0].kid == Some(kid) {
      k := 0;
    } else {
      var rest := FindIsFirst(keys[1..], kid);
      k := rest + 1;
      assert forall i :: 0 < i < |keys| ==> keys[i] == keys[1..][i - 1];
    }
  }

  lemma {:induction false} FindAppend(keys: seq<Jwk>, jwk: Jwk, kid: Kid)
    ensures Find(keys + [jwk], kid) ==
            if Find(keys, kid).Some? then Find(keys, kid)
            else if jwk.kid == Some(kid) then Some(jwk) else None
  {
    if keys == [] {
      assert keys + [jwk] == [jwk];
      assert [jwk][1..] == [];
    } else {
      assert (keys + [jwk])[1..] == keys[1..] + [jwk];
      FindAppend(keys[1..], jwk, kid);
    }
  }

  datatype CachedJwks = CachedJwks(fetchedAt: Time, keys: seq<Jwk>, decodingKeys: map<Kid, Option<Key>>)

  /** The index agrees with a first-match lookup, for every `kid` whatsoever. */
  ghost predicate Indexes(index: map<Kid, Option<Key>>, keys: seq<Jwk>)
  {
    forall kid ::
      (kid in index <==> Find(keys, kid).Some?) &&
      (kid in index ==> index[kid] == Find(keys, kid).value.material)
  }

  ghost predicate Faithful(c: CachedJwks)
  {
    Indexes(c.decodingKeys, c.keys)
  }

  method NewCachedJwks(fetchedAt: Time, keys: seq<Jwk>) returns (c: CachedJwks)
    ensures c.fetchedAt == fetchedAt && c.keys == keys
    ensures Faithful(c)
  {
    var index: map<Kid, Option<Key>> := map[];
    for i := 0 to |keys|
      invariant Indexes(index, keys[..i])
    {
      var jwk := keys[i];
      assert keys[..i + 1] == keys[..i] + [jwk];
      forall kid { FindAppend(keys[..i], jwk, kid); }
      if jwk.kid.Some? && jwk.kid.value !in index {
        index := index[jwk.kid.value := jwk.material];
      }
    }
    assert keys[..|keys|] == keys;
    c := CachedJwks(fetchedAt, keys, index);
  }

  function DecodingKeyOf(c: CachedJwks, kid: Kid): (key: Option<Result<Key, Failure>>)
  {
    if kid !in c.decodingKeys then None
    else match c.decodingKeys[kid]
      case Some(key) => Some(Ok(key))
      case None => Some(Err(VerifierUnavailable))
  }

  datatype State = State(
    cache: Option<CachedJwks>,
    lastUnknownKidRefreshAt: Option<Time>,
    lastFailedRefreshAt: Option<Time>)

  /** `Instant::elapsed`, which saturates at zero. */
  function Elapsed(at: Time, now: Time): (d: nat)
  {
    if now >= at then now - at else 0
  }

  /** The three clock samples one cache decision takes, in source order. */
  datatype Samples = Samples(freshness: Time, failure: Time, unknown: Time)

  predicate Ordered(s: Samples)
  {
    s.freshness <= s.failure <= s.unknown
  }

  datatype Answer = Hit(result: Result<Key, Failure>) | Miss

  function CachedDecodingKey(st: State, kid: Kid, ttl: nat, now: Samples): (answer: Answer)
  {
    var isFresh := st.cache.Some? && Elapsed(st.cache.value.fetchedAt, now.freshness) < ttl;
    if isFresh && DecodingKeyOf(st.cache.value, kid).Some? then
      Hit(DecodingKeyOf(st.cache.value, kid).value)
    else if st.lastFailedRefreshAt.Some? &&
            Elapsed(st.lastFailedRefreshAt.value, now.failure) < FAILED_REFRESH_COOLDOWN then
      Hit(Err(VerifierUnavailable))
    else if isFresh && st.lastUnknownKidRefreshAt.Some? &&
            Elapsed(st.lastUnknownKidRefreshAt.value, now.unknown) < UNKNOWN_KID_REFRESH_COOLDOWN then
      Hit(Err(InvalidToken))
    else
      Miss
  }

  function RefreshIsForUnknownKid(st: State, kid: Kid, ttl: nat, now: Time): (b: bool)
  {
    st.cache.Some? && Elapsed(st.cache.value.fetchedAt, now) < ttl && Find(st.cache.value.keys, kid).None?
  }

  /** One fetch that was recorded: when it completed, what it yielded and why it ran. */
  datatype Fetch = Fetch(kid: Kid, forUnknown: bool, at: Time, keys: Option<seq<Jwk>>)

  ghost predicate Recorded(before: State, fetch: Fetch, after: State)
  {
    match fetch.keys
    case None =>
      && after.cache == before.cache
      && after.lastFailedRefreshAt == Some(fetch.at)
      && after.lastUnknownKidRefreshAt == (if fetch.forUnknown then Some(fetch.at) else before.lastUnknownKidRefreshAt)
    case Some(keys) =>
      && after.cache.Some? && Faithful(after.cache.value)
      && after.cache.value.fetchedAt == fetch.at && after.cache.value.keys == keys
      && after.lastFailedRefreshAt == None
      && after.lastUnknownKidRefreshAt ==
         (if fetch.forUnknown || Find(keys, fetch.kid).None? then Some(fetch.at) else None)
  }

  /** What the fetching call itself returns. */
  function FetchResult(fetch: Fetch): (r: Result<Key, Failure>)
  {
    match fetch.keys
    case None => Err(VerifierUnavailable)
    case Some(keys) =>
      match Find(keys, fetch.kid)
      case None => Err(InvalidToken)
      case Some(jwk) => if jwk.material.Some? then Ok(jwk.material.value) else Err(VerifierUnavailable)
  }

  /** The mutable cell behind the source's `RwLock<JwksCacheState>`. */
  class JwksCacheCell {
    var cache: Option<CachedJwks>
    var lastUnknownKidRefreshAt: Option<Time>
    var lastFailedRefreshAt: Option<Time>

    ghost function View(): State
      reads this
    {
      State(cache, lastUnknownKidRefreshAt, lastFailedRefreshAt)
    }

    constructor ()
      ensures View() == State(None, None, None)
    {
      cache, lastUnknownKidRefreshAt, lastFailedRefreshAt := None, None, None;
    }

    /** The tail of `decoding_key`, from the fetch outcome to the returned result. */
    method RecordFetch(fetch: Fetch) returns (r: Result<Key, Failure>)
      modifies this
      ensures Recorded(old(View()), fetch, View())
      ensures r == FetchResult(fetch)
    {
      match fetch.keys {
        case None =>
          lastFailedRefreshAt := Some(fetch.at);
          if fetch.forUnknown {
            lastUnknownKidRefreshAt := Some(fetch.at);
          }
          r := Err(VerifierUnavailable);
        case Some(keys) =>
          var fetched := NewCachedJwks(fetch.at, keys);
          var key := DecodingKeyOf(fetched, fetch.kid);
          var missingAfterRefresh := key.None?;
          cache := Some(fetched);
          lastFailedRefreshAt := None;
          lastUnknownKidRefreshAt := if fetch.forUnknown || missingAfterRefresh then Some(fetch.at) else None;
          r := if key.Some? then key.value else Err(InvalidToken);
      }
    }
  }

  // ----- The protocol: any number of concurrent calls -----

  datatype Phase =
    | Called(kid: Kid)
    | AwaitingGate(kid: Kid, last: Time)
    | Gated(kid: Kid, last: Time)
    | Missed(kid: Kid, samples: Samples)
    | Fetching(kid: Kid, samples: Samples, probe: Time, forUnknown: bool)
    | Fetched(kid: Kid, samples: Samples, probe: Time, fetch: Fetch)
    /** `at` and `seen` say when the answer was decided and after how many recorded fetches. */
    | Done(kid: Kid, result: Result<Key, Failure>, at: Time, seen: nat)
    | Dropped

  predicate HoldsGate(p: Phase)
  {
    p.Gated? || p.Missed? || p.Fetching? || p.Fetched?
  }

  datatype Machine = Machine(
    clock: Time, state: State, gate: Option<nat>, calls: map<nat, Phase>, log: seq<Fetch>)

  /** `Record` names the state it writes, because the index it builds is constrained rather than computed. */
  datatype Step =
    | Begin(c: nat, kid: Kid)
    | FirstRead(c: nat, samples: Samples)
    | AcquireGate(c: nat, t: Time)
    | Recheck(c: nat, samples: Samples)
    | Probe(c: nat, t: Time)
    | FetchEnds(c: nat, t: Time, keys: Option<seq<Jwk>>)
    | Record(c: nat, written: State)
    | Cancel(c: nat)

  ghost predicate Enabled(m: Machine, step: Step)
  {
    if step.Begin? then step.c !in m.calls
    else
      step.c in m.calls &&
      var p := m.calls[step.c];
      match step
      case FirstRead(_, s) => p.Called? && Ordered(s) && m.clock <= s.freshness
      case AcquireGate(_, t) => p.AwaitingGate? && m.gate.None? && m.clock <= t && p.last <= t
      case Recheck(_, s) => p.Gated? && Ordered(s) && m.clock <= s.freshness && p.last <= s.freshness
      case Probe(_, t) => p.Missed? && m.clock <= t && p.samples.unknown <= t
      case FetchEnds(_, t, _) => p.Fetching? && m.clock <= t && p.probe <= t
      case Record(_, written) => p.Fetched? && Recorded(m.state, p.fetch, written)
      case Cancel(_) => !p.Done?
  }

  ghost function Apply(m: Machine, step: Step, ttl: nat): (m': Machine)
    requires Enabled(m, step)
  {
    var c := step.c;
    match step
    case Begin(_, kid) => m.(calls := m.calls[c := Called(kid)])
    case FirstRead(_, s) =>
      var kid := m.calls[c].kid;
      var next := match CachedDecodingKey(m.state, kid, ttl, s)
        case Hit(r) => Done(kid, r, s.freshness, |m.log|)
        case Miss => AwaitingGate(kid, s.unknown);
      m.(clock := s.freshness, calls := m.calls[c := next])
    case AcquireGate(_, t) => m.(clock := t, gate := Some(c), calls := m.calls[c := Gated(m.calls[c].kid, t)])
    case Recheck(_, s) =>
      var kid := m.calls[c].kid;
      (match CachedDecodingKey(m.state, kid, ttl, s)
       case Hit(r) => m.(clock := s.freshness, gate := None, calls := m.calls[c := Done(kid, r, s.freshness, |m.log|)])
       case Miss => m.(clock := s.freshness, calls := m.calls[c := Missed(kid, s)]))
    case Probe(_, t) =>
      var p := m.calls[c];
      var forUnknown := RefreshIsForUnknownKid(m.state, p.kid, ttl, t);
      m.(clock := t, calls := m.calls[c := Fetching(p.kid, p.samples, t, forUnknown)])
    case FetchEnds(_, t, keys) =>
      var p := m.calls[c];
      m.(clock := t,
         calls := m.calls[c := Fetched(p.kid, p.samples, p.probe, Fetch(p.kid, p.forUnknown, t, keys))])
    case Record(_, written) =>
      var p := m.calls[c];
      m.(state := written, gate := None, log := m.log + [p.fetch],
         calls := m.calls[c := Done(p.kid, FetchResult(p.fetch), p.fetch.at, |m.log| + 1)])
    case Cancel(_) =>
      m.(gate := if m.gate == Some(c) then None else m.gate, calls := m.calls[c := Dropped])
  }

  const INITIAL: Machine := Machine(0, State(None, None, None), None, map[], [])

  /** The machine after a sequence of steps, or `None` when some step was not enabled. */
  ghost function Exec(steps: seq<Step>, ttl: nat): (m: Option<Machine>)
  {
    if steps == [] then Some(INITIAL)
    else
      var last := steps[|steps| - 1];
      match Exec(steps[..|steps| - 1], ttl)
      case None => None
      case Some(m) => if Enabled(m, last) then Some(Apply(m, last, ttl)) else None
  }

  /** The index of the latest successful fetch. */
  function LatestSuccess(log: seq<Fetch>): (i: Option<nat>)
    ensures i.Some? ==> i.value < |log| && log[i.value].keys.Some?
    ensures i.Some? ==> forall j :: i.value < j < |log| ==> log[j].keys.None?
    ensures i.None? ==> forall j :: 0 <= j < |log| ==> log[j].keys.None?
  {
    if log == [] then None
    else if log[|log| - 1].keys.Some? then Some(|log| - 1)
    else LatestSuccess(log[..|log| - 1])
  }

  /** The cached state is what the recorded fetches left behind. */
  ghost predicate Coherent(st: State, log: seq<Fetch>)
  {
    && (match LatestSuccess(log)
        case None => st.cache.None?
        case Some(i) =>
          st.cache.Some? && Faithful(st.cache.value) &&
          st.cache.value.fetchedAt == log[i].at && st.cache.value.keys == log[i].keys.value)
    && st.lastFailedRefreshAt == (if log != [] && log[|log| - 1].keys.None? then Some(log[|log| - 1].at) else None)
    && st.lastUnknownKidRefreshAt == UnknownAt(log)
  }

  /** A fetch that was made for an unknown `kid`, or did not bring the one it was made for. */
  predicate SawUnknown(fetch: Fetch)
  {
    fetch.forUnknown || (fetch.keys.Some? && Find(fetch.keys.value, fetch.kid).None?)
  }

  /** When an unknown `kid` was last looked for in vain, as far as the fetches since then leave that standing. */
  function UnknownAt(log: seq<Fetch>): (at: Option<Time>)
  {
    if log == [] then None
    else
      var last := log[|log| - 1];
      if SawUnknown(last) then Some(last.at)
      else if last.keys.Some? then None
      else UnknownAt(log[..|log| - 1])
  }

  /** The same without recursion: such a fetch at `at`, after which nothing but plain failures was recorded. */
  ghost predicate UnknownSince(log: seq<Fetch>, at: Time)
  {
    exists i :: 0 <= i < |log| && SawUnknown(log[i]) && log[i].at == at &&
      forall j :: i < j < |log| ==> log[j].keys.None? && !log[j].forUnknown
  }

  lemma {:induction false} UnknownAtIsSince(log: seq<Fetch>, at: Time)
    ensures UnknownAt(log) == Some(at) <==> UnknownSince(log, at)
  {
    if log != [] {
      var n := |log| - 1;
      var before := log[..n];
      UnknownAtIsSince(before, at);
      if !SawUnknown(log[n]) && log[n].keys.None? {
        if UnknownSince(before, at) {
          var i :| 0 <= i < n && SawUnknown(before[i]) && before[i].at == at &&
            forall j :: i < j < n ==> before[j].keys.None? && !before[j].forUnknown;
          assert SawUnknown(log[i]);
        }
        if UnknownSince(log, at) {
          var i :| 0 <= i < |log| && SawUnknown(log[i]) && log[i].at == at &&
            forall j :: i < j < |log| ==> log[j].keys.None? && !log[j].forUnknown;
          assert SawUnknown(before[i]);
        }
      }
    }
  }

  /** What the latest successful fetch in `view` says about a `kid` at an instant within its lifetime. */
  ghost predicate FreshlyKnown(view: seq<Fetch>, kid: Kid, ttl: nat, at: Time, found: Option<Jwk>)
  {
    match LatestSuccess(view)
    case None => false
    case Some(i) => at - view[i].at < ttl && Find(view[i].keys.value, kid) == found
  }

  /** Why a call may give the answer it gave. */
  ghost predicate Justified(log: seq<Fetch>, ttl: nat, kid: Kid, result: Result<Key, Failure>, at: Time, seen: nat)
  {
    seen <= |log| &&
    var view := log[..seen];
    match result
    case Ok(key) => exists jwk: Jwk :: jwk.material == Some(key) && FreshlyKnown(view, kid, ttl, at, Some(jwk))
    case Err(InvalidToken) => FreshlyKnown(view, kid, ttl, at, None)
    case Err(VerifierUnavailable) =>
      || (seen > 0 && view[seen - 1].keys.None? && at - view[seen - 1].at < FAILED_REFRESH_COOLDOWN)
      || (exists jwk: Jwk :: jwk.material.None? && FreshlyKnown(view, kid, ttl, at, Some(jwk)))
  }

  ghost predicate CallOk(m: Machine, ttl: nat, c: nat)
    requires c in m.calls
  {
    var p := m.calls[c];
    && (HoldsGate(p) <==> m.gate == Some(c))
    && (p.Missed? || p.Fetching? || p.Fetched? ==>
          && Ordered(p.samples)
          && CachedDecodingKey(m.state, p.kid, ttl, p.samples) == Miss
          && (m.log != [] ==> m.log[|m.log| - 1].at <= p.samples.freshness))
    && (p.Fetching? ==>
          p.samples.unknown <= p.probe && p.forUnknown == RefreshIsForUnknownKid(m.state, p.kid, ttl, p.probe))
    && (p.Fetched? ==>
          && p.samples.unknown <= p.probe <= p.fetch.at <= m.clock
          && p.fetch.kid == p.kid
          && p.fetch.forUnknown == RefreshIsForUnknownKid(m.state, p.kid, ttl, p.probe))
    && (p.Done? ==> Justified(m.log, ttl, p.kid, p.result, p.at, p.seen))
  }

  /** Adjacent fetches closer than the failure cooldown: the first was not, the second was, for an unknown kid. */
  ghost predicate Paced(log: seq<Fetch>)
  {
    forall i, j :: 0 <= i < |log| && j == i + 1 && j < |log| ==>
      && log[i].at <= log[j].at
      && (log[j].at < log[i].at + FAILED_REFRESH_COOLDOWN ==> !log[i].forUnknown && log[j].forUnknown)
  }

  ghost predicate Inv(m: Machine, ttl: nat)
  {
    && (m.gate.Some? ==> m.gate.value in m.calls)
    && (forall c :: c in m.calls ==> CallOk(m, ttl, c))
    && Coherent(m.state, m.log)
    && (m.log != [] ==> m.log[|m.log| - 1].at <= m.clock)
    && Paced(m.log)
  }

  /** A decision served from the cache is justified by the recorded fetches. */
  lemma HitIsJustified(m: Machine, kid: Kid, ttl: nat, s: Samples)
    requires Coherent(m.state, m.log) && Ordered(s)
    requires m.log != [] ==> m.log[|m.log| - 1].at <= s.freshness
    requires CachedDecodingKey(m.state, kid, ttl, s).Hit?
    ensures Justified(m.log, ttl, kid, CachedDecodingKey(m.state, kid, ttl, s).result, s.freshness, |m.log|)
  {
    assert m.log[..|m.log|] == m.log;
    var st := m.state;
    if st.cache.Some? && Elapsed(st.cache.value.fetchedAt, s.freshness) < ttl {
      var found := Find(st.cache.value.keys, kid);
      assert FreshlyKnown(m.log, kid, ttl, s.freshness, found);
      if found.Some? {
        assert found == Some(found.value);
      }
    }
  }

  /** The fetching call's own answer is justified by the fetch it has just recorded. */
  lemma OwnFetchIsJustified(log: seq<Fetch>, fetch: Fetch, ttl: nat)
    requires 0 < ttl
    ensures Justified(log + [fetch], ttl, fetch.kid, FetchResult(fetch), fetch.at, |log| + 1)
  {
    var view := (log + [fetch])[..|log| + 1];
    assert view == log + [fetch];
    if fetch.keys.Some? {
      var found := Find(fetch.keys.value, fetch.kid);
      assert LatestSuccess(view) == Some(|log|);
      assert FreshlyKnown(view, fetch.kid, ttl, fetch.at, found);
      if found.Some? {
        assert found == Some(found.value);
      }
    }
  }

  /** Recording a fetch keeps the cached state coherent with the log. */
  lemma RecordKeepsCoherent(m: Machine, fetch: Fetch, written: State)
    requires Coherent(m.state, m.log) && Recorded(m.state, fetch, written)
    ensures Coherent(written, m.log + [fetch])
  {
    LogGrows(m.log, fetch);
  }

  lemma LogGrows(log: seq<Fetch>, fetch: Fetch)
    ensures LatestSuccess(log + [fetch]) == if fetch.keys.Some? then Some(|log|) else LatestSuccess(log)
    ensures UnknownAt(log + [fetch]) ==
            if SawUnknown(fetch) then Some(fetch.at) else if fetch.keys.Some? then None else UnknownAt(log)
  {
    assert (log + [fetch])[..|log|] == log;
  }

  /** The heart of the rate bound: what a miss under the gate says about the previous fetch. */
  lemma RecordKeepsPaced(m: Machine, ttl: nat, c: nat)
    requires FAILED_REFRESH_COOLDOWN <= ttl && Inv(m, ttl)
    requires c in m.calls && m.calls[c].Fetched?
    ensures Paced(m.log + [m.calls[c].fetch])
  {
    var p := m.calls[c];
    assert CallOk(m, ttl, c);
    if m.log != [] && p.fetch.at < m.log[|m.log| - 1].at + FAILED_REFRESH_COOLDOWN {
      var last := m.log[|m.log| - 1];
      assert last.keys.Some?;
      assert LatestSuccess(m.log) == Some(|m.log| - 1);
    }
  }

  /** A call that a step does not touch keeps its part of the invariant. */
  lemma UntouchedCall(m: Machine, m': Machine, ttl: nat, d: nat)
    requires d in m.calls && d in m'.calls && m'.calls[d] == m.calls[d] && CallOk(m, ttl, d)
    requires m'.state == m.state && m'.log == m.log && m.clock <= m'.clock
    requires m.gate == Some(d) <==> m'.gate == Some(d)
    ensures CallOk(m', ttl, d)
  {
  }

  /** A step that only moves its own call, the clock and the gate keeps the invariant if that call stays in order. */
  lemma LocalStepKeepsInv(m: Machine, m': Machine, ttl: nat, c: nat)
    requires Inv(m, ttl)
    requires c in m'.calls && m'.calls == m.calls[c := m'.calls[c]] && CallOk(m', ttl, c)
    requires m'.state == m.state && m'.log == m.log && m.clock <= m'.clock
    requires m'.gate == m.gate || (m.gate.None? && m'.gate == Some(c)) || (m.gate == Some(c) && m'.gate.None?)
    ensures Inv(m', ttl)
  {
    forall d | d in m'.calls ensures CallOk(m', ttl, d) {
      if d != c {
        assert CallOk(m, ttl, d);
        UntouchedCall(m, m', ttl, d);
      }
    }
  }

  lemma RecordKeepsInv(m: Machine, c: nat, written: State, ttl: nat)
    requires FAILED_REFRESH_COOLDOWN <= ttl && Inv(m, ttl) && Enabled(m, Record(c, written))
    ensures Inv(Apply(m, Record(c, written), ttl), ttl)
  {
    var m' := Apply(m, Record(c, written), ttl);
    var fetch := m.calls[c].fetch;
    assert CallOk(m, ttl, c);
    RecordKeepsCoherent(m, fetch, written);
    RecordKeepsPaced(m, ttl, c);
    forall d | d in m'.calls ensures CallOk(m', ttl, d) {
      if d != c { RecordSparesOthers(m, c, written, ttl, d); } else { RecordSettlesOwn(m, c, written, ttl); }
    }
  }

  lemma RecordSettlesOwn(m: Machine, c: nat, written: State, ttl: nat)
    requires 0 < ttl && Inv(m, ttl) && Enabled(m, Record(c, written))
    ensures CallOk(Apply(m, Record(c, written), ttl), ttl, c)
  {
    assert CallOk(m, ttl, c);
    OwnFetchIsJustified(m.log, m.calls[c].fetch, ttl);
  }

  lemma RecordSparesOthers(m: Machine, c: nat, written: State, ttl: nat, d: nat)
    requires Inv(m, ttl) && Enabled(m, Record(c, written)) && d in m.calls && d != c
    ensures CallOk(Apply(m, Record(c, written), ttl), ttl, d)
  {
    assert CallOk(m, ttl, c) && CallOk(m, ttl, d);
    var m' := Apply(m, Record(c, written), ttl);
    if m.calls[d].Done? {
      assert m'.log[..m.calls[d].seen] == m.log[..m.calls[d].seen];
    }
  }

  lemma ReadKeepsInv(m: Machine, step: Step, ttl: nat)
    requires Inv(m, ttl) && Enabled(m, step) && (step.FirstRead? || step.Recheck?)
    ensures Inv(Apply(m, step, ttl), ttl)
  {
    var m' := Apply(m, step, ttl);
    var kid := m.calls[step.c].kid;
    assert CallOk(m, ttl, step.c);
    if CachedDecodingKey(m.state, kid, ttl, step.samples).Hit? {
      HitIsJustified(m, kid, ttl, step.samples);
    }
    LocalStepKeepsInv(m, m', ttl, step.c);
  }

  lemma StepKeepsInv(m: Machine, step: Step, ttl: nat)
    requires FAILED_REFRESH_COOLDOWN <= ttl && Inv(m, ttl) && Enabled(m, step)
    ensures Inv(Apply(m, step, ttl), ttl)
  {
    if step.Record? {
      RecordKeepsInv(m, step.c, step.written, ttl);
    } else if step.FirstRead? || step.Recheck? {
      ReadKeepsInv(m, step, ttl);
    } else {
      assert step.c in m.calls ==> CallOk(m, ttl, step.c);
      LocalStepKeepsInv(m, Apply(m, step, ttl), ttl, step.c);
    }
  }

  lemma {:induction false} ReachableInv(steps: seq<Step>, ttl: nat)
    requires FAILED_REFRESH_COOLDOWN <= ttl
    ensures Exec(steps, ttl).Some? ==> Inv(Exec(steps, ttl).value, ttl)
  {
    if steps != [] {
      var before := steps[..|steps| - 1];
      ReachableInv(before, ttl);
      if Exec(steps, ttl).Some? {
        StepKeepsInv(Exec(before, ttl).value, steps[|steps| - 1], ttl);
      }
    }
  }

  // ----- Main results -----

  /** Of any two adjacent gaps between recorded fetches at least one lasts five seconds. */
  lemma OneOfTwoGapsIsLong(steps: seq<Step>, ttl: nat, i: nat)
    requires FAILED_REFRESH_COOLDOWN <= ttl && Exec(steps, ttl).Some?
    requires i + 2 < |Exec(steps, ttl).value.log|
    ensures var log := Exec(steps, ttl).value.log;
            || log[i].at + 5_000_000_000 <= log[i + 1].at
            || log[i + 1].at + 5_000_000_000 <= log[i + 2].at
  {
    ReachableInv(steps, ttl);
  }

  /** The rate bound over every window of a run: k gaps span at least 5 * floor(k / 2) seconds. */
  lemma FetchRateIsBounded(steps: seq<Step>, ttl: nat, i: nat, j: nat)
    requires FAILED_REFRESH_COOLDOWN <= ttl && Exec(steps, ttl).Some?
    requires i <= j < |Exec(steps, ttl).value.log|
    ensures var log := Exec(steps, ttl).value.log;
            log[i].at + (j - i) / 2 * 5_000_000_000 <= log[j].at
  {
    ReachableInv(steps, ttl);
    PacedLogSpans(Exec(steps, ttl).value.log, i, j);
  }

  lemma TwoPacedGaps(log: seq<Fetch>, i: nat)
    requires Paced(log) && i + 2 < |log|
    ensures log[i].at + FAILED_REFRESH_COOLDOWN <= log[i + 2].at
  {
    var j, k := i + 1, i + 2;
    assert log[i].at <= log[j].at && log[j].at <= log[k].at;
  }

  lemma {:induction false} PacedLogSpans(log: seq<Fetch>, i: nat, j: nat)
    requires Paced(log) && i <= j < |log|
    ensures log[i].at + (j - i) / 2 * FAILED_REFRESH_COOLDOWN <= log[j].at
    decreases j - i
  {
    if j >= i + 2 {
      TwoPacedGaps(log, i);
      PacedLogSpans(log, i + 2, j);
      var pairs := (j - (i + 2)) / 2;
      assert (j - i) / 2 == pairs + 1;
      assert (pairs + 1) * FAILED_REFRESH_COOLDOWN == pairs * FAILED_REFRESH_COOLDOWN + FAILED_REFRESH_COOLDOWN;
    } else if j == i + 1 {
      assert log[i].at <= log[j].at;
    }
  }

  /** At most one call is past the gate, so at most one fetch is in flight. */
  lemma SingleFlight(steps: seq<Step>, ttl: nat, c: nat, d: nat)
    requires FAILED_REFRESH_COOLDOWN <= ttl && Exec(steps, ttl).Some?
    requires var calls := Exec(steps, ttl).value.calls;
             c in calls && d in calls && HoldsGate(calls[c]) && HoldsGate(calls[d])
    ensures c == d
  {
    ReachableInv(steps, ttl);
    var m := Exec(steps, ttl).value;
    assert CallOk(m, ttl, c) && CallOk(m, ttl, d);
  }

  /** Every answer any call ever gives is justified by the fetches recorded when it was decided. */
  lemma AnswersAreJustified(steps: seq<Step>, ttl: nat, c: nat)
    requires FAILED_REFRESH_COOLDOWN <= ttl && Exec(steps, ttl).Some?
    requires c in Exec(steps, ttl).value.calls && Exec(steps, ttl).value.calls[c].Done?
    ensures var m := Exec(steps, ttl).value;
            var p := m.calls[c];
            Justified(m.log, ttl, p.kid, p.result, p.at, p.seen)
  {
    ReachableInv(steps, ttl);
    assert CallOk(Exec(steps, ttl).value, ttl, c);
  }

  // ----- What a cache read must answer -----

  /** The first JWK with this `kid` in the latest fetched set, while that set is younger than the TTL. */
  ghost predicate Serves(log: seq<Fetch>, ttl: nat, kid: Kid, at: Time, jwk: Jwk)
  {
    FreshlyKnown(log, kid, ttl, at, Some(jwk))
  }

  ghost predicate FailedLately(log: seq<Fetch>, at: Time)
  {
    log != [] && log[|log| - 1].keys.None? && at - log[|log| - 1].at < 5_000_000_000
  }

  ghost predicate UnknownLately(log: seq<Fetch>, at: Time)
  {
    exists t :: UnknownSince(log, t) && at - t < 30_000_000_000
  }

  /** How a read leaves its call: with an answer, or on its way to the gate or to a fetch. */
  predicate Answered(p: Phase, result: Result<Key, Failure>)
  {
    p.Done? && p.result == result
  }

  predicate GoesOn(p: Phase)
  {
    p.AwaitingGate? || p.Missed?
  }

  lemma UnknownClock(st: State, log: seq<Fetch>, at: Time)
    requires Coherent(st, log) && (st.lastUnknownKidRefreshAt.Some? ==> st.lastUnknownKidRefreshAt.value <= at)
    ensures UnknownLately(log, at) <==>
            st.lastUnknownKidRefreshAt.Some? && Elapsed(st.lastUnknownKidRefreshAt.value, at) < UNKNOWN_KID_REFRESH_COOLDOWN
  {
    if st.lastUnknownKidRefreshAt.Some? {
      UnknownAtIsSince(log, st.lastUnknownKidRefreshAt.value);
    }
    if UnknownLately(log, at) {
      var t :| UnknownSince(log, t) && at - t < 30_000_000_000;
      UnknownAtIsSince(log, t);
    }
  }

  lemma {:induction false} StampsArePast(log: seq<Fetch>, at: Time)
    requires Paced(log) && (log != [] ==> log[|log| - 1].at <= at)
    ensures forall i :: 0 <= i < |log| ==> log[i].at <= at
  {
    if log != [] {
      var n := |log| - 1;
      if n > 0 { assert log[n - 1].at <= log[n].at; }
      assert forall i, j :: 0 <= i < n && j == i + 1 && j < n ==> log[..n][i] == log[i] && log[..n][j] == log[j];
      StampsArePast(log[..n], at);
    }
  }

  lemma {:induction false} UnknownAtIsAStamp(log: seq<Fetch>)
    ensures UnknownAt(log).Some? ==> exists i :: 0 <= i < |log| && log[i].at == UnknownAt(log).value
  {
    if UnknownAt(log).Some? {
      UnknownAtIsSince(log, UnknownAt(log).value);
    }
  }

  /** The decision from the cached state, told from the recorded fetches alone. */
  lemma DecisionFromLog(m: Machine, kid: Kid, ttl: nat, s: Samples)
    requires Coherent(m.state, m.log) && Paced(m.log) && Ordered(s) && (m.log != [] ==> m.log[|m.log| - 1].at <= s.freshness)
    ensures var answer := CachedDecodingKey(m.state, kid, ttl, s);
            && (forall jwk: Jwk :: Serves(m.log, ttl, kid, s.freshness, jwk) ==>
                  answer == Hit(if jwk.material.Some? then Ok(jwk.material.value) else Err(VerifierUnavailable)))
            && ((forall jwk: Jwk :: !Serves(m.log, ttl, kid, s.freshness, jwk)) ==>
                  && (answer == Hit(Err(VerifierUnavailable)) <==> FailedLately(m.log, s.failure))
                  && (answer == Hit(Err(InvalidToken)) <==>
                        !FailedLately(m.log, s.failure) && FreshlyKnown(m.log, kid, ttl, s.freshness, None) && UnknownLately(m.log, s.unknown))
                  && (answer.Hit? ==> answer.result.Err?))
  {
    StampsArePast(m.log, s.freshness);
    UnknownAtIsAStamp(m.log);
    UnknownClock(m.state, m.log, s.unknown);
    var st := m.state;
    if LatestSuccess(m.log).Some? {
      var found := Find(st.cache.value.keys, kid);
      if Elapsed(st.cache.value.fetchedAt, s.freshness) < ttl {
        assert FreshlyKnown(m.log, kid, ttl, s.freshness, found);
        if found.Some? { assert Serves(m.log, ttl, kid, s.freshness, found.value); }
      }
    }
  }

  /**
    What a read must do, in any run and whatever the cooldown clocks say: a JWK that the latest set
    still serves decides the answer. Without one, the call is refused as unavailable exactly when the
    last fetch failed less than 5 s ago, refused as invalid exactly when that is not so, the latest
    set is fresh and an unknown `kid` was looked for in vain less than 30 s ago, and goes on otherwise.
   */
  lemma ReadsAnswerExactly(steps: seq<Step>, ttl: nat, step: Step)
    requires FAILED_REFRESH_COOLDOWN <= ttl && Exec(steps, ttl).Some? && Enabled(Exec(steps, ttl).value, step)
    requires step.FirstRead? || step.Recheck?
    ensures var log, s := Exec(steps, ttl).value.log, step.samples;
            var kid, p := Exec(steps, ttl).value.calls[step.c].kid, Apply(Exec(steps, ttl).value, step, ttl).calls[step.c];
            && (forall jwk: Jwk :: Serves(log, ttl, kid, s.freshness, jwk) ==>
                  Answered(p, if jwk.material.Some? then Ok(jwk.material.value) else Err(VerifierUnavailable)))
            && ((forall jwk: Jwk :: !Serves(log, ttl, kid, s.freshness, jwk)) ==>
                  && (Answered(p, Err(VerifierUnavailable)) <==> FailedLately(log, s.failure))
                  && (Answered(p, Err(InvalidToken)) <==>
                        !FailedLately(log, s.failure) && FreshlyKnown(log, kid, ttl, s.freshness, None) && UnknownLately(log, s.unknown))
                  && (GoesOn(p) <==> !Answered(p, Err(VerifierUnavailable)) && !Answered(p, Err(InvalidToken))))
  {
    ReachableInv(steps, ttl);
    var m := Exec(steps, ttl).value;
    DecisionFromLog(m, m.calls[step.c].kid, ttl, step.samples);
  }
}
