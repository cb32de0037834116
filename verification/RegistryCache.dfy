/**
  The hot-reload cache of the access registry, `RegistrySource` in src/config.rs.
  The cache is keyed on file contents and shared by concurrent loads; the results below say that
  nobody can tell it is there.
 */
module RegistryCache {
  import opened Common
  import opened AccessRegistry

  newtype byte = x: int | 0 <= x < 256
  type Bytes = seq<byte>

  const MAX_ACCESS_REGISTRY_BYTES: nat := 1_048_576

  datatype Failure = Unreadable | TooLarge | BadJson | Invalid | JwtContract | RestartRequired

  datatype OzonBinding = OzonBinding(accountId: string, sellerClientId: string, storeId: string, clientIdEnv: string,
                                     apiKeyEnv: string, performanceEnvs: Option<(string, string)>, executorSha256: Option<string>)
  datatype WbBinding = WbBinding(accountId: string, sellerClientId: string, apiTokenEnv: string, sellerSid: Option<string>)

  /** The credential bindings a registry asks for. */
  datatype Bindings = Bindings(ozon: set<OzonBinding>, wildberries: set<WbBinding>)

  function OzonBindingOf(a: Account): (b: OzonBinding)
    requires a.ozon.Some?
  {
    var o := a.ozon.value;
    var performanceEnvs :=
      if o.performance.Some? then Some((o.performance.value.clientIdEnv, o.performance.value.clientSecretEnv)) else None;
    OzonBinding(a.id, a.sellerClientId, o.storeId, o.clientIdEnv, o.apiKeyEnv, performanceEnvs, Executor(a))
  }

  function WbBindingOf(a: Account): (b: WbBinding)
    requires a.wildberries.Some?
  {
    WbBinding(a.id, a.sellerClientId, a.wildberries.value.apiTokenEnv, a.wildberries.value.sellerSid)
  }

  function Snapshot(r: Registry): (b: Bindings)
  {
    Bindings(set i | 0 <= i < |r.accounts| && r.accounts[i].ozon.Some? :: OzonBindingOf(r.accounts[i]),
             set i | 0 <= i < |r.accounts| && r.accounts[i].wildberries.Some? :: WbBindingOf(r.accounts[i]))
  }

  /** Two Ozon accounts ask for the same credentials: they agree on every field that selects one. */
  predicate SameOzonCredentials(a: Account, b: Account)
    requires a.ozon.Some? && b.ozon.Some?
  {
    var x, y := a.ozon.value, b.ozon.value;
    && a.id == b.id && a.sellerClientId == b.sellerClientId
    && x.storeId == y.storeId && x.clientIdEnv == y.clientIdEnv && x.apiKeyEnv == y.apiKeyEnv
    && (x.performance.Some? <==> y.performance.Some?)
    && (x.performance.Some? ==>
          && x.performance.value.clientIdEnv == y.performance.value.clientIdEnv
          && x.performance.value.clientSecretEnv == y.performance.value.clientSecretEnv
          && x.performance.value.executorSha256 == y.performance.value.executorSha256)
  }

  predicate SameWbCredentials(a: Account, b: Account)
    requires a.wildberries.Some? && b.wildberries.Some?
  {
    && a.id == b.id && a.sellerClientId == b.sellerClientId
    && a.wildberries.value.apiTokenEnv == b.wildberries.value.apiTokenEnv
    && a.wildberries.value.sellerSid == b.wildberries.value.sellerSid
  }

  /** Every credential-bearing account of `r` has one in `s` that asks for the same credentials. */
  ghost predicate CredentialsWithin(r: Registry, s: Registry)
  {
    && (forall i :: 0 <= i < |r.accounts| && r.accounts[i].ozon.Some? ==>
          exists j :: 0 <= j < |s.accounts| && s.accounts[j].ozon.Some? && SameOzonCredentials(r.accounts[i], s.accounts[j]))
    && (forall i :: 0 <= i < |r.accounts| && r.accounts[i].wildberries.Some? ==>
          exists j :: 0 <= j < |s.accounts| && s.accounts[j].wildberries.Some? && SameWbCredentials(r.accounts[i], s.accounts[j]))
  }

  lemma BindingsCompareFields(a: Account, b: Account)
    ensures a.ozon.Some? && b.ozon.Some? ==> (OzonBindingOf(a) == OzonBindingOf(b) <==> SameOzonCredentials(a, b))
    ensures a.wildberries.Some? && b.wildberries.Some? ==> (WbBindingOf(a) == WbBindingOf(b) <==> SameWbCredentials(a, b))
  {
  }

  lemma SnapshotWithin(r: Registry, s: Registry)
    ensures Snapshot(r).ozon <= Snapshot(s).ozon && Snapshot(r).wildberries <= Snapshot(s).wildberries <==> CredentialsWithin(r, s)
  {
    forall a: Account, b: Account
      ensures a.ozon.Some? && b.ozon.Some? ==> (OzonBindingOf(a) == OzonBindingOf(b) <==> SameOzonCredentials(a, b))
      ensures a.wildberries.Some? && b.wildberries.Some? ==> (WbBindingOf(a) == WbBindingOf(b) <==> SameWbCredentials(a, b))
    {
      BindingsCompareFields(a, b);
    }
    if Snapshot(r).ozon <= Snapshot(s).ozon && Snapshot(r).wildberries <= Snapshot(s).wildberries {
      forall i | 0 <= i < |r.accounts| && r.accounts[i].ozon.Some?
        ensures exists j :: 0 <= j < |s.accounts| && s.accounts[j].ozon.Some? && SameOzonCredentials(r.accounts[i], s.accounts[j])
      {
        assert OzonBindingOf(r.accounts[i]) in Snapshot(r).ozon;
        assert OzonBindingOf(r.accounts[i]) in Snapshot(s).ozon;
      }
      forall i | 0 <= i < |r.accounts| && r.accounts[i].wildberries.Some?
        ensures exists j :: 0 <= j < |s.accounts| && s.accounts[j].wildberries.Some? && SameWbCredentials(r.accounts[i], s.accounts[j])
      {
        assert WbBindingOf(r.accounts[i]) in Snapshot(r).wildberries;
        assert WbBindingOf(r.accounts[i]) in Snapshot(s).wildberries;
      }
    }
  }

  /** A reload keeps the startup bindings exactly when old and new accounts agree on every credential field. */
  lemma SnapshotsAgreeExactlyOnCredentials(r: Registry, s: Registry)
    ensures Snapshot(r) == Snapshot(s) <==> CredentialsWithin(r, s) && CredentialsWithin(s, r)
  {
    SnapshotWithin(r, s);
    SnapshotWithin(s, r);
  }

  /** The JWT contract: every actor has an immutable subject. */
  predicate JwtBound(r: Registry)
  {
    forall i :: 0 <= i < |r.actors| ==> Subject(r.actors[i]).Some?
  }

  /** JSON decoding of registry bytes, which this model does not look into. */
  type Decoder = Bytes -> Option<Registry>

  /** `read_registry_bytes`: at most the limit is accepted; `None` is a file that cannot be read. */
  function ReadRegistryBytes(contents: Option<Bytes>): (raw: Result<Bytes, Failure>)
  {
    match contents
    case None => Err(Unreadable)
    case Some(bytes) => if |bytes| > MAX_ACCESS_REGISTRY_BYTES then Err(TooLarge) else Ok(bytes)
  }

  ghost function FromSlice(decode: Decoder, raw: Bytes): (r: Result<Registry, Failure>)
  {
    match decode(raw)
    case None => Err(BadJson)
    case Some(registry) => if Sound(registry) then Ok(registry) else Err(Invalid)
  }

  /** What a load answers for the bytes it read when there is no cache at all. */
  ghost function Uncached(decode: Decoder, startup: Bindings, raw: Bytes, jwtRequired: bool): (r: Result<Registry, Failure>)
  {
    match FromSlice(decode, raw)
    case Err(e) => Err(e)
    case Ok(registry) =>
      if jwtRequired && !JwtBound(registry) then Err(JwtContract)
      else if Snapshot(registry) != startup then Err(RestartRequired)
      else Ok(registry)
  }

  /** When an uncached load succeeds, and with what: nothing but the bytes, the credentials and the JWT contract decide. */
  lemma UncachedSucceedsExactly(decode: Decoder, startup: Registry, raw: Bytes, jwtRequired: bool, r: Registry)
    ensures Uncached(decode, Snapshot(startup), raw, jwtRequired) == Ok(r) <==>
            && decode(raw) == Some(r) && Sound(r)
            && (jwtRequired ==> forall i :: 0 <= i < |r.actors| ==> r.actors[i].oidc.Some? && r.actors[i].oidc.value.subject.Some?)
            && CredentialsWithin(r, startup) && CredentialsWithin(startup, r)
  {
    SnapshotsAgreeExactlyOnCredentials(r, startup);
    JwtBoundMeansSubjects(r);
  }

  lemma JwtBoundMeansSubjects(r: Registry)
    ensures JwtBound(r) <==> forall i :: 0 <= i < |r.actors| ==> r.actors[i].oidc.Some? && r.actors[i].oidc.value.subject.Some?
  {
    assert forall i :: 0 <= i < |r.actors| ==>
      (Subject(r.actors[i]).Some? <==> r.actors[i].oidc.Some? && r.actors[i].oidc.value.subject.Some?);
  }

  /** A file is read exactly when it can be opened and holds at most one mebibyte. */
  lemma ReadsUpToOneMebibyte(contents: Option<Bytes>, raw: Bytes)
    ensures ReadRegistryBytes(contents) == Ok(raw) <==> contents == Some(raw) && |raw| <= 1_048_576
  {
  }

  datatype CachedRegistry = CachedRegistry(raw: Bytes, registry: Registry)

  /** A cache entry is what its bytes decode to, with the startup bindings. */
  ghost predicate Coherent(decode: Decoder, startup: Bindings, cache: Option<CachedRegistry>)
  {
    cache.Some? ==> FromSlice(decode, cache.value.raw) == Ok(cache.value.registry) && Snapshot(cache.value.registry) == startup
  }

  method FromSliceChecked(decode: Decoder, raw: Bytes) returns (r: Result<Registry, Failure>)
    ensures r == FromSlice(decode, raw)
  {
    var decoded := decode(raw);
    if decoded.None? { return Err(BadJson); }
    var ok := Validate(decoded.value);
    return if ok then Ok(decoded.value) else Err(Invalid);
  }

  /** One source, called by one caller at a time. */
  class RegistrySource {
    const decode: Decoder
    const startup: Bindings
    var cache: Option<CachedRegistry>
    var jwtRequired: bool

    ghost predicate Valid()
      reads this
    {
      Coherent(decode, startup, cache)
    }

    constructor (decode: Decoder, raw: Bytes, registry: Registry)
      requires FromSlice(decode, raw) == Ok(registry)
      ensures Valid() && this.decode == decode && startup == Snapshot(registry) && !jwtRequired
    {
      this.decode := decode;
      startup := Snapshot(registry);
      cache := Some(CachedRegistry(raw, registry));
      jwtRequired := false;
    }

    /** `contents` is what the file holds when it is read. */
    method Load(contents: Option<Bytes>) returns (r: Result<Registry, Failure>)
      requires Valid()
      modifies this`cache
      ensures Valid()
      ensures r == match ReadRegistryBytes(contents)
                   case Err(e) => Err(e)
                   case Ok(raw) => Uncached(decode, startup, raw, jwtRequired)
      ensures r.Ok? ==> cache.Some? && cache.value.registry == r.value
      ensures r.Err? ==> cache == old(cache)
    {
      var bytes := ReadRegistryBytes(contents);
      if bytes.Err? { return Err(bytes.error); }
      var raw := bytes.value;
      if cache.Some? && cache.value.raw == raw {
        if jwtRequired && !JwtBound(cache.value.registry) { return Err(JwtContract); }
        return Ok(cache.value.registry);
      }
      var parsed := FromSliceChecked(decode, raw);
      if parsed.Err? { return parsed; }
      var registry := parsed.value;
      if jwtRequired && !JwtBound(registry) { return Err(JwtContract); }
      if Snapshot(registry) != startup { return Err(RestartRequired); }
      cache := Some(CachedRegistry(raw, registry));
      return Ok(registry);
    }

    method RequireJwtOidcBindings(contents: Option<Bytes>) returns (failure: Option<Failure>)
      requires Valid()
      modifies this`cache, this`jwtRequired
      ensures Valid()
      ensures jwtRequired == (old(jwtRequired) || failure.None?)
      ensures failure == match ReadRegistryBytes(contents)
                         case Err(e) => Some(e)
                         case Ok(raw) =>
                           match Uncached(decode, startup, raw, old(jwtRequired))
                           case Err(e) => Some(e)
                           case Ok(registry) => if JwtBound(registry) then None else Some(JwtContract)
    {
      var loaded := Load(contents);
      if loaded.Err? { return Some(loaded.error); }
      if !JwtBound(loaded.value) { return Some(JwtContract); }
      jwtRequired := true;
      return None;
    }
  }

  /** `RegistrySource::new`: the first read must succeed, and fixes the credential bindings. */
  method NewRegistrySource(decode: Decoder, contents: Option<Bytes>) returns (r: Result<RegistrySource, Failure>)
    ensures ReadRegistryBytes(contents).Err? ==> r == Err(ReadRegistryBytes(contents).error)
    ensures ReadRegistryBytes(contents).Ok? ==>
            var first := FromSlice(decode, ReadRegistryBytes(contents).value);
            && (first.Err? ==> r == Err(first.error))
            && (first.Ok? ==> r.Ok? && fresh(r.value) && r.value.Valid() && r.value.decode == decode
                              && r.value.startup == Snapshot(first.value) && !r.value.jwtRequired)
  {
    var bytes := ReadRegistryBytes(contents);
    if bytes.Err? { return Err(bytes.error); }
    var first := FromSliceChecked(decode, bytes.value);
    if first.Err? { return Err(first.error); }
    var source := new RegistrySource(decode, bytes.value, first.value);
    return Ok(source);
  }

  // ----- Concurrent loads, edits and the JWT switch -----

  /** How far one load has come. */
  datatype Call =
    | Began
    | HasBytes(raw: Bytes)
    /** A cache hit: the registry came from the cache and awaits the JWT check. */
    | Hit(raw: Bytes, registry: Registry)
    /** A miss: the registry was decoded and validated and awaits the JWT check. */
    | Parsed(raw: Bytes, registry: Registry)
    | Compared(raw: Bytes, flag: bool, registry: Registry)
    /** `seen` is the switch this load looked at; a load that fails earlier never looks. */
    | Done(raw: Bytes, seen: Option<bool>, outcome: Result<Registry, Failure>)
    | NoBytes(failure: Failure)

  datatype Machine = Machine(cache: Option<CachedRegistry>, jwtRequired: bool, calls: map<nat, Call>)

  /** File edits need no step of their own: every read may find any contents. */
  datatype Step =
    | Begin(c: nat)
    | ReadFile(c: nat, contents: Option<Bytes>)
    | LookUp(c: nat)
    | CheckJwt(c: nat)
    | WriteCache(c: nat)
    /** `require_jwt_oidc_bindings` by a caller whose own load succeeded. */
    | SwitchOn(c: nat)

  predicate Enabled(m: Machine, step: Step)
  {
    if step.Begin? then step.c !in m.calls
    else
      step.c in m.calls &&
      var call := m.calls[step.c];
      match step
      case ReadFile(_, _) => call.Began?
      case LookUp(_) => call.HasBytes?
      case CheckJwt(_) => call.Hit? || call.Parsed?
      case WriteCache(_) => call.Compared?
      case SwitchOn(_) => call.Done? && call.outcome.Ok? && JwtBound(call.outcome.value)
  }

  /** The call after the caller's own step, given the shared state it looks at. */
  ghost function Advance(decode: Decoder, startup: Bindings, m: Machine, call: Call, step: Step): (next: Call)
    requires !step.Begin? && step.c in m.calls && call == m.calls[step.c] && Enabled(m, step)
  {
    match step
    case ReadFile(_, contents) =>
      (match ReadRegistryBytes(contents)
       case Err(e) => NoBytes(e)
       case Ok(raw) => HasBytes(raw))
    case LookUp(_) =>
      if m.cache.Some? && m.cache.value.raw == call.raw then Hit(call.raw, m.cache.value.registry)
      else
        (match FromSlice(decode, call.raw)
         case Err(e) => Done(call.raw, None, Err(e))
         case Ok(registry) => Parsed(call.raw, registry))
    case CheckJwt(_) =>
      var seen := m.jwtRequired;
      if seen && !JwtBound(call.registry) then Done(call.raw, Some(seen), Err(JwtContract))
      else if call.Hit? then Done(call.raw, Some(seen), Ok(call.registry))
      else if Snapshot(call.registry) != startup then Done(call.raw, Some(seen), Err(RestartRequired))
      else Compared(call.raw, seen, call.registry)
    case WriteCache(_) => Done(call.raw, Some(call.flag), Ok(call.registry))
    case SwitchOn(_) => call
  }

  ghost function Apply(decode: Decoder, startup: Bindings, m: Machine, step: Step): (m': Machine)
    requires Enabled(m, step)
  {
    if step.Begin? then m.(calls := m.calls[step.c := Began]) else
    var call := m.calls[step.c];
    Machine(if step.WriteCache? then Some(CachedRegistry(call.raw, call.registry)) else m.cache,
            m.jwtRequired || step.SwitchOn?,
            m.calls[step.c := Advance(decode, startup, m, call, step)])
  }

  /** A source created from `raw`, which decoded to a sound registry, and any steps after that. */
  ghost function Exec(decode: Decoder, raw: Bytes, steps: seq<Step>): (m: Option<Machine>)
    requires FromSlice(decode, raw).Ok?
  {
    var registry := FromSlice(decode, raw).value;
    if steps == [] then Some(Machine(Some(CachedRegistry(raw, registry)), false, map[]))
    else
      var last := steps[|steps| - 1];
      match Exec(decode, raw, steps[..|steps| - 1])
      case None => None
      case Some(m) => if Enabled(m, last) then Some(Apply(decode, Snapshot(registry), m, last)) else None
  }

  /** Every call on its way carries the truth about the bytes it read. */
  ghost predicate CallOk(decode: Decoder, startup: Bindings, call: Call)
  {
    match call
    case Began => true
    case HasBytes(_) => true
    case Hit(raw, registry) => FromSlice(decode, raw) == Ok(registry) && Snapshot(registry) == startup
    case Parsed(raw, registry) => FromSlice(decode, raw) == Ok(registry)
    case Compared(raw, flag, registry) => Uncached(decode, startup, raw, flag) == Ok(registry)
    case Done(raw, seen, outcome) =>
      && (seen.Some? ==> outcome == Uncached(decode, startup, raw, seen.value))
      && (seen.None? ==> outcome.Err? && FromSlice(decode, raw) == outcome)
    case NoBytes(_) => true
  }

  ghost predicate Inv(decode: Decoder, startup: Bindings, m: Machine)
  {
    && Coherent(decode, startup, m.cache)
    && (forall c :: c in m.calls ==> CallOk(decode, startup, m.calls[c]))
  }

  lemma AdvanceKeepsCall(decode: Decoder, startup: Bindings, m: Machine, step: Step)
    requires Inv(decode, startup, m) && !step.Begin? && Enabled(m, step)
    ensures CallOk(decode, startup, Advance(decode, startup, m, m.calls[step.c], step))
  {
    assert CallOk(decode, startup, m.calls[step.c]);
  }

  lemma StepKeepsInv(decode: Decoder, startup: Bindings, m: Machine, step: Step)
    requires Inv(decode, startup, m) && Enabled(m, step)
    ensures Inv(decode, startup, Apply(decode, startup, m, step))
  {
    if !step.Begin? { AdvanceKeepsCall(decode, startup, m, step); }
    var m' := Apply(decode, startup, m, step);
    forall c | c in m'.calls ensures CallOk(decode, startup, m'.calls[c]) {
      if c != step.c { assert CallOk(decode, startup, m.calls[c]); }
    }
    if step.WriteCache? { assert CallOk(decode, startup, m.calls[step.c]); }
  }

  lemma {:induction false} ReachableInv(decode: Decoder, raw: Bytes, steps: seq<Step>)
    requires FromSlice(decode, raw).Ok? && Exec(decode, raw, steps).Some?
    ensures Inv(decode, Snapshot(FromSlice(decode, raw).value), Exec(decode, raw, steps).value)
  {
    if steps != [] {
      var before := steps[..|steps| - 1];
      ReachableInv(decode, raw, before);
      StepKeepsInv(decode, Snapshot(FromSlice(decode, raw).value), Exec(decode, raw, before).value, steps[|steps| - 1]);
    }
  }

  // ----- Main results -----

  /**
    Cache transparency: in any interleaving, a finished load answers what an uncached decode,
    validate and compare answers for the bytes it read, the startup bindings and the JWT switch it
    saw; a load that never looked at the switch answers what it would under either position.
   */
  lemma CacheIsTransparent(decode: Decoder, raw: Bytes, steps: seq<Step>, c: nat)
    requires FromSlice(decode, raw).Ok? && Exec(decode, raw, steps).Some?
    requires c in Exec(decode, raw, steps).value.calls && Exec(decode, raw, steps).value.calls[c].Done?
    ensures var call, startup := Exec(decode, raw, steps).value.calls[c], Snapshot(FromSlice(decode, raw).value);
            && (call.seen.Some? ==> call.outcome == Uncached(decode, startup, call.raw, call.seen.value))
            && (call.seen.None? ==> forall flag :: call.outcome == Uncached(decode, startup, call.raw, flag))
  {
    ReachableInv(decode, raw, steps);
    assert CallOk(decode, Snapshot(FromSlice(decode, raw).value), Exec(decode, raw, steps).value.calls[c]);
  }

  /** Whatever a load returns is sound, asks for the startup credentials, and is what its own bytes decode to. */
  lemma LoadedIsSound(decode: Decoder, raw: Bytes, steps: seq<Step>, c: nat)
    requires FromSlice(decode, raw).Ok? && Exec(decode, raw, steps).Some?
    requires c in Exec(decode, raw, steps).value.calls && Exec(decode, raw, steps).value.calls[c].Done?
    requires Exec(decode, raw, steps).value.calls[c].outcome.Ok?
    ensures var call := Exec(decode, raw, steps).value.calls[c];
            && decode(call.raw) == Some(call.outcome.value) && Sound(call.outcome.value)
            && Snapshot(call.outcome.value) == Snapshot(FromSlice(decode, raw).value)
            && (call.seen == Some(true) ==> JwtBound(call.outcome.value))
  {
    CacheIsTransparent(decode, raw, steps, c);
  }

  /** The switch never goes off again. */
  lemma {:induction false} SwitchStaysOn(decode: Decoder, raw: Bytes, steps: seq<Step>, k: nat)
    requires FromSlice(decode, raw).Ok? && Exec(decode, raw, steps).Some? && k <= |steps|
    ensures Exec(decode, raw, steps[..k]).Some?
    ensures Exec(decode, raw, steps[..k]).value.jwtRequired ==> Exec(decode, raw, steps).value.jwtRequired
  {
    if k == |steps| {
      assert steps[..k] == steps;
    } else {
      assert steps[..|steps| - 1][..k] == steps[..k];
      SwitchStaysOn(decode, raw, steps[..|steps| - 1], k);
    }
  }

  /** What a call looked at when it checked the switch. */
  ghost predicate Saw(call: Call, flag: bool)
  {
    (call.Compared? && call.flag == flag) || (call.Done? && call.seen == Some(flag))
  }

  /** A check sees the switch as it is, and the call remembers that for good. */
  lemma {:induction false} CheckIsRemembered(decode: Decoder, raw: Bytes, steps: seq<Step>, k: nat, c: nat)
    requires FromSlice(decode, raw).Ok? && Exec(decode, raw, steps).Some? && k < |steps| && steps[k] == CheckJwt(c)
    ensures Exec(decode, raw, steps[..k]).Some? && c in Exec(decode, raw, steps).value.calls
    ensures Saw(Exec(decode, raw, steps).value.calls[c], Exec(decode, raw, steps[..k]).value.jwtRequired)
  {
    SwitchStaysOn(decode, raw, steps, k);
    var n := |steps| - 1;
    if k < n {
      assert steps[..n][..k] == steps[..k];
      CheckIsRemembered(decode, raw, steps[..n], k, c);
    }
  }

  /**
    Once the switch was on, by step `j`, every load that checks it from then on returns only
    registries that meet the JWT contract.
   */
  lemma SwitchBindsLaterChecks(decode: Decoder, raw: Bytes, steps: seq<Step>, j: nat, k: nat, c: nat)
    requires FromSlice(decode, raw).Ok? && Exec(decode, raw, steps).Some? && j <= k < |steps|
    requires Exec(decode, raw, steps[..j]).Some? && Exec(decode, raw, steps[..j]).value.jwtRequired
    requires steps[k] == CheckJwt(c)
    ensures c in Exec(decode, raw, steps).value.calls
    ensures var call := Exec(decode, raw, steps).value.calls[c];
            call.Done? && call.outcome.Ok? ==> JwtBound(call.outcome.value)
  {
    CheckIsRemembered(decode, raw, steps, k, c);
    assert steps[..k][..j] == steps[..j];
    SwitchStaysOn(decode, raw, steps[..k], j);
    var call := Exec(decode, raw, steps).value.calls[c];
    if call.Done? && call.outcome.Ok? { LoadedIsSound(decode, raw, steps, c); }
  }

  /** No load succeeds without having checked the switch. */
  lemma {:induction false} SuccessChecksTheSwitch(decode: Decoder, raw: Bytes, steps: seq<Step>, c: nat)
    requires FromSlice(decode, raw).Ok? && Exec(decode, raw, steps).Some?
    requires c in Exec(decode, raw, steps).value.calls && Exec(decode, raw, steps).value.calls[c].Done?
    ensures var call := Exec(decode, raw, steps).value.calls[c];
            call.outcome.Ok? || call.outcome == Err(JwtContract) || call.outcome == Err(RestartRequired) ==> call.seen.Some?
  {
    ReachableInv(decode, raw, steps);
    assert CallOk(decode, Snapshot(FromSlice(decode, raw).value), Exec(decode, raw, steps).value.calls[c]);
  }
}
