/**
  The macOS marketplace route reconciler (scripts/marketplace_routes.py).

  `World` is everything outside the process: the kernel's answers, the journal on
  disk, and interference by others before every command. Each command may fail,
  and may take effect whether or not it reports success, so a timeout, the alarm
  and a crash are all covered. `history` records every state the world passes
  through, which is what turns "at every step" into a postcondition.
 */
module RouteJournal {
  import opened Common

  type Address = string
  type Host = string

  /** The route flags the tool reads or sets; the kernel may report others. */
  datatype Flag = HOST | STATIC | PROTO2 | REJECT | BLACKHOLE | WASCLONED | OtherFlag(name: string)

  /** The fixed allowlists: marketplace hosts to bypass, and hosts that must stay on the VPN. */
  datatype Hosts = Hosts(marketplace: seq<Host>, vpn: seq<Host>)

  /** What Python's `ipaddress` says of an address text; `PublicV4` is global and not multicast. */
  datatype AddressKind = PublicV4 | PrivateLanV4 | OtherV4 | V6 | NotAnAddress
  type Classifier = Address -> AddressKind

  const MAX_IPS: nat := 64
  const MARKER: set<Flag> := {HOST, STATIC, PROTO2}

  datatype Config = Config(interface: string, gateway: Address)
  datatype Route = Route(destination: string, gateway: Option<Address>, interface: string, flags: set<Flag>)
  datatype Journal = Journal(config: Config, owned: seq<Address>)

  predicate Digits(s: string)
  {
    |s| > 0 && forall i :: 0 <= i < |s| ==> '0' <= s[i] <= '9'
  }

  predicate AcceptsConfig(kindOf: Classifier, config: Config)
  {
    && |config.interface| <= 5 && "en" <= config.interface && Digits(config.interface[2..])
    && kindOf(config.gateway) == PrivateLanV4
  }

  predicate Blocked(route: Route)
  {
    REJECT in route.flags || BLACKHOLE in route.flags
  }

  predicate Direct(route: Route, config: Config)
  {
    route.interface == config.interface && route.gateway == Some(config.gateway) && !Blocked(route)
  }

  predicate MarkedRoute(route: Route, address: Address, config: Config)
  {
    Direct(route, config) && route.destination == address && MARKER <= route.flags
  }

  predicate JournaledRoute(route: Route, address: Address, config: Config)
  {
    route.destination == address && route.gateway == Some(config.gateway) && MARKER <= route.flags
  }

  /** A marked route is a journaled one that leads straight to the LAN; a journaled one may have strayed. */
  lemma MarkedIsJournaledAndDirect(route: Route, address: Address, config: Config)
    ensures MarkedRoute(route, address, config) <==> JournaledRoute(route, address, config) && Direct(route, config)
    ensures JournaledRoute(route, address, config) && !MarkedRoute(route, address, config) ==>
              route.interface != config.interface || REJECT in route.flags || BLACKHOLE in route.flags
  {
  }

  predicate NoDuplicates<T(==)>(s: seq<T>)
  {
    forall i, j :: 0 <= i < j < |s| ==> s[i] != s[j]
  }

  predicate AcceptsState(kindOf: Classifier, state: Journal, config: Config)
  {
    && state.config == config
    && |state.owned| <= MAX_IPS
    && NoDuplicates(state.owned)
    && forall a :: a in state.owned ==> kindOf(a) == PublicV4
  }

  /** The loader takes the file: the checks of `locked_state` on a journal it reads back. */
  predicate Loadable(kindOf: Classifier, state: Journal)
  {
    AcceptsConfig(kindOf, state.config) && AcceptsState(kindOf, state, state.config)
  }

  function Elements<T>(s: seq<T>): (r: set<T>)
  {
    set x | x in s
  }

  lemma ElementsOfAppend<T>(s: seq<T>, x: T)
    ensures Elements(s + [x]) == Elements(s) + {x}
    ensures NoDuplicates(s) && x !in Elements(s) ==> NoDuplicates(s + [x])
  {
    assert forall y :: y in s + [x] <==> y in s || y == x;
  }

  lemma ElementsOfPrefix<T>(s: seq<T>, i: nat)
    requires i < |s|
    ensures Elements(s[..i + 1]) == Elements(s[..i]) + {s[i]}
    ensures NoDuplicates(s) ==> s[i] !in Elements(s[..i])
  {
    assert s[..i + 1] == s[..i] + [s[i]];
    ElementsOfAppend(s[..i], s[i]);
  }

  lemma NoElements<T>(s: seq<T>)
    ensures Elements(s) == {} ==> s == []
  {
    assert s != [] ==> s[0] in Elements(s);
  }

  /** A list without duplicates is no longer than any set that contains it. */
  lemma {:induction false} DistinctLength<T>(s: seq<T>, bound: set<T>)
    requires NoDuplicates(s) && Elements(s) <= bound
    ensures |s| <= |bound|
  {
    if s != [] {
      var last := s[|s| - 1];
      var rest := s[..|s| - 1];
      assert last in bound;
      forall x | x in Elements(rest) ensures x in bound - {last} {
      }
      DistinctLength(rest, bound - {last});
    }
  }

  /** Python's `list.remove`: drops the first occurrence. */
  function RemoveFirst<T(==)>(s: seq<T>, x: T): (r: seq<T>)
    requires x in s
  {
    if s[0] == x then s[1..] else [s[0]] + RemoveFirst(s[1..], x)
  }

  lemma {:induction false} RemoveFirstSplits<T>(s: seq<T>, x: T) returns (k: nat)
    requires x in s
    ensures k < |s| && s[k] == x && RemoveFirst(s, x) == s[..k] + s[k + 1..]
  {
    if s[0] == x {
      k := 0;
    } else {
      var j := RemoveFirstSplits(s[1..], x);
      k := j + 1;
      assert s[..k] == [s[0]] + s[1..][..j] && s[k + 1..] == s[1..][j + 1..];
    }
  }

  lemma RemoveFirstDistinct<T>(s: seq<T>, x: T)
    requires x in s && NoDuplicates(s)
    ensures NoDuplicates(RemoveFirst(s, x)) && |RemoveFirst(s, x)| == |s| - 1
    ensures Elements(RemoveFirst(s, x)) == Elements(s) - {x}
  {
    var k := RemoveFirstSplits(s, x);
    var r := s[..k] + s[k + 1..];
    forall y | y in Elements(s) - {x} ensures y in r {
      var i :| 0 <= i < |s| && s[i] == y;
      assert r[if i < k then i else i - 1] == y;
    }
  }

  /** Forgetting one address leaves a journal the loader still takes. */
  lemma ForgettingKeepsLoadable(kindOf: Classifier, journal: Journal, address: Address)
    requires Loadable(kindOf, journal) && address in journal.owned
    ensures Loadable(kindOf, journal.(owned := RemoveFirst(journal.owned, address)))
    ensures Elements(RemoveFirst(journal.owned, address)) == Elements(journal.owned) - {address}
  {
    RemoveFirstDistinct(journal.owned, address);
    forall a | a in RemoveFirst(journal.owned, address) ensures kindOf(a) == PublicV4 {
      assert a in Elements(RemoveFirst(journal.owned, address));
    }
  }

  // ----- What is persisted, and when a state of the world is recoverable -----

  datatype Snapshot = Snapshot(routes: map<Address, Route>, disk: Option<Journal>, mine: set<Address>)

  function JournaledOwned(disk: Option<Journal>): (owned: seq<Address>)
  {
    if disk.Some? then disk.value.owned else []
  }

  /** Every route the tool added that is still in the table is journaled, under the gateway it was added with. */
  ghost predicate Recoverable(kindOf: Classifier, s: Snapshot)
  {
    && (s.disk.Some? ==> Loadable(kindOf, s.disk.value))
    && forall a :: a in s.mine ==>
         s.disk.Some? && a in s.disk.value.owned && a in s.routes && JournaledRoute(s.routes[a], a, s.disk.value.config)
  }

  /** The recorded configuration may change only while nothing is owned. */
  ghost predicate ConfigKept(before: Option<Journal>, after: Option<Journal>)
  {
    before.Some? ==> after.Some? && (before.value.config == after.value.config || before.value.owned == [])
  }

  /** What one step of a run did to the world, or what others did in between. */
  datatype Act =
    | Start
    | Others
    | Added(address: Address)
    | Deleted(address: Address, route: Route)
    | Saved(journal: Journal)

  datatype Event = Event(act: Act, now: Snapshot)

  /** The rules for one action, read in the state it led to; only `Saved` changes the disk. */
  ghost predicate Allowed(kindOf: Classifier, event: Event)
  {
    match event.act
    case Start => true
    case Others => true
    case Added(a) => a in JournaledOwned(event.now.disk)
    case Deleted(a, route) => a in JournaledOwned(event.now.disk) && JournaledRoute(route, a, event.now.disk.value.config)
    case Saved(journal) => Loadable(kindOf, journal)
  }

  /** Every state on the way is recoverable and every action keeps the rules. */
  ghost predicate Safe(kindOf: Classifier, history: seq<Event>)
  {
    history == [] ||
    var last := history[|history| - 1];
    var before := history[..|history| - 1];
    && Recoverable(kindOf, last.now) && Allowed(kindOf, last)
    && (before != [] ==> ConfigKept(before[|before| - 1].now.disk, last.now.disk))
    && Safe(kindOf, before)
  }

  /** How many times the tool itself acted. */
  ghost function OwnActs(history: seq<Event>): (n: nat)
  {
    if history == [] then 0
    else OwnActs(history[..|history| - 1]) + (if history[|history| - 1].act.Others? then 0 else 1)
  }

  /** One moment of a history: a recoverable state, reached by an action within the rules. */
  ghost predicate SafeMoment(kindOf: Classifier, history: seq<Event>, i: nat)
    requires i < |history|
  {
    && Recoverable(kindOf, history[i].now) && Allowed(kindOf, history[i])
    && (i > 0 ==> ConfigKept(history[i - 1].now.disk, history[i].now.disk))
  }

  lemma {:induction false} SafeAt(kindOf: Classifier, history: seq<Event>, i: nat)
    requires Safe(kindOf, history) && i < |history|
    ensures SafeMoment(kindOf, history, i)
  {
    if i < |history| - 1 {
      SafeAt(kindOf, history[..|history| - 1], i);
    }
  }

  /** What a readback may say about an address. */
  predicate Answers(routes: map<Address, Route>, address: Address, route: Route)
  {
    if address in routes then route == routes[address] else route.destination != address
  }

  /** Only this address may be routed differently, and it has a host route now. */
  predicate Rerouted(before: map<Address, Route>, after: map<Address, Route>, address: Address)
  {
    address in after && after == before[address := after[address]]
  }

  class World {
    const kindOf: Classifier
    /** Every command works and nobody else touches the table; otherwise anything may fail at any time. */
    const works: bool
    /** The host routes; `route -n get` answers for any other address with a route to a network around it. */
    var routes: map<Address, Route>
    var disk: Option<Journal>
    /** The addresses whose current route this tool added. */
    ghost var mine: set<Address>
    ghost var history: seq<Event>

    ghost function Now(): Snapshot
      reads this
    {
      Snapshot(routes, disk, mine)
    }

    ghost predicate Valid()
      reads this
    {
      history != [] && history[|history| - 1].now == Now() && Safe(kindOf, history)
    }

    /** Any recoverable state, in particular whatever a crash left behind, is a fit starting point. */
    constructor (kindOf: Classifier, works: bool, ghost start: Snapshot, routes: map<Address, Route>, disk: Option<Journal>)
      requires Recoverable(kindOf, start) && start.routes == routes && start.disk == disk
      ensures Valid() && Now() == start && this.kindOf == kindOf && this.works == works
    {
      this.kindOf, this.works, this.routes, this.disk, this.mine := kindOf, works, routes, disk, start.mine;
      history := [Event(Start, start)];
    }

    ghost method Note(act: Act)
      requires history != [] && Safe(kindOf, history)
      requires Recoverable(kindOf, Now()) && Allowed(kindOf, Event(act, Now()))
      requires ConfigKept(history[|history| - 1].now.disk, disk)
      modifies this`history
      ensures Valid() && history == old(history) + [Event(act, Now())]
      ensures OwnActs(history) == OwnActs(old(history)) + (if act.Others? then 0 else 1)
    {
      history := history + [Event(act, Now())];
      assert history[..|history| - 1] == old(history);
    }

    /** Others change any route except, when given, the one a delete was just cleared for. */
    method Interfere(kept: Option<Address>)
      requires Valid()
      modifies this`routes, this`mine, this`history
      ensures Valid() && mine <= old(mine)
      ensures old(history) <= history && OwnActs(history) == OwnActs(old(history))
      ensures kept.Some? ==>
                (kept.value in routes <==> kept.value in old(routes)) &&
                (kept.value in routes ==> routes[kept.value] == old(routes)[kept.value]) &&
                (kept.value in mine <==> kept.value in old(mine))
      ensures works ==> routes == old(routes) && mine == old(mine)
    {
      if works { return; }
      var others: map<Address, Route> := *;
      if kept.Some? {
        others := if kept.value in routes then others[kept.value := routes[kept.value]] else others - {kept.value};
      }
      routes := others;
      mine := set a | a in mine && a in others && JournaledRoute(others[a], a, disk.value.config);
      Note(Others);
    }

    /** `System.route`: a readback that may fail. */
    method ReadRoute(address: Address) returns (route: Option<Route>)
      requires Valid()
      modifies this`routes, this`mine, this`history
      ensures Valid() && mine <= old(mine)
      ensures old(history) <= history && OwnActs(history) == OwnActs(old(history))
      ensures route.Some? ==> Answers(routes, address, route.value)
      ensures works ==> route.Some? && routes == old(routes) && mine == old(mine)
    {
      Interfere(None);
      var fails: bool := *;
      if fails && !works { return None; }
      if address in routes { return Some(routes[address]); }
      var network: string, gateway: Option<Address>, interface: string, flags: set<Flag> := *, *, *, *;
      route := Some(Route(if network == address then network + "/" else network, gateway, interface, flags));
    }

    /** `System.add`. The precondition is the write-ahead rule. */
    method AddRoute(address: Address, config: Config) returns (ok: bool)
      requires Valid()
      requires disk.Some? && disk.value.config == config && address in disk.value.owned
      modifies this`routes, this`mine, this`history
      ensures Valid() && mine <= old(mine) + {address} && old(history) <= history
      ensures works ==> ok && mine == old(mine) + {address} && Rerouted(old(routes), routes, address)
    {
      Interfere(None);
      var takesEffect: bool := *;
      if takesEffect || works {
        var interface: string, extra: set<Flag> := *, *;
        routes := routes[address := Route(address, Some(config.gateway), interface, MARKER + extra)];
        mine := mine + {address};
      }
      Note(Added(address));
      ok := *;
      ok := ok || works;
    }

    /** `System.delete`. The precondition is the ownership rule. */
    method DeleteRoute(address: Address, config: Config) returns (ok: bool)
      requires Valid()
      requires disk.Some? && disk.value.config == config && address in disk.value.owned
      requires address in routes && JournaledRoute(routes[address], address, config)
      modifies this`routes, this`mine, this`history
      ensures Valid() && mine <= old(mine) && old(history) <= history
      ensures works ==> ok && address !in routes
    {
      Interfere(Some(address));
      ghost var current := routes[address];
      var takesEffect: bool := *;
      if takesEffect || works {
        routes := routes - {address};
        mine := mine - {address};
      }
      Note(Deleted(address, current));
      ok := *;
      ok := ok || works;
    }

    /** `save`: an atomic replace that may raise before or after the rename. */
    method Save(journal: Journal) returns (ok: bool)
      requires Valid()
      requires Loadable(kindOf, journal) && mine <= Elements(journal.owned)
      requires ConfigKept(disk, Some(journal))
      modifies this`disk, this`history
      ensures Valid() && old(history) <= history
      ensures disk == old(disk) || disk == Some(journal)
      ensures ok ==> disk == Some(journal)
      ensures works ==> ok
    {
      var takesEffect: bool := *;
      takesEffect := takesEffect || works;
      if takesEffect {
        disk := Some(journal);
      }
      Note(Saved(journal));
      var raises: bool := *;
      ok := takesEffect && (!raises || works);
    }
  }

  // ----- Planning -----

  datatype Plan = Plan(
    resolved: map<Host, seq<Address>>, wanted: set<Address>, routes: map<Address, Route>, add: seq<Address>)

  lemma UnionBoundsPart<T>(part: set<T>, other: set<T>)
    ensures |part| <= |part + other|
  {
    assert part + other == part + (other - part);
  }

  /** The checks of `addresses` on one resolver answer. */
  predicate AcceptsAddresses(kindOf: Classifier, values: seq<Address>)
  {
    && 0 < |values| <= MAX_IPS && NoDuplicates(values)
    && forall a :: a in values ==> kindOf(a) == PublicV4
  }

  function AddressesOf(resolved: map<Host, seq<Address>>, hosts: seq<Host>): (all: set<Address>)
  {
    set h, a | h in hosts && h in resolved && a in resolved[h] :: a
  }

  predicate IsTunnel(interface: string)
  {
    "utun" <= interface && Digits(interface[4..])
  }

  ghost predicate ResolvedOk(resolved: map<Host, seq<Address>>, kindOf: Classifier, hosts: Hosts)
  {
    && (forall h :: h in hosts.marketplace ==> h in resolved) && (forall h :: h in hosts.vpn ==> h in resolved)
    && (forall a :: a in AddressesOf(resolved, hosts.marketplace) ==> kindOf(a) == PublicV4)
  }

  ghost predicate PlanOk(plan: Plan, kindOf: Classifier, hosts: Hosts, config: Config)
  {
    && (forall h :: h in hosts.marketplace ==> h in plan.resolved)
    && plan.wanted == AddressesOf(plan.resolved, hosts.marketplace)
    && |plan.wanted| <= MAX_IPS
    && (forall a :: a in plan.wanted ==> kindOf(a) == PublicV4 && a in plan.routes)
    && NoDuplicates(plan.add)
    && (forall a :: a in plan.add <==> a in plan.wanted && !Direct(plan.routes[a], config))
    && VpnKept(plan, hosts)
  }

  /** Every host that must stay on the VPN was resolved, apart from the wanted addresses, and read on an open tunnel. */
  ghost predicate VpnKept(plan: Plan, hosts: Hosts)
  {
    var vpn := AddressesOf(plan.resolved, hosts.vpn);
    && (forall h :: h in hosts.vpn ==> h in plan.resolved)
    && |plan.wanted + vpn| <= MAX_IPS && plan.wanted * vpn == {}
    && forall a :: a in vpn ==> a in plan.routes && IsTunnel(plan.routes[a].interface) && !Blocked(plan.routes[a])
  }

  /** An address to add that already has an explicit host route: the run refuses. */
  predicate Conflicts(plan: Plan)
    requires forall a :: a in plan.add ==> a in plan.routes
  {
    exists a :: a in plan.add && HOST in plan.routes[a].flags && WASCLONED !in plan.routes[a].flags
  }

  /** The tool's own route that strayed off the configured interface is taken for a foreign one, until a rollback. */
  lemma StrayedOwnRouteConflicts(plan: Plan, kindOf: Classifier, hosts: Hosts, config: Config, a: Address)
    requires PlanOk(plan, kindOf, hosts, config) && a in plan.wanted
    requires JournaledRoute(plan.routes[a], a, config) && !Direct(plan.routes[a], config) && WASCLONED !in plan.routes[a].flags
    ensures Conflicts(plan)
  {
    assert a in plan.add && HOST in MARKER;
  }

  ghost predicate AllDirect(plan: Plan, wanted: set<Address>, config: Config)
  {
    forall a :: a in wanted ==> a in plan.routes && Direct(plan.routes[a], config)
  }

  /** Under stable DNS a last look with nothing to add saw every wanted address routed directly. */
  lemma StableDnsConverges(first: Plan, last: Plan, kindOf: Classifier, hosts: Hosts, config: Config)
    requires PlanOk(first, kindOf, hosts, config) && PlanOk(last, kindOf, hosts, config)
    requires last.add == [] && last.resolved == first.resolved
    ensures AllDirect(last, first.wanted, config)
  {
    assert first.wanted == last.wanted;
  }

  datatype Report = Report(added: seq<Address>, removed: seq<Address>, owned: seq<Address>)

  /** How far a run got with adding: what it created, what it could not journal, and whether a failed run was undone. */
  datatype Attempt = Attempt(created: seq<Address>, pending: set<Address>, cleaned: bool)

  /** Every one of these addresses is routed by the tool's own marked route. */
  ghost predicate AllMarked(routes: map<Address, Route>, mine: set<Address>, addresses: seq<Address>, config: Config)
  {
    forall i :: 0 <= i < |addresses| ==>
      addresses[i] in mine && addresses[i] in routes && MarkedRoute(routes[addresses[i]], addresses[i], config)
  }

  lemma MarksSurvive(routes: map<Address, Route>, mine: set<Address>, created: seq<Address>, routes': map<Address, Route>,
                     address: Address, config: Config)
    requires AllMarked(routes, mine, created, config) && Rerouted(routes, routes', address)
    requires MarkedRoute(routes'[address], address, config)
    ensures AllMarked(routes', mine + {address}, created + [address], config)
  {
  }

  lemma OneAddressMore(base: set<Address>, addresses: seq<Address>, i: nat)
    requires i < |addresses|
    ensures addresses[..i + 1] == addresses[..i] + [addresses[i]]
    ensures base + Elements(addresses[..i]) + {addresses[i]} == base + Elements(addresses[..i + 1])
  {
    ElementsOfPrefix(addresses, i);
  }

  lemma UndoingRemovesCreated(before: set<Address>, created: set<Address>, pending: set<Address>, kept: set<Address>)
    requires kept == before + created + pending
    ensures kept - created == before + pending - created
  {
  }

  /** One locked run of the tool: its configuration, its in-memory journal and the world. */
  class Run {
    const world: World
    const hosts: Hosts
    const config: Config
    var owned: seq<Address>

    /** The in-memory journal may be saved, and covers everything on disk. */
    ghost predicate Ready()
      reads this, world
    {
      && world.Valid()
      && Loadable(world.kindOf, Journal(config, owned))
      && Elements(JournaledOwned(world.disk)) <= Elements(owned)
      && (JournaledOwned(world.disk) != [] ==> world.disk.value.config == config)
    }

    /** Memory and disk name the same addresses. */
    ghost predicate Synced()
      reads this, world
    {
      Ready() && JournaledOwned(world.disk) == owned
    }

    constructor (world: World, hosts: Hosts, config: Config, owned: seq<Address>)
      requires world.Valid() && AcceptsConfig(world.kindOf, config)
      requires owned == JournaledOwned(world.disk)
      requires owned != [] ==> world.disk.value.config == config
      ensures Synced() && this.world == world && this.hosts == hosts && this.config == config && this.owned == owned
    {
      this.world, this.hosts, this.config, this.owned := world, hosts, config, owned;
    }

    /** First half of the loop body of `remove_owned`: the route is gone, or was replaced and is not ours. */
    method ClearRoute(address: Address) returns (ok: bool)
      requires world.Valid() && address in JournaledOwned(world.disk) && world.disk.value.config == config
      modifies world`routes, world`mine, world`history
      ensures world.Valid() && world.mine <= old(world.mine) && old(world.history) <= world.history
      ensures ok ==> address !in world.mine
      ensures world.works ==> ok
    {
      var route := world.ReadRoute(address);
      if route.None? { return false; }
      if JournaledRoute(route.value, address, config) {
        var deletedOk := world.DeleteRoute(address, config);
        if !deletedOk { return false; }
        route := world.ReadRoute(address);
        if route.None? || JournaledRoute(route.value, address, config) { return false; }
      }
      return true;
    }

    /** The loop body of `remove_owned` for one journaled address. */
    method RemoveOne(address: Address) returns (ok: bool)
      requires Ready() && address in owned && address in JournaledOwned(world.disk)
      modifies this, world
      ensures world.Valid() && world.mine <= old(world.mine)
      ensures old(world.history) <= world.history
      ensures ok ==> Synced() && Elements(owned) == Elements(old(owned)) - {address}
      ensures ok ==> address !in world.mine
      ensures world.works ==> ok
    {
      ok := ClearRoute(address);
      if !ok { return; }
      ForgettingKeepsLoadable(world.kindOf, Journal(config, owned), address);
      assert world.mine <= Elements(JournaledOwned(world.disk));
      owned := RemoveFirst(owned, address);
      ok := world.Save(Journal(config, owned));
    }

    /** `remove_owned`, for the stale routes, for the cleanup of a failed run and for rollback. */
    method RemoveOwned(addresses: seq<Address>) returns (ok: bool)
      requires Ready() && NoDuplicates(addresses)
      requires Elements(addresses) <= Elements(owned) && Elements(addresses) <= Elements(JournaledOwned(world.disk))
      modifies this, world
      ensures world.Valid() && world.mine <= old(world.mine)
      ensures old(world.history) <= world.history
      ensures ok ==> Ready() && Elements(owned) == Elements(old(owned)) - Elements(addresses)
      ensures ok ==> world.mine !! Elements(addresses)
      ensures ok && addresses != [] ==> Synced()
      ensures world.works ==> ok
      ensures addresses == [] ==>
                ok && owned == old(owned) && world.disk == old(world.disk) && world.history == old(world.history)
    {
      var i := 0;
      while i < |addresses|
        invariant 0 <= i <= |addresses|
        invariant Ready() && world.mine <= old(world.mine)
        invariant old(world.history) <= world.history
        invariant Elements(owned) == Elements(old(owned)) - Elements(addresses[..i])
        invariant world.mine !! Elements(addresses[..i])
        invariant i == 0 ==>
                    owned == old(owned) && world.disk == old(world.disk) && world.history == old(world.history)
        invariant i > 0 ==> Synced()
      {
        var address := addresses[i];
        ElementsOfPrefix(addresses, i);
        assert address in Elements(addresses) && address in Elements(owned);
        var removed := RemoveOne(address);
        if !removed { return false; }
        i := i + 1;
      }
      assert addresses[..|addresses|] == addresses;
      return true;
    }

    /** `snapshot` and `make_plan`: resolve everything, read every route, and list what is not direct. */
    method MakePlan() returns (plan: Option<Plan>, ghost lan: (Route, Route))
      requires world.Valid()
      modifies world`routes, world`mine, world`history
      ensures world.Valid() && world.mine <= old(world.mine)
      ensures old(world.history) <= world.history && OwnActs(world.history) == OwnActs(old(world.history))
      ensures plan.Some? ==> PlanOk(plan.value, world.kindOf, hosts, config)
      ensures plan.Some? ==> Direct(lan.0, config) && lan.1.interface == config.interface
      ensures world.works ==> world.routes == old(world.routes) && world.mine == old(world.mine)
    {
      var lanDefault: Route, unreadable: bool := *, *;
      plan, lan := None, (lanDefault, lanDefault);
      var resolved := Resolve();
      if resolved.None? { return; }
      var market := AddressesOf(resolved.value, hosts.marketplace);
      var vpn := AddressesOf(resolved.value, hosts.vpn);
      if |market + vpn| > MAX_IPS || market * vpn != {} { return; }
      if unreadable || !Direct(lanDefault, config) { return; }
      var gatewayRoute := world.ReadRoute(config.gateway);
      if gatewayRoute.None? || gatewayRoute.value.interface != config.interface { return; }
      lan := (lanDefault, gatewayRoute.value);
      var routes := ReadAll(market + vpn);
      if routes.None? { return; }
      if exists a :: a in vpn && (!IsTunnel(routes.value[a].interface) || Blocked(routes.value[a])) { return; }
      var add := NotDirect(market, routes.value);
      UnionBoundsPart(market, vpn);
      plan := Some(Plan(resolved.value, market, routes.value, add));
    }

    /** Every host resolves to acceptable addresses, or planning fails before any mutation. */
    method Resolve() returns (resolved: Option<map<Host, seq<Address>>>)
      ensures resolved.Some? ==> ResolvedOk(resolved.value, world.kindOf, hosts)
    {
      var answers: map<Host, seq<Address>> := map[];
      var all := hosts.marketplace + hosts.vpn;
      for i := 0 to |all|
        invariant forall k :: 0 <= k < i ==> all[k] in answers && AcceptsAddresses(world.kindOf, answers[all[k]])
      {
        var answer: seq<Address>, fails: bool := *, *;
        if fails || !AcceptsAddresses(world.kindOf, answer) { return None; }
        answers := answers[all[i] := answer];
      }
      assert forall h :: h in hosts.marketplace || h in hosts.vpn ==> h in all;
      return Some(answers);
    }

    method ReadAll(addresses: set<Address>) returns (routes: Option<map<Address, Route>>)
      requires world.Valid()
      modifies world`routes, world`mine, world`history
      ensures world.Valid() && world.mine <= old(world.mine)
      ensures old(world.history) <= world.history && OwnActs(world.history) == OwnActs(old(world.history))
      ensures routes.Some? ==> routes.value.Keys == addresses
      ensures world.works ==> world.routes == old(world.routes) && world.mine == old(world.mine)
    {
      var todo, answers := addresses, map[];
      while todo != {}
        invariant world.Valid() && world.mine <= old(world.mine)
        invariant old(world.history) <= world.history && OwnActs(world.history) == OwnActs(old(world.history))
        invariant todo <= addresses && answers.Keys == addresses - todo
        invariant world.works ==> world.routes == old(world.routes) && world.mine == old(world.mine)
        decreases todo
      {
        var address :| address in todo;
        var route := world.ReadRoute(address);
        if route.None? { return None; }
        answers := answers[address := route.value];
        todo := todo - {address};
      }
      return Some(answers);
    }

    method NotDirect(wanted: set<Address>, routes: map<Address, Route>) returns (add: seq<Address>)
      requires wanted <= routes.Keys
      ensures NoDuplicates(add)
      ensures forall a :: a in add <==> a in wanted && !Direct(routes[a], config)
    {
      add := [];
      var todo := wanted;
      while todo != {}
        invariant todo <= wanted && NoDuplicates(add)
        invariant forall a :: a in add <==> a in wanted - todo && !Direct(routes[a], config)
        decreases todo
      {
        var address :| address in todo;
        if !Direct(routes[address], config) { add := add + [address]; }
        todo := todo - {address};
      }
    }

    /** The write-ahead half of the add loop: the address is on disk before its route can exist. */
    method Claim(address: Address, ghost wanted: set<Address>) returns (ok: bool)
      requires Synced() && Elements(owned) <= wanted && address in wanted && |wanted| <= MAX_IPS
      requires world.kindOf(address) == PublicV4
      modifies this, world
      ensures Ready() && Elements(owned) == Elements(old(owned)) + {address}
      ensures Elements(old(owned)) <= Elements(JournaledOwned(world.disk))
      ensures world.mine == old(world.mine) && world.routes == old(world.routes) && old(world.history) <= world.history
      ensures ok ==> Synced()
      ensures world.works ==> ok
    {
      if address in owned {
        return true;
      }
      ghost var before := owned;
      owned := owned + [address];
      ElementsOfAppend(before, address);
      DistinctLength(owned, wanted);
      assert world.mine <= Elements(JournaledOwned(world.disk));
      ok := world.Save(Journal(config, owned));
    }

    /** The loop body of the `try` block; `claimed` says that the address counts as created. */
    method AddOne(address: Address, ghost wanted: set<Address>) returns (claimed: bool, ok: bool)
      requires Synced() && Elements(owned) <= wanted && address in wanted && |wanted| <= MAX_IPS
      requires world.kindOf(address) == PublicV4
      modifies this, world
      ensures Ready() && Elements(owned) == Elements(old(owned)) + {address}
      ensures Elements(old(owned)) <= Elements(JournaledOwned(world.disk))
      ensures old(world.history) <= world.history
      ensures claimed ==> Synced()
      ensures ok ==> claimed && address in world.routes && MarkedRoute(world.routes[address], address, config)
      ensures world.works ==> claimed && world.mine == old(world.mine) + {address} && Rerouted(old(world.routes), world.routes, address)
    {
      ok := false;
      claimed := Claim(address, wanted);
      if !claimed { return; }
      assert address in Elements(owned);
      var addedOk := world.AddRoute(address, config);
      if !addedOk { return; }
      var route := world.ReadRoute(address);
      ok := route.Some? && MarkedRoute(route.value, address, config);
    }

    /** The `try` block's loop: journal, add and read back each missing address. */
    method AddAll(plan: Plan) returns (ok: bool, created: seq<Address>, ghost pending: set<Address>)
      requires Synced() && PlanOk(plan, world.kindOf, hosts, config) && Elements(owned) <= plan.wanted
      modifies this, world
      ensures Ready() && old(world.history) <= world.history
      ensures NoDuplicates(created) && created <= plan.add && Elements(owned) <= plan.wanted
      ensures Elements(created) <= Elements(JournaledOwned(world.disk))
      ensures Elements(owned) == Elements(old(owned)) + Elements(created) + pending
      ensures ok ==> Synced() && created == plan.add && pending == {} && Elements(owned) == Elements(old(owned)) + Elements(plan.add)
      ensures world.works ==> pending == {} && (ok ==> AllMarked(world.routes, world.mine, created, config))
      ensures plan.add == [] ==> ok && owned == old(owned) && world.history == old(world.history)
    {
      ok, created, pending := AddEach(plan.add, plan.wanted);
      assert NoDuplicates(created);
    }

    /**
      The loop itself: it stops at the first address that fails, having created a prefix of the list.
      `pending` is an address whose journal entry could not be saved; it is in memory and was not added.
     */
    method AddEach(addresses: seq<Address>, ghost wanted: set<Address>)
      returns (ok: bool, created: seq<Address>, ghost pending: set<Address>)
      requires Synced() && Elements(owned) <= wanted && |wanted| <= MAX_IPS && NoDuplicates(addresses)
      requires forall i :: 0 <= i < |addresses| ==> addresses[i] in wanted && world.kindOf(addresses[i]) == PublicV4
      modifies this, world
      ensures Ready() && old(world.history) <= world.history && Elements(owned) <= wanted
      ensures created <= addresses && Elements(created) <= Elements(JournaledOwned(world.disk))
      ensures Elements(owned) == Elements(old(owned)) + Elements(created) + pending
      ensures pending != {} ==> !ok && |created| < |addresses| && pending == {addresses[|created|]}
      ensures ok ==> Synced() && created == addresses && pending == {} && Elements(owned) == Elements(old(owned)) + Elements(addresses)
      ensures world.works ==> pending == {} && (ok ==> AllMarked(world.routes, world.mine, created, config))
      ensures addresses == [] ==> ok && owned == old(owned) && world.history == old(world.history)
    {
      created, pending := [], {};
      ghost var base := Elements(owned);
      for i := 0 to |addresses|
        invariant Synced() && created == addresses[..i] && old(world.history) <= world.history
        invariant Elements(owned) <= wanted && Elements(owned) == base + Elements(created)
        invariant world.works ==> AllMarked(world.routes, world.mine, created, config)
        invariant i == 0 ==> owned == old(owned) && world.history == old(world.history)
      {
        ghost var before := created;
        OneAddressMore(base, addresses, i);
        ok, created := AddNext(addresses[i], wanted, created);
        if !ok {
          pending := if created == before then {addresses[i]} else {};
          return;
        }
      }
      assert addresses[..|addresses|] == addresses;
      ok := true;
    }

    /** One turn of the loop: a claimed address counts as created even when adding or reading back fails. */
    method AddNext(address: Address, ghost wanted: set<Address>, created: seq<Address>) returns (ok: bool, created': seq<Address>)
      requires Synced() && Elements(owned) <= wanted && address in wanted && |wanted| <= MAX_IPS
      requires world.kindOf(address) == PublicV4 && Elements(created) <= Elements(owned)
      requires world.works ==> AllMarked(world.routes, world.mine, created, config)
      modifies this, world
      ensures Ready() && Elements(owned) == Elements(old(owned)) + {address}
      ensures old(world.history) <= world.history
      ensures created' == created || created' == created + [address]
      ensures Elements(created') <= Elements(JournaledOwned(world.disk))
      ensures ok ==> Synced() && created' == created + [address]
      ensures world.works ==> created' == created + [address] && (ok ==> AllMarked(world.routes, world.mine, created', config))
    {
      ghost var routes, mine := world.routes, world.mine;
      var claimed;
      claimed, ok := AddOne(address, wanted);
      created' := created;
      if claimed {
        ElementsOfAppend(created, address);
        created' := created + [address];
      }
      if world.works && ok {
        MarksSurvive(routes, mine, created, world.routes, address, config);
      }
    }

    /** The `try` block of `reconcile`: add everything, then look again. */
    method AddAndLook(plan: Plan)
      returns (ok: bool, created: seq<Address>, ghost pending: set<Address>, ghost after: Option<Plan>)
      requires Synced() && PlanOk(plan, world.kindOf, hosts, config) && Elements(owned) <= plan.wanted
      modifies this, world
      ensures Ready() && old(world.history) <= world.history
      ensures NoDuplicates(created) && created <= plan.add && Elements(created) <= Elements(JournaledOwned(world.disk))
      ensures Elements(owned) == Elements(old(owned)) + Elements(created) + pending
      ensures ok ==> Synced() && created == plan.add && pending == {} && Elements(owned) == Elements(old(owned)) + Elements(plan.add)
      ensures ok ==> after.Some? && PlanOk(after.value, world.kindOf, hosts, config) && after.value.add == []
      ensures world.works ==> pending == {} && (ok ==> AllMarked(world.routes, world.mine, created, config))
      ensures plan.add == [] ==> owned == old(owned) && OwnActs(world.history) == OwnActs(old(world.history))
    {
      ok, created, pending := AddAll(plan);
      after := None;
      if ok {
        var seen, _ := MakePlan();
        after := seen;
        ok := seen.Some? && seen.value.add == [];
      }
    }

    /**
      The `try` and `except` of `reconcile`: add, look again, and on any failure undo what was created.
      `cleaned` says that the undoing itself went through.
     */
    method AddAndVerify(plan: Plan)
      returns (ok: bool, created: seq<Address>, cleaned: bool, ghost pending: set<Address>, ghost after: Option<Plan>)
      requires Synced() && PlanOk(plan, world.kindOf, hosts, config) && Elements(owned) <= plan.wanted
      modifies this, world
      ensures world.Valid() && old(world.history) <= world.history && created <= plan.add
      ensures ok ==> Synced() && created == plan.add && Elements(owned) == Elements(old(owned)) + Elements(plan.add)
      ensures ok ==> after.Some? && PlanOk(after.value, world.kindOf, hosts, config) && after.value.add == []
      ensures ok && world.works ==> AllMarked(world.routes, world.mine, created, config)
      ensures !ok && cleaned ==>
                Elements(owned) == Elements(old(owned)) + pending - Elements(created) && world.mine !! Elements(created)
      ensures world.works ==> pending == {} && (!ok ==> cleaned)
      ensures plan.add == [] ==> owned == old(owned) && OwnActs(world.history) == OwnActs(old(world.history))
    {
      cleaned := false;
      ok, created, pending, after := AddAndLook(plan);
      if !ok {
        cleaned := Undo(created, Elements(old(owned)), pending);
      }
    }

    /** The `except` block: what this run created goes, from the table and from the journal. */
    method Undo(created: seq<Address>, ghost before: set<Address>, ghost pending: set<Address>) returns (cleaned: bool)
      requires Ready() && NoDuplicates(created) && Elements(created) <= Elements(JournaledOwned(world.disk))
      requires Elements(owned) == before + Elements(created) + pending
      modifies this, world
      ensures world.Valid() && old(world.history) <= world.history
      ensures cleaned ==> Elements(owned) == before + pending - Elements(created) && world.mine !! Elements(created)
      ensures world.works ==> cleaned
      ensures created == [] ==> owned == old(owned) && world.history == old(world.history)
    {
      UndoingRemovesCreated(before, Elements(created), pending, Elements(owned));
      cleaned := RemoveOwned(created);
    }

    /** `reconcile` once its plan stands: drop the stale routes, add the missing ones, and undo a failed attempt. */
    method CarryOut(plan: Plan)
      returns (report: Option<Report>, ghost last: Option<Plan>, ghost attempt: Option<Attempt>)
      requires Synced() && PlanOk(plan, world.kindOf, hosts, config)
      modifies this, world
      ensures world.Valid() && old(world.history) <= world.history
      ensures report.Some? ==>
                && last.Some? && PlanOk(last.value, world.kindOf, hosts, config) && last.value.add == []
                && Synced() && report.value.owned == owned && report.value.added == plan.add
                && Elements(report.value.removed) == Elements(old(owned)) - plan.wanted
                && Elements(owned) == Elements(old(owned)) * plan.wanted + Elements(plan.add)
                && (world.works ==> AllMarked(world.routes, world.mine, plan.add, config))
      ensures attempt.Some? ==> attempt.value.created <= plan.add
      ensures report.None? && attempt.Some? && attempt.value.cleaned ==> Undone(Elements(old(owned)), plan, attempt.value)
      ensures world.works ==> attempt.Some? && attempt.value.pending == {} && (report.None? ==> attempt.value.cleaned)
      ensures plan.add == [] && Elements(old(owned)) <= plan.wanted ==>
                owned == old(owned) && OwnActs(world.history) == OwnActs(old(world.history))
    {
      report, last, attempt := None, None, None;
      var stale := Outside(owned, plan.wanted);
      NoElements(stale);
      var removedOk := RemoveOwned(stale);
      if !removedOk { return; }
      assert Elements(owned) == Elements(old(owned)) * plan.wanted;
      var ok, created, cleaned, pending, after := AddAndVerify(plan);
      last, attempt := after, Some(Attempt(created, pending, cleaned));
      if ok {
        report := Some(Report(created, stale, owned));
      }
    }

    /** A failed attempt left no trace: owned is what it was and still wanted, and none of its routes is there. */
    ghost predicate Undone(before: set<Address>, plan: Plan, attempt: Attempt)
      reads this, world
    {
      && Elements(owned) == before * plan.wanted + attempt.pending - Elements(attempt.created)
      && world.mine !! Elements(attempt.created)
    }

    /**
      `reconcile`. The two plans are its first and its last look at the system; `attempt` tells what
      became of the adding, once the run got that far.
     */
    method Reconcile() returns (report: Option<Report>, ghost first: Option<Plan>, ghost last: Option<Plan>, ghost attempt: Option<Attempt>)
      requires Synced()
      modifies this, world
      ensures world.Valid() && old(world.history) <= world.history
      ensures first.Some? ==> PlanOk(first.value, world.kindOf, hosts, config)
      ensures report.Some? ==>
                && first.Some? && last.Some? && PlanOk(last.value, world.kindOf, hosts, config) && last.value.add == []
                && Synced() && report.value.owned == owned
                && report.value.added == first.value.add
                && Elements(report.value.removed) == Elements(old(owned)) - first.value.wanted
                && Elements(owned) == Elements(old(owned)) * first.value.wanted + Elements(first.value.add)
                && (world.works ==> AllMarked(world.routes, world.mine, report.value.added, config))
      ensures report.Some? && last.value.resolved == first.value.resolved ==> AllDirect(last.value, first.value.wanted, config)
      ensures attempt.Some? ==> first.Some? && attempt.value.created <= first.value.add
      ensures report.None? && attempt.Some? && attempt.value.cleaned ==> Undone(Elements(old(owned)), first.value, attempt.value)
      ensures world.works && first.Some? && !Conflicts(first.value) ==>
                attempt.Some? && attempt.value.pending == {} && (report.None? ==> attempt.value.cleaned)
      ensures first.Some? && Conflicts(first.value) ==> report.None? && attempt.None?
      ensures first.Some? && (Conflicts(first.value) || (first.value.add == [] && Elements(old(owned)) <= first.value.wanted)) ==>
                owned == old(owned) && OwnActs(world.history) == OwnActs(old(world.history))
    {
      report, first, last, attempt := None, None, None, None;
      var plan, _ := MakePlan();
      first := plan;
      if plan.None? { return; }
      // An existing foreign host route must not be overwritten, even on the VPN.
      if Conflicts(plan.value) { return; }
      report, last, attempt := CarryOut(plan.value);
      if report.Some? && last.value.resolved == plan.value.resolved {
        StableDnsConverges(plan.value, last.value, world.kindOf, hosts, config);
      }
    }

    method Outside(list: seq<Address>, wanted: set<Address>) returns (stale: seq<Address>)
      requires NoDuplicates(list)
      ensures NoDuplicates(stale) && Elements(stale) == Elements(list) - wanted
    {
      stale := [];
      for i := 0 to |list|
        invariant NoDuplicates(stale) && Elements(stale) == Elements(list[..i]) - wanted
      {
        ElementsOfPrefix(list, i);
        if list[i] !in wanted {
          ElementsOfAppend(stale, list[i]);
          stale := stale + [list[i]];
        }
      }
      assert list[..|list|] == list;
    }

    /** Rollback: when it succeeds nothing this tool ever added is left, and the journal is empty. */
    method Rollback() returns (ok: bool)
      requires Synced()
      modifies this, world
      ensures world.Valid() && old(world.history) <= world.history
      ensures ok ==> world.mine == {} && Synced() && owned == []
      ensures world.works ==> ok
    {
      ghost var before := owned;
      ok := RemoveOwned(owned);
      if ok {
        NoElements(owned);
        assert world.mine <= Elements(before);
      }
    }
  }

  datatype Mode = Apply | RollBack

  /** The configuration this process is given may act on the journal it finds. */
  predicate MayRun(kindOf: Classifier, disk: Option<Journal>, config: Config)
  {
    AcceptsConfig(kindOf, config) && (JournaledOwned(disk) == [] || disk.value.config == config)
  }

  /** One process from start to exit: load under the lock, validate, then apply or roll back. */
  method RunOnce(world: World, hosts: Hosts, config: Config, mode: Mode) returns (ok: bool, report: Option<Report>)
    requires world.Valid()
    modifies world
    ensures world.Valid() && old(world.history) <= world.history
    ensures forall i :: 0 <= i < |world.history| ==> SafeMoment(world.kindOf, world.history, i)
    ensures !MayRun(world.kindOf, old(world.disk), config) ==> !ok && world.history == old(world.history)
    ensures mode == Apply ==> (ok <==> report.Some?) && (ok ==> report.value.owned == JournaledOwned(world.disk))
    ensures ok && mode == RollBack ==> world.mine == {} && JournaledOwned(world.disk) == []
    ensures world.works && mode == RollBack ==> (ok <==> MayRun(world.kindOf, old(world.disk), config))
  {
    ok, report := RunLoaded(world, hosts, config, mode);
    forall i | 0 <= i < |world.history| ensures SafeMoment(world.kindOf, world.history, i) {
      SafeAt(world.kindOf, world.history, i);
    }
  }

  method RunLoaded(world: World, hosts: Hosts, config: Config, mode: Mode) returns (ok: bool, report: Option<Report>)
    requires world.Valid()
    modifies world
    ensures world.Valid() && old(world.history) <= world.history
    ensures !MayRun(world.kindOf, old(world.disk), config) ==> !ok && world.history == old(world.history)
    ensures mode == Apply ==> (ok <==> report.Some?) && (ok ==> report.value.owned == JournaledOwned(world.disk))
    ensures ok && mode == RollBack ==> world.mine == {} && JournaledOwned(world.disk) == []
    ensures world.works && mode == RollBack ==> (ok <==> MayRun(world.kindOf, old(world.disk), config))
  {
    ok, report := false, None;
    if !AcceptsConfig(world.kindOf, config) { return; }
    var state := if world.disk.Some? && world.disk.value.owned != [] then world.disk.value else Journal(config, []);
    if !AcceptsState(world.kindOf, state, config) { return; }
    var run := new Run(world, hosts, config, state.owned);
    match mode {
      case Apply =>
        var result, _, _, _ := run.Reconcile();
        ok, report := result.Some?, result;
      case RollBack =>
        ok := run.Rollback();
    }
  }

  /**
    Apply twice. `between` is the history when the first run ended. If the resolvers and
    routes answered the second run as they answered the end of the first, it only looks.
   */
  method ApplyTwice(run: Run)
    returns (report: Option<Report>, ghost first: Option<Plan>, ghost last: Option<Plan>,
             ghost again: Option<Plan>, ghost between: seq<Event>)
    requires run.Synced()
    modifies run, run.world
    ensures run.world.Valid() && old(run.world.history) <= between <= run.world.history
    ensures report.Some? ==> first.Some? && last.Some?
    ensures report.Some? && first.value.resolved == last.value.resolved && again == last ==>
              OwnActs(run.world.history) == OwnActs(between) && run.owned == report.value.owned
  {
    ghost var attempt;
    report, first, last, attempt := run.Reconcile();
    again, between := None, run.world.history;
    if report.Some? {
      ghost var ended;
      var second;
      second, again, ended, attempt := run.Reconcile();
    }
  }
}
