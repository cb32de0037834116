/**
  Admission of MCP HTTP requests: the permit lifecycle of `limit_mcp_request_concurrency`
  and `PermitBody` in src/http.rs and of `prepare_body` in src/http/request.rs, over any
  interleaving of requests, body reads, handlers, response bodies and disconnects.
 */
module HttpAdmission {
  import opened Common
  import opened JsonRpcEnvelope

  const MCP_MAX_IN_FLIGHT_REQUESTS: nat := 32
  const MCP_MAX_IN_FLIGHT_POST_RESPONSES: nat := 16
  const MCP_MAX_IN_FLIGHT_STREAMS: nat := 64

  datatype Permit = RequestPermit | ResponsePermit | StreamPermit

  function Capacity(p: Permit): (n: nat)
  {
    match p
    case RequestPermit => MCP_MAX_IN_FLIGHT_REQUESTS
    case ResponsePermit => MCP_MAX_IN_FLIGHT_POST_RESPONSES
    case StreamPermit => MCP_MAX_IN_FLIGHT_STREAMS
  }

  datatype Verb = Get | Post | OtherVerb
  /** `body` is the JSON value of the body, or `None` when it is not one complete JSON value. */
  datatype Request = Request(verb: Verb, body: Option<Json>)

  /** What the classifier decides about a body, in the words of its grammar. */
  ghost predicate NeedsResponse(r: Request)
  {
    !(r.body.Some? && r.body.value.Obj? && (Notification(r.body.value.members) || ClientResponse(r.body.value.members)))
  }

  datatype Phase =
    | Arrived(request: Request)
    | Ingress(request: Request)
    | Handling(request: Request, responding: bool)
    | StreamHandling(request: Request)
    /** A response body that was handed out together with a permit. */
    | Body(request: Request, permit: Permit)
    /** The same body after its end or its error: the permit is gone. */
    | Drained(request: Request)
    | Rejected(request: Request)
    | Closed(request: Request)

  function Retains(permit: Permit): Phase -> bool
  {
    (p: Phase) =>
      match permit
      case RequestPermit => p.Ingress? || p.Handling?
      case ResponsePermit => (p.Handling? && p.responding) || (p.Body? && p.permit == ResponsePermit)
      case StreamPermit => p.StreamHandling? || (p.Body? && p.permit == StreamPermit)
  }

  datatype Free = Free(request: nat, response: nat, stream: nat)

  function Available(f: Free, permit: Permit): (n: nat)
  {
    match permit case RequestPermit => f.request case ResponsePermit => f.response case StreamPermit => f.stream
  }

  /** Every acquisition and every release, by request. */
  datatype Event = Taken(c: nat, permit: Permit) | Returned(c: nat, permit: Permit)

  datatype Machine = Machine(free: Free, phases: map<nat, Phase>, events: seq<Event>)

  datatype Frame = Chunk | EndOfBody | Fault

  datatype Step =
    | Arrive(c: nat, request: Request)
    | Enter(c: nat)
    | ReadBody(c: nat, readable: bool)
    | Respond(c: nat, reconciled: bool, eventStream: bool)
    | Poll(c: nat, frame: Frame)
    | Disconnect(c: nat)

  predicate Enabled(m: Machine, step: Step)
  {
    if step.Arrive? then step.c !in m.phases
    else
      step.c in m.phases &&
      var p := m.phases[step.c];
      match step
      case Enter(_) => p.Arrived?
      case ReadBody(_, _) => p.Ingress?
      case Respond(_, _, _) => p.Handling? || p.StreamHandling?
      case Poll(_, _) => p.Body? || p.Drained?
      case Disconnect(_) => !p.Rejected? && !p.Closed?
  }

  function Take(m: Machine, c: nat, permit: Permit): (m': Machine)
    requires Available(m.free, permit) > 0
  {
    var free := match permit
      case RequestPermit => m.free.(request := m.free.request - 1)
      case ResponsePermit => m.free.(response := m.free.response - 1)
      case StreamPermit => m.free.(stream := m.free.stream - 1);
    m.(free := free, events := m.events + [Taken(c, permit)])
  }

  function Return(m: Machine, c: nat, permit: Permit): (m': Machine)
  {
    var free := match permit
      case RequestPermit => m.free.(request := m.free.request + 1)
      case ResponsePermit => m.free.(response := m.free.response + 1)
      case StreamPermit => m.free.(stream := m.free.stream + 1);
    m.(free := free, events := m.events + [Returned(c, permit)])
  }

  function ReturnIf(m: Machine, c: nat, permit: Permit, held: bool): (m': Machine)
  {
    if held then Return(m, c, permit) else m
  }

  /** Dropping a future or a body drops whatever permits it owns. */
  function DropAll(m: Machine, c: nat, p: Phase): (m': Machine)
  {
    var m1 := ReturnIf(m, c, RequestPermit, Retains(RequestPermit)(p));
    var m2 := ReturnIf(m1, c, ResponsePermit, Retains(ResponsePermit)(p));
    ReturnIf(m2, c, StreamPermit, Retains(StreamPermit)(p))
  }

  function Move(m: Machine, c: nat, p: Phase): (m': Machine)
  {
    m.(phases := m.phases[c := p])
  }

  ghost function Apply(m: Machine, step: Step): (m': Machine)
    requires Enabled(m, step)
  {
    var c := step.c;
    if step.Arrive? then Move(m, c, Arrived(step.request)) else
    var p := m.phases[c];
    var request := p.request;
    match step
    case Enter(_) =>
      var permit := if request.verb == Get then StreamPermit else RequestPermit;
      if Available(m.free, permit) == 0 then Move(m, c, Rejected(request))
      else Move(Take(m, c, permit), c, if request.verb == Get then StreamHandling(request) else Ingress(request))
    case ReadBody(_, readable) =>
      if request.verb != Post then Move(m, c, Handling(request, false))
      else if !readable then Move(DropAll(m, c, p), c, Closed(request))
      else if !NeedsResponse(request) then Move(m, c, Handling(request, false))
      else if m.free.response == 0 then Move(DropAll(m, c, p), c, Rejected(request))
      else Move(Take(m, c, ResponsePermit), c, Handling(request, true))
    case Respond(_, reconciled, eventStream) =>
      if !reconciled then Move(DropAll(m, c, p), c, Closed(request))
      else if p.StreamHandling? then
        if eventStream then Move(m, c, Body(request, StreamPermit)) else Move(DropAll(m, c, p), c, Closed(request))
      else
        Move(Return(m, c, RequestPermit), c, if p.responding then Body(request, ResponsePermit) else Closed(request))
    case Poll(_, frame) =>
      if frame.Chunk? || p.Drained? then m else Move(DropAll(m, c, p), c, Drained(request))
    case Disconnect(_) => Move(DropAll(m, c, p), c, Closed(request))
  }

  const INITIAL: Machine :=
    Machine(Free(MCP_MAX_IN_FLIGHT_REQUESTS, MCP_MAX_IN_FLIGHT_POST_RESPONSES, MCP_MAX_IN_FLIGHT_STREAMS), map[], [])

  ghost function Exec(steps: seq<Step>): (m: Option<Machine>)
  {
    if steps == [] then Some(INITIAL)
    else
      var last := steps[|steps| - 1];
      match Exec(steps[..|steps| - 1])
      case None => None
      case Some(m) => if Enabled(m, last) then Some(Apply(m, last)) else None
  }

  function IsTaken(c: nat, permit: Permit): Event -> nat { (e: Event) => One(e == Taken(c, permit)) }
  function IsReturned(c: nat, permit: Permit): Event -> nat { (e: Event) => One(e == Returned(c, permit)) }

  function Acquisitions(m: Machine, c: nat, permit: Permit): (n: nat) { SumBy(m.events, IsTaken(c, permit)) }
  function Releases(m: Machine, c: nat, permit: Permit): (n: nat) { SumBy(m.events, IsReturned(c, permit)) }

  ghost predicate RetainsNow(m: Machine, c: nat, permit: Permit)
  {
    c in m.phases && Retains(permit)(m.phases[c])
  }

  /** A request may still take this permit later. */
  ghost predicate MayTake(m: Machine, c: nat, permit: Permit)
  {
    c !in m.phases || m.phases[c].Arrived? || (permit == ResponsePermit && m.phases[c].Ingress?)
  }

  /** Per request and permit: taken at most once, returned at most once, and retained exactly in between. */
  ghost predicate Ledger(m: Machine, c: nat, permit: Permit)
  {
    && Acquisitions(m, c, permit) == Releases(m, c, permit) + One(RetainsNow(m, c, permit))
    && Acquisitions(m, c, permit) <= 1
    && (MayTake(m, c, permit) ==> Acquisitions(m, c, permit) == 0)
  }

  ghost predicate Conserved(m: Machine, permit: Permit)
  {
    Available(m.free, permit) + |Holders(m.phases, Retains(permit))| == Capacity(permit)
  }

  ghost predicate Inv(m: Machine)
  {
    && (forall permit: Permit :: Conserved(m, permit))
    && (forall c, permit: Permit :: Ledger(m, c, permit))
  }

  lemma EventAdds(events: seq<Event>, e: Event, c: nat, permit: Permit)
    ensures SumBy(events + [e], IsTaken(c, permit)) == SumBy(events, IsTaken(c, permit)) + One(e == Taken(c, permit))
    ensures SumBy(events + [e], IsReturned(c, permit)) == SumBy(events, IsReturned(c, permit)) + One(e == Returned(c, permit))
  {
    SumByAppend(events, e, IsTaken(c, permit));
    SumByAppend(events, e, IsReturned(c, permit));
  }

  lemma TakeEffect(m: Machine, c: nat, permit: Permit, d: nat, q: Permit)
    requires Available(m.free, permit) > 0
    ensures var m' := Take(m, c, permit);
            && m'.phases == m.phases && Available(m'.free, q) + One(q == permit) == Available(m.free, q)
            && Acquisitions(m', d, q) == Acquisitions(m, d, q) + One(d == c && q == permit)
            && Releases(m', d, q) == Releases(m, d, q)
  {
    EventAdds(m.events, Taken(c, permit), d, q);
  }

  lemma ReturnEffect(m: Machine, c: nat, permit: Permit, held: bool, d: nat, q: Permit)
    ensures var m' := ReturnIf(m, c, permit, held);
            && m'.phases == m.phases && Available(m'.free, q) == Available(m.free, q) + One(held && q == permit)
            && Acquisitions(m', d, q) == Acquisitions(m, d, q)
            && Releases(m', d, q) == Releases(m, d, q) + One(held && d == c && q == permit)
  {
    EventAdds(m.events, Returned(c, permit), d, q);
  }

  lemma DropAllEffect(m: Machine, c: nat, p: Phase, d: nat, q: Permit)
    ensures var m' := DropAll(m, c, p);
            && m'.phases == m.phases && Available(m'.free, q) == Available(m.free, q) + One(Retains(q)(p))
            && Acquisitions(m', d, q) == Acquisitions(m, d, q)
            && Releases(m', d, q) == Releases(m, d, q) + One(d == c && Retains(q)(p))
  {
    var m1 := ReturnIf(m, c, RequestPermit, Retains(RequestPermit)(p));
    var m2 := ReturnIf(m1, c, ResponsePermit, Retains(ResponsePermit)(p));
    ReturnEffect(m, c, RequestPermit, Retains(RequestPermit)(p), d, q);
    ReturnEffect(m1, c, ResponsePermit, Retains(ResponsePermit)(p), d, q);
    ReturnEffect(m2, c, StreamPermit, Retains(StreamPermit)(p), d, q);
  }

  /** What one step does to one request's ledger and to one semaphore. */
  ghost predicate Follows(m: Machine, m': Machine, c: nat, d: nat, q: Permit)
  {
    && c in m'.phases && m'.phases == m.phases[c := m'.phases[c]]
    && Available(m'.free, q) + One(RetainsNow(m', c, q)) == Available(m.free, q) + One(RetainsNow(m, c, q))
    && Acquisitions(m', d, q) == Acquisitions(m, d, q) + One(d == c && RetainsNow(m', c, q) && !RetainsNow(m, c, q))
    && Releases(m', d, q) == Releases(m, d, q) + One(d == c && RetainsNow(m, c, q) && !RetainsNow(m', c, q))
    && (RetainsNow(m', c, q) && !RetainsNow(m, c, q) ==> MayTake(m, c, q))
    && (MayTake(m', c, q) ==> MayTake(m, c, q) && !RetainsNow(m', c, q))
  }

  /** Dropping everything and moving to a phase without permits. */
  lemma DropFollows(m: Machine, c: nat, p: Phase, d: nat, q: Permit)
    requires c in m.phases && (p.Rejected? || p.Closed? || p.Drained?)
    ensures Follows(m, Move(DropAll(m, c, m.phases[c]), c, p), c, d, q)
  {
    DropAllEffect(m, c, m.phases[c], d, q);
  }

  /** Taking a permit that may still be taken and moving to a phase that adds it to what was held. */
  lemma TakeFollows(m: Machine, c: nat, permit: Permit, p: Phase, d: nat, q: Permit)
    requires c in m.phases && Available(m.free, permit) > 0
    requires MayTake(m, c, permit) && !Retains(permit)(m.phases[c])
    requires forall r: Permit :: Retains(r)(p) <==> r == permit || Retains(r)(m.phases[c])
    requires !p.Arrived? && (p.Ingress? ==> permit != ResponsePermit && m.phases[c].Arrived?)
    ensures Follows(m, Move(Take(m, c, permit), c, p), c, d, q)
  {
    TakeEffect(m, c, permit, d, q);
  }

  /** Moving on with the same permits, past the point where more could be taken. */
  lemma StayFollows(m: Machine, c: nat, p: Phase, d: nat, q: Permit)
    requires c in m.phases && !p.Arrived? && !p.Ingress?
    requires forall r: Permit :: Retains(r)(p) <==> Retains(r)(m.phases[c])
    ensures Follows(m, Move(m, c, p), c, d, q)
  {
  }

  lemma EnterFollows(m: Machine, c: nat, d: nat, q: Permit)
    requires Enabled(m, Enter(c))
    ensures Follows(m, Apply(m, Enter(c)), c, d, q)
  {
    var request := m.phases[c].request;
    if request.verb == Get {
      if m.free.stream > 0 { TakeFollows(m, c, StreamPermit, StreamHandling(request), d, q); }
    } else if m.free.request > 0 {
      TakeFollows(m, c, RequestPermit, Ingress(request), d, q);
    }
  }

  lemma ReadBodyFollows(m: Machine, c: nat, readable: bool, d: nat, q: Permit)
    requires Enabled(m, ReadBody(c, readable))
    ensures Follows(m, Apply(m, ReadBody(c, readable)), c, d, q)
  {
    var request := m.phases[c].request;
    if request.verb != Post || (readable && !NeedsResponse(request)) {
      StayFollows(m, c, Handling(request, false), d, q);
    } else if !readable {
      DropFollows(m, c, Closed(request), d, q);
    } else if m.free.response == 0 {
      DropFollows(m, c, Rejected(request), d, q);
    } else {
      TakeFollows(m, c, ResponsePermit, Handling(request, true), d, q);
    }
  }

  lemma RespondFollows(m: Machine, step: Step, d: nat, q: Permit)
    requires step.Respond? && Enabled(m, step)
    ensures Follows(m, Apply(m, step), step.c, d, q)
  {
    DropFollows(m, step.c, Closed(m.phases[step.c].request), d, q);
    ReturnEffect(m, step.c, RequestPermit, true, d, q);
  }

  lemma StepFollows(m: Machine, step: Step, d: nat, q: Permit)
    requires Enabled(m, step)
    ensures Follows(m, Apply(m, step), step.c, d, q)
  {
    match step
    case Arrive(_, _) =>
    case Enter(c) => EnterFollows(m, c, d, q);
    case ReadBody(c, readable) => ReadBodyFollows(m, c, readable, d, q);
    case Respond(_, _, _) => RespondFollows(m, step, d, q);
    case Poll(c, _) => DropFollows(m, c, Drained(m.phases[c].request), d, q);
    case Disconnect(c) => DropFollows(m, c, Closed(m.phases[c].request), d, q);
  }

  lemma FollowingKeepsInv(m: Machine, m': Machine, c: nat)
    requires Inv(m) && forall d, q: Permit :: Follows(m, m', c, d, q)
    ensures Inv(m')
  {
    forall q: Permit ensures Conserved(m', q) {
      assert Follows(m, m', c, c, q) && Conserved(m, q);
      PermitsMoveWithHolders(m.phases, m'.phases, c, Retains(q), Available(m.free, q), Available(m'.free, q), Capacity(q));
    }
    forall d, q: Permit ensures Ledger(m', d, q) {
      assert Follows(m, m', c, d, q) && Ledger(m, d, q);
    }
  }

  lemma InitialInv()
    ensures Inv(INITIAL)
  {
    forall q: Permit ensures Conserved(INITIAL, q) {
      assert Holders(INITIAL.phases, Retains(q)) == {};
    }
    forall c, q: Permit ensures Ledger(INITIAL, c, q) {
    }
  }

  lemma {:induction false} ReachableInv(steps: seq<Step>)
    ensures Exec(steps).Some? ==> Inv(Exec(steps).value)
  {
    if steps == [] {
      InitialInv();
    } else {
      var before := steps[..|steps| - 1];
      ReachableInv(before);
      if Exec(steps).Some? {
        var m, step := Exec(before).value, steps[|steps| - 1];
        forall d, q: Permit ensures Follows(m, Apply(m, step), step.c, d, q) {
          StepFollows(m, step, d, q);
        }
        FollowingKeepsInv(m, Apply(m, step), step.c);
      }
    }
  }

  // ----- Main results -----

  /** Every semaphore conserves its permits in every reachable state. */
  lemma PermitsAreConserved(steps: seq<Step>, permit: Permit)
    requires Exec(steps).Some?
    ensures var m := Exec(steps).value;
            Available(m.free, permit) + |Holders(m.phases, Retains(permit))| == Capacity(permit)
  {
    ReachableInv(steps);
    assert Conserved(Exec(steps).value, permit);
  }

  /** Once a request is over, on whatever path, each permit it took was returned exactly once. */
  lemma ReturnedExactlyOnce(steps: seq<Step>, c: nat, permit: Permit)
    requires Exec(steps).Some? && c in Exec(steps).value.phases
    requires var p := Exec(steps).value.phases[c]; p.Closed? || p.Rejected? || p.Drained?
    ensures var m := Exec(steps).value;
            Releases(m, c, permit) == Acquisitions(m, c, permit) <= 1
  {
    ReachableInv(steps);
    assert Ledger(Exec(steps).value, c, permit);
  }

  lemma {:induction false} ExecAppend(steps: seq<Step>, step: Step)
    requires Exec(steps).Some? && Enabled(Exec(steps).value, step)
    ensures Exec(steps + [step]) == Some(Apply(Exec(steps).value, step))
  {
    assert (steps + [step])[..|steps|] == steps;
  }

  /**
    While fewer than 32 requests are in the ingress phase, a new well-formed notification reaches
    the handler, however many response bodies are unread and even with no response permit left.
   */
  lemma NotificationReachesHandler(steps: seq<Step>, c: nat, request: Request)
    requires Exec(steps).Some? && c !in Exec(steps).value.phases
    requires request.verb == Post && request.body.Some? && request.body.value.Obj? && Notification(request.body.value.members)
    requires |Holders(Exec(steps).value.phases, Retains(RequestPermit))| < MCP_MAX_IN_FLIGHT_REQUESTS
    ensures var run := steps + [Arrive(c, request)] + [Enter(c)] + [ReadBody(c, true)];
            Exec(run).Some? && Exec(run).value.phases[c] == Handling(request, false)
  {
    PermitsAreConserved(steps, RequestPermit);
    var s1 := steps + [Arrive(c, request)];
    ExecAppend(steps, Arrive(c, request));
    var s2 := s1 + [Enter(c)];
    ExecAppend(s1, Enter(c));
    ExecAppend(s2, ReadBody(c, true));
  }

  /** The step and the moment at which a notification was turned away: the ingress phase was full. */
  ghost predicate IngressWasFull(steps: seq<Step>, c: nat)
  {
    exists k ::
      && 0 <= k < |steps| && steps[k] == Enter(c) && Exec(steps[..k]).Some?
      && |Holders(Exec(steps[..k]).value.phases, Retains(RequestPermit))| == MCP_MAX_IN_FLIGHT_REQUESTS
  }

  lemma LongerRunStillFull(steps: seq<Step>, c: nat)
    requires steps != [] && IngressWasFull(steps[..|steps| - 1], c)
    ensures IngressWasFull(steps, c)
  {
    var before := steps[..|steps| - 1];
    var k :| 0 <= k < |before| && before[k] == Enter(c) && Exec(before[..k]).Some? &&
      |Holders(Exec(before[..k]).value.phases, Retains(RequestPermit))| == MCP_MAX_IN_FLIGHT_REQUESTS;
    assert before[..k] == steps[..k] && steps[k] == Enter(c);
  }

  /** The one step that turns away a POST that bypasses the response permit. */
  lemma RejectingStep(m: Machine, step: Step, c: nat)
    requires Enabled(m, step) && c in Apply(m, step).phases && Apply(m, step).phases[c].Rejected?
    requires var request := Apply(m, step).phases[c].request; request.verb == Post && !NeedsResponse(request)
    ensures c in m.phases
    ensures m.phases[c] == Apply(m, step).phases[c] || (step == Enter(c) && m.free.request == 0)
  {
    if step.c == c && !step.Enter? {
      assert !step.Arrive?;
      assert !step.ReadBody?;
    }
  }

  /**
    In any run, whatever else happens in between, a POST that bypasses the response permit is
    refused for capacity only because 32 requests held the ingress phase when it tried to enter.
   */
  lemma {:induction false} OnlyFullIngressRejects(steps: seq<Step>, c: nat)
    requires Exec(steps).Some? && c in Exec(steps).value.phases
    requires Exec(steps).value.phases[c].Rejected?
    requires var request := Exec(steps).value.phases[c].request; request.verb == Post && !NeedsResponse(request)
    ensures IngressWasFull(steps, c)
  {
    var n := |steps| - 1;
    var m := Exec(steps[..n]).value;
    RejectingStep(m, steps[n], c);
    if m.phases[c].Rejected? {
      OnlyFullIngressRejects(steps[..n], c);
      LongerRunStillFull(steps, c);
    } else {
      PermitsAreConserved(steps[..n], RequestPermit);
    }
  }

  // ----- What admission must do -----

  /** A readable POST is handled unless it needs a response permit and all 16 are out; with one, it carries it on. */
  lemma ReadBodyAdmitsExactlyWhenItCan(steps: seq<Step>, c: nat)
    requires Exec(steps).Some? && Enabled(Exec(steps).value, ReadBody(c, true))
    requires Exec(steps).value.phases[c].request.verb == Post
    ensures var m := Exec(steps).value;
            var request, p := m.phases[c].request, Apply(m, ReadBody(c, true)).phases[c];
            var full := |Holders(m.phases, Retains(ResponsePermit))| == 16;
            && (NeedsResponse(request) && !full ==> p == Handling(request, true))
            && (NeedsResponse(request) && full ==> p == Rejected(request))
            && (!NeedsResponse(request) ==> p == Handling(request, false))
  {
    PermitsAreConserved(steps, ResponsePermit);
  }

  /** A request enters exactly when a permit of its kind is free: 32 for requests, 64 for streams. */
  lemma EnterAdmitsExactlyWhenItCan(steps: seq<Step>, c: nat)
    requires Exec(steps).Some? && Enabled(Exec(steps).value, Enter(c))
    ensures var m := Exec(steps).value;
            var request, p := m.phases[c].request, Apply(m, Enter(c)).phases[c];
            && (request.verb == Get ==>
                  p == if |Holders(m.phases, Retains(StreamPermit))| == 64 then Rejected(request) else StreamHandling(request))
            && (request.verb != Get ==>
                  p == if |Holders(m.phases, Retains(RequestPermit))| == 32 then Rejected(request) else Ingress(request))
  {
    PermitsAreConserved(steps, StreamPermit);
    PermitsAreConserved(steps, RequestPermit);
  }

  /** The steps that end a request's hold on a permit. */
  predicate LetsGo(m: Machine, step: Step, permit: Permit)
    requires step.c in m.phases
  {
    match step
    case Poll(_, frame) => m.phases[step.c].Body? && !frame.Chunk?
    case Disconnect(_) => true
    case Respond(_, reconciled, eventStream) =>
      || !reconciled
      || permit == RequestPermit
      || (permit == StreamPermit && !eventStream)
    case ReadBody(_, _) => permit == RequestPermit
    case _ => false
  }

  /** A permit leaves a request only by its own end of body, body error, disconnect, or a refusal before the body is handed out. */
  lemma PermitIsKeptUntilLetGo(m: Machine, step: Step, c: nat, permit: Permit)
    requires Enabled(m, step) && RetainsNow(m, c, permit) && !RetainsNow(Apply(m, step), c, permit)
    ensures step.c == c && LetsGo(m, step, permit)
  {
    StepFollows(m, step, c, permit);
  }

  /** Over a run: a request that held a permit after the first `n` steps and does not now has let go of it by a step of its own. */
  lemma {:induction false} PermitsAreHeldThrough(steps: seq<Step>, n: nat, c: nat, permit: Permit) returns (k: nat)
    requires Exec(steps).Some? && n <= |steps| && Exec(steps[..n]).Some?
    requires RetainsNow(Exec(steps[..n]).value, c, permit) && !RetainsNow(Exec(steps).value, c, permit)
    ensures n <= k < |steps| && Exec(steps[..k]).Some? && steps[k].c == c && c in Exec(steps[..k]).value.phases
    ensures LetsGo(Exec(steps[..k]).value, steps[k], permit)
  {
    var last := |steps| - 1;
    assert steps[..|steps|] == steps;
    var before := steps[..last];
    assert n <= last ==> before[..n] == steps[..n];
    assert before[..last] == before;
    if RetainsNow(Exec(before).value, c, permit) {
      k := last;
      PermitIsKeptUntilLetGo(Exec(before).value, steps[last], c, permit);
    } else {
      k := PermitsAreHeldThrough(before, n, c, permit);
      assert before[..k] == steps[..k];
    }
  }

  /** A handled POST that took a response permit hands its body out together with that permit. */
  lemma ResponseCarriesItsPermit(m: Machine, c: nat, eventStream: bool)
    requires Enabled(m, Respond(c, true, eventStream)) && m.phases[c].Handling? && m.phases[c].responding
    ensures Apply(m, Respond(c, true, eventStream)).phases[c] == Body(m.phases[c].request, ResponsePermit)
  {
  }

  /** A GET keeps its stream permit through an event stream, and returns it at once with any other answer. */
  lemma OnlyEventStreamsKeepTheirPermit(m: Machine, c: nat, eventStream: bool)
    requires Enabled(m, Respond(c, true, eventStream)) && m.phases[c].StreamHandling?
    ensures var request, m' := m.phases[c].request, Apply(m, Respond(c, true, eventStream));
            && m'.phases[c] == (if eventStream then Body(request, StreamPermit) else Closed(request))
            && m'.free.stream == m.free.stream + One(!eventStream)
  {
  }
}
