/**
  The streaming JSON-RPC envelope classifier of the MCP endpoint (src/http.rs). It
  reads the members of a request body once, in order, and decides whether the
  response needs a permit. The reference is a grammar that never mentions order.
 */
module JsonRpcEnvelope {
  import opened Common

  /** A parsed JSON value; an object keeps its members in order, repetitions included. */
  datatype Json =
    | Null
    | Bool(b: bool)
    | Int(n: int)
    | Fraction
    | Str(s: string)
    | Arr(items: seq<Json>)
    | Obj(members: seq<Member>)

  datatype Member = Member(name: string, value: Json)

  predicate FitsI64(n: int)
  {
    -0x8000_0000_0000_0000 <= n < 0x8000_0000_0000_0000
  }

  // ----- The error object -----

  datatype ErrorField = Code | Message | Data | UnknownErrorField

  function ErrorFieldOf(m: Member): (f: ErrorField)
  {
    if m.name == "code" then Code
    else if m.name == "message" then Message
    else if m.name == "data" then Data
    else UnknownErrorField
  }

  predicate ValidErrorValue(m: Member)
  {
    match ErrorFieldOf(m)
    case Code => m.value.Int? && FitsI64(m.value.n)
    case Message => m.value.Str?
    case Data => true
    case UnknownErrorField => false
  }

  function IsErrorField(f: ErrorField): Member -> nat
  {
    (m: Member) => One(ErrorFieldOf(m) == f)
  }

  /** One code, one message, at most one data, nothing else (JSON-RPC 2.0 section 5.1). */
  ghost predicate WellFormedError(members: seq<Member>)
  {
    && (forall m :: m in members ==> ValidErrorValue(m))
    && SumBy(members, IsErrorField(Code)) == 1
    && SumBy(members, IsErrorField(Message)) == 1
    && SumBy(members, IsErrorField(Data)) <= 1
  }

  lemma SumByAppend<T>(s: seq<T>, x: T, weight: T -> nat)
    ensures SumBy(s + [x], weight) == SumBy(s, weight) + weight(x)
  {
    SumByConcat(s, [x], weight);
    assert [x][1..] == [];
  }

  lemma SumByPrefix<T>(s: seq<T>, i: nat, weight: T -> nat)
    requires i < |s|
    ensures SumBy(s[..i + 1], weight) == SumBy(s[..i], weight) + weight(s[i])
    ensures SumBy(s[..i], weight) + weight(s[i]) <= SumBy(s, weight)
  {
    assert s[..i + 1] == s[..i] + [s[i]];
    SumByAppend(s[..i], s[i], weight);
    assert s == s[..i + 1] + s[i + 1..];
    SumByConcat(s[..i + 1], s[i + 1..], weight);
  }

  class JsonRpcErrorShape {
    var code: bool
    var message: bool
    var data: bool

    ghost predicate Reads(members: seq<Member>)
      reads this
    {
      && (forall m :: m in members ==> ValidErrorValue(m))
      && SumBy(members, IsErrorField(Code)) == One(code)
      && SumBy(members, IsErrorField(Message)) == One(message)
      && SumBy(members, IsErrorField(Data)) == One(data)
    }

    constructor ()
      ensures Reads([])
    {
      code, message, data := false, false, false;
    }

    /** False is a rejected field: repeated, unknown or of the wrong type. */
    method ReadField(m: Member) returns (ok: bool)
      modifies this
      ensures ok <==>
                && ValidErrorValue(m)
                && !(match ErrorFieldOf(m) case Code => old(code) case Message => old(message) case Data => old(data) case UnknownErrorField => true)
      ensures ok ==>
                && code == (old(code) || ErrorFieldOf(m).Code?)
                && message == (old(message) || ErrorFieldOf(m).Message?)
                && data == (old(data) || ErrorFieldOf(m).Data?)
    {
      match ErrorFieldOf(m) {
        case Code =>
          if code || !(m.value.Int? && FitsI64(m.value.n)) { return false; }
          code := true;
        case Message =>
          if message || !m.value.Str? { return false; }
          message := true;
        case Data =>
          if data { return false; }
          data := true;
        case UnknownErrorField =>
          return false;
      }
      return true;
    }
  }

  lemma ErrorCountsGrow(members: seq<Member>, i: nat)
    requires i < |members|
    ensures members[..i + 1] == members[..i] + [members[i]] && members[i] in members
    ensures forall f :: SumBy(members[..i + 1], IsErrorField(f)) == SumBy(members[..i], IsErrorField(f)) + IsErrorField(f)(members[i])
    ensures forall f :: SumBy(members[..i], IsErrorField(f)) + IsErrorField(f)(members[i]) <= SumBy(members, IsErrorField(f))
  {
    forall f
      ensures SumBy(members[..i + 1], IsErrorField(f)) == SumBy(members[..i], IsErrorField(f)) + IsErrorField(f)(members[i])
      ensures SumBy(members[..i], IsErrorField(f)) + IsErrorField(f)(members[i]) <= SumBy(members, IsErrorField(f))
    {
      SumByPrefix(members, i, IsErrorField(f));
    }
  }

  method ReadError(value: Json) returns (ok: bool)
    ensures ok <==> value.Obj? && WellFormedError(value.members)
  {
    if !value.Obj? { return false; }
    var members := value.members;
    var shape := new JsonRpcErrorShape();
    assert members[..0] == [];
    for i := 0 to |members|
      invariant shape.Reads(members[..i])
    {
      ErrorCountsGrow(members, i);
      var read := shape.ReadField(members[i]);
      if !read { return false; }
    }
    assert members[..|members|] == members;
    return shape.code && shape.message;
  }

  // ----- The envelope -----

  datatype Field = JsonRpc | Method | Id | Params | Result | Error | Unknown

  function FieldOf(m: Member): (f: Field)
  {
    if m.name == "jsonrpc" then JsonRpc
    else if m.name == "method" then Method
    else if m.name == "id" then Id
    else if m.name == "params" then Params
    else if m.name == "result" then Result
    else if m.name == "error" then Error
    else Unknown
  }

  ghost predicate ValidValue(m: Member)
  {
    match FieldOf(m)
    case JsonRpc => m.value == Str("2.0")
    case Method => m.value.Str?
    case Id => m.value.Null? || m.value.Str? || (m.value.Int? && FitsI64(m.value.n))
    case Params => m.value.Obj? || m.value.Arr?
    case Result => true
    case Error => m.value.Obj? && WellFormedError(m.value.members)
    case Unknown => true
  }

  function IsField(f: Field): Member -> nat
  {
    (m: Member) => One(FieldOf(m) == f)
  }

  function IsNullId(): Member -> nat
  {
    (m: Member) => One(FieldOf(m) == Id && m.value.Null?)
  }

  function Count(members: seq<Member>, f: Field): (n: nat)
  {
    SumBy(members, IsField(f))
  }

  /** A notification: a version, a method, perhaps params, and nothing else (section 4.1). */
  ghost predicate Notification(members: seq<Member>)
  {
    && (forall m :: m in members ==> ValidValue(m))
    && Count(members, JsonRpc) == 1 && Count(members, Method) == 1 && Count(members, Params) <= 1
    && Count(members, Id) == 0 && Count(members, Result) == 0 && Count(members, Error) == 0 && Count(members, Unknown) == 0
  }

  /** A client response: a version, a non-null id, and exactly one of result and error (section 5). */
  ghost predicate ClientResponse(members: seq<Member>)
  {
    && (forall m :: m in members ==> ValidValue(m))
    && Count(members, JsonRpc) == 1 && Count(members, Id) == 1 && SumBy(members, IsNullId()) == 0
    && Count(members, Result) + Count(members, Error) == 1
    && Count(members, Method) == 0 && Count(members, Params) == 0 && Count(members, Unknown) == 0
  }

  /** `id` records a seen id and whether it is null. */
  datatype Shape = Shape(jsonrpc: bool, method_: bool, id: Option<bool>, params: bool, result: bool, error: bool, unknown: bool)

  function Seen(s: Shape, f: Field): (b: bool)
  {
    match f
    case JsonRpc => s.jsonrpc
    case Method => s.method_
    case Id => s.id.Some?
    case Params => s.params
    case Result => s.result
    case Error => s.error
    case Unknown => s.unknown
  }

  function Mark(s: Shape, m: Member): (r: Shape)
    ensures forall f: Field :: Seen(r, f) == (Seen(s, f) || f == FieldOf(m))
  {
    match FieldOf(m)
    case JsonRpc => s.(jsonrpc := true)
    case Method => s.(method_ := true)
    case Id => s.(id := Some(m.value.Null?))
    case Params => s.(params := true)
    case Result => s.(result := true)
    case Error => s.(error := true)
    case Unknown => s.(unknown := true)
  }

  ghost predicate Reads(s: Shape, members: seq<Member>)
  {
    && (forall m :: m in members ==> ValidValue(m))
    && (forall f: Field :: f != Unknown ==> Count(members, f) == One(Seen(s, f)))
    && (s.unknown <==> Count(members, Unknown) > 0)
    && SumBy(members, IsNullId()) == One(s.id == Some(true))
  }

  class JsonRpcEnvelopeShape {
    var jsonrpc: bool
    var method_: bool
    var id: Option<bool>
    var params: bool
    var result: bool
    var error: bool
    var unknown: bool

    function View(): Shape
      reads this
    {
      Shape(jsonrpc, method_, id, params, result, error, unknown)
    }

    constructor ()
      ensures View() == Shape(false, false, None, false, false, false, false)
    {
      jsonrpc, method_, id, params, result, error, unknown := false, false, None, false, false, false, false;
    }

    /** `read_field`: a repeated known field or a value of the wrong type is rejected. */
    method ReadField(m: Member) returns (ok: bool)
      modifies this
      ensures ok <==> ValidValue(m) && (FieldOf(m) == Unknown || !Seen(old(View()), FieldOf(m)))
      ensures ok ==> View() == Mark(old(View()), m)
    {
      match FieldOf(m) {
        case JsonRpc =>
          if jsonrpc || m.value != Str("2.0") { return false; }
          jsonrpc := true;
        case Method =>
          if method_ || !m.value.Str? { return false; }
          method_ := true;
        case Id =>
          if id.Some? || !(m.value.Null? || m.value.Str? || (m.value.Int? && FitsI64(m.value.n))) { return false; }
          id := Some(m.value.Null?);
        case Params =>
          if params || !(m.value.Obj? || m.value.Arr?) { return false; }
          params := true;
        case Result =>
          if result { return false; }
          result := true;
        case Error =>
          if error { return false; }
          var wellFormed := ReadError(m.value);
          if !wellFormed { return false; }
          error := true;
        case Unknown =>
          unknown := true;
      }
      return true;
    }

    /** `requires_response_permit`. */
    method RequiresResponsePermit(ghost members: seq<Member>) returns (required: bool)
      requires Reads(View(), members)
      ensures required <==> !Notification(members) && !ClientResponse(members)
    {
      assert Count(members, JsonRpc) == One(jsonrpc) && Count(members, Method) == One(method_) && Count(members, Id) == One(id.Some?);
      assert Count(members, Params) == One(params) && Count(members, Result) == One(result) && Count(members, Error) == One(error);
      assert SumBy(members, IsNullId()) == One(id.Some? && id.value);
      if !jsonrpc || unknown { return true; }
      if method_ {
        if result || error { return true; }
        return id.Some?;
      }
      if params || id != Some(false) || result == error { return true; }
      return false;
    }
  }

  lemma CountPrefix(members: seq<Member>, i: nat)
    requires i < |members|
    ensures forall f: Field :: Count(members[..i + 1], f) == Count(members[..i], f) + One(FieldOf(members[i]) == f)
    ensures forall f: Field :: Count(members[..i], f) + One(FieldOf(members[i]) == f) <= Count(members, f)
    ensures SumBy(members[..i + 1], IsNullId()) ==
            SumBy(members[..i], IsNullId()) + One(FieldOf(members[i]) == Id && members[i].value.Null?)
  {
    forall f: Field
      ensures Count(members[..i + 1], f) == Count(members[..i], f) + One(FieldOf(members[i]) == f)
      ensures Count(members[..i], f) + One(FieldOf(members[i]) == f) <= Count(members, f)
    {
      SumByPrefix(members, i, IsField(f));
    }
    SumByPrefix(members, i, IsNullId());
  }

  lemma ReadsPrefix(s: Shape, members: seq<Member>, i: nat)
    requires i < |members| && Reads(s, members[..i])
    requires ValidValue(members[i]) && (FieldOf(members[i]) == Unknown || !Seen(s, FieldOf(members[i])))
    ensures Reads(Mark(s, members[i]), members[..i + 1])
  {
    CountPrefix(members, i);
    assert members[..i + 1] == members[..i] + [members[i]];
  }

  /** A rejected member rules out both forms, whatever follows it. */
  lemma RejectedMember(s: Shape, members: seq<Member>, i: nat)
    requires i < |members| && Reads(s, members[..i])
    requires !ValidValue(members[i]) || (FieldOf(members[i]) != Unknown && Seen(s, FieldOf(members[i])))
    ensures !Notification(members) && !ClientResponse(members)
  {
    CountPrefix(members, i);
    assert members[i] in members;
    var f := FieldOf(members[i]);
    if ValidValue(members[i]) {
      assert Count(members, f) >= 2;
    }
  }

  /** The classifier equals the grammar. `None` is a body that is not one complete JSON value. */
  method PostRequiresResponsePermit(body: Option<Json>) returns (required: bool)
    ensures !required <==> body.Some? && body.value.Obj? && (Notification(body.value.members) || ClientResponse(body.value.members))
  {
    if body.None? || !body.value.Obj? { return true; }
    var members := body.value.members;
    var shape := new JsonRpcEnvelopeShape();
    assert members[..0] == [];
    for i := 0 to |members|
      invariant Reads(shape.View(), members[..i])
    {
      ghost var before := shape.View();
      var ok := shape.ReadField(members[i]);
      if !ok {
        RejectedMember(before, members, i);
        return true;
      }
      ReadsPrefix(before, members, i);
    }
    assert members[..|members|] == members;
    required := shape.RequiresResponsePermit(members);
  }

  // ----- Order never matters -----

  /** A member up to the order of the members of its error object. */
  datatype Canonical = Verbatim(member: Member) | ErrorBag(name: string, members: multiset<Member>)

  function Canon(m: Member): (c: Canonical)
  {
    if FieldOf(m) == Error && m.value.Obj? then ErrorBag(m.name, multiset(m.value.members)) else Verbatim(m)
  }

  function Canons(members: seq<Member>): (cs: seq<Canonical>)
    ensures |cs| == |members| && forall i :: 0 <= i < |members| ==> cs[i] == Canon(members[i])
  {
    seq(|members|, i requires 0 <= i < |members| => Canon(members[i]))
  }

  lemma ErrorIsOrderFree(p: seq<Member>, q: seq<Member>)
    requires multiset(p) == multiset(q) && WellFormedError(p)
    ensures WellFormedError(q)
  {
    SumByPermutation(p, q, IsErrorField(Code));
    SumByPermutation(p, q, IsErrorField(Message));
    SumByPermutation(p, q, IsErrorField(Data));
    forall m | m in q ensures ValidErrorValue(m) {
      assert m in multiset(q);
      assert m in multiset(p);
    }
  }

  function CanonField(c: Canonical): (f: Field)
  {
    if c.Verbatim? then FieldOf(c.member) else Error
  }

  function IsCanonField(f: Field): Canonical -> nat
  {
    (c: Canonical) => One(CanonField(c) == f)
  }

  function IsCanonNullId(): Canonical -> nat
  {
    (c: Canonical) => One(c.Verbatim? && FieldOf(c.member) == Id && c.member.value.Null?)
  }

  lemma SameCounts(p: seq<Member>, q: seq<Member>)
    requires multiset(Canons(p)) == multiset(Canons(q))
    ensures forall f: Field :: Count(p, f) == Count(q, f)
    ensures SumBy(p, IsNullId()) == SumBy(q, IsNullId())
  {
    forall f: Field ensures Count(p, f) == Count(q, f) {
      SumByPointwise(p, IsField(f), Canons(p), IsCanonField(f));
      SumByPointwise(q, IsField(f), Canons(q), IsCanonField(f));
      SumByPermutation(Canons(p), Canons(q), IsCanonField(f));
    }
    SumByPointwise(p, IsNullId(), Canons(p), IsCanonNullId());
    SumByPointwise(q, IsNullId(), Canons(q), IsCanonNullId());
    SumByPermutation(Canons(p), Canons(q), IsCanonNullId());
  }

  lemma SameValidity(p: seq<Member>, q: seq<Member>)
    requires multiset(Canons(p)) == multiset(Canons(q)) && forall m :: m in p ==> ValidValue(m)
    ensures forall m :: m in q ==> ValidValue(m)
  {
    forall m | m in q ensures ValidValue(m) {
      var i :| 0 <= i < |q| && q[i] == m;
      assert Canons(q)[i] in multiset(Canons(q));
      assert Canons(q)[i] in Canons(p);
      var j :| 0 <= j < |p| && Canons(p)[j] == Canon(m);
      assert p[j] in p;
      if FieldOf(m) == Error && m.value.Obj? {
        ErrorIsOrderFree(p[j].value.members, m.value.members);
      }
    }
  }

  /** Permuting the envelope's members, and within it the members of any error object, never changes the answer. */
  lemma AnswerIsOrderFree(p: seq<Member>, q: seq<Member>)
    requires multiset(Canons(p)) == multiset(Canons(q))
    ensures Notification(p) <==> Notification(q)
    ensures ClientResponse(p) <==> ClientResponse(q)
  {
    SameCounts(p, q);
    if forall m :: m in p ==> ValidValue(m) {
      SameValidity(p, q);
    }
    if forall m :: m in q ==> ValidValue(m) {
      SameValidity(q, p);
    }
  }
}
