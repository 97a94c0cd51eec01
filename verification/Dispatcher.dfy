/**
 The JMAP request processor: result references (crates/jmap-core/src/refs.rs)
 and the ordered dispatch of crates/jmap-core/src/lib.rs.  A method handler is an
 arbitrary function of the method name, the resolved arguments and a state `S`
 that is threaded from call to call; panics and timeouts are among its outcomes.
 */
module Dispatcher {
  import opened Text
  import opened Json

  datatype MethodError =
    | UnknownMethod
    | InvalidArguments(why: string)
    | InvalidResultReference(why: string)
    | ServerFail(why: string)
    | Refused(typeName: string)

  datatype RequestError = NotRequest | UnknownCapability(capability: string) | Limit(name: string)

  datatype Result<+T, +E> = Ok(value: T) | Err(error: E)

  datatype Invocation = Invocation(name: string, arguments: Json, callId: string)

  datatype Reference = Reference(resultOf: string, name: string, path: string)

  type Handler<!S> = (string, Json, S) -> (Result<Json, MethodError>, S)

  const CORE_CAPABILITY := "urn:ietf:params:jmap:core"

  function ErrorInvocation(err: MethodError, callId: string): Invocation {
    var args := match err
      case UnknownMethod => map["type" := Str("unknownMethod")]
      case InvalidArguments(why) =>
        map["type" := Str("invalidArguments"), "description" := Str("invalid arguments: " + why)]
      case InvalidResultReference(why) =>
        map["type" := Str("invalidResultReference"), "description" := Str("invalid result reference: " + why)]
      case ServerFail(why) => map["type" := Str("serverFail"), "description" := Str("server failure: " + why)]
      case Refused(typeName) => map["type" := Str(typeName)];
    Invocation("error", Obj(args), callId)
  }

  // ---- result references, as a specification --------------------------------------

  predicate IsReference(key: string) {
    key != [] && key[0] == '#'
  }

  /** The key the handler sees. */
  function Plain(key: string): string {
    if IsReference(key) then key[1..] else key
  }

  /** A `ResultReference` object: exactly its three string members. */
  function ParseReference(v: Json): Option<Reference> {
    if v.Obj? && v.fields.Keys == {"resultOf", "name", "path"}
       && v.fields["resultOf"].Str? && v.fields["name"].Str? && v.fields["path"].Str?
    then Some(Reference(v.fields["resultOf"].s, v.fields["name"].s, v.fields["path"].s))
    else None
  }

  predicate Answers(inv: Invocation, reference: Reference) {
    inv.callId == reference.resultOf && inv.name == reference.name
  }

  /** The first prior response with that call id and method name. */
  function Find(prior: seq<Invocation>, reference: Reference): (r: Option<Json>)
    ensures r.Some? ==> exists i :: 0 <= i < |prior| && Answers(prior[i], reference) && r.value == prior[i].arguments
    ensures r.None? ==> forall i :: 0 <= i < |prior| ==> !Answers(prior[i], reference)
  {
    if prior == [] then None
    else if Answers(prior[0], reference) then Some(prior[0].arguments)
    else Find(prior[1..], reference)
  }

  /** What one `#key` resolves to. */
  function Resolve(fields: map<string, Json>, key: string, prior: seq<Invocation>): Result<Json, MethodError>
    requires key in fields && IsReference(key)
  {
    if Plain(key) in fields then Err(InvalidArguments("both " + key + " and " + Plain(key) + " present"))
    else
      match ParseReference(fields[key])
      case None => Err(InvalidResultReference("malformed reference"))
      case Some(reference) =>
        match Find(prior, reference)
        case None =>
          Err(InvalidResultReference("no prior response " + reference.name + " with callId " + reference.resultOf))
        case Some(source) =>
          match EvalPath(source, reference.path)
          case None => Err(InvalidResultReference("path " + reference.path + " not found"))
          case Some(v) => Ok(v)
  }

  /** The first error among the references, in key order. */
  function FirstError(fields: map<string, Json>, keys: seq<string>, prior: seq<Invocation>): Option<MethodError>
    requires forall k :: k in keys ==> k in fields
  {
    if keys == [] then None
    else
      match FirstError(fields, keys[..|keys| - 1], prior)
      case Some(e) => Some(e)
      case None =>
        var key := keys[|keys| - 1];
        if IsReference(key) && Resolve(fields, key, prior).Err? then Some(Resolve(fields, key, prior).error) else None
  }

  /** All references of the object resolve. */
  ghost predicate Resolvable(fields: map<string, Json>, prior: seq<Invocation>) {
    forall k :: k in fields && IsReference(k) ==> Resolve(fields, k, prior).Ok?
  }

  function Literal(fields: map<string, Json>, key: string, prior: seq<Invocation>): Json
    requires key in fields && (IsReference(key) ==> Resolve(fields, key, prior).Ok?)
  {
    if IsReference(key) then Resolve(fields, key, prior).value else fields[key]
  }

  /** The object with every `#key` replaced by `key` and its literal value. */
  ghost function Inlined(fields: map<string, Json>, keys: seq<string>, prior: seq<Invocation>): map<string, Json>
    requires Resolvable(fields, prior) && forall k :: k in keys ==> k in fields
  {
    if keys == [] then map[]
    else
      var key := keys[|keys| - 1];
      Inlined(fields, keys[..|keys| - 1], prior)[Plain(key) := Literal(fields, key, prior)]
  }

  ghost function ResolveReferences(arguments: Json, prior: seq<Invocation>): Result<Json, MethodError> {
    match arguments
    case Obj(fields) =>
      FirstErrorFinds(fields, Sorted(fields.Keys), prior);
      (match FirstError(fields, Sorted(fields.Keys), prior)
       case Some(e) => Err(e)
       case None => Ok(Obj(Inlined(fields, Sorted(fields.Keys), prior))))
    case _ => Err(InvalidArguments("arguments must be an object"))
  }

  lemma {:induction false} FirstErrorFinds(fields: map<string, Json>, keys: seq<string>, prior: seq<Invocation>)
    requires forall k :: k in keys ==> k in fields
    ensures FirstError(fields, keys, prior).None?
       <==> forall k :: k in keys && IsReference(k) ==> Resolve(fields, k, prior).Ok?
  {
    if keys != [] {
      var n := |keys| - 1;
      FirstErrorFinds(fields, keys[..n], prior);
      assert forall k :: k in keys <==> k in keys[..n] || k == keys[n];
    }
  }

  /** On resolvable arguments distinct keys stay distinct without their `#`. */
  lemma PlainIsInjective(fields: map<string, Json>, prior: seq<Invocation>, a: string, b: string)
    requires Resolvable(fields, prior) && a in fields && b in fields && Plain(a) == Plain(b)
    ensures a == b
  {
    assert IsReference(a) ==> a == "#" + Plain(a);
    assert IsReference(b) ==> b == "#" + Plain(b);
  }

  lemma {:induction false} InlinedKeys(fields: map<string, Json>, keys: seq<string>, prior: seq<Invocation>, p: string)
    requires Resolvable(fields, prior) && forall k :: k in keys ==> k in fields
    ensures p in Inlined(fields, keys, prior) <==> exists k :: k in keys && Plain(k) == p
  {
    if keys != [] {
      var n := |keys| - 1;
      InlinedKeys(fields, keys[..n], prior, p);
      assert forall k :: k in keys <==> k in keys[..n] || k == keys[n];
    }
  }

  lemma {:induction false} InlinedAt(fields: map<string, Json>, keys: seq<string>, prior: seq<Invocation>, key: string)
    requires Resolvable(fields, prior) && key in keys && forall k :: k in keys ==> k in fields
    ensures Plain(key) in Inlined(fields, keys, prior)
    ensures Inlined(fields, keys, prior)[Plain(key)] == Literal(fields, key, prior)
  {
    var n := |keys| - 1;
    if key != keys[n] {
      if Plain(key) == Plain(keys[n]) { PlainIsInjective(fields, prior, key, keys[n]); }
      InlinedAt(fields, keys[..n], prior, key);
    }
  }

  lemma {:induction false} InlinedSize(fields: map<string, Json>, keys: seq<string>, prior: seq<Invocation>)
    requires Resolvable(fields, prior) && forall k :: k in keys ==> k in fields
    requires forall i, j :: 0 <= i < j < |keys| ==> keys[i] != keys[j]
    ensures |Inlined(fields, keys, prior)| == |keys|
  {
    if keys != [] {
      var n := |keys| - 1;
      InlinedSize(fields, keys[..n], prior);
      InlinedKeys(fields, keys[..n], prior, Plain(keys[n]));
      if k :| k in keys[..n] && Plain(k) == Plain(keys[n]) {
        PlainIsInjective(fields, prior, k, keys[n]);
      }
    }
  }

  lemma {:induction false} SortedSize(keys: set<string>)
    ensures |Sorted(keys)| == |keys|
    decreases |keys|
  {
    if keys != {} {
      SortedSize(keys - {Least(keys)});
    }
  }

  // ---- result references, with the loops of the source ------------------------------

  lemma PrefixError(fields: map<string, Json>, keys: seq<string>, n: nat, prior: seq<Invocation>)
    requires n <= |keys| && forall k :: k in keys ==> k in fields
    requires FirstError(fields, keys[..n], prior).Some?
    ensures FirstError(fields, keys, prior) == FirstError(fields, keys[..n], prior)
    decreases |keys| - n
  {
    if n < |keys| {
      assert keys[..n + 1][..n] == keys[..n];
      PrefixError(fields, keys, n + 1, prior);
    } else {
      assert keys[..n] == keys;
    }
  }

  /** `resolved` holds the value of every reference among `keys`, under its plain key. */
  ghost predicate Holds(resolved: map<string, Json>, fields: map<string, Json>, keys: seq<string>,
                        prior: seq<Invocation>)
  {
    forall k :: k in keys && IsReference(k) ==>
      && k in fields && Resolve(fields, k, prior).Ok?
      && Plain(k) in resolved && resolved[Plain(k)] == Resolve(fields, k, prior).value
  }

  lemma HoldsMore(resolved: map<string, Json>, fields: map<string, Json>, keys: seq<string>,
                  prior: seq<Invocation>, key: string)
    requires Holds(resolved, fields, keys, prior)
    requires key in fields && IsReference(key) && Resolve(fields, key, prior).Ok?
    ensures Holds(resolved[Plain(key) := Resolve(fields, key, prior).value], fields, keys + [key], prior)
  {
    forall k | k in keys && IsReference(k) && Plain(k) == Plain(key) ensures k == key {
      assert k == "#" + Plain(k) && key == "#" + Plain(key);
    }
  }

  /** The first loop of `resolve_references`: every reference, or the first error. */
  method ResolveAll(fields: map<string, Json>, keys: seq<string>, prior: seq<Invocation>)
    returns (r: Result<map<string, Json>, MethodError>)
    requires forall k :: k in keys ==> k in fields
    ensures r.Ok? ==> FirstError(fields, keys, prior).None? && Holds(r.value, fields, keys, prior)
    ensures r.Err? ==> FirstError(fields, keys, prior) == Some(r.error)
  {
    var resolved: map<string, Json> := map[];
    for i := 0 to |keys|
      invariant FirstError(fields, keys[..i], prior).None? && Holds(resolved, fields, keys[..i], prior)
    {
      assert keys[..i + 1][..i] == keys[..i] && keys[..i + 1] == keys[..i] + [keys[i]];
      if IsReference(keys[i]) {
        var value := Resolve(fields, keys[i], prior);
        if value.Err? {
          PrefixError(fields, keys, i + 1, prior);
          return Err(value.error);
        }
        HoldsMore(resolved, fields, keys[..i], prior, keys[i]);
        resolved := resolved[Plain(keys[i]) := value.value];
      }
    }
    assert keys[..|keys|] == keys;
    r := Ok(resolved);
  }

  /** The second loop; its `expect` is the assertion that the plain key is still there. */
  method Substitute(fields: map<string, Json>, keys: seq<string>, prior: seq<Invocation>, values: map<string, Json>)
    returns (out: map<string, Json>)
    requires forall k :: k in keys ==> k in fields
    requires forall i, j :: 0 <= i < j < |keys| ==> keys[i] != keys[j]
    requires Resolvable(fields, prior) && Holds(values, fields, keys, prior)
    ensures out == Inlined(fields, keys, prior)
  {
    out := map[];
    var resolved := values;
    for i := 0 to |keys|
      invariant out == Inlined(fields, keys[..i], prior)
      invariant Holds(resolved, fields, keys[i..], prior)
    {
      var key := keys[i];
      assert keys[..i + 1][..i] == keys[..i] && keys[i..] == [key] + keys[i + 1..];
      if IsReference(key) {
        assert Plain(key) in resolved; // "resolved above for every # key"
        out := out[Plain(key) := resolved[Plain(key)]];
        forall k | k in keys[i + 1..] && IsReference(k) ensures Plain(k) != Plain(key) {
          if Plain(k) == Plain(key) { PlainIsInjective(fields, prior, k, key); }
        }
        resolved := map p | p in resolved && p != Plain(key) :: resolved[p];
      } else {
        out := out[key := fields[key]];
      }
    }
    assert keys[..|keys|] == keys;
  }

  /** `resolve_references` */
  method ResolveArguments(arguments: Json, prior: seq<Invocation>) returns (r: Result<Json, MethodError>)
    ensures r == ResolveReferences(arguments, prior)
  {
    if !arguments.Obj? {
      return Err(InvalidArguments("arguments must be an object"));
    }
    var fields := arguments.fields;
    var keys := Sorted(fields.Keys);
    FirstErrorFinds(fields, keys, prior);
    var resolved := ResolveAll(fields, keys, prior);
    if resolved.Err? {
      return Err(resolved.error);
    }
    assert Resolvable(fields, prior);
    var out := Substitute(fields, keys, prior, resolved.value);
    r := Ok(Obj(out));
  }

  // ---- properties of resolution -------------------------------------------------------

  /** Resolution succeeds exactly when every reference resolves, and keeps the number of arguments. */
  lemma KeepsCount(fields: map<string, Json>, prior: seq<Invocation>)
    ensures ResolveReferences(Obj(fields), prior).Ok? <==> Resolvable(fields, prior)
    ensures ResolveReferences(Obj(fields), prior).Ok? ==>
              && ResolveReferences(Obj(fields), prior).value.Obj?
              && |ResolveReferences(Obj(fields), prior).value.fields| == |fields|
  {
    FirstErrorFinds(fields, Sorted(fields.Keys), prior);
    if Resolvable(fields, prior) {
      InlinedSize(fields, Sorted(fields.Keys), prior);
      SortedSize(fields.Keys);
      assert |fields| == |fields.Keys|;
    }
  }

  /** No key begins with two hash signs. */
  ghost predicate SingleHash(fields: map<string, Json>) {
    forall k :: k in fields ==> !(IsReference(k) && IsReference(Plain(k)))
  }

  lemma NoReferences(fields: map<string, Json>, prior: seq<Invocation>)
    requires forall k :: k in fields ==> !IsReference(k)
    ensures ResolveReferences(Obj(fields), prior) == Ok(Obj(fields))
  {
    var keys := Sorted(fields.Keys);
    FirstErrorFinds(fields, keys, prior);
    var out := Inlined(fields, keys, prior);
    forall p ensures p in out <==> p in fields {
      InlinedKeys(fields, keys, prior, p);
    }
    forall k | k in fields ensures k in out && out[k] == fields[k] {
      InlinedAt(fields, keys, prior, k);
    }
    assert out == fields;
  }

  /** A second resolution leaves the resolved arguments alone exactly when no key began with `##`. */
  lemma ResolutionIsIdempotent(fields: map<string, Json>, prior: seq<Invocation>, later: seq<Invocation>)
    requires ResolveReferences(Obj(fields), prior).Ok?
    ensures var out := ResolveReferences(Obj(fields), prior).value;
            ResolveReferences(out, later) == Ok(out) <==> SingleHash(fields)
  {
    var keys := Sorted(fields.Keys);
    KeepsCount(fields, prior);
    var out := Inlined(fields, keys, prior);
    forall p ensures p in out <==> exists k :: k in keys && Plain(k) == p {
      InlinedKeys(fields, keys, prior, p);
    }
    if SingleHash(fields) {
      NoReferences(out, later);
    } else {
      var k :| k in fields && IsReference(k) && IsReference(Plain(k));
      assert k in keys && Plain(k) in out;
      ReferenceDoesNotSurvive(out, later, Plain(k));
    }
  }

  /** Arguments that contain a reference are never their own resolution. */
  lemma ReferenceDoesNotSurvive(fields: map<string, Json>, prior: seq<Invocation>, key: string)
    requires key in fields && IsReference(key)
    ensures ResolveReferences(Obj(fields), prior) != Ok(Obj(fields))
  {
    KeepsCount(fields, prior);
    if Resolvable(fields, prior) {
      InlinedAt(fields, Sorted(fields.Keys), prior, key);
      assert Resolve(fields, key, prior).Ok?;
    }
  }

  /** A `##` key does resolve, so the side condition matters: `##ids` becomes a reference of its own. */
  lemma DoubleHashResolves(later: seq<Invocation>)
    ensures var fields := map["##ids" := Obj(map["resultOf" := Str("c0"), "name" := Str("q"), "path" := Str("ids")])];
            var once := ResolveReferences(Obj(fields), [Invocation("q", Obj(map["ids" := Num(7)]), "c0")]);
            once.Ok? && ResolveReferences(once.value, later) != once
  {
    var reference := Obj(map["resultOf" := Str("c0"), "name" := Str("q"), "path" := Str("ids")]);
    var source, fields := Obj(map["ids" := Num(7)]), map["##ids" := reference];
    var prior := [Invocation("q", source, "c0")];
    assert EvalPath(source, "ids").Some? by {
      SplitOne("ids", '/');
      PlainUnescape("ids");
      assert EvalTokens(source, ["ids"]) == EvalTokens(Num(7), []);
    }
    assert Find(prior, Reference("c0", "q", "ids")) == Some(source);
    assert Resolve(fields, "##ids", prior).Ok?;
    KeepsCount(fields, prior);
    assert IsReference(Plain("##ids"));
    ResolutionIsIdempotent(fields, prior, later);
  }

  // ---- dispatch -----------------------------------------------------------------------

  /** The part of the dispatcher and of the request that stays fixed during a request. */
  datatype Context<!S> = Context(methods: map<string, (string, Handler<S>)>, using: seq<string>)

  /** `Dispatcher::call` */
  ghost function Call<S>(ctx: Context<S>, call: Invocation, prior: seq<Invocation>, s: S)
    : (Result<Json, MethodError>, S)
  {
    if call.name !in ctx.methods then (Err(UnknownMethod), s)
    else
      var (capability, handler) := ctx.methods[call.name];
      if capability != CORE_CAPABILITY && capability !in ctx.using then (Err(UnknownMethod), s)
      else
        match ResolveReferences(call.arguments, prior)
        case Err(e) => (Err(e), s)
        case Ok(arguments) => handler(call.name, arguments, s)
  }

  function Respond(call: Invocation, outcome: Result<Json, MethodError>): Invocation {
    match outcome
    case Ok(result) => Invocation(call.name, result, call.callId)
    case Err(e) => ErrorInvocation(e, call.callId)
  }

  /** All responses and the final handler state of a list of calls. */
  ghost function Run<S>(ctx: Context<S>, calls: seq<Invocation>, s: S): (r: (seq<Invocation>, S))
    ensures |r.0| == |calls|
  {
    if calls == [] then ([], s)
    else
      var call := calls[|calls| - 1];
      var (before, s1) := Run(ctx, calls[..|calls| - 1], s);
      var (outcome, s2) := Call(ctx, call, before, s1);
      (before + [Respond(call, outcome)], s2)
  }

  /** Why a request is refused: the first entry of `using` that repeats an earlier one or is not supported decides. */
  function RefusalFrom(using: seq<string>, supported: set<string>, i: nat): RequestError
    requires i <= |using|
    decreases |using| - i
  {
    if i == |using| then Limit("maxCallsInRequest")
    else if using[i] in using[..i] then NotRequest
    else if using[i] !in supported then UnknownCapability(using[i])
    else RefusalFrom(using, supported, i + 1)
  }

  function Refusal(using: seq<string>, supported: set<string>): RequestError {
    if using == [] then NotRequest else RefusalFrom(using, supported, 0)
  }

  /** The refusal is what its parts say: a repetition or an unsupported entry at the first bad place, else the limit. */
  lemma {:induction false} RefusalIsFirst(using: seq<string>, supported: set<string>, i: nat)
    requires i <= |using|
    ensures var e := RefusalFrom(using, supported, i);
            if n :| i <= n < |using| && (using[n] in using[..n] || using[n] !in supported)
                    && forall m :: i <= m < n ==> using[m] !in using[..m] && using[m] in supported
            then e == if using[n] in using[..n] then NotRequest else UnknownCapability(using[n])
            else e == Limit("maxCallsInRequest")
    decreases |using| - i
  {
    if i < |using| && using[i] !in using[..i] && using[i] in supported {
      RefusalIsFirst(using, supported, i + 1);
    }
  }

  datatype Response = Response(methodResponses: seq<Invocation>, sessionState: string)

  class Dispatcher<S> {
    const sessionState: string
    const maxCallsInRequest: nat
    var capabilities: map<string, Json>
    var methods: map<string, (string, Handler<S>)>

    constructor (sessionState: string, maxCallsInRequest: nat, core: Json, echo: Handler<S>)
      ensures capabilities == map[CORE_CAPABILITY := core]
      ensures methods == map["Core/echo" := (CORE_CAPABILITY, echo)]
      ensures this.sessionState == sessionState && this.maxCallsInRequest == maxCallsInRequest
    {
      this.sessionState := sessionState;
      this.maxCallsInRequest := maxCallsInRequest;
      this.capabilities := map[CORE_CAPABILITY := core];
      this.methods := map["Core/echo" := (CORE_CAPABILITY, echo)];
    }

    /** Every registered method belongs to a declared capability. */
    ghost predicate Valid()
      reads this
    {
      forall m :: m in methods ==> methods[m].0 == CORE_CAPABILITY || methods[m].0 in capabilities
    }

    method Register(name: string, capability: string, handler: Handler<S>)
      requires Valid()
      modifies this
      ensures Valid()
      ensures methods == old(methods)[name := (capability, handler)]
      ensures capabilities == if capability == CORE_CAPABILITY || capability in old(capabilities) then old(capabilities)
                              else old(capabilities)[capability := Obj(map[])]
    {
      if capability != CORE_CAPABILITY && capability !in capabilities {
        capabilities := capabilities[capability := Obj(map[])];
      }
      methods := methods[name := (capability, handler)];
    }

    /** `Dispatcher::process`: request checks in order, then one response per call, in order. */
    method Process(using: seq<string>, calls: seq<Invocation>, s: S)
      returns (r: Result<Response, RequestError>, after: S)
      ensures r.Ok? <==> && using != [] && |calls| <= maxCallsInRequest
                         && (forall i, j :: 0 <= i < j < |using| ==> using[i] != using[j])
                         && (forall c :: c in using ==> c in capabilities)
      ensures r.Ok? ==> (r.value.methodResponses, after) == Run(Context(methods, using), calls, s)
      ensures r.Ok? ==> r.value.sessionState == sessionState
      ensures r.Err? ==> after == s
      ensures r.Err? ==> r.error == Refusal(using, capabilities.Keys)
    {
      after := s;
      if using == [] {
        return Err(NotRequest), s;
      }
      for i := 0 to |using|
        invariant forall a, b :: 0 <= a < b < i ==> using[a] != using[b]
        invariant forall a :: 0 <= a < i ==> using[a] in capabilities
        invariant Refusal(using, capabilities.Keys) == RefusalFrom(using, capabilities.Keys, i)
      {
        if using[i] in using[..i] {
          return Err(NotRequest), s;
        }
        if using[i] !in capabilities {
          return Err(UnknownCapability(using[i])), s;
        }
      }
      if |calls| > maxCallsInRequest {
        return Err(Limit("maxCallsInRequest")), s;
      }
      ghost var ctx := Context(methods, using);
      var responses: seq<Invocation> := [];
      for i := 0 to |calls|
        invariant (responses, after) == Run(ctx, calls[..i], s)
      {
        assert calls[..i + 1][..i] == calls[..i];
        var outcome;
        outcome, after := CallOne(using, calls[i], responses, after);
        responses := responses + [Respond(calls[i], outcome)];
      }
      assert calls[..|calls|] == calls;
      r := Ok(Response(responses, sessionState));
    }

    method CallOne(using: seq<string>, call: Invocation, prior: seq<Invocation>, s: S)
      returns (outcome: Result<Json, MethodError>, after: S)
      ensures (outcome, after) == Call(Context(methods, using), call, prior, s)
    {
      if call.name !in methods {
        return Err(UnknownMethod), s;
      }
      var (capability, handler) := methods[call.name];
      if capability != CORE_CAPABILITY && capability !in using {
        return Err(UnknownMethod), s;
      }
      var arguments := ResolveArguments(call.arguments, prior);
      match arguments
      case Err(e) => return Err(e), s;
      case Ok(resolved) =>
        var (o, t) := handler(call.name, resolved, s);
        return o, t;
    }
  }

  // ---- properties of dispatch -----------------------------------------------------------

  /** The first `n` responses depend on the first `n` calls only. */
  lemma {:induction false} EarlierCallsDecide<S>(ctx: Context<S>, calls: seq<Invocation>, s: S, n: nat)
    requires n <= |calls|
    ensures Run(ctx, calls[..n], s).0 == Run(ctx, calls, s).0[..n]
    decreases |calls|
  {
    if n == |calls| {
      assert calls[..n] == calls;
    } else {
      var init := calls[..|calls| - 1];
      assert init[..n] == calls[..n];
      EarlierCallsDecide(ctx, init, s, n);
    }
  }

  /** Response `i` carries the id of call `i`, and its name unless it is an error. */
  lemma {:induction false} ResponsesAnswerCalls<S>(ctx: Context<S>, calls: seq<Invocation>, s: S, i: nat)
    requires i < |calls|
    ensures var response := Run(ctx, calls, s).0[i];
            response.callId == calls[i].callId && (response.name == calls[i].name || response.name == "error")
    decreases |calls|
  {
    if i < |calls| - 1 {
      ResponsesAnswerCalls(ctx, calls[..|calls| - 1], s, i);
    }
  }

  // ---- writing some references out by hand ---------------------------------------------------

  predicate Inlinable(fields: map<string, Json>, key: string, prior: seq<Invocation>) {
    key in fields && IsReference(key) && Resolve(fields, key, prior).Ok?
  }

  predicate Failing(fields: map<string, Json>, key: string, prior: seq<Invocation>) {
    key in fields && IsReference(key) && Resolve(fields, key, prior).Err?
  }

  ghost predicate AllInlinable(fields: map<string, Json>, chosen: set<string>, prior: seq<Invocation>) {
    forall k :: k in chosen ==> Inlinable(fields, k, prior)
  }

  /** The object with each chosen `#key` replaced by `key` and its literal; the others stay. */
  ghost function PartlyInlined(fields: map<string, Json>, chosen: set<string>,
                               prior: seq<Invocation>): map<string, Json>
    requires AllInlinable(fields, chosen, prior)
  {
    map p | p in (fields.Keys - chosen) + (set k | k in chosen :: Plain(k)) ::
      if p in fields then fields[p] else Chosen(fields, chosen, prior, p)
  }

  ghost function Chosen(fields: map<string, Json>, chosen: set<string>, prior: seq<Invocation>, p: string): Json
    requires AllInlinable(fields, chosen, prior)
  {
    if "#" + p in chosen then Literal(fields, "#" + p, prior) else Null
  }

  lemma HashOfPlain(key: string)
    requires IsReference(key)
    ensures "#" + Plain(key) == key
  {
  }

  /** What a chosen key leaves behind, and that nothing else has moved. */
  lemma PartKeys(fields: map<string, Json>, chosen: set<string>, prior: seq<Invocation>, p: string)
    requires AllInlinable(fields, chosen, prior)
    ensures var part := PartlyInlined(fields, chosen, prior);
            && (p in chosen ==> Plain(p) in part && part[Plain(p)] == Literal(fields, p, prior) && Plain(p) !in fields)
            && (p in fields && p !in chosen ==> p in part && part[p] == fields[p])
            && (p in part && p !in fields ==> "#" + p in chosen)
  {
    if p in chosen {
      HashOfPlain(p);
      assert Inlinable(fields, p, prior);
    }
    var part := PartlyInlined(fields, chosen, prior);
    if p in part && p !in fields {
      var k :| k in chosen && Plain(k) == p;
      assert Inlinable(fields, k, prior);
      HashOfPlain(k);
    }
  }

  /** Without `##` keys, a written-out key is no reference. */
  lemma WrittenOutIsPlain(fields: map<string, Json>, chosen: set<string>, prior: seq<Invocation>)
    requires AllInlinable(fields, chosen, prior) && SingleHash(fields)
    ensures forall k :: k in chosen ==> k in fields && IsReference(k) && !IsReference(Plain(k)) && Plain(k) !in fields
  {
    forall k | k in chosen
      ensures k in fields && IsReference(k) && !IsReference(Plain(k)) && Plain(k) !in fields
    {
      assert Inlinable(fields, k, prior);
    }
  }

  /** The references that are left are the ones not chosen, and each resolves as before. */
  lemma LeftResolvesAlike(fields: map<string, Json>, chosen: set<string>, prior: seq<Invocation>, key: string)
    requires AllInlinable(fields, chosen, prior) && SingleHash(fields) && IsReference(key)
    ensures var part := PartlyInlined(fields, chosen, prior);
            && (key in part <==> key in fields && key !in chosen)
            && (key in part ==> Resolve(part, key, prior) == Resolve(fields, key, prior))
  {
    var part := PartlyInlined(fields, chosen, prior);
    WrittenOutIsPlain(fields, chosen, prior);
    PartKeys(fields, chosen, prior, key);
    if key in fields && key !in chosen {
      HashOfPlain(key);
      PartKeys(fields, chosen, prior, Plain(key));
      assert Plain(key) in part <==> Plain(key) in fields;
    }
  }

  lemma PartKeyComesFrom(fields: map<string, Json>, chosen: set<string>, prior: seq<Invocation>, q: string)
    requires AllInlinable(fields, chosen, prior) && SingleHash(fields) && q in PartlyInlined(fields, chosen, prior)
    ensures exists k :: k in fields && Plain(k) == Plain(q)
  {
    WrittenOutIsPlain(fields, chosen, prior);
    PartKeys(fields, chosen, prior, q);
    var k := if q in fields then q else "#" + q;
    assert k in fields && Plain(k) == Plain(q);
  }

  lemma {:induction false} FirstErrorAt(fields: map<string, Json>, keys: seq<string>, prior: seq<Invocation>, i: nat)
    requires (forall k :: k in keys ==> k in fields) && i < |keys| && Failing(fields, keys[i], prior)
    requires forall j :: 0 <= j < i ==> !Failing(fields, keys[j], prior)
    ensures FirstError(fields, keys, prior) == Some(Resolve(fields, keys[i], prior).error)
    decreases |keys|
  {
    var n := |keys| - 1;
    if i < n {
      FirstErrorAt(fields, keys[..n], prior, i);
    } else {
      assert forall k :: k in keys[..n] ==> !Failing(fields, k, prior);
      FirstErrorFinds(fields, keys[..n], prior);
    }
  }

  /** The first reference in key order that fails, if any does. */
  lemma FirstFailing(fields: map<string, Json>, prior: seq<Invocation>) returns (first: Option<string>)
    ensures first.None? ==> Resolvable(fields, prior)
    ensures first.Some? ==> Failing(fields, first.value, prior)
                            && forall k :: Failing(fields, k, prior) ==> k == first.value || Less(first.value, k)
  {
    var failing := set k | k in fields && Failing(fields, k, prior);
    if failing == {} {
      first := None;
      forall k | k in fields && IsReference(k) ensures Resolve(fields, k, prior).Ok? {
        assert k !in failing;
      }
    } else {
      LeastExists(failing);
      var k :| IsLeast(k, failing);
      first := Some(k);
    }
  }

  lemma LeastFailingDecides(fields: map<string, Json>, prior: seq<Invocation>, first: string)
    requires Failing(fields, first, prior)
    requires forall k :: Failing(fields, k, prior) ==> k == first || Less(first, k)
    ensures ResolveReferences(Obj(fields), prior) == Err(Resolve(fields, first, prior).error)
  {
    var keys := Sorted(fields.Keys);
    assert first in keys;
    var i :| 0 <= i < |keys| && keys[i] == first;
    forall j | 0 <= j < i ensures !Failing(fields, keys[j], prior) {
      LessTotal(keys[j], keys[i]);
    }
    FirstErrorAt(fields, keys, prior, i);
  }

  lemma ResolvedKeys(fields: map<string, Json>, prior: seq<Invocation>, p: string)
    requires Resolvable(fields, prior)
    ensures var out := Inlined(fields, Sorted(fields.Keys), prior);
            && (p in out <==> exists k :: k in fields && Plain(k) == p)
            && forall k :: k in fields && Plain(k) == p ==> p in out && out[p] == Literal(fields, k, prior)
  {
    var keys := Sorted(fields.Keys);
    InlinedKeys(fields, keys, prior, p);
    forall k | k in fields && Plain(k) == p
      ensures p in Inlined(fields, keys, prior) && Inlined(fields, keys, prior)[p] == Literal(fields, k, prior)
    {
      InlinedAt(fields, keys, prior, k);
    }
  }

  lemma PartResolvedAt(fields: map<string, Json>, chosen: set<string>, prior: seq<Invocation>, p: string)
    requires AllInlinable(fields, chosen, prior) && SingleHash(fields) && Resolvable(fields, prior)
    requires Resolvable(PartlyInlined(fields, chosen, prior), prior)
    ensures var part := PartlyInlined(fields, chosen, prior);
            var out, whole := Inlined(part, Sorted(part.Keys), prior), Inlined(fields, Sorted(fields.Keys), prior);
            && (p in out <==> p in whole) && (p in whole ==> out[p] == whole[p])
  {
    var part := PartlyInlined(fields, chosen, prior);
    ResolvedKeys(part, prior, p);
    ResolvedKeys(fields, prior, p);
    WrittenOutIsPlain(fields, chosen, prior);
    if k :| k in fields && Plain(k) == p {
      PartKeys(fields, chosen, prior, k);
      if k !in chosen && IsReference(k) {
        LeftResolvesAlike(fields, chosen, prior, k);
      }
      var q := if k in chosen then p else k;
      assert q in part && Plain(q) == p && Literal(part, q, prior) == Literal(fields, k, prior);
    } else {
      forall q | q in part ensures Plain(q) != p {
        PartKeyComesFrom(fields, chosen, prior, q);
      }
    }
  }

  lemma SameFailures(fields: map<string, Json>, chosen: set<string>, prior: seq<Invocation>, k: string)
    requires SingleHash(fields) && AllInlinable(fields, chosen, prior)
    ensures Failing(PartlyInlined(fields, chosen, prior), k, prior) <==> Failing(fields, k, prior)
  {
    if IsReference(k) {
      LeftResolvesAlike(fields, chosen, prior, k);
      assert k in chosen ==> Inlinable(fields, k, prior);
    }
  }

  lemma PartialInliningSucceedsAlike(fields: map<string, Json>, chosen: set<string>, prior: seq<Invocation>)
    requires SingleHash(fields) && AllInlinable(fields, chosen, prior) && Resolvable(fields, prior)
    requires Resolvable(PartlyInlined(fields, chosen, prior), prior)
    ensures ResolveReferences(Obj(PartlyInlined(fields, chosen, prior)), prior) == ResolveReferences(Obj(fields), prior)
  {
    var part := PartlyInlined(fields, chosen, prior);
    WholeResolves(fields, prior);
    WholeResolves(part, prior);
    SameResult(fields, chosen, prior);
  }

  lemma WholeResolves(fields: map<string, Json>, prior: seq<Invocation>)
    requires Resolvable(fields, prior)
    ensures ResolveReferences(Obj(fields), prior) == Ok(Obj(Inlined(fields, Sorted(fields.Keys), prior)))
  {
    FirstErrorFinds(fields, Sorted(fields.Keys), prior);
  }

  lemma SameResult(fields: map<string, Json>, chosen: set<string>, prior: seq<Invocation>)
    requires SingleHash(fields) && AllInlinable(fields, chosen, prior) && Resolvable(fields, prior)
    requires Resolvable(PartlyInlined(fields, chosen, prior), prior)
    ensures var part := PartlyInlined(fields, chosen, prior);
            Inlined(part, Sorted(part.Keys), prior) == Inlined(fields, Sorted(fields.Keys), prior)
  {
    var part := PartlyInlined(fields, chosen, prior);
    var out, whole := Inlined(part, Sorted(part.Keys), prior), Inlined(fields, Sorted(fields.Keys), prior);
    forall p ensures (p in out <==> p in whole) && (p in whole ==> out[p] == whole[p]) {
      PartResolvedAt(fields, chosen, prior, p);
    }
  }

  /**
   Writing out any of the references that resolve changes nothing about the resolution of
   the whole: the same result, or the same first error.
   */
  lemma PartialInliningResolvesAlike(fields: map<string, Json>, chosen: set<string>, prior: seq<Invocation>)
    requires SingleHash(fields) && AllInlinable(fields, chosen, prior)
    ensures ResolveReferences(Obj(PartlyInlined(fields, chosen, prior)), prior) == ResolveReferences(Obj(fields), prior)
  {
    var part := PartlyInlined(fields, chosen, prior);
    forall k ensures Failing(part, k, prior) <==> Failing(fields, k, prior) {
      SameFailures(fields, chosen, prior, k);
    }
    var first := FirstFailing(fields, prior);
    if first.Some? {
      LeastFailingDecides(fields, prior, first.value);
      LeftResolvesAlike(fields, chosen, prior, first.value);
      LeastFailingDecides(part, prior, first.value);
    } else {
      forall k | k in part && IsReference(k) ensures Resolve(part, k, prior).Ok? {
        assert !Failing(part, k, prior);
      }
      PartialInliningSucceedsAlike(fields, chosen, prior);
    }
  }

  /** The call with those of the chosen references that resolve replaced by their literals. */
  ghost function InlineCall(call: Invocation, chosen: set<string>, prior: seq<Invocation>): Invocation {
    if call.arguments.Obj? && SingleHash(call.arguments.fields) then
      var fields := call.arguments.fields;
      var resolvable := set k | k in chosen && Inlinable(fields, k, prior);
      Invocation(call.name, Obj(PartlyInlined(fields, resolvable, prior)), call.callId)
    else call
  }

  ghost function InlineAll<S>(ctx: Context<S>, calls: seq<Invocation>,
                              chosen: seq<set<string>>, s: S): (r: seq<Invocation>)
    requires |chosen| == |calls|
    ensures |r| == |calls|
  {
    if calls == [] then []
    else
      var n := |calls| - 1;
      InlineAll(ctx, calls[..n], chosen[..n], s) + [InlineCall(calls[n], chosen[n], Run(ctx, calls[..n], s).0)]
  }

  lemma InlineCallPreserves<S>(ctx: Context<S>, call: Invocation, chosen: set<string>, prior: seq<Invocation>, s: S)
    ensures Call(ctx, InlineCall(call, chosen, prior), prior, s) == Call(ctx, call, prior, s)
  {
    if call.arguments.Obj? && SingleHash(call.arguments.fields) {
      var fields := call.arguments.fields;
      var resolvable := set k | k in chosen && Inlinable(fields, k, prior);
      PartialInliningResolvesAlike(fields, resolvable, prior);
    }
  }

  /**
   Writing any resolvable references of any calls out by hand, next to others that fail or
   are left alone, changes no response, errors included, and no handler state.
   */
  lemma {:induction false} InliningPreservesMeaning<S>(ctx: Context<S>, calls: seq<Invocation>,
                                                       chosen: seq<set<string>>, s: S)
    requires |chosen| == |calls|
    ensures Run(ctx, InlineAll(ctx, calls, chosen, s), s) == Run(ctx, calls, s)
    decreases |calls|
  {
    if calls != [] {
      var n := |calls| - 1;
      InliningPreservesMeaning(ctx, calls[..n], chosen[..n], s);
      var (before, s1) := Run(ctx, calls[..n], s);
      InlineCallPreserves(ctx, calls[n], chosen[n], before, s1);
      assert InlineAll(ctx, calls, chosen, s)[..n] == InlineAll(ctx, calls[..n], chosen[..n], s);
    }
  }
}
