/** The controller mock (ai/kvcache/mock/server/controller/main.go): six call
    counters, a placement ("layout") suggested for every looked-up token
    sequence, and `/pin`, `/compress` and `/evict` events. */
module Controller {
  import opened Http
  import EventIds

  const EngineA := "mock-llm-a"
  const EngineB := "mock-llm-b"

  /** The preferred endpoint when none is configured. */
  const DefaultPreferred := EngineB

  /** `max` of the controller. */
  function Max(a: int, b: int): (m: int)
    ensures m >= a && m >= b
    ensures m == a || m == b
  {
    if a > b then a else b
  }

  /** The token count a lookup works with: the number of tokens, but never
      less than 1, so an empty or absent list counts as one token. */
  function TokenCount(tokens: seq<int>): (n: nat)
    ensures n >= 1
    ensures n == Max(|tokens|, 1)
  {
    if |tokens| == 0 then 1 else |tokens|
  }

  /** One engine's entry in a layout: the entry's "0" (a cache tier tag) and
      "1" (a synthetic size). */
  datatype Placement = Placement(tag: string, size: int)

  /** The engine whose entry gets the larger size: engine A only when it is
      the configured preference, engine B for every other value. */
  function Favoured(preferred: string): string {
    if preferred == EngineA then EngineA else EngineB
  }

  function Unfavoured(preferred: string): string {
    if preferred == EngineA then EngineB else EngineA
  }

  /** The layout a lookup answers with. The favoured engine gets
      tokenCount + 3, the other max(tokenCount / 2, 1): the favoured size is
      strictly the larger one and both are at least 1. */
  function LayoutFor(tokenCount: nat, preferred: string): (layout: map<string, Placement>)
    ensures layout.Keys == {EngineA, EngineB}
    ensures Favoured(preferred) != Unfavoured(preferred)
    ensures layout[EngineA].tag == "ram-a" && layout[EngineB].tag == "ram-b"
    ensures layout[Favoured(preferred)].size == tokenCount + 3
    ensures layout[Unfavoured(preferred)].size == Max(tokenCount / 2, 1)
    ensures layout[Favoured(preferred)].size > layout[Unfavoured(preferred)].size >= 1
  {
    var small := Max(tokenCount / 2, 1);
    var large := tokenCount + 3;
    if preferred == EngineA then
      map[EngineA := Placement("ram-a", large), EngineB := Placement("ram-b", small)]
    else
      map[EngineA := Placement("ram-a", small), EngineB := Placement("ram-b", large)]
  }

  /** A lookup of three tokens under the default preference: engine A gets
      max(3 / 2, 1) = 1 and engine B gets 3 + 3 = 6. */
  lemma DefaultLayoutOfThreeTokens()
    ensures LayoutFor(TokenCount([1, 2, 3]), DefaultPreferred)
      == map[EngineA := Placement("ram-a", 1), EngineB := Placement("ram-b", 6)]
  {
  }

  /** The three token events handled by `handleTokenEvent`. */
  datatype TokenOp = Pin | Compress | Evict {
    /** The operation's name: the route and the event id prefix. */
    function Name(): string {
      match this
      case Pin => "pin"
      case Compress => "compress"
      case Evict => "evict"
    }
  }

  /** Response bodies. */
  datatype Body =
    | Error(error: string)
    | Ok
    | LayoutInfo(eventId: string, layout: map<string, Placement>)
    | Event(eventId: string, numTokens: int)

  /** The six counters of `controllerStats`. */
  datatype Counters = Counters(
    lookupCalls: nat,
    lookupSuccess: nat,
    lookupFailure: nat,
    pinCalls: nat,
    compressCalls: nat,
    evictCalls: nat)

  const Zero := Counters(0, 0, 0, 0, 0, 0)

  /** A call to an endpoint that may change the counters; a request body of
      `None` did not decode. */
  datatype Call =
    | ResetCall(verb: string)
    | LookupCall(req: Request<seq<int>>)
    | TokenEventCall(op: TokenOp, req: Request<seq<int>>)

  /** The counters after one call: a POST reset zeroes all six; a lookup
      bumps the failure counter when its body does not decode, and the call
      and success counters otherwise; a token event bumps the counter of its
      operation when its body decodes. A method other than POST changes
      nothing. */
  function Step(c: Counters, call: Call): Counters {
    match call
    case ResetCall(verb) =>
      if verb == POST then Zero else c
    case LookupCall(req) =>
      if req.verb != POST then c
      else if req.body.None? then c.(lookupFailure := c.lookupFailure + 1)
      else c.(lookupCalls := c.lookupCalls + 1, lookupSuccess := c.lookupSuccess + 1)
    case TokenEventCall(op, req) =>
      if req.verb != POST || req.body.None? then c
      else
        match op
        case Pin => c.(pinCalls := c.pinCalls + 1)
        case Compress => c.(compressCalls := c.compressCalls + 1)
        case Evict => c.(evictCalls := c.evictCalls + 1)
  }

  /** The counters after a sequence of calls, oldest first. */
  function Run(c: Counters, calls: seq<Call>): Counters
    decreases |calls|
  {
    if calls == [] then c else Step(Run(c, calls[..|calls| - 1]), calls[|calls| - 1])
  }

  predicate IsReset(call: Call) {
    call.ResetCall? && call.verb == POST
  }

  predicate Accepted(req: Request<seq<int>>) {
    req.verb == POST && req.body.Some?
  }

  /** What one call counts, independently of any state: 1 in each counter
      the call is recorded in, 0 elsewhere (all zero for a reset). */
  function Effect(call: Call): Counters {
    var lookupOk := if call.LookupCall? && Accepted(call.req) then 1 else 0;
    var lookupBad := if call.LookupCall? && call.req.verb == POST && call.req.body.None? then 1 else 0;
    Counters(
      lookupOk,
      lookupOk,
      lookupBad,
      if IsEvent(call, Pin) then 1 else 0,
      if IsEvent(call, Compress) then 1 else 0,
      if IsEvent(call, Evict) then 1 else 0)
  }

  predicate IsEvent(call: Call, op: TokenOp) {
    call.TokenEventCall? && call.op == op && Accepted(call.req)
  }

  function Plus(a: Counters, b: Counters): Counters {
    Counters(
      a.lookupCalls + b.lookupCalls,
      a.lookupSuccess + b.lookupSuccess,
      a.lookupFailure + b.lookupFailure,
      a.pinCalls + b.pinCalls,
      a.compressCalls + b.compressCalls,
      a.evictCalls + b.evictCalls)
  }

  /** Per counter, how many of `calls` it records. */
  function Tally(calls: seq<Call>): Counters
    decreases |calls|
  {
    if calls == [] then Zero else Plus(Tally(calls[..|calls| - 1]), Effect(calls[|calls| - 1]))
  }

  /** Running calls one after the other is running their concatenation. */
  lemma {:induction false} RunAppend(c: Counters, xs: seq<Call>, ys: seq<Call>)
    ensures Run(c, xs + ys) == Run(Run(c, xs), ys)
    decreases |ys|
  {
    if ys == [] {
      assert xs + ys == xs;
    } else {
      var ys' := ys[..|ys| - 1];
      assert (xs + ys)[..|xs + ys| - 1] == xs + ys';
      RunAppend(c, xs, ys');
    }
  }

  /** Until a reset, the counters only grow, each by exactly the number of
      calls it records. */
  lemma {:induction false} RunWithoutReset(c: Counters, calls: seq<Call>)
    requires forall i :: 0 <= i < |calls| ==> !IsReset(calls[i])
    ensures Run(c, calls) == Plus(c, Tally(calls))
    decreases |calls|
  {
    if calls != [] {
      var init, last := calls[..|calls| - 1], calls[|calls| - 1];
      assert forall i :: 0 <= i < |init| ==> init[i] == calls[i];
      RunWithoutReset(c, init);
      var r, t, e := Run(c, init), Tally(init), Effect(last);
      assert Run(c, calls) == Step(r, last);
      StepAddsEffect(r, last);
      assert Tally(calls) == Plus(t, e);
      PlusAssociative(c, t, e);
    }
  }

  lemma PlusAssociative(a: Counters, b: Counters, c: Counters)
    ensures Plus(Plus(a, b), c) == Plus(a, Plus(b, c))
  {
  }

  /** A call other than a reset adds its effect to the counters. */
  lemma StepAddsEffect(c: Counters, call: Call)
    requires !IsReset(call)
    ensures Step(c, call) == Plus(c, Effect(call))
  {
    match call
    case ResetCall(_) =>
    case LookupCall(_) =>
    case TokenEventCall(op, _) =>
      match op
      case Pin =>
      case Compress =>
      case Evict =>
  }

  /** After a reset, the counters hold exactly what the later calls record,
      whatever came before: this is what a test sees after `/reset`. */
  lemma CountersSinceReset(c: Counters, before: seq<Call>, after: seq<Call>)
    requires forall i :: 0 <= i < |after| ==> !IsReset(after[i])
    ensures Run(c, before + [ResetCall(POST)] + after) == Tally(after)
  {
    var reset := [ResetCall(POST)];
    RunAppend(c, before + reset, after);
    RunAppend(c, before, reset);
    assert reset[..0] == [];
    assert Run(Run(c, before), reset) == Zero;
    RunWithoutReset(Zero, after);
    assert Plus(Zero, Tally(after)) == Tally(after);
  }

  /** A second reset changes nothing. */
  lemma ResetIdempotent(c: Counters)
    ensures Step(Step(c, ResetCall(POST)), ResetCall(POST)) == Step(c, ResetCall(POST)) == Zero
  {
  }

  /** `lookupCalls` and `lookupSuccess` move together: once equal, they stay
      equal over any sequence of calls. */
  lemma {:induction false} LookupCountersAgree(c: Counters, calls: seq<Call>)
    requires c.lookupCalls == c.lookupSuccess
    ensures Run(c, calls).lookupCalls == Run(c, calls).lookupSuccess
    decreases |calls|
  {
    if calls != [] {
      LookupCountersAgree(c, calls[..|calls| - 1]);
    }
  }

  /** The controller process: its counters, its configured preferred
      endpoint and its event id counter. */
  class Service {
    var lookupCalls: nat
    var lookupSuccess: nat
    var lookupFailure: nat
    var pinCalls: nat
    var compressCalls: nat
    var evictCalls: nat
    const preferred: string
    const ids: EventIds.Generator

    ghost predicate Valid()
      reads this, ids
    {
      ids.Valid() && lookupCalls == lookupSuccess
    }

    function Stats(): Counters
      reads this
    {
      Counters(lookupCalls, lookupSuccess, lookupFailure, pinCalls, compressCalls, evictCalls)
    }

    constructor (preferred: string)
      ensures Valid() && fresh(ids)
      ensures this.preferred == preferred && Stats() == Zero && ids.last == 0
    {
      lookupCalls, lookupSuccess, lookupFailure := 0, 0, 0;
      pinCalls, compressCalls, evictCalls := 0, 0, 0;
      this.preferred := preferred;
      ids := new EventIds.Generator();
    }

    /** `/stats`: a snapshot of the counters and the preferred endpoint. */
    method GetStats() returns (status: int, counters: Counters, preferredEndpoint: string)
      ensures status == StatusOK
      ensures counters == Stats() && preferredEndpoint == preferred
    {
      status := StatusOK;
      counters := Counters(lookupCalls, lookupSuccess, lookupFailure, pinCalls, compressCalls, evictCalls);
      preferredEndpoint := preferred;
    }

    /** `/reset`: a POST zeroes all six counters; any other method is refused. */
    method Reset(verb: string) returns (status: int, body: Body)
      requires Valid()
      modifies this
      ensures Valid()
      ensures Stats() == Step(old(Stats()), ResetCall(verb))
      ensures verb == POST ==> status == StatusOK && body == Ok && Stats() == Zero
      ensures verb != POST ==> status == StatusMethodNotAllowed && body == Error(MethodNotAllowed)
    {
      if verb != POST {
        return StatusMethodNotAllowed, Error(MethodNotAllowed);
      }
      lookupCalls := 0;
      lookupSuccess := 0;
      lookupFailure := 0;
      pinCalls := 0;
      compressCalls := 0;
      evictCalls := 0;
      return StatusOK, Ok;
    }

    /** `/lookup`: counts the call and answers with a fresh `lookup-<n>` id and
        the layout for the token count; a body that does not decode is
        counted as a failure and answered with 400. */
    method Lookup(req: Request<seq<int>>) returns (status: int, body: Body)
      requires Valid()
      modifies this, ids
      ensures Valid()
      ensures Stats() == Step(old(Stats()), LookupCall(req))
      ensures req.verb != POST ==>
        status == StatusMethodNotAllowed && body == Error(MethodNotAllowed) && ids.last == old(ids.last)
        && ids.Issued() == old(ids.Issued())
      ensures req.verb == POST && req.body.None? ==>
        status == StatusBadRequest && body == Error(InvalidRequest) && ids.last == old(ids.last)
        && ids.Issued() == old(ids.Issued())
      ensures Accepted(req) ==>
        && status == StatusOK
        && ids.last == old(ids.last) + 1
        && body == LayoutInfo(EventIds.EventId("lookup", ids.last), LayoutFor(TokenCount(req.body.value), preferred))
        && body.eventId !in old(ids.Issued())
        && ids.Issued() == old(ids.Issued()) + [body.eventId]
    {
      if req.verb != POST {
        return StatusMethodNotAllowed, Error(MethodNotAllowed);
      }
      if req.body.None? {
        lookupFailure := lookupFailure + 1;
        return StatusBadRequest, Error(InvalidRequest);
      }
      var tokenCount := |req.body.value|;
      if tokenCount == 0 {
        tokenCount := 1;
      }
      var layout := LayoutFor(tokenCount, preferred);
      lookupCalls := lookupCalls + 1;
      lookupSuccess := lookupSuccess + 1;
      var id := ids.Next("lookup");
      return StatusOK, LayoutInfo(id, layout);
    }

    /** `handleTokenEvent`, behind `/pin`, `/compress` and `/evict`: counts the
        operation and answers with a fresh `<op>-<n>` id and the number of
        tokens; a body that does not decode is answered with 400 and not
        counted. */
    method TokenEvent(op: TokenOp, req: Request<seq<int>>) returns (status: int, body: Body)
      requires Valid()
      modifies this, ids
      ensures Valid()
      ensures Stats() == Step(old(Stats()), TokenEventCall(op, req))
      ensures req.verb != POST ==>
        status == StatusMethodNotAllowed && body == Error(MethodNotAllowed) && ids.last == old(ids.last)
        && ids.Issued() == old(ids.Issued())
      ensures req.verb == POST && req.body.None? ==>
        status == StatusBadRequest && body == Error(InvalidRequest) && ids.last == old(ids.last)
        && ids.Issued() == old(ids.Issued())
      ensures Accepted(req) ==>
        && status == StatusOK
        && ids.last == old(ids.last) + 1
        && body == Event(EventIds.EventId(op.Name(), ids.last), |req.body.value|)
        && body.eventId !in old(ids.Issued())
        && ids.Issued() == old(ids.Issued()) + [body.eventId]
    {
      if req.verb != POST {
        return StatusMethodNotAllowed, Error(MethodNotAllowed);
      }
      if req.body.None? {
        return StatusBadRequest, Error(InvalidRequest);
      }
      match op {
        case Pin => pinCalls := pinCalls + 1;
        case Compress => compressCalls := compressCalls + 1;
        case Evict => evictCalls := evictCalls + 1;
      }
      var id := ids.Next(op.Name());
      return StatusOK, Event(id, |req.body.value|);
    }
  }
}
