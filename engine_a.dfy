/** The engine-A mock (ai/kvcache/mock/server/engine-a/main.go): an inference
    engine stand-in that supports `/tokenize` and counts tokenize and chat
    calls. */
module EngineA {
  import opened Http
  import Json
  import Prompt
  import Tokenizer
  import Text
  import EventIds
  import opened Completions

  /** The engine id when none is configured. */
  const DefaultEngineId := "mock-llm-a"

  /** The context length every tokenize answer reports. */
  const MaxModelLen := 8192

  /** Response bodies. */
  datatype Body =
    | Error(error: string)
    | Ok
    | Tokenized(count: int, tokens: seq<int>, maxModelLen: int)
    | Chat(response: Response)

  /** The two counters of `engineStats`. */
  datatype Counters = Counters(tokenizeCalls: nat, chatCalls: nat)

  const Zero := Counters(0, 0)

  /** A call to an endpoint that may change the counters, with its method. */
  datatype Call = ResetCall(verb: string) | TokenizeCall(verb: string) | ChatCall(verb: string)

  /** The counters after one call: a POST reset zeroes both, a POST to
      `/tokenize` or to the chat endpoint bumps its own counter, and any
      other method changes nothing. */
  function Step(c: Counters, call: Call): Counters {
    if call.verb != POST then c
    else
      match call
      case ResetCall(_) => Zero
      case TokenizeCall(_) => c.(tokenizeCalls := c.tokenizeCalls + 1)
      case ChatCall(_) => c.(chatCalls := c.chatCalls + 1)
  }

  /** The counters after a sequence of calls, oldest first. */
  function Run(c: Counters, calls: seq<Call>): Counters
    decreases |calls|
  {
    if calls == [] then c else Step(Run(c, calls[..|calls| - 1]), calls[|calls| - 1])
  }

  predicate IsReset(call: Call) {
    call.ResetCall? && call.verb == POST
  }

  /** How many POST tokenize calls and POST chat calls `calls` holds. */
  function Tally(calls: seq<Call>): Counters
    decreases |calls|
  {
    if calls == [] then Zero
    else
      var t := Tally(calls[..|calls| - 1]);
      var last := calls[|calls| - 1];
      Counters(
        t.tokenizeCalls + (if last.TokenizeCall? && last.verb == POST then 1 else 0),
        t.chatCalls + (if last.ChatCall? && last.verb == POST then 1 else 0))
  }

  lemma {:induction false} RunAppend(c: Counters, xs: seq<Call>, ys: seq<Call>)
    ensures Run(c, xs + ys) == Run(Run(c, xs), ys)
    decreases |ys|
  {
    if ys == [] {
      assert xs + ys == xs;
    } else {
      var ys' := ys[..|ys| - 1];
      assert (xs + ys)[..|xs + ys| - 1] == xs + ys';
      RunAppend(c, xs, ys');
    }
  }

  /** Until a reset, each counter grows by exactly the number of POST calls
      to its endpoint. */
  lemma {:induction false} RunWithoutReset(c: Counters, calls: seq<Call>)
    requires forall i :: 0 <= i < |calls| ==> !IsReset(calls[i])
    ensures Run(c, calls).tokenizeCalls == c.tokenizeCalls + Tally(calls).tokenizeCalls
    ensures Run(c, calls).chatCalls == c.chatCalls + Tally(calls).chatCalls
    decreases |calls|
  {
    if calls != [] {
      var init := calls[..|calls| - 1];
      assert forall i :: 0 <= i < |init| ==> init[i] == calls[i];
      RunWithoutReset(c, init);
    }
  }

  /** After a reset, the counters hold exactly the POST calls made since. */
  lemma CountersSinceReset(c: Counters, before: seq<Call>, after: seq<Call>)
    requires forall i :: 0 <= i < |after| ==> !IsReset(after[i])
    ensures Run(c, before + [ResetCall(POST)] + after) == Tally(after)
  {
    var reset := [ResetCall(POST)];
    RunAppend(c, before + reset, after);
    RunAppend(c, before, reset);
    assert reset[..0] == [];
    assert Run(Run(c, before), reset) == Zero;
    RunWithoutReset(Zero, after);
  }

  /** The engine process: its id, its counters and its event id counter. */
  class Service {
    var tokenizeCalls: nat
    var chatCalls: nat
    const engineId: string
    const ids: EventIds.Generator

    ghost predicate Valid()
      reads this, ids
    {
      ids.Valid()
    }

    function Stats(): Counters
      reads this
    {
      Counters(tokenizeCalls, chatCalls)
    }

    constructor (engineId: string)
      ensures Valid() && fresh(ids)
      ensures this.engineId == engineId && Stats() == Zero && ids.last == 0
    {
      tokenizeCalls, chatCalls := 0, 0;
      this.engineId := engineId;
      ids := new EventIds.Generator();
    }

    /** `/stats`: a snapshot of the counters and the engine id. */
    method GetStats() returns (status: int, counters: Counters, id: string)
      ensures status == StatusOK && counters == Stats() && id == engineId
    {
      return StatusOK, Counters(tokenizeCalls, chatCalls), engineId;
    }

    /** `/reset`: a POST zeroes both counters; any other method is refused. */
    method Reset(verb: string) returns (status: int, body: Body)
      modifies this
      ensures Stats() == Step(old(Stats()), ResetCall(verb))
      ensures verb == POST ==> status == StatusOK && body == Ok && Stats() == Zero
      ensures verb != POST ==> status == StatusMethodNotAllowed && body == Error(MethodNotAllowed)
    {
      if verb != POST {
        return StatusMethodNotAllowed, Error(MethodNotAllowed);
      }
      tokenizeCalls := 0;
      chatCalls := 0;
      return StatusOK, Ok;
    }

    /** `/tokenize`: a POST always succeeds, even when the body does not
        decode (its prompt is then empty and tokenizes to `[0]`), counts the
        call, and answers with the tokens of the extracted prompt. */
    method Tokenize(req: Request<Json.Value>) returns (status: int, body: Body)
      modifies this
      ensures Stats() == Step(old(Stats()), TokenizeCall(req.verb))
      ensures req.verb != POST ==> status == StatusMethodNotAllowed && body == Error(MethodNotAllowed)
      ensures req.verb == POST ==>
        var tokens := Tokenizer.Tokenize(Prompt.PromptOf(req.body));
        status == StatusOK && body == Tokenized(|tokens|, tokens, MaxModelLen)
    {
      if req.verb != POST {
        return StatusMethodNotAllowed, Error(MethodNotAllowed);
      }
      var prompt := Prompt.ExtractPrompt(req.body);
      var tokens := Tokenizer.TokenizePrompt(prompt);
      tokenizeCalls := tokenizeCalls + 1;
      return StatusOK, Tokenized(|tokens|, tokens, MaxModelLen);
    }

    /** `/v1/chat/completions`: a POST counts the call, whether or not the body
        decodes (`req` is what the decoder stored either way), and answers with a canned completion served by this engine
        under a fresh `chatcmpl-<n>` id. */
    method ChatCompletions(verb: string, req: ChatRequest) returns (status: int, body: Body)
      requires Valid()
      modifies this, ids
      ensures Valid()
      ensures Stats() == Step(old(Stats()), ChatCall(verb))
      ensures verb != POST ==>
        status == StatusMethodNotAllowed && body == Error(MethodNotAllowed) && ids.last == old(ids.last)
        && ids.Issued() == old(ids.Issued())
      ensures verb == POST ==>
        && status == StatusOK
        && ids.last == old(ids.last) + 1
        && body == Chat(Completion(EventIds.EventId("chatcmpl", ids.last), ModelOf(req), engineId))
        && body.response.id !in old(ids.Issued())
        && ids.Issued() == old(ids.Issued()) + [body.response.id]
    {
      if verb != POST {
        return StatusMethodNotAllowed, Error(MethodNotAllowed);
      }
      var model := ModelOf(req);
      chatCalls := chatCalls + 1;
      var id := ids.Next("chatcmpl");
      return StatusOK, Chat(Completion(id, model, engineId));
    }
  }

  /** Whatever the request body, a POST to `/tokenize` reports at least one
      token: either the single 0 of a blank prompt, or word tokens none of
      which is 0. */
  lemma TokenizeAnswerNonEmpty(body: Option<Json.Value>)
    ensures var tokens := Tokenizer.Tokenize(Prompt.PromptOf(body));
      |tokens| >= 1 && (tokens == [0] || 0 !in tokens)
  {
    var prompt := Prompt.PromptOf(body);
    Tokenizer.TokenizeBlank(prompt);
    if !Text.AllSpace(prompt) {
      Tokenizer.TokenizeWords(prompt);
    }
  }
}
