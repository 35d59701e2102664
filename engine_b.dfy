/** The engine-B mock (ai/kvcache/mock/server/engine-b/main.go): an inference
    engine stand-in without tokenization that counts chat calls. */
module EngineB {
  import opened Http
  import EventIds
  import opened Completions

  /** The engine id when none is configured. */
  const DefaultEngineId := "mock-llm-b"

  const TokenizeUnavailable := "tokenize not available on this instance"

  /** Response bodies. */
  datatype Body =
    | Error(error: string)
    | Ok
    | Chat(response: Response)

  /** A call to an endpoint, with its method. */
  datatype Call = ResetCall(verb: string) | TokenizeCall(verb: string) | ChatCall(verb: string)

  /** The chat counter after one call: a POST reset zeroes it, a POST chat
      bumps it, and nothing else changes it; `/tokenize` never does. */
  function Step(chatCalls: nat, call: Call): nat {
    if call.verb != POST then chatCalls
    else
      match call
      case ResetCall(_) => 0
      case TokenizeCall(_) => chatCalls
      case ChatCall(_) => chatCalls + 1
  }

  /** The chat counter after a sequence of calls, oldest first. */
  function Run(chatCalls: nat, calls: seq<Call>): nat
    decreases |calls|
  {
    if calls == [] then chatCalls else Step(Run(chatCalls, calls[..|calls| - 1]), calls[|calls| - 1])
  }

  predicate IsReset(call: Call) {
    call.ResetCall? && call.verb == POST
  }

  /** The number of POST chat calls in `calls`. */
  function ChatPosts(calls: seq<Call>): nat
    decreases |calls|
  {
    if calls == [] then 0
    else
      var last := calls[|calls| - 1];
      ChatPosts(calls[..|calls| - 1]) + if last.ChatCall? && last.verb == POST then 1 else 0
  }

  /** After a POST reset, the chat counter equals the number of POST chat
      calls made since, whatever came before. */
  lemma {:induction false} CountersSinceReset(chatCalls: nat, before: seq<Call>, after: seq<Call>)
    requires forall i :: 0 <= i < |after| ==> !IsReset(after[i])
    ensures Run(chatCalls, before + [ResetCall(POST)] + after) == ChatPosts(after)
    decreases |after|
  {
    var prefix := before + [ResetCall(POST)];
    if after == [] {
      assert prefix + after == prefix;
      assert prefix[..|prefix| - 1] == before;
    } else {
      var init := after[..|after| - 1];
      assert (prefix + after)[..|prefix + after| - 1] == prefix + init;
      assert forall i :: 0 <= i < |init| ==> init[i] == after[i];
      CountersSinceReset(chatCalls, before, init);
    }
  }

  /** The engine process: its id, its chat counter and its event id counter. */
  class Service {
    var chatCalls: nat
    const engineId: string
    const ids: EventIds.Generator

    ghost predicate Valid()
      reads this, ids
    {
      ids.Valid()
    }

    constructor (engineId: string)
      ensures Valid() && fresh(ids)
      ensures this.engineId == engineId && chatCalls == 0 && ids.last == 0
    {
      chatCalls := 0;
      this.engineId := engineId;
      ids := new EventIds.Generator();
    }

    /** `/stats`: the chat counter and the engine id. */
    method GetStats() returns (status: int, calls: nat, id: string)
      ensures status == StatusOK && calls == chatCalls && id == engineId
    {
      return StatusOK, chatCalls, engineId;
    }

    /** `/reset`: a POST zeroes the chat counter; any other method is refused. */
    method Reset(verb: string) returns (status: int, body: Body)
      modifies this
      ensures chatCalls == Step(old(chatCalls), ResetCall(verb))
      ensures verb == POST ==> status == StatusOK && body == Ok && chatCalls == 0
      ensures verb != POST ==> status == StatusMethodNotAllowed && body == Error(MethodNotAllowed)
    {
      if verb != POST {
        return StatusMethodNotAllowed, Error(MethodNotAllowed);
      }
      chatCalls := 0;
      return StatusOK, Ok;
    }

    /** `/tokenize`: not available; 404 for every method and payload, and no
        counter changes (the method modifies nothing). */
    method Tokenize(verb: string) returns (status: int, body: Body)
      ensures status == StatusNotFound && body == Error(TokenizeUnavailable)
    {
      return StatusNotFound, Error(TokenizeUnavailable);
    }

    /** `/v1/chat/completions`: a POST counts the call, whether or not the body
        decodes (`req` is what the decoder stored either way), and answers with a canned completion served by this engine
        under a fresh `chatcmpl-<n>` id. */
    method ChatCompletions(verb: string, req: ChatRequest) returns (status: int, body: Body)
      requires Valid()
      modifies this, ids
      ensures Valid()
      ensures chatCalls == Step(old(chatCalls), ChatCall(verb))
      ensures verb != POST ==>
        status == StatusMethodNotAllowed && body == Error(MethodNotAllowed) && ids.last == old(ids.last)
        && ids.Issued() == old(ids.Issued())
      ensures verb == POST ==>
        && status == StatusOK
        && ids.last == old(ids.last) + 1
        && body == Chat(Completion(EventIds.EventId("chatcmpl", ids.last), ModelOf(req), engineId))
        && body.response.id !in old(ids.Issued())
        && ids.Issued() == old(ids.Issued()) + [body.response.id]
    {
      if verb != POST {
        return StatusMethodNotAllowed, Error(MethodNotAllowed);
      }
      var model := ModelOf(req);
      chatCalls := chatCalls + 1;
      var id := ids.Next("chatcmpl");
      return StatusOK, Chat(Completion(id, model, engineId));
    }
  }
}
