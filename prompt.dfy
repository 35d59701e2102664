/** `extractPrompt` of the engine-A mock (ai/kvcache/mock/server/engine-a/main.go):
    the text a `/tokenize` request asks to tokenize, taken from `prompt` (a
    string or an array of strings) or else from the `content` of the
    `messages`. */
module Prompt {
  import opened Http
  import opened Json
  import opened Text

  /** The string elements of `items`, in order; every other element is skipped. */
  function StringItems(items: seq<Value>): (parts: seq<string>)
    ensures |parts| <= |items|
    ensures forall s :: s in parts <==> String(s) in items
    decreases |items|
  {
    if items == [] then []
    else
      var init := items[..|items| - 1];
      assert items == init + [items[|items| - 1]];
      match items[|items| - 1]
      case String(s) => StringItems(init) + [s]
      case _ => StringItems(init)
  }

  /** The `content` of a message: present when the element is an object whose
      `content` member is a string. */
  function Content(v: Value): Option<string> {
    if v.Object? && "content" in v.members && v.members["content"].String?
    then Some(v.members["content"].s)
    else None
  }

  /** The contents of the messages that have one, in order. */
  function MessageContents(items: seq<Value>): (parts: seq<string>)
    ensures |parts| <= |items|
    ensures forall c :: c in parts <==> exists v :: v in items && Content(v) == Some(c)
    decreases |items|
  {
    if items == [] then []
    else
      var init := items[..|items| - 1];
      var last := items[|items| - 1];
      assert items == init + [last];
      match Content(last)
      case Some(c) => MessageContents(init) + [c]
      case None => MessageContents(init)
  }

  /** Filtering keeps the order: the parts of a concatenation are the parts
      of its halves, one after the other. */
  lemma {:induction false} StringItemsAppend(a: seq<Value>, b: seq<Value>)
    ensures StringItems(a + b) == StringItems(a) + StringItems(b)
    decreases |b|
  {
    if b == [] {
      assert a + b == a;
    } else {
      var b' := b[..|b| - 1];
      assert (a + b)[..|a + b| - 1] == a + b';
      StringItemsAppend(a, b');
    }
  }

  lemma {:induction false} MessageContentsAppend(a: seq<Value>, b: seq<Value>)
    ensures MessageContents(a + b) == MessageContents(a) + MessageContents(b)
    decreases |b|
  {
    if b == [] {
      assert a + b == a;
    } else {
      var b' := b[..|b| - 1];
      assert (a + b)[..|a + b| - 1] == a + b';
      MessageContentsAppend(a, b');
    }
  }

  /** What `extractPrompt` returns for a request body; `None` is a missing
      body or one the decoder rejects. A body that is not a JSON object
      yields "" as well: `null` decodes to a nil map, in which no key is
      found, and anything else fails to decode into one. */
  function PromptOf(body: Option<Value>): string {
    match body
    case Some(Object(m)) =>
      if "prompt" in m && m["prompt"].String? then TrimSpace(m["prompt"].s)
      else if "prompt" in m && m["prompt"].Array? then Join(StringItems(m["prompt"].items), "\n")
      else if "messages" in m && m["messages"].Array? then Join(MessageContents(m["messages"].items), "\n")
      else ""
    case _ => ""
  }

  /** `extractPrompt`, with the two loops that collect the parts. */
  method ExtractPrompt(body: Option<Value>) returns (prompt: string)
    ensures prompt == PromptOf(body)
  {
    if !body.Some? || !body.value.Object? {
      return "";
    }
    var payload := body.value.members;
    if "prompt" in payload {
      match payload["prompt"]
      case String(s) =>
        return TrimSpace(s);
      case Array(v) =>
        var parts: seq<string> := [];
        for i := 0 to |v|
          invariant parts == StringItems(v[..i])
        {
          assert v[..i + 1][..i] == v[..i];
          if v[i].String? {
            parts := parts + [v[i].s];
          }
        }
        assert v[..|v|] == v;
        return Join(parts, "\n");
      case _ =>
    }
    if !("messages" in payload && payload["messages"].Array?) {
      return "";
    }
    var messages := payload["messages"].items;
    var parts: seq<string> := [];
    for i := 0 to |messages|
      invariant parts == MessageContents(messages[..i])
    {
      assert messages[..i + 1][..i] == messages[..i];
      var item := messages[i];
      if item.Object? {
        var msg := item.members;
        if "content" in msg && msg["content"].String? {
          parts := parts + [msg["content"].s];
        }
      }
    }
    assert messages[..|messages|] == messages;
    prompt := Join(parts, "\n");
  }

  /** A string `prompt` wins over `messages` and comes back trimmed. */
  lemma StringPrompt(m: map<string, Value>, s: string)
    requires "prompt" in m && m["prompt"] == String(s)
    ensures PromptOf(Some(Object(m))) == TrimSpace(s)
    ensures |PromptOf(Some(Object(m)))| <= |s|
  {
  }

  /** An array `prompt` comes back as its string elements joined by newlines:
      when no element holds a newline, splitting the result at newlines gives
      back exactly the string elements, in order. */
  lemma ArrayPromptParts(m: map<string, Value>)
    requires "prompt" in m && m["prompt"].Array?
    requires StringItems(m["prompt"].items) != []
    requires forall s :: String(s) in m["prompt"].items ==> '\n' !in s
    ensures Split(PromptOf(Some(Object(m))), '\n') == StringItems(m["prompt"].items)
  {
    var parts := StringItems(m["prompt"].items);
    assert forall i :: 0 <= i < |parts| ==> parts[i] in parts;
    SplitJoin(parts, '\n');
  }

  /** A `prompt` that is neither a string nor an array is ignored: the result
      is what the same body without `prompt` gives. */
  lemma OtherPromptFallsThrough(m: map<string, Value>)
    requires "prompt" in m && !m["prompt"].String? && !m["prompt"].Array?
    ensures PromptOf(Some(Object(m))) == PromptOf(Some(Object(m - {"prompt"})))
  {
  }

  /** Without a usable `prompt`, the result is the messages' contents joined
      by newlines: splitting it again gives back the contents, in order. */
  lemma MessagesParts(m: map<string, Value>)
    requires "prompt" !in m || (!m["prompt"].String? && !m["prompt"].Array?)
    requires "messages" in m && m["messages"].Array?
    requires MessageContents(m["messages"].items) != []
    requires forall v :: v in m["messages"].items && Content(v).Some? ==> '\n' !in Content(v).value
    ensures Split(PromptOf(Some(Object(m))), '\n') == MessageContents(m["messages"].items)
  {
    var parts := MessageContents(m["messages"].items);
    assert forall i :: 0 <= i < |parts| ==> parts[i] in parts;
    SplitJoin(parts, '\n');
  }

  /** No usable `prompt` and no `messages` array: the prompt is empty. */
  lemma NoPromptNoMessages(body: Option<Value>)
    requires body.Some? && body.value.Object?
    requires var m := body.value.members;
      ("prompt" !in m || (!m["prompt"].String? && !m["prompt"].Array?))
      && ("messages" !in m || !m["messages"].Array?)
    ensures PromptOf(body) == ""
  {
  }
}
