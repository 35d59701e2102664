/** `tokenizePrompt` of the engine-A mock (ai/kvcache/mock/server/engine-a/main.go):
    a deterministic stand-in for a tokenizer that turns each white-space
    separated word into one number derived from its code points. */
module Tokenizer {
  import opened Text

  /** Word sums are reduced modulo this prime. */
  const Modulus := 997

  /** The sum of the code points of `w`, accumulated left to right. */
  function CodeSum(w: string): nat
    decreases |w|
  {
    if w == [] then 0 else CodeSum(w[..|w| - 1]) + w[|w| - 1] as int
  }

  /** The token of the word at position `index` (counting from 0): its code
      point sum modulo 997, shifted by the position, so it lies between
      index + 1 and index + 997. */
  function WordToken(w: string, index: nat): (t: int)
    ensures index + 1 <= t <= index + Modulus
  {
    CodeSum(w) % Modulus + index + 1
  }

  /** The tokens of a prompt: `[0]` for a blank prompt, otherwise one token
      per word of the trimmed prompt. */
  function Tokenize(prompt: string): seq<int> {
    var p := TrimSpace(prompt);
    if p == [] then [0]
    else
      var words := Fields(p);
      if words == [] then [0]
      else seq(|words|, i requires 0 <= i < |words| => WordToken(words[i], i))
  }

  /** `tokenizePrompt`: trims, splits into words, and sums each word's code
      points (`CodeSumOf`). */
  method TokenizePrompt(prompt: string) returns (tokens: seq<int>)
    ensures tokens == Tokenize(prompt)
  {
    var p := TrimSpace(prompt);
    if p == [] {
      return [0];
    }
    var words := Fields(p);
    if |words| == 0 {
      return [0];
    }
    tokens := [];
    for idx := 0 to |words|
      invariant |tokens| == idx
      invariant forall i :: 0 <= i < idx ==> tokens[i] == WordToken(words[i], i)
    {
      var sum := CodeSumOf(words[idx]);
      tokens := tokens + [sum % Modulus + idx + 1];
    }
  }

  /** The inner loop of `tokenizePrompt`: adds up the code points of a word. */
  method CodeSumOf(word: string) returns (sum: int)
    ensures sum == CodeSum(word)
  {
    sum := 0;
    for j := 0 to |word|
      invariant sum == CodeSum(word[..j])
    {
      assert word[..j + 1][..j] == word[..j];
      sum := sum + word[j] as int;
    }
    assert word[..|word|] == word;
  }

  /** A prompt tokenizes to `[0]` exactly when it is empty or white space only. */
  lemma {:induction false} TokenizeBlank(prompt: string)
    ensures Tokenize(prompt) == [0] <==> AllSpace(prompt)
  {
    FieldsOfTrimSpace(prompt);
    FieldsBlank(prompt);
    if !AllSpace(prompt) {
      assert Tokenize(prompt)[0] >= 1;
    }
  }

  /** A prompt that is not blank gets one token per word, and the token of
      word i is its code point sum modulo 997 plus i + 1; so no token is 0. */
  lemma {:induction false} TokenizeWords(prompt: string)
    requires !AllSpace(prompt)
    ensures |Tokenize(prompt)| == |Fields(prompt)|
    ensures forall i :: 0 <= i < |Fields(prompt)| ==>
      Tokenize(prompt)[i] == CodeSum(Fields(prompt)[i]) % Modulus + i + 1
    ensures forall i :: 0 <= i < |Tokenize(prompt)| ==> i + 1 <= Tokenize(prompt)[i] <= i + Modulus
    ensures 0 !in Tokenize(prompt)
  {
    var words := Fields(prompt);
    FieldsOfTrimSpace(prompt);
    FieldsBlank(prompt);
    assert TrimSpace(prompt) != [] && Fields(TrimSpace(prompt)) == words && words != [];
    var tokens := Tokenize(prompt);
    assert tokens == seq(|words|, i requires 0 <= i < |words| => WordToken(words[i], i));
    assert forall i :: 0 <= i < |tokens| ==> tokens[i] == WordToken(words[i], i);
    assert forall i :: 0 <= i < |tokens| ==> tokens[i] >= i + 1 > 0;
  }

  /** Tokens depend on the words only: white space between, before or after
      them makes no difference. */
  lemma {:induction false} TokenizeSameWords(p: string, q: string)
    requires Fields(p) == Fields(q)
    ensures Tokenize(p) == Tokenize(q)
  {
    FieldsOfTrimSpace(p);
    FieldsOfTrimSpace(q);
    FieldsBlank(TrimSpace(p));
    FieldsBlank(TrimSpace(q));
  }
}
