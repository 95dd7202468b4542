/**
  The local prompt-size estimate of `calculateTokensFromMessages`: each
  message is tokenized as role, name and content run together, plus a
  fixed three tokens per message and three for the reply primer.
*/
module Tokens {

  /** The tokenizer, `countTokens(text, model)`: a deterministic count the model leaves uninterpreted. */
  type TokenCounter = (string, string) -> nat

  datatype ChatMessage = ChatMessage(role: string, content: string, name: string)

  /** The text of a message as the estimate tokenizes it. */
  function MessageText(m: ChatMessage): string {
    m.role + m.name + m.content
  }

  /** Tokens of the messages' texts, summed first to last. */
  function MessageTokens(messages: seq<ChatMessage>, model: string, count: TokenCounter): nat
    decreases |messages|
  {
    if |messages| == 0 then 0
    else MessageTokens(messages[..|messages| - 1], model, count) + count(MessageText(messages[|messages| - 1]), model)
  }

  /** `calculateTokensFromMessages`: text tokens plus three per message plus three. */
  function CalculateTokensFromMessages(messages: seq<ChatMessage>, model: string, count: TokenCounter): (n: nat)
    ensures n >= 3 + 3 * |messages|
    ensures |messages| == 0 ==> n == 3
  {
    MessageTokens(messages, model, count) + 3 * |messages| + 3
  }

  /** Splitting a conversation splits the estimate: the fixed three is paid once. */
  lemma {:induction false} EstimateSplits(a: seq<ChatMessage>, b: seq<ChatMessage>, model: string, count: TokenCounter)
    ensures CalculateTokensFromMessages(a + b, model, count)
         == CalculateTokensFromMessages(a, model, count) + CalculateTokensFromMessages(b, model, count) - 3
  {
    MessageTokensSplit(a, b, model, count);
  }

  lemma {:induction false} MessageTokensSplit(a: seq<ChatMessage>, b: seq<ChatMessage>, model: string, count: TokenCounter)
    ensures MessageTokens(a + b, model, count) == MessageTokens(a, model, count) + MessageTokens(b, model, count)
    decreases |b|
  {
    if |b| == 0 {
      assert a + b == a;
    } else {
      var front := b[..|b| - 1];
      assert (a + b)[..|a + b| - 1] == a + front;
      assert (a + b)[|a + b| - 1] == b[|b| - 1];
      MessageTokensSplit(a, front, model, count);
    }
  }

  /** A single message costs its text's tokens plus three, on top of the base three. */
  lemma SingleMessageEstimate(m: ChatMessage, model: string, count: TokenCounter)
    ensures CalculateTokensFromMessages([m], model, count) == count(MessageText(m), model) + 6
  {
    assert [m][..0] == [];
    assert MessageTokens([m], model, count) == MessageTokens([], model, count) + count(MessageText(m), model);
  }
}
