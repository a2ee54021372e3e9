/** The three usage counters a job carries (prompt, completion and cached prompt tokens). */
module TokenCounts {
  datatype Tokens = Tokens(prompt: nat, completion: nat, cached: nat)

  function Zero(): Tokens {
    Tokens(0, 0, 0)
  }

  function Max(a: nat, b: nat): nat {
    if a < b then b else a
  }

  /** `max(0, a - b)`: what the source writes wherever a counter may have gone backwards. */
  function Monus(a: nat, b: nat): nat {
    if a < b then 0 else a - b
  }

  function Add(a: Tokens, b: Tokens): Tokens {
    Tokens(a.prompt + b.prompt, a.completion + b.completion, a.cached + b.cached)
  }

  function Join(a: Tokens, b: Tokens): Tokens {
    Tokens(Max(a.prompt, b.prompt), Max(a.completion, b.completion), Max(a.cached, b.cached))
  }

  /** Pointwise order on all three counters. */
  predicate AtMost(a: Tokens, b: Tokens) {
    a.prompt <= b.prompt && a.completion <= b.completion && a.cached <= b.cached
  }

  /** Pointwise order on the two counters the gateway prices first-hand. */
  predicate Covers(b: Tokens, a: Tokens) {
    a.prompt <= b.prompt && a.completion <= b.completion
  }

  lemma AddSwap(a: Tokens, b: Tokens, c: Tokens)
    ensures Add(Add(a, b), c) == Add(Add(a, c), b)
  {
  }
}
