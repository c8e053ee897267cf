/** The token loop of LlamaGenerationProvider::generate.

  `Sampler` holds what is assumed of llama.cpp: given the seed a call's sampler chain drew, sampling is a function of
  the tokens decoded so far; the end-of-generation test and a token's text are functions of the token.  The chain asks
  for a random seed on each call, so the seed is arbitrary each time, and so is whether llama_decode() succeeds.  The
  prompt arrives here as tokens.

  The preflight sum is an int in the source.  Where it does not fit, C++ leaves the result undefined; this model
  assumes the wrap of two's complement.
*/
module Generation {
  import opened Wrappers
  import opened LlamaProvider

  datatype Sampler = Sampler(
    sample: (nat, seq<int>) -> int,
    isEnd: int -> bool,
    piece: int -> Option<string>)

  datatype Failure = PromptTooLong | ContextExceeded | DecodeFailed | PieceFailed

  /** `tokens` were sampled in order, each from the prompt and all before it, and none ends the text. */
  ghost predicate Sampled(m: Sampler, seed: nat, prompt: seq<int>, tokens: seq<int>) {
    tokens == [] ||
    var last := |tokens| - 1;
    && Sampled(m, seed, prompt, tokens[..last])
    && tokens[last] == m.sample(seed, prompt + tokens[..last])
    && !m.isEnd(tokens[last]) && m.piece(tokens[last]).Some?
  }

  /** Token k comes from the prompt and exactly the first k tokens. */
  lemma {:induction false} SampledAt(m: Sampler, seed: nat, prompt: seq<int>, tokens: seq<int>, k: nat)
    requires Sampled(m, seed, prompt, tokens) && k < |tokens|
    ensures tokens[k] == m.sample(seed, prompt + tokens[..k]) && !m.isEnd(tokens[k]) && m.piece(tokens[k]).Some?
    decreases |tokens|
  {
    if k < |tokens| - 1 {
      var front := tokens[..|tokens| - 1];
      SampledAt(m, seed, prompt, front, k);
      assert front[..k] == tokens[..k];
    }
  }

  /** A complete generation: it stopped at the limit or at the first end token. */
  ghost predicate Complete(m: Sampler, seed: nat, prompt: seq<int>, maxTokens: int, tokens: seq<int>) {
    && Sampled(m, seed, prompt, tokens)
    && (tokens != [] ==> |tokens| <= maxTokens)
    && (|tokens| >= maxTokens || m.isEnd(m.sample(seed, prompt + tokens)))
  }

  function Pieces(m: Sampler, tokens: seq<int>): string {
    if tokens == [] then ""
    else Pieces(m, tokens[..|tokens| - 1]) +
         match m.piece(tokens[|tokens| - 1]) case Some(text) => text case None => ""
  }

  lemma PiecesSnoc(m: Sampler, tokens: seq<int>, t: int)
    ensures Pieces(m, tokens + [t]) == Pieces(m, tokens) + match m.piece(t) case Some(text) => text case None => ""
  {
    assert (tokens + [t])[..|tokens|] == tokens;
  }

  /** The response is the pieces of all tokens, in order: those of the first part, of one token, of the rest. */
  lemma {:induction false} PiecesInOrder(m: Sampler, a: seq<int>, t: int, b: seq<int>)
    ensures Pieces(m, a + [t] + b)
         == Pieces(m, a) + (match m.piece(t) case Some(text) => text case None => "") + Pieces(m, b)
    decreases |b|
  {
    if b == [] {
      assert a + [t] + b == a + [t];
      assert Pieces(m, b) == "";
      hide Pieces;
      PiecesSnoc(m, a, t);
    } else {
      hide Pieces;
      var front, last := b[..|b| - 1], b[|b| - 1];
      PiecesInOrder(m, a, t, front);
      PiecesSnoc(m, a + [t] + front, last);
      PiecesSnoc(m, front, last);
      assert a + [t] + b == a + [t] + front + [last] && b == front + [last];
    }
  }

  /** A generation is complete if every token comes from the prompt and all before it, and none ends the text or lacks a
      piece, and if then either the limit is reached or the next token would end the text. */
  lemma {:induction false} CompleteMeans(m: Sampler, seed: nat, prompt: seq<int>, maxTokens: int, tokens: seq<int>)
    ensures Complete(m, seed, prompt, maxTokens, tokens) <==>
      && (forall k :: 0 <= k < |tokens| ==>
            && tokens[k] == m.sample(seed, prompt + tokens[..k])
            && !m.isEnd(tokens[k]) && m.piece(tokens[k]).Some?)
      && (|tokens| > 0 ==> |tokens| <= maxTokens)
      && (|tokens| >= maxTokens || m.isEnd(m.sample(seed, prompt + tokens)))
  {
    SampledIff(m, seed, prompt, tokens);
  }

  lemma {:induction false} SampledIff(m: Sampler, seed: nat, prompt: seq<int>, tokens: seq<int>)
    ensures Sampled(m, seed, prompt, tokens) <==> forall k :: 0 <= k < |tokens| ==>
      && tokens[k] == m.sample(seed, prompt + tokens[..k])
      && !m.isEnd(tokens[k]) && m.piece(tokens[k]).Some?
    decreases |tokens|
  {
    if tokens != [] {
      var front := tokens[..|tokens| - 1];
      SampledIff(m, seed, prompt, front);
      assert forall k :: 0 <= k < |front| ==> front[..k] == tokens[..k];
    }
  }

  /** Two samplings of one prompt agree as far as the shorter goes. */
  lemma {:induction false} SampledAgree(m: Sampler, seed: nat, prompt: seq<int>, a: seq<int>, b: seq<int>, n: nat)
    requires Sampled(m, seed, prompt, a) && Sampled(m, seed, prompt, b) && n <= |a| && n <= |b|
    ensures a[..n] == b[..n]
  {
    if n > 0 {
      SampledAgree(m, seed, prompt, a, b, n - 1);
      SampledAt(m, seed, prompt, a, n - 1);
      SampledAt(m, seed, prompt, b, n - 1);
      assert a[..n] == a[..n - 1] + [a[n - 1]] && b[..n] == b[..n - 1] + [b[n - 1]];
    }
  }

  /** So a seed, a prompt and a limit have one complete generation. */
  lemma CompleteIsUnique(m: Sampler, seed: nat, prompt: seq<int>, maxTokens: int, a: seq<int>, b: seq<int>)
    requires Complete(m, seed, prompt, maxTokens, a) && Complete(m, seed, prompt, maxTokens, b)
    ensures a == b
  {
    var n := if |a| <= |b| then |a| else |b|;
    SampledAgree(m, seed, prompt, a, b, n);
    assert a[..|a|] == a && b[..|b|] == b;
    if n < |a| {
      SampledAt(m, seed, prompt, a, n);
    } else if n < |b| {
      SampledAt(m, seed, prompt, b, n);
    }
  }

  /** Both operands of the preflight sum are ints. */
  predicate IntArgs(prompt: seq<int>, maxTokens: int) {
    |prompt| <= INT_MAX && -INT_MAX - 1 <= maxTokens <= INT_MAX
  }

  /** The sum of the preflight check, in int. */
  function Preflight(prompt: seq<int>, maxTokens: int): int
    requires IntArgs(prompt, maxTokens)
  {
    ToInt32(|prompt| + maxTokens)
  }

  ghost predicate AllTrue(s: seq<bool>) {
    forall k :: 0 <= k < |s| ==> s[k]
  }

  /** How a call may end, given how its decode calls went. */
  ghost predicate Outcome(m: Sampler, seed: nat, nCtx: nat, prompt: seq<int>, maxTokens: int, decodes: seq<bool>,
                          r: Result<string, Failure>)
    requires IntArgs(prompt, maxTokens)
  {
    && |decodes| <= (if maxTokens < 0 then 0 else maxTokens)
    && match r
      case Ok(text) => AllTrue(decodes) && Preflight(prompt, maxTokens) <= nCtx && exists tokens ::
        Complete(m, seed, prompt, maxTokens, tokens) && text == Pieces(m, tokens)
        && (tokens != [] ==> |prompt| + |tokens| <= nCtx + 1)
      case Err(PromptTooLong) => decodes == [] && Preflight(prompt, maxTokens) > nCtx
      case Err(ContextExceeded) => AllTrue(decodes) && Preflight(prompt, maxTokens) <= nCtx < |prompt| + |decodes|
        && |decodes| < maxTokens && exists tokens ::
        Sampled(m, seed, prompt, tokens) && |tokens| == |decodes| && (tokens != [] ==> |prompt| + |tokens| <= nCtx + 1)
      case Err(DecodeFailed) => !AllTrue(decodes)
      case Err(PieceFailed) => AllTrue(decodes) && exists tokens ::
        Sampled(m, seed, prompt, tokens) && |tokens| < maxTokens && m.piece(m.sample(seed, prompt + tokens)).None?
  }

  /** However the decode calls go, two calls that drew the same seed and return normally return the same text. */
  lemma ResponseOfSeed(m: Sampler, seed: nat, nCtx: nat, prompt: seq<int>, maxTokens: int, d1: seq<bool>, text1: string,
                       d2: seq<bool>, text2: string)
    requires IntArgs(prompt, maxTokens)
    requires Outcome(m, seed, nCtx, prompt, maxTokens, d1, Ok(text1))
    requires Outcome(m, seed, nCtx, prompt, maxTokens, d2, Ok(text2))
    ensures text1 == text2
  {
    var a :| Complete(m, seed, prompt, maxTokens, a) && text1 == Pieces(m, a)
      && (a != [] ==> |prompt| + |a| <= nCtx + 1);
    var b :| Complete(m, seed, prompt, maxTokens, b) && text2 == Pieces(m, b)
      && (b != [] ==> |prompt| + |b| <= nCtx + 1);
    CompleteIsUnique(m, seed, prompt, maxTokens, a, b);
  }

  // ---- The check inside the loop ------------------------------------------------------------------

  /** The check inside the loop is dead code as long as the preflight sum is an int. */
  lemma MidLoopThrowIsDead(m: Sampler, seed: nat, nCtx: nat, prompt: seq<int>, maxTokens: int, decodes: seq<bool>,
                           r: Result<string, Failure>)
    requires IntArgs(prompt, maxTokens) && |prompt| + maxTokens <= INT_MAX
    requires Outcome(m, seed, nCtx, prompt, maxTokens, decodes, r)
    ensures r != Err(ContextExceeded)
  {
  }

  /** A model that never ends a text and writes the same token over and over. */
  function Babbler(): Sampler {
    Sampler((seed: nat, tokens: seq<int>) => 0, (t: int) => false, (t: int) => Some("a"))
  }

  lemma {:induction false} BabblerSamples(seed: nat, prompt: seq<int>, n: nat)
    ensures Sampled(Babbler(), seed, prompt, seq(n, _ => 0))
  {
    if n > 0 {
      BabblerSamples(seed, prompt, n - 1);
      assert seq(n, _ => 0)[..n - 1] == seq(n - 1, _ => 0);
    }
  }

  /** Where the sum wraps, such a model runs into it. */
  lemma WrapReachesMidLoopThrow(seed: nat, nCtx: nat, prompt: seq<int>, maxTokens: int) returns (decodes: seq<bool>)
    requires IntArgs(prompt, maxTokens) && |prompt| + maxTokens > INT_MAX && nCtx < INT_MAX
    ensures Outcome(Babbler(), seed, nCtx, prompt, maxTokens, decodes, Err(ContextExceeded))
  {
    var n := if |prompt| > nCtx then 0 else nCtx + 1 - |prompt|;
    decodes := seq(n, _ => true);
    BabblerSamples(seed, prompt, n);
    var tokens := seq(n, _ => 0);
    assert |tokens| == |decodes|;
  }

  /** The mid-loop throw can be reached if and only if the preflight sum does not fit an int. */
  lemma MidLoopThrowReachable(nCtx: nat, prompt: seq<int>, maxTokens: int)
    requires IntArgs(prompt, maxTokens) && nCtx < INT_MAX
    ensures (exists m, seed, decodes :: Outcome(m, seed, nCtx, prompt, maxTokens, decodes, Err(ContextExceeded)))
       <==> |prompt| + maxTokens > INT_MAX
  {
    if |prompt| + maxTokens > INT_MAX {
      var decodes := WrapReachesMidLoopThrow(0, nCtx, prompt, maxTokens);
    } else {
      forall m, seed, decodes ensures !Outcome(m, seed, nCtx, prompt, maxTokens, decodes, Err(ContextExceeded)) {
        if Outcome(m, seed, nCtx, prompt, maxTokens, decodes, Err(ContextExceeded)) {
          MidLoopThrowIsDead(m, seed, nCtx, prompt, maxTokens, decodes, Err(ContextExceeded));
        }
      }
    }
  }

  /** generate_async() takes any int for max_tokens.  With the largest one, every non-empty prompt passes the preflight
      check, and a generation that decodes without failure and does not end by itself ends in the mid-loop throw. */
  lemma LargestLimitThrowsMidLoop(m: Sampler, seed: nat, nCtx: nat, prompt: seq<int>, decodes: seq<bool>,
                                  r: Result<string, Failure>)
    requires 1 <= |prompt| <= INT_MAX && nCtx < INT_MAX && AllTrue(decodes) && Endless(m)
    requires Outcome(m, seed, nCtx, prompt, INT_MAX, decodes, r)
    ensures Preflight(prompt, INT_MAX) < 0 && r == Err(ContextExceeded)
  {
    OverflowReachesMidLoopThrow(m, seed, nCtx, prompt, INT_MAX, decodes, r);
  }

  lemma EndlessReachesLimit(m: Sampler, seed: nat, prompt: seq<int>, maxTokens: int, tokens: seq<int>)
    requires Complete(m, seed, prompt, maxTokens, tokens) && Endless(m)
    ensures |tokens| >= maxTokens
  {
    var next := m.sample(seed, prompt + tokens);
    assert !m.isEnd(next);
  }

  lemma EndlessHasPieces(m: Sampler, t: int)
    requires Endless(m)
    ensures m.piece(t).Some?
  {
  }

  ghost predicate Endless(m: Sampler) {
    forall t :: !m.isEnd(t) && m.piece(t).Some?
  }

  /** Where the sum wraps, it is how every generation ends that decodes without failure and does not end by itself. */
  lemma OverflowReachesMidLoopThrow(m: Sampler, seed: nat, nCtx: nat, prompt: seq<int>, maxTokens: int,
                                    decodes: seq<bool>, r: Result<string, Failure>)
    requires IntArgs(prompt, maxTokens) && |prompt| + maxTokens > INT_MAX && nCtx < INT_MAX
    requires Outcome(m, seed, nCtx, prompt, maxTokens, decodes, r)
    requires AllTrue(decodes) && Endless(m)
    ensures r == Err(ContextExceeded)
  {
    if r.Ok? {
      var tokens :| Complete(m, seed, prompt, maxTokens, tokens) && (tokens != [] ==> |prompt| + |tokens| <= nCtx + 1);
      EndlessReachesLimit(m, seed, prompt, maxTokens, tokens);
    } else if r == Err(PieceFailed) {
      var tokens :| Sampled(m, seed, prompt, tokens) && |tokens| < maxTokens
        && m.piece(m.sample(seed, prompt + tokens)).None?;
      EndlessHasPieces(m, m.sample(seed, prompt + tokens));
    }
  }

  lemma {:induction false} SampledGrows(m: Sampler, seed: nat, prompt: seq<int>, tokens: seq<int>)
    requires Sampled(m, seed, prompt, tokens)
    requires var t := m.sample(seed, prompt + tokens); !m.isEnd(t) && m.piece(t).Some?
    ensures var t := m.sample(seed, prompt + tokens);
      Sampled(m, seed, prompt, tokens + [t])
      && Pieces(m, tokens + [t]) == Pieces(m, tokens) + m.piece(t).value
  {
    var t := m.sample(seed, prompt + tokens);
    assert (tokens + [t])[..|tokens|] == tokens;
  }

  /** The loop between two tokens: all but the pending batch has been decoded, inside the window. */
  ghost predicate Underway(m: Sampler, seed: nat, nCtx: nat, prompt: seq<int>, maxTokens: int, tokens: seq<int>,
                           memory: seq<int>, batch: seq<int>, response: string, decodes: seq<bool>)
  {
    && Sampled(m, seed, prompt, tokens) && response == Pieces(m, tokens)
    && memory + batch == prompt + tokens && batch == (if tokens == [] then prompt else [tokens[|tokens| - 1]])
    && |memory| <= nCtx && |decodes| == |tokens| && AllTrue(decodes)
    && (tokens != [] ==> |tokens| <= maxTokens && |prompt| + |tokens| <= nCtx + 1)
  }

  lemma UnderwayStarts(m: Sampler, seed: nat, nCtx: nat, prompt: seq<int>, maxTokens: int)
    ensures Underway(m, seed, nCtx, prompt, maxTokens, [], [], prompt, "", [])
  {
    assert prompt + [] == prompt && [] + prompt == prompt;
  }

  /** One more token: the batch fitted and was decoded, and what was sampled goes on. */
  lemma UnderwayGrows(m: Sampler, seed: nat, nCtx: nat, prompt: seq<int>, maxTokens: int, tokens: seq<int>,
                      memory: seq<int>, batch: seq<int>, response: string, decodes: seq<bool>)
    requires Underway(m, seed, nCtx, prompt, maxTokens, tokens, memory, batch, response, decodes)
    requires |tokens| < maxTokens && |memory| + |batch| <= nCtx
    requires var t := m.sample(seed, memory + batch); !m.isEnd(t) && m.piece(t).Some?
    ensures var t := m.sample(seed, memory + batch);
      Underway(m, seed, nCtx, prompt, maxTokens, tokens + [t], memory + batch,
               [t], response + m.piece(t).value, decodes + [true])
  {
    var t := m.sample(seed, memory + batch);
    SampledGrows(m, seed, prompt, tokens);
    assert memory + batch + [t] == prompt + (tokens + [t]);
    hide Sampled, Pieces;
  }

  /** The limit is reached. */
  lemma EndsAtLimit(m: Sampler, seed: nat, nCtx: nat, prompt: seq<int>, maxTokens: int, tokens: seq<int>,
                    memory: seq<int>, batch: seq<int>, response: string, decodes: seq<bool>)
    requires IntArgs(prompt, maxTokens) && Preflight(prompt, maxTokens) <= nCtx
    requires Underway(m, seed, nCtx, prompt, maxTokens, tokens, memory, batch, response, decodes)
    requires |tokens| >= maxTokens
    ensures Outcome(m, seed, nCtx, prompt, maxTokens, decodes, Ok(response))
  {
    assert Complete(m, seed, prompt, maxTokens, tokens);
    hide Sampled, Pieces;
  }

  /** The sampled token ends the text, or has no text. */
  lemma EndsAtToken(m: Sampler, seed: nat, nCtx: nat, prompt: seq<int>, maxTokens: int, tokens: seq<int>,
                    memory: seq<int>, batch: seq<int>, response: string, decodes: seq<bool>)
    requires IntArgs(prompt, maxTokens) && Preflight(prompt, maxTokens) <= nCtx
    requires Underway(m, seed, nCtx, prompt, maxTokens, tokens, memory, batch, response, decodes)
    requires |tokens| < maxTokens
    ensures m.isEnd(m.sample(seed, memory + batch)) ==>
      Outcome(m, seed, nCtx, prompt, maxTokens, decodes + [true], Ok(response))
    ensures m.piece(m.sample(seed, memory + batch)).None? ==>
      Outcome(m, seed, nCtx, prompt, maxTokens, decodes + [true], Err(PieceFailed))
  {
    if m.isEnd(m.sample(seed, memory + batch)) {
      assert Complete(m, seed, prompt, maxTokens, tokens);
    }
    hide Sampled, Pieces;
  }

  /** The pending batch does not fit, or cannot be decoded. */
  lemma EndsAtBatch(m: Sampler, seed: nat, nCtx: nat, prompt: seq<int>, maxTokens: int, tokens: seq<int>,
                    memory: seq<int>, batch: seq<int>, response: string, decodes: seq<bool>)
    requires IntArgs(prompt, maxTokens) && Preflight(prompt, maxTokens) <= nCtx
    requires Underway(m, seed, nCtx, prompt, maxTokens, tokens, memory, batch, response, decodes)
    requires |tokens| < maxTokens
    ensures |memory| + |batch| > nCtx ==> Outcome(m, seed, nCtx, prompt, maxTokens, decodes, Err(ContextExceeded))
    ensures Outcome(m, seed, nCtx, prompt, maxTokens, decodes + [false], Err(DecodeFailed))
  {
    hide Sampled, Pieces;
    assert |memory + batch| == |prompt + tokens|;
    assert !(decodes + [false])[|decodes|];
  }

  /** llama_context for generation: the tokens held in its memory, one per position. */
  class DecodeContext {
    var memory: seq<int>
    var replies: seq<bool>

    constructor ()
      ensures memory == [] && replies == []
    {
      memory, replies := [], [];
    }

    method MemoryClear()
      modifies this`memory
      ensures memory == []
    {
      memory := [];
    }

    /** llama_memory_seq_pos_max() of sequence 0. */
    function SeqPosMax(): int
      reads this
    {
      |memory| - 1
    }

    method Decode(batch: seq<int>) returns (status: int)
      modifies this
      ensures memory == if status == 0 then old(memory) + batch else old(memory)
      ensures replies == old(replies) + [status == 0]
    {
      status := *;
      memory, replies := (if status == 0 then memory + batch else memory), replies + [status == 0];
    }
  }

  class LlamaGenerationProvider {
    const m: Sampler
    const nCtx: nat
    const ctx: DecodeContext

    constructor (m: Sampler, nCtx: nat, ctx: DecodeContext)
      ensures this.m == m && this.nCtx == nCtx && this.ctx == ctx
    {
      this.m, this.nCtx, this.ctx := m, nCtx, ctx;
    }

    /** A normal return is the text of the one complete generation of the seed drawn; every other ending has its own
        cause. */
    method Generate(prompt: seq<int>, maxTokens: int)
      returns (r: Result<string, Failure>, ghost decodes: seq<bool>, ghost drawn: nat)
      requires IntArgs(prompt, maxTokens)
      modifies ctx
      ensures ctx.replies == old(ctx.replies) + decodes && |ctx.memory| <= nCtx
      ensures Outcome(m, drawn, nCtx, prompt, maxTokens, decodes, r)
      ensures |prompt| + maxTokens <= INT_MAX ==> (r == Err(PromptTooLong) <==> |prompt| + maxTokens > nCtx)
    {
      hide Sampled, Pieces;
      var seed: nat := *;
      decodes, drawn := [], seed;
      ctx.MemoryClear();
      if Preflight(prompt, maxTokens) > nCtx {
        return Err(PromptTooLong), decodes, seed;
      }
      var response := "";
      var batch := prompt;
      ghost var tokens: seq<int> := [];
      var generated := 0;
      UnderwayStarts(m, seed, nCtx, prompt, maxTokens);
      hide Underway, Outcome;
      while generated < maxTokens
        invariant generated == |tokens| && |ctx.memory| <= nCtx
        invariant Underway(m, seed, nCtx, prompt, maxTokens, tokens, ctx.memory, batch, response, decodes)
        invariant ctx.replies == old(ctx.replies) + decodes
      {
        ghost var memory := ctx.memory;
        var nCtxUsed := ctx.SeqPosMax() + 1;
        EndsAtBatch(m, seed, nCtx, prompt, maxTokens, tokens, memory, batch, response, decodes);
        if nCtxUsed + |batch| > nCtx {
          return Err(ContextExceeded), decodes, seed;
        }
        var status := ctx.Decode(batch);
        AppendAssoc(old(ctx.replies), decodes, [status == 0]);
        if status != 0 {
          return Err(DecodeFailed), decodes + [false], seed;
        }
        EndsAtToken(m, seed, nCtx, prompt, maxTokens, tokens, memory, batch, response, decodes);
        var newToken := m.sample(seed, ctx.memory);
        if m.isEnd(newToken) {
          return Ok(response), decodes + [true], seed;
        }
        var piece := m.piece(newToken);
        if piece.None? {
          return Err(PieceFailed), decodes + [true], seed;
        }
        UnderwayGrows(m, seed, nCtx, prompt, maxTokens, tokens, memory, batch, response, decodes);
        response := response + piece.value;
        batch := [newToken];
        tokens, decodes := tokens + [newToken], decodes + [true];
        generated := generated + 1;
      }
      EndsAtLimit(m, seed, nCtx, prompt, maxTokens, tokens, ctx.memory, batch, response, decodes);
      return Ok(response), decodes, seed;
    }
  }
}
