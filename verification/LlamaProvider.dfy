/** Batched embedding: src/llama_provider.cpp and the base class it overrides.

  The llama.cpp library is foreign code.  `Model` holds what is assumed of it: tokenizing is a function
  of the text and the buffer size, and the output for a sequence depends only on the tokens held under
  that sequence id and their positions.  Whether an encode call succeeds is arbitrary each time.
*/
module LlamaProvider {
  import opened Wrappers
  import opened Chunking

  type Text = string

  /** llama_tokenize(): the return code and the buffer it filled. */
  datatype Reply = Reply(code: int, buffer: seq<Token>)

  /** One entry of the parallel arrays of a llama_batch. */
  datatype Slot = Slot(token: Token, pos: int, nSeqId: int, seqId: int, logits: bool)

  /** What one sequence holds: its tokens, each at its position. */
  type Content = set<(int, Token)>

  datatype Model = Model(
    tokenize: (Text, nat) -> Reply,
    pooled: Content -> Option<Vec>,
    atPosition: (Content, int) -> Option<Vec>)
  {
    ghost predicate Valid() { forall t, n :: |tokenize(t, n).buffer| == n }
  }

  const INT_MAX: int := 0x7fff_ffff

  type Uint32 = x: nat | x < 0x1_0000_0000

  /** static_cast<int>() of an unsigned value, and the wrap of an int sum. */
  function ToInt32(x: int): (r: int)
    requires -INT_MAX - 1 <= x < 0x1_0000_0000
    ensures -INT_MAX - 1 <= r <= INT_MAX && (x <= INT_MAX <==> r == x)
  {
    if x <= INT_MAX then x else x - 0x1_0000_0000
  }

  /** The outputs of a slot sequence are those of a sequence whose pooling and logits are requested. */
  function ContentOf(slots: seq<Slot>, s: int): Content {
    set i | 0 <= i < |slots| && slots[i].seqId == s && slots[i].nSeqId == 1 && slots[i].logits
      :: (slots[i].pos, slots[i].token)
  }

  function TokenContent(tokens: seq<Token>): Content {
    set p | 0 <= p < |tokens| :: (p, tokens[p])
  }

  /** The embedding of one token list on its own: the pooled output, else the last token's. */
  function Embedding(m: Model, tokens: seq<Token>): Vec {
    match m.pooled(TokenContent(tokens))
    case Some(v) => v
    case None =>
      if tokens == [] then []
      else match m.atPosition(TokenContent(tokens), |tokens| - 1)
        case Some(v) => v
        case None => []
  }

  /** The vector that the first n tokens of a buffer have on their own: each token at its place in one sequence, the
      pooled output of that, or without one the output at the last place, or none. */
  ghost predicate IsEmbedding(m: Model, buffer: seq<Token>, n: nat, v: Vec)
    requires n <= |buffer|
  {
    var content: Content := set p | 0 <= p < n :: (p, buffer[p]);
    match m.pooled(content)
    case Some(w) => v == w
    case None =>
      if n == 0 then v == []
      else match m.atPosition(content, n - 1)
        case Some(w) => v == w
        case None => v == []
  }

  lemma EmbeddingIs(m: Model, buffer: seq<Token>, n: nat)
    requires n <= |buffer|
    ensures IsEmbedding(m, buffer, n, Embedding(m, buffer[..n]))
  {
    var content: Content := set p | 0 <= p < n :: (p, buffer[p]);
    assert content == TokenContent(buffer[..n]);
  }

  function Tokenize(m: Model, nCtx: nat, text: Text, i: nat): Item
    requires m.Valid()
  {
    var reply := m.tokenize(text, nCtx);
    if reply.code < 0 || reply.code > nCtx then Item([], i, false)
    else Item(reply.buffer[..reply.code], i, true)
  }

  function TokenizeAll(m: Model, nCtx: nat, texts: seq<Text>): (items: seq<Item>)
    requires m.Valid()
    ensures |items| == |texts|
    ensures forall i :: 0 <= i < |items| ==> items[i] == Tokenize(m, nCtx, texts[i], i)
    ensures forall i :: 0 <= i < |items| ==> |items[i].tokens| <= nCtx
  {
    seq(|texts|, i requires 0 <= i < |texts| => Tokenize(m, nCtx, texts[i], i))
  }

  // ---- Batch layout -------------------------------------------------------------------------------

  /** The slots of the s-th list of a batch. */
  function Run(item: Item, s: nat): (r: seq<Slot>)
    ensures |r| == if item.ok then |item.tokens| else 0
  {
    if item.ok then seq(|item.tokens|, p requires 0 <= p < |item.tokens| => Slot(item.tokens[p], p, 1, s, true))
    else []
  }

  function Layout(items: seq<Item>): seq<Slot> {
    if items == [] then []
    else Layout(items[..|items| - 1]) + Run(items[|items| - 1], |items| - 1)
  }

  function SlotIndex(items: seq<Item>, s: nat, p: nat): nat
    requires s < |items|
  {
    |Layout(items[..s])| + p
  }

  ghost predicate IsSlotOf(items: seq<Item>, s: nat, p: nat) {
    s < |items| && items[s].ok && p < |items[s].tokens|
  }

  /** Every (sequence, position) pair has its slot, holding that token. */
  lemma {:induction false} LayoutPlaces(items: seq<Item>, s: nat, p: nat)
    requires IsSlotOf(items, s, p)
    ensures SlotIndex(items, s, p) < |Layout(items)|
    ensures Layout(items)[SlotIndex(items, s, p)] == Slot(items[s].tokens[p], p, 1, s, true)
    decreases |items|
  {
    var front := items[..|items| - 1];
    if s < |items| - 1 {
      LayoutPlaces(front, s, p);
      assert front[..s] == items[..s];
    } else {
      assert items[..s] == front;
    }
  }

  /** Every slot belongs to exactly one (sequence, position) pair: the one it is labelled with. */
  lemma {:induction false} LayoutOwners(items: seq<Item>, i: nat)
    requires i < |Layout(items)|
    ensures var slot := Layout(items)[i];
      && 0 <= slot.seqId && 0 <= slot.pos
      && IsSlotOf(items, slot.seqId, slot.pos)
      && SlotIndex(items, slot.seqId, slot.pos) == i
      && slot == Slot(items[slot.seqId].tokens[slot.pos], slot.pos, 1, slot.seqId, true)
    decreases |items|
  {
    if items != [] {
      var front := items[..|items| - 1];
      if i < |Layout(front)| {
        LayoutOwners(front, i);
        assert front[..Layout(front)[i].seqId] == items[..Layout(front)[i].seqId];
      } else {
        assert items[..|items| - 1] == front;
      }
    }
  }

  /** The batch has as many slots as the token budget that was counted for it. */
  lemma {:induction false} LayoutSize(items: seq<Item>)
    requires forall i :: 0 <= i < |items| ==> items[i].ok
    ensures |Layout(items)| == TokenCount(items)
  {
    if items != [] {
      LayoutSize(items[..|items| - 1]);
    }
  }

  /** Each sequence reads back as its own token list, whatever else the batch holds. */
  lemma SequenceReadsBack(items: seq<Item>, s: nat)
    requires s < |items| && items[s].ok
    ensures ContentOf(Layout(items), s) == TokenContent(items[s].tokens)
  {
    var slots, tokens := Layout(items), items[s].tokens;
    forall x | x in ContentOf(slots, s) ensures x in TokenContent(tokens) {
      var i :| 0 <= i < |slots| && slots[i].seqId == s && x == (slots[i].pos, slots[i].token);
      LayoutOwners(items, i);
    }
    forall x | x in TokenContent(tokens) ensures x in ContentOf(slots, s) {
      var p :| 0 <= p < |tokens| && x == (p, tokens[p]);
      LayoutPlaces(items, s, p);
    }
  }

  /** The fallback search has exactly one slot to find: the sequence's final one. */
  lemma LastSlotIsUnique(items: seq<Item>, s: nat, i: nat)
    requires s < |items| && items[s].ok && items[s].tokens != []
    requires i < |Layout(items)|
    ensures (Layout(items)[i].seqId == s && Layout(items)[i].pos == |items[s].tokens| - 1)
       <==> i == SlotIndex(items, s, |items[s].tokens| - 1)
  {
    LayoutOwners(items, i);
    LayoutPlaces(items, s, |items[s].tokens| - 1);
  }

  // ---- The library's objects ----------------------------------------------------------------------

  /** llama_batch: parallel arrays of a fixed size and the number of slots in use. */
  class LlamaBatch {
    const token: array<Token>
    const pos: array<int>
    const nSeqId: array<int>
    const seqId: array<int>
    const logits: array<bool>
    const capacity: nat
    var nTokens: nat

    ghost predicate Valid()
      reads this
    {
      && token.Length == pos.Length == nSeqId.Length == seqId.Length == logits.Length == capacity
      && nTokens <= capacity
      && pos != nSeqId && pos != seqId && nSeqId != seqId
      && token != pos && token != nSeqId && token != seqId
    }

    function SlotAt(i: nat): Slot
      requires Valid() && i < capacity
      reads this, token, pos, nSeqId, seqId, logits
    {
      Slot(token[i], pos[i], nSeqId[i], seqId[i], logits[i])
    }

    function Slots(): (r: seq<Slot>)
      requires Valid()
      reads this, token, pos, nSeqId, seqId, logits
      ensures |r| == nTokens
    {
      seq(nTokens, i requires Valid() && 0 <= i < nTokens reads this, token, pos, nSeqId, seqId, logits => SlotAt(i))
    }

    /** The body of build_batch's inner loop: one more slot, wanting its output, in one sequence. */
    method Fill(cursor: nat, t: Token, p: int, s: int)
      requires Valid() && cursor == nTokens < capacity
      modifies this, token, pos, nSeqId, seqId, logits
      ensures Valid() && Slots() == old(Slots()) + [Slot(t, p, 1, s, true)]
    {
      token[cursor] := t;
      pos[cursor] := p;
      nSeqId[cursor] := 1;
      seqId[cursor] := s;
      logits[cursor] := true;
      nTokens := nTokens + 1;
    }

    constructor (n: nat)
      ensures Valid() && capacity == n
      ensures fresh(token) && fresh(pos) && fresh(nSeqId) && fresh(seqId) && fresh(logits)
    {
      token, pos, nSeqId, seqId, logits := new Token[n], new int[n], new int[n], new int[n], new bool[n];
      capacity, nTokens := n, 0;
    }
  }

  /** The calls made on a context so far, and how each ended. */
  datatype Record = Record(encoded: seq<seq<Slot>>, replies: seq<bool>)

  /** What embed_batch has sent so far: the chunks, their outcomes, and the first text not covered. */
  datatype Sent = Sent(chunks: seq<seq<Item>>, oks: seq<bool>, lo: nat)

  /** llama_context: its memory, the slots of its last encode call, and a record of all calls. */
  class LlamaContext {
    const model: Model
    const nBatch: Uint32
    const nSeqMax: Uint32
    var memory: seq<Slot>
    var last: seq<Slot>
    var encoded: seq<seq<Slot>>
    var replies: seq<bool>

    constructor (model: Model, nBatch: Uint32, nSeqMax: Uint32)
      ensures this.model == model && this.nBatch == nBatch && this.nSeqMax == nSeqMax
      ensures memory == [] && encoded == [] && replies == []
    {
      this.model, this.nBatch, this.nSeqMax := model, nBatch, nSeqMax;
      memory, last, encoded, replies := [], [], [], [];
    }

    method MemoryClear()
      modifies this`memory
      ensures memory == []
    {
      memory := [];
    }

    /** Adds the batch to the memory if it succeeds; leaves the memory in any state if it fails. */
    method Encode(batch: LlamaBatch) returns (status: int)
      requires batch.Valid()
      modifies this
      ensures encoded == old(encoded) + [batch.Slots()]
      ensures replies == old(replies) + [status == 0]
      ensures status == 0 ==> memory == old(memory) + batch.Slots() && last == batch.Slots()
    {
      status := *;
      var slots := batch.Slots();
      if status == 0 {
        memory, last := memory + slots, slots;
      } else {
        memory, last := *, *;
      }
      encoded, replies := encoded + [slots], replies + [status == 0];
    }

    function EmbeddingsSeq(s: int): Option<Vec>
      reads this
    {
      model.pooled(ContentOf(memory, s))
    }

    function EmbeddingsIth(i: nat): Option<Vec>
      requires i < |last|
      reads this
    {
      model.atPosition(ContentOf(memory, last[i].seqId), last[i].pos)
    }
  }

  // ---- What a batched call promises ---------------------------------------------------------------

  /** embed(): one text in a call of its own, which succeeds or not. */
  function Embed(m: Model, nCtx: nat, text: Text, ok: bool): Vec
    requires m.Valid()
  {
    var item := Tokenize(m, nCtx, text, 0);
    if item.ok && ok then Embedding(m, item.tokens) else []
  }

  ghost predicate Carries(chunk: seq<Item>, j: nat) {
    exists p :: 0 <= p < |chunk| && chunk[p].originalIndex == j
  }

  /** The texts of one call all got their own embedding, or the call failed and none did. */
  ghost predicate Served(m: Model, chunk: seq<Item>, ok: bool, results: seq<Vec>) {
    forall p :: 0 <= p < |chunk| ==>
      && chunk[p].originalIndex < |results|
      && results[chunk[p].originalIndex] == if ok then Embedding(m, chunk[p].tokens) else []
  }

  ghost predicate Delivered(m: Model, l: Limits, items: seq<Item>, oks: seq<bool>, results: seq<Vec>) {
    var chunks := Greedy(l, KeptItems(l, items));
    && |oks| == |chunks| && |results| == |items|
    && (forall c :: 0 <= c < |chunks| ==> Served(m, chunks[c], oks[c], results))
    && (forall j :: 0 <= j < |items| && !Kept(l, items[j]) ==> results[j] == [])
  }

  lemma {:induction false} InSomeChunk(chunks: seq<seq<Item>>, x: Item) returns (c: nat, p: nat)
    requires x in Concat(chunks)
    ensures c < |chunks| && p < |chunks[c]| && chunks[c][p] == x
  {
    if x in chunks[0] {
      c := 0;
      p :| 0 <= p < |chunks[0]| && chunks[0][p] == x;
    } else {
      var k, q := InSomeChunk(chunks[1..], x);
      c, p := k + 1, q;
    }
  }

  /** Batched embedding refines the pointwise form.  Entry i is what embed() gives for text i in a call
      with the same outcome as the call that carried text i, and is empty for a text that was not carried:
      chunk boundaries and skipped texts never shift or mix results. */
  lemma BatchedRefinesPointwise(m: Model, l: Limits, nCtx: nat, texts: seq<Text>, oks: seq<bool>,
                                results: seq<Vec>, i: nat) returns (c: nat)
    requires m.Valid() && l.Valid() && i < |texts|
    requires Delivered(m, l, TokenizeAll(m, nCtx, texts), oks, results)
    ensures |results| == |texts|
    ensures var item := Tokenize(m, nCtx, texts[i], i);
      if Kept(l, item) then
        && c < |oks|
        && item in Greedy(l, KeptItems(l, TokenizeAll(m, nCtx, texts)))[c]
        && results[i] == Embed(m, nCtx, texts[i], oks[c])
      else results[i] == []
    ensures var reply := m.tokenize(texts[i], nCtx);
      if 0 < reply.code <= nCtx && reply.code <= l.maxTokens then
        && c < |oks|
        && (exists item :: item in Greedy(l, KeptItems(l, TokenizeAll(m, nCtx, texts)))[c] && item.originalIndex == i)
        && if oks[c] then IsEmbedding(m, reply.buffer, reply.code, results[i]) else results[i] == []
      else results[i] == []
  {
    var items := TokenizeAll(m, nCtx, texts);
    var kept := KeptItems(l, items);
    KeptMembers(l, items);
    c := 0;
    if Kept(l, items[i]) {
      GreedyPartitions(l, kept);
      var k, p := InSomeChunk(Greedy(l, kept), items[i]);
      c := k;
      assert Served(m, Greedy(l, kept)[c], oks[c], results);
      EmbeddingIs(m, m.tokenize(texts[i], nCtx).buffer, m.tokenize(texts[i], nCtx).code);
    }
    hide Embedding, IsEmbedding, Greedy, KeptItems;
  }

  /** When every text is carried and every call succeeds, nothing tells the two forms apart. */
  lemma BatchedEqualsPointwise(m: Model, l: Limits, nCtx: nat, texts: seq<Text>, oks: seq<bool>, results: seq<Vec>)
    requires m.Valid() && l.Valid()
    requires Delivered(m, l, TokenizeAll(m, nCtx, texts), oks, results)
    requires forall i :: 0 <= i < |texts| ==> Kept(l, Tokenize(m, nCtx, texts[i], i))
    requires forall c :: 0 <= c < |oks| ==> oks[c]
    ensures results == seq(|texts|, i requires 0 <= i < |texts| => Embed(m, nCtx, texts[i], true))
  {
    forall i | 0 <= i < |texts| ensures results[i] == Embed(m, nCtx, texts[i], true) {
      var c := BatchedRefinesPointwise(m, l, nCtx, texts, oks, results, i);
      assert Kept(l, Tokenize(m, nCtx, texts[i], i));
    }
  }

  // ---- The provider -------------------------------------------------------------------------------

  class LlamaProvider {
    const nCtx: nat
    const ctx: LlamaContext

    constructor (nCtx: nat, ctx: LlamaContext)
      ensures this.nCtx == nCtx && this.ctx == ctx
    {
      this.nCtx, this.ctx := nCtx, ctx;
    }

    /** The limits read back from the context. */
    function ChunkLimits(): (l: Limits)
      ensures l.Valid()
    {
      var seqs := ToInt32(ctx.nSeqMax);
      Limits(ToInt32(ctx.nBatch), if seqs < 1 then 1 else seqs)
    }

    /** What fits an int is read back as it is; a greater token capacity wraps to a negative one, and of sequences there
        is always at least one. */
    lemma LimitsReadBack()
      ensures ChunkLimits().maxTokens == if ctx.nBatch <= INT_MAX then ctx.nBatch else ctx.nBatch - 0x1_0000_0000
      ensures ChunkLimits().maxSeqs == if 1 <= ctx.nSeqMax <= INT_MAX then ctx.nSeqMax else 1
    {
    }

    ghost predicate Valid() {
      ctx.model.Valid()
    }

    /** Enough for the int sums of embed_batch: no full chunk and one more text pass the range of int, or not even all
        texts together do. */
    ghost predicate SumsFit(items: seq<Item>) {
      ChunkLimits().maxTokens + nCtx <= INT_MAX || TokenCount(items) <= INT_MAX
    }

    /** Then adding one more text to the open chunk does not overflow. */
    lemma NoOverflow(items: seq<Item>, chunk: seq<Item>, lo: nat, i: nat)
      requires SumsFit(items) && i < |items| && OpenChunk(ChunkLimits(), items, chunk, lo, i)
      requires |items[i].tokens| <= nCtx && |items[i].tokens| <= ChunkLimits().maxTokens
      ensures TokenCount(chunk) + |items[i].tokens| <= INT_MAX
    {
      ChunkWithin(ChunkLimits(), items, chunk, lo, i);
      TokenCountGrows(items, i + 1);
      assert items[..i + 1][..i] == items[..i];
    }

    method TokenizeBatch(texts: seq<Text>) returns (items: seq<Item>)
      requires Valid()
      ensures items == TokenizeAll(ctx.model, nCtx, texts)
      ensures |items| == |texts|
      ensures forall i :: 0 <= i < |items| ==>
        var reply := ctx.model.tokenize(texts[i], nCtx);
        && items[i].originalIndex == i && (items[i].ok <==> 0 <= reply.code <= nCtx)
        && (items[i].ok ==>
              && |items[i].tokens| == reply.code
              && forall p :: 0 <= p < reply.code ==> items[i].tokens[p] == reply.buffer[p])
    {
      items := [];
      for i := 0 to |texts|
        invariant |items| == i
        invariant forall k :: 0 <= k < i ==> items[k] == Tokenize(ctx.model, nCtx, texts[k], k)
      {
        var reply := ctx.model.tokenize(texts[i], nCtx);
        if reply.code < 0 {
          items := items + [Item([], i, false)];
          continue;
        }
        if reply.code > nCtx {
          items := items + [Item([], i, false)];
          continue;
        }
        items := items + [Item(reply.buffer[..reply.code], i, true)];
      }
    }

    method BuildBatch(items: seq<Item>, batch: LlamaBatch)
      requires batch.Valid() && |Layout(items)| <= batch.capacity
      modifies batch, batch.token, batch.pos, batch.nSeqId, batch.seqId, batch.logits
      ensures batch.Valid() && batch.Slots() == Layout(items)
    {
      batch.nTokens := 0;
      var cursor := 0;
      for s := 0 to |items|
        invariant batch.Valid() && cursor == batch.nTokens && batch.Slots() == Layout(items[..s])
      {
        var item := items[s];
        LayoutUpToEnds(items, s);
        if !item.ok || item.tokens == [] { continue; }
        for p := 0 to |item.tokens|
          invariant batch.Valid() && cursor == batch.nTokens && batch.Slots() == LayoutUpTo(items, s, p)
        {
          LayoutUpToStep(items, s, p);
          batch.Fill(cursor, item.tokens[p], p, s);
          cursor := cursor + 1;
        }
      }
      assert items[..|items|] == items;
    }

    /** The fallback search of extract_embeddings. */
    method FindLastToken(batch: LlamaBatch, items: seq<Item>, s: nat) returns (lastTokenIdx: int)
      requires batch.Valid() && batch.Slots() == Layout(items)
      requires s < |items| && items[s].ok
      ensures lastTokenIdx == if items[s].tokens == [] then -1 else SlotIndex(items, s, |items[s].tokens| - 1)
    {
      ghost var slots := batch.Slots();
      var i := 0;
      while i < batch.nTokens
        invariant 0 <= i <= batch.nTokens
        invariant forall k :: 0 <= k < i ==> !(slots[k].seqId == s && slots[k].pos == |items[s].tokens| - 1)
      {
        assert slots[i] == batch.SlotAt(i);
        if batch.seqId[i] == s && batch.pos[i] == |items[s].tokens| - 1 {
          LayoutOwners(items, i);
          return i;
        }
        i := i + 1;
      }
      if items[s].tokens != [] {
        LayoutPlaces(items, s, |items[s].tokens| - 1);
      }
      return -1;
    }

    method ExtractEmbeddings(batch: LlamaBatch, items: seq<Item>) returns (results: seq<Vec>)
      requires batch.Valid() && batch.Slots() == Layout(items)
      requires ctx.memory == ctx.last == Layout(items)
      ensures |results| == |items|
      ensures forall s :: 0 <= s < |items| ==>
        results[s] == if items[s].ok then Embedding(ctx.model, items[s].tokens) else []
    {
      results := seq(|items|, _ => []);
      for s := 0 to |items|
        invariant |results| == |items|
        invariant forall k :: 0 <= k < s ==>
          results[k] == if items[k].ok then Embedding(ctx.model, items[k].tokens) else []
        invariant forall k :: s <= k < |items| ==> results[k] == []
      {
        if !items[s].ok { continue; }
        SequenceReadsBack(items, s);
        var embd := ctx.EmbeddingsSeq(s);
        if embd.None? {
          var lastTokenIdx := FindLastToken(batch, items, s);
          if lastTokenIdx >= 0 {
            LayoutPlaces(items, s, |items[s].tokens| - 1);
            embd := ctx.EmbeddingsIth(lastTokenIdx);
          }
        }
        if embd.None? { continue; }
        results := results[s := embd.value];
      }
    }

    method EmbedOne(text: Text) returns (result: Vec, ghost ok: bool)
      requires Valid()
      modifies ctx
      ensures result == Embed(ctx.model, nCtx, text, ok)
      ensures var reply := ctx.model.tokenize(text, nCtx);
        if 0 <= reply.code <= nCtx && ok then IsEmbedding(ctx.model, reply.buffer, reply.code, result) else result == []
    {
      var items := TokenizeBatch([text]);
      ok := false;
      if !items[0].ok { return [], ok; }
      ctx.MemoryClear();
      var batch := new LlamaBatch(|items[0].tokens|);
      assert Layout(items) == Layout(items[..0]) + Run(items[0], 0);
      BuildBatch(items, batch);
      var status := ctx.Encode(batch);
      if status != 0 { return [], ok; }
      ok := true;
      var results := ExtractEmbeddings(batch, items);
      EmbeddingIs(ctx.model, ctx.model.tokenize(text, nCtx).buffer, ctx.model.tokenize(text, nCtx).code);
      return results[0], ok;
    }

    /** flush_chunk: one encode call for the open chunk, its results scattered to their own places. */
    method FlushChunk(chunk: seq<Item>, chunkTokens: int, results: seq<Vec>)
      returns (results': seq<Vec>, ghost ok: bool)
      requires Valid() && chunkTokens == TokenCount(chunk)
      requires forall p :: 0 <= p < |chunk| ==> chunk[p].ok && chunk[p].originalIndex < |results|
      requires forall p, q :: 0 <= p < q < |chunk| ==> chunk[p].originalIndex < chunk[q].originalIndex
      modifies ctx
      ensures |results'| == |results|
      ensures chunk == [] ==> unchanged(ctx)
      ensures chunk != [] ==>
        ctx.encoded == old(ctx.encoded) + [Layout(chunk)] && ctx.replies == old(ctx.replies) + [ok]
      ensures if ok then Served(ctx.model, chunk, true, results') else results' == results
      ensures forall j :: 0 <= j < |results| && !Carries(chunk, j) ==> results'[j] == results[j]
    {
      results', ok := results, true;
      if chunk == [] { return; }
      ctx.MemoryClear();
      var batch := new LlamaBatch(chunkTokens);
      LayoutSize(chunk);
      BuildBatch(chunk, batch);
      var status := ctx.Encode(batch);
      ok := status == 0;
      if status == 0 {
        var extracted := ExtractEmbeddings(batch, chunk);
        results' := ScatterResults(chunk, extracted, results);
      }
    }

    /** Each result goes to the entry of the text it came from. */
    method ScatterResults(chunk: seq<Item>, extracted: seq<Vec>, results: seq<Vec>) returns (results': seq<Vec>)
      requires |extracted| == |chunk|
      requires forall p :: 0 <= p < |chunk| ==> chunk[p].originalIndex < |results|
      requires forall p, q :: 0 <= p < q < |chunk| ==> chunk[p].originalIndex < chunk[q].originalIndex
      ensures |results'| == |results|
      ensures forall p :: 0 <= p < |chunk| ==> results'[chunk[p].originalIndex] == extracted[p]
      ensures forall j :: 0 <= j < |results| && !Carries(chunk, j) ==> results'[j] == results[j]
    {
      results' := results;
      for p := 0 to |chunk|
        invariant |results'| == |results|
        invariant forall q :: 0 <= q < p ==> results'[chunk[q].originalIndex] == extracted[q]
        invariant forall j :: 0 <= j < |results| && !Carries(chunk, j) ==> results'[j] == results[j]
      {
        results' := results'[chunk[p].originalIndex := extracted[p]];
      }
    }

    /** The state of embed_batch's loop before text i: what was sent, what is open, what is still to come. */
    ghost predicate Underway(start: Record, items: seq<Item>, t: Sent, chunk: seq<Item>, chunkTokens: int,
                             results: seq<Vec>, i: nat)
      reads ctx
    {
      && ctx.replies == start.replies + t.oks && ctx.encoded == start.encoded + Layouts(t.chunks)
      && Packing(ctx.model, ChunkLimits(), items, t, chunk, chunkTokens, results, i)
    }

    /** flush_chunk inside the loop: the open chunk becomes the latest one sent. */
    method Send(chunk: seq<Item>, chunkTokens: int, results: seq<Vec>,
                ghost start: Record, ghost items: seq<Item>, ghost t: Sent, ghost i: nat)
      returns (results': seq<Vec>, ghost t': Sent)
      requires Valid() && Underway(start, items, t, chunk, chunkTokens, results, i)
      requires i < |items| ==> chunk != [] && Kept(ChunkLimits(), items[i]) && !Fits(ChunkLimits(), chunk + [items[i]])
      modifies ctx
      ensures Underway(start, items, t', [], 0, results', i)
    {
      ghost var l, ok := ChunkLimits(), false;
      results', ok := FlushChunk(chunk, chunkTokens, results);
      if chunk == [] { return results', t; }
      AfterFlush(ctx.model, l, items, t.chunks, t.oks, results, t.lo, chunk, ok, results', i);
      LayoutsSnoc(t.chunks, chunk);
      AppendAssoc(start.replies, t.oks, [ok]);
      AppendAssoc(start.encoded, Layouts(t.chunks), [Layout(chunk)]);
      if i < |items| {
        PlanStep(l, items, Greedy(l, KeptItems(l, items)), t.chunks, chunk, i);
      } else {
        PlanEnd(l, items, Greedy(l, KeptItems(l, items)), t.chunks, chunk);
      }
      t' := Sent(t.chunks + [chunk], t.oks + [ok], i);
    }

    /** The loop body of embed_batch. */
    method Take(item: Item, chunk: seq<Item>, chunkTokens: int, results: seq<Vec>,
                ghost start: Record, ghost items: seq<Item>, ghost t: Sent, ghost i: nat)
      returns (chunk': seq<Item>, chunkTokens': int, results': seq<Vec>, ghost t': Sent)
      requires Valid() && Underway(start, items, t, chunk, chunkTokens, results, i)
      requires i < |items| && item == items[i] && item.originalIndex == i && |item.tokens| <= nCtx
      modifies ctx
      ensures Underway(start, items, t', chunk', chunkTokens', results', i + 1)
    {
      chunk', chunkTokens', results', t' := chunk, chunkTokens, results, t;
      var l := ChunkLimits();
      if !item.ok || item.tokens == [] {
        PackingSkips(ctx.model, l, items, t, chunk, chunkTokens, results, i);
        return;
      }
      var nToks := |item.tokens|;
      if nToks > l.maxTokens {
        PackingSkips(ctx.model, l, items, t, chunk, chunkTokens, results, i);
        return;
      }
      JoinsIfRoom(l, chunk, item);
      assert SumsFit(items) ==> chunkTokens + nToks <= INT_MAX by {
        if SumsFit(items) { NoOverflow(items, chunk, t.lo, i); }
      }
      if chunk != [] && (chunkTokens + nToks > l.maxTokens || |chunk| >= l.maxSeqs) {
        results', t' := Send(chunk, chunkTokens, results, start, items, t, i);
        chunk', chunkTokens' := [], 0;
        JoinsIfRoom(l, [], item);
      }
      PackingJoins(ctx.model, l, items, t', chunk', chunkTokens', results', i);
      chunk', chunkTokens' := chunk' + [item], chunkTokens' + nToks;
    }

    /** Since `start`, the greedy chunks were encoded, one call each, and every entry is as its call went. */
    ghost predicate Answered(start: Record, items: seq<Item>, oks: seq<bool>, results: seq<Vec>)
      reads ctx
    {
      && ctx.replies == start.replies + oks
      && ctx.encoded == start.encoded + Layouts(Greedy(ChunkLimits(), KeptItems(ChunkLimits(), items)))
      && Delivered(ctx.model, ChunkLimits(), items, oks, results)
    }

    lemma Finishes(start: Record, items: seq<Item>, t: Sent, results: seq<Vec>)
      requires items == [] ==> results == [] && t == Sent([], [], 0) && start == Record(ctx.encoded, ctx.replies)
      requires items != [] ==> Underway(start, items, t, [], 0, results, |items|)
      ensures Answered(start, items, t.oks, results)
    {
      if items != [] {
        PackingDone(ctx.model, ChunkLimits(), items, t, results);
      }
    }

    /** One entry per text, produced by the fewest encode calls, in the order of the texts. */
    method EmbedBatch(texts: seq<Text>) returns (results: seq<Vec>, ghost oks: seq<bool>)
      requires Valid()
      modifies ctx
      ensures Answered(Record(old(ctx.encoded), old(ctx.replies)), TokenizeAll(ctx.model, nCtx, texts), oks, results)
      ensures |results| == |texts|
      ensures forall i :: 0 <= i < |texts| ==>
        var reply := ctx.model.tokenize(texts[i], nCtx);
        if 0 < reply.code <= nCtx && reply.code <= ChunkLimits().maxTokens then
          exists c :: 0 <= c < |oks| &&
            if oks[c] then IsEmbedding(ctx.model, reply.buffer, reply.code, results[i]) else results[i] == []
        else results[i] == []
    {
      hide IsEmbedding, Delivered;
      oks := [];
      if texts == [] {
        Finishes(Record(ctx.encoded, ctx.replies), [], Sent([], [], 0), []);
        return [], oks;
      }
      results := seq(|texts|, _ => []);
      var items := TokenizeBatch(texts);
      var chunk: seq<Item>, chunkTokens := [], 0;
      ghost var start, t := Record(ctx.encoded, ctx.replies), Sent([], [], 0);
      PackingStarts(ctx.model, ChunkLimits(), items, results);
      for i := 0 to |items|
        invariant Underway(start, items, t, chunk, chunkTokens, results, i)
      {
        chunk, chunkTokens, results, t := Take(items[i], chunk, chunkTokens, results, start, items, t, i);
      }
      results, t := Send(chunk, chunkTokens, results, start, items, t, |items|);
      Finishes(start, items, t, results);
      oks := t.oks;
      Entries(texts, oks, results);
    }

    lemma Entries(texts: seq<Text>, oks: seq<bool>, results: seq<Vec>)
      requires Valid() && Delivered(ctx.model, ChunkLimits(), TokenizeAll(ctx.model, nCtx, texts), oks, results)
      ensures |results| == |texts|
      ensures forall i :: 0 <= i < |texts| ==>
        var reply := ctx.model.tokenize(texts[i], nCtx);
        if 0 < reply.code <= nCtx && reply.code <= ChunkLimits().maxTokens then
          exists c :: 0 <= c < |oks| &&
            if oks[c] then IsEmbedding(ctx.model, reply.buffer, reply.code, results[i]) else results[i] == []
        else results[i] == []
    {
      assert |results| == |TokenizeAll(ctx.model, nCtx, texts)|;
      hide IsEmbedding, Delivered;
      forall i | 0 <= i < |texts|
        ensures var reply := ctx.model.tokenize(texts[i], nCtx);
          if 0 < reply.code <= nCtx && reply.code <= ChunkLimits().maxTokens then
            exists c :: 0 <= c < |oks| &&
              if oks[c] then IsEmbedding(ctx.model, reply.buffer, reply.code, results[i]) else results[i] == []
          else results[i] == []
      {
        var c := BatchedRefinesPointwise(ctx.model, ChunkLimits(), nCtx, texts, oks, results, i);
      }
    }
  }

  ghost predicate Packing(m: Model, l: Limits, items: seq<Item>, t: Sent, chunk: seq<Item>, chunkTokens: int,
                          results: seq<Vec>, i: nat)
  {
    && Planned(l, items, Greedy(l, KeptItems(l, items)), t.chunks, chunk, i)
    && chunkTokens == TokenCount(chunk) && t.lo <= i
    && OpenChunk(l, items, chunk, t.lo, i)
    && Progress(m, l, items, t.chunks, t.oks, results, t.lo)
  }

  lemma PackingSkips(m: Model, l: Limits, items: seq<Item>, t: Sent, chunk: seq<Item>, chunkTokens: int,
                     results: seq<Vec>, i: nat)
    requires l.Valid() && Packing(m, l, items, t, chunk, chunkTokens, results, i)
    requires i < |items| && !Kept(l, items[i])
    ensures Packing(m, l, items, t, chunk, chunkTokens, results, i + 1)
  {
    PlanStep(l, items, Greedy(l, KeptItems(l, items)), t.chunks, chunk, i);
  }

  lemma PackingDone(m: Model, l: Limits, items: seq<Item>, t: Sent, results: seq<Vec>)
    requires l.Valid() && Packing(m, l, items, t, [], 0, results, |items|)
    ensures t.chunks == Greedy(l, KeptItems(l, items)) && Delivered(m, l, items, t.oks, results)
  {
    PlanEnd(l, items, Greedy(l, KeptItems(l, items)), t.chunks, []);
  }

  lemma PackingStarts(m: Model, l: Limits, items: seq<Item>, results: seq<Vec>)
    requires |results| == |items| && forall j :: 0 <= j < |results| ==> results[j] == []
    ensures Packing(m, l, items, Sent([], [], 0), [], 0, results, 0)
  {
    PlanStart(l, items);
  }

  lemma PackingJoins(m: Model, l: Limits, items: seq<Item>, t: Sent, chunk: seq<Item>, chunkTokens: int,
                     results: seq<Vec>, i: nat)
    requires l.Valid() && Packing(m, l, items, t, chunk, chunkTokens, results, i)
    requires i < |items| && Kept(l, items[i]) && items[i].originalIndex == i && Fits(l, chunk + [items[i]])
    ensures Packing(m, l, items, t, chunk + [items[i]], chunkTokens + |items[i].tokens|, results, i + 1)
  {
    PlanStep(l, items, Greedy(l, KeptItems(l, items)), t.chunks, chunk, i);
    ChunkGrows(l, items, chunk, t.lo, i);
  }

  /** What has been sent, the open chunk and the texts still to come add up to the greedy plan. */
  ghost predicate Planned(l: Limits, items: seq<Item>, all: seq<seq<Item>>, sent: seq<seq<Item>>, chunk: seq<Item>,
                          i: nat)
  {
    i <= |items| && all == sent + Greedy(l, chunk + KeptItems(l, items[i..]))
  }

  lemma PlanStart(l: Limits, items: seq<Item>)
    ensures Planned(l, items, Greedy(l, KeptItems(l, items)), [], [], 0)
  {
    assert items[0..] == items && [] + KeptItems(l, items) == KeptItems(l, items);
  }

  lemma PlanStep(l: Limits, items: seq<Item>, all: seq<seq<Item>>, sent: seq<seq<Item>>, chunk: seq<Item>, i: nat)
    requires l.Valid() && i < |items| && Planned(l, items, all, sent, chunk, i)
    requires chunk != [] ==> Fits(l, chunk)
    ensures !Kept(l, items[i]) ==> Planned(l, items, all, sent, chunk, i + 1)
    ensures Kept(l, items[i]) ==> Planned(l, items, all, sent, chunk + [items[i]], i + 1)
    ensures Kept(l, items[i]) && chunk != [] && !Fits(l, chunk + [items[i]]) ==>
      Planned(l, items, all, sent + [chunk], [], i)
  {
    var rest := KeptItems(l, items[i + 1..]);
    assert items[i..][1..] == items[i + 1..];
    if Kept(l, items[i]) {
      var coming := KeptItems(l, items[i..]);
      assert coming == [items[i]] + rest;
      assert chunk + coming == (chunk + [items[i]]) + rest;
      if chunk != [] && !Fits(l, chunk + [items[i]]) {
        ClosedChunk(l, chunk, coming);
        assert [] + coming == coming;
      }
    } else {
      assert KeptItems(l, items[i..]) == rest;
    }
  }

  lemma PlanEnd(l: Limits, items: seq<Item>, all: seq<seq<Item>>, sent: seq<seq<Item>>, chunk: seq<Item>)
    requires l.Valid() && Planned(l, items, all, sent, chunk, |items|)
    requires chunk != [] ==> Fits(l, chunk)
    ensures all == if chunk == [] then sent else sent + [chunk]
  {
    assert chunk + KeptItems(l, items[|items|..]) == chunk;
    if chunk != [] {
      ClosedChunk(l, chunk, []);
      assert chunk + [] == chunk;
    }
  }

  /** The open chunk: kept texts from position lo on, in order, fitting together. */
  ghost predicate OpenChunk(l: Limits, items: seq<Item>, chunk: seq<Item>, lo: nat, i: nat) {
    && (chunk != [] ==> Fits(l, chunk))
    && (forall p :: 0 <= p < |chunk| ==>
      lo <= chunk[p].originalIndex < i <= |items| && chunk[p] == items[chunk[p].originalIndex] && Kept(l, chunk[p]))
    && (forall p, q :: 0 <= p < q < |chunk| ==> chunk[p].originalIndex < chunk[q].originalIndex)
  }

  /** The open chunk is part of what came before. */
  lemma {:induction false} ChunkWithin(l: Limits, items: seq<Item>, chunk: seq<Item>, lo: nat, i: nat)
    requires OpenChunk(l, items, chunk, lo, i) && i <= |items|
    ensures TokenCount(chunk) <= TokenCount(items[..i])
    decreases i
  {
    if chunk != [] {
      var front, last := chunk[..|chunk| - 1], chunk[|chunk| - 1];
      assert items[..i][..i - 1] == items[..i - 1];
      if last.originalIndex == i - 1 {
        SliceFits(l, chunk, 0, |chunk| - 1);
        assert chunk[0..|chunk| - 1] == front;
        ChunkWithin(l, items, front, lo, i - 1);
      } else {
        ChunkWithin(l, items, chunk, lo, i - 1);
      }
    }
  }

  lemma {:induction false} TokenCountGrows(items: seq<Item>, n: nat)
    requires n <= |items|
    ensures TokenCount(items[..n]) <= TokenCount(items)
  {
    assert items == items[..n] + items[n..];
    TokenCountAppend(items[..n], items[n..]);
  }

  lemma ChunkGrows(l: Limits, items: seq<Item>, chunk: seq<Item>, lo: nat, i: nat)
    requires lo <= i < |items| && OpenChunk(l, items, chunk, lo, i)
    requires Kept(l, items[i]) && items[i].originalIndex == i && Fits(l, chunk + [items[i]])
    ensures OpenChunk(l, items, chunk + [items[i]], lo, i + 1)
    ensures TokenCount(chunk + [items[i]]) == TokenCount(chunk) + |items[i].tokens|
  {
    TokenCountAppend(chunk, [items[i]]);
    SingleCount(items[i]);
  }

  /** The chunks sent so far cover texts before lo and are served; every other entry is still empty. */
  ghost predicate Progress(m: Model, l: Limits, items: seq<Item>, sent: seq<seq<Item>>, oks: seq<bool>,
                           results: seq<Vec>, lo: nat) {
    && |oks| == |sent| && |results| == |items|
    && (forall c :: 0 <= c < |sent| ==> Served(m, sent[c], oks[c], results) && Before(sent[c], lo))
    && (forall j :: lo <= j < |results| ==> results[j] == [])
    && (forall j :: 0 <= j < |results| && !Kept(l, items[j]) ==> results[j] == [])
  }

  ghost predicate Before(chunk: seq<Item>, lo: nat) {
    forall p :: 0 <= p < |chunk| ==> chunk[p].originalIndex < lo
  }

  lemma AfterFlush(m: Model, l: Limits, items: seq<Item>, sent: seq<seq<Item>>, oks: seq<bool>, results: seq<Vec>,
                   lo: nat, chunk: seq<Item>, ok: bool, results': seq<Vec>, i: nat)
    requires lo <= i && Progress(m, l, items, sent, oks, results, lo) && OpenChunk(l, items, chunk, lo, i)
    requires |results'| == |results|
    requires if ok then Served(m, chunk, true, results') else results' == results
    requires forall j :: 0 <= j < |results| && !Carries(chunk, j) ==> results'[j] == results[j]
    ensures Progress(m, l, items, sent + [chunk], oks + [ok], results', i)
  {
    var sent', oks' := sent + [chunk], oks + [ok];
    forall c | 0 <= c < |sent'| ensures Served(m, sent'[c], oks'[c], results') && Before(sent'[c], i) {
      if c < |sent| {
        assert Served(m, sent[c], oks[c], results) && Before(sent[c], lo);
        forall p | 0 <= p < |sent[c]| ensures results'[sent[c][p].originalIndex] == results[sent[c][p].originalIndex] {
          assert !Carries(chunk, sent[c][p].originalIndex);
        }
      }
    }
  }

  /** The two tests of the loop decide exactly whether the next text still fits. */
  lemma JoinsIfRoom(l: Limits, chunk: seq<Item>, item: Item)
    requires l.Valid() && Kept(l, item)
    ensures Fits(l, chunk + [item]) <==> TokenCount(chunk) + |item.tokens| <= l.maxTokens && |chunk| < l.maxSeqs
    ensures chunk == [] ==> Fits(l, chunk + [item])
  {
    TokenCountAppend(chunk, [item]);
    SingleCount(item);
  }

  /** EmbeddingProvider::embed_batch, the form every provider starts from: embed() text by text. */
  method PointwiseEmbedBatch(provider: LlamaProvider, texts: seq<Text>)
    returns (results: seq<Vec>, ghost oks: seq<bool>)
    requires provider.Valid()
    modifies provider.ctx
    ensures |results| == |oks| == |texts|
    ensures forall i :: 0 <= i < |texts| ==> results[i] == Embed(provider.ctx.model, provider.nCtx, texts[i], oks[i])
  {
    results, oks := [], [];
    for i := 0 to |texts|
      invariant |results| == |oks| == i
      invariant forall k :: 0 <= k < i ==> results[k] == Embed(provider.ctx.model, provider.nCtx, texts[k], oks[k])
    {
      var v, ok := provider.EmbedOne(texts[i]);
      results, oks := results + [v], oks + [ok];
    }
  }

  function Layouts(chunks: seq<seq<Item>>): seq<seq<Slot>> {
    seq(|chunks|, c requires 0 <= c < |chunks| => Layout(chunks[c]))
  }

  /** The layout when p tokens of list s have been written. */
  function LayoutUpTo(items: seq<Item>, s: nat, p: nat): seq<Slot>
    requires s < |items| && p <= |Run(items[s], s)|
  {
    Layout(items[..s]) + Run(items[s], s)[..p]
  }

  lemma LayoutUpToEnds(items: seq<Item>, s: nat)
    requires s < |items|
    ensures LayoutUpTo(items, s, 0) == Layout(items[..s])
    ensures LayoutUpTo(items, s, |Run(items[s], s)|) == Layout(items[..s + 1])
    ensures |Layout(items[..s])| + |Run(items[s], s)| <= |Layout(items)|
  {
    LayoutGrows(items, s);
    var run := Run(items[s], s);
    assert run[..|run|] == run;
  }

  lemma LayoutUpToStep(items: seq<Item>, s: nat, p: nat)
    requires s < |items| && p < |Run(items[s], s)|
    ensures LayoutUpTo(items, s, p + 1) == LayoutUpTo(items, s, p) + [Slot(items[s].tokens[p], p, 1, s, true)]
  {
    var run := Run(items[s], s);
    assert run[..p + 1] == run[..p] + [run[p]];
    AppendAssoc(Layout(items[..s]), run[..p], [run[p]]);
  }

  lemma AppendAssoc<T>(a: seq<T>, b: seq<T>, c: seq<T>)
    ensures (a + b) + c == a + (b + c)
  {
  }

  lemma LayoutsSnoc(chunks: seq<seq<Item>>, chunk: seq<Item>)
    ensures Layouts(chunks + [chunk]) == Layouts(chunks) + [Layout(chunk)]
  {
  }

  lemma {:induction false} LayoutGrows(items: seq<Item>, s: nat)
    requires s < |items|
    ensures Layout(items[..s + 1]) == Layout(items[..s]) + Run(items[s], s)
    ensures Layout(items[..s + 1]) <= Layout(items)
    decreases |items| - s
  {
    assert items[..s + 1][..s] == items[..s];
    if s + 1 == |items| {
      assert items[..s + 1] == items;
    } else {
      LayoutGrows(items, s + 1);
    }
  }
}
