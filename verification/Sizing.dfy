/** The context sizing of LlamaProvider::init and what it means for the number of encode calls. */
module Sizing {
  import opened Wrappers
  import opened Chunking
  import opened LlamaProvider

  /** n_seq_max and n_batch as init() requests them: both are unsigned 32-bit. */
  function RequestedSeqs(maxBatchSize: int): nat {
    if maxBatchSize < 1 then 1 else maxBatchSize
  }

  function RequestedTokens(nCtx: nat, maxBatchSize: int): Uint32 {
    (nCtx * RequestedSeqs(maxBatchSize)) % 0x1_0000_0000
  }

  /** The limits embed_batch reads back when the library granted the request unchanged. */
  function GrantedLimits(nCtx: nat, maxBatchSize: int): Limits {
    Limits(ToInt32(RequestedTokens(nCtx, maxBatchSize)), RequestedSeqs(maxBatchSize))
  }

  /** Full-window texts, as many as the context has sequences for, always fit the token budget. */
  ghost predicate BudgetNeverBinds(nCtx: nat, l: Limits) {
    forall chunk: seq<Item> :: |chunk| <= l.maxSeqs && Windowed(nCtx, chunk) ==> TokenCount(chunk) <= l.maxTokens
  }

  ghost predicate Windowed(nCtx: nat, chunk: seq<Item>) {
    forall i :: 0 <= i < |chunk| ==> |chunk[i].tokens| <= nCtx
  }

  lemma {:induction false} WindowedCount(nCtx: nat, chunk: seq<Item>)
    requires Windowed(nCtx, chunk)
    ensures TokenCount(chunk) <= |chunk| * nCtx
    ensures (forall i :: 0 <= i < |chunk| ==> |chunk[i].tokens| == nCtx) ==> TokenCount(chunk) == |chunk| * nCtx
  {
    if chunk != [] {
      WindowedCount(nCtx, chunk[..|chunk| - 1]);
    }
  }

  lemma TimesMonotone(a: nat, b: nat, c: nat)
    requires a <= b
    ensures a * c <= b * c
  {
  }

  lemma TokensGranted(nCtx: nat, maxBatchSize: int)
    requires maxBatchSize <= INT_MAX
    ensures var l, worst := GrantedLimits(nCtx, maxBatchSize), nCtx * RequestedSeqs(maxBatchSize);
      if worst <= INT_MAX then l.maxTokens == worst else l.maxTokens < worst
  {
    var worst := nCtx * RequestedSeqs(maxBatchSize);
    assert 0 <= worst;
  }

  lemma EnoughNeverBinds(nCtx: nat, l: Limits)
    requires l.maxSeqs * nCtx <= l.maxTokens
    ensures BudgetNeverBinds(nCtx, l)
  {
    hide TokenCount, Windowed;
    forall chunk: seq<Item> | |chunk| <= l.maxSeqs && Windowed(nCtx, chunk)
      ensures TokenCount(chunk) <= l.maxTokens
    {
      WindowedCount(nCtx, chunk);
      TimesMonotone(|chunk|, l.maxSeqs, nCtx);
    }
  }

  lemma WorstCaseBinds(nCtx: nat, l: Limits)
    requires l.maxTokens < l.maxSeqs * nCtx
    ensures !BudgetNeverBinds(nCtx, l)
  {
    var full := seq(l.maxSeqs, _ => Item(seq(nCtx, _ => 0), 0, true));
    assert Windowed(nCtx, full);
    WindowedCount(nCtx, full);
    hide TokenCount;
  }

  /** The request covers its own worst case exactly when the product is a positive int. */
  lemma SizingIsExact(nCtx: nat, maxBatchSize: int)
    requires maxBatchSize <= INT_MAX
    ensures BudgetNeverBinds(nCtx, GrantedLimits(nCtx, maxBatchSize))
       <==> nCtx * (if maxBatchSize < 1 then 1 else maxBatchSize) <= INT_MAX
  {
    hide BudgetNeverBinds;
    var l := GrantedLimits(nCtx, maxBatchSize);
    TokensGranted(nCtx, maxBatchSize);
    TimesCommute(nCtx, l.maxSeqs);
    if nCtx * RequestedSeqs(maxBatchSize) <= INT_MAX {
      EnoughNeverBinds(nCtx, l);
    } else {
      WorstCaseBinds(nCtx, l);
    }
  }

  lemma TimesCommute(a: nat, b: nat)
    ensures a * b == b * a
  {
  }

  /** A request of 65536 * 32768 tokens comes back negative, and then not one text is carried. */
  lemma OversizedRequestDropsEverything(items: seq<Item>)
    ensures KeptItems(GrantedLimits(65536, 32768), items) == []
  {
    var l := GrantedLimits(65536, 32768);
    assert RequestedTokens(65536, 32768) == 0x8000_0000;
    assert l.maxTokens < 0;
    KeptMembers(l, items);
    assert AllKept(l, KeptItems(l, items));
  }

  /** A product past 2^32 wraps: 65536 * 65537 comes back as the tokens of a single sequence, 65536 * 65536 as none. */
  lemma WrappedRequests()
    ensures GrantedLimits(65536, 65537).maxTokens == 65536 && GrantedLimits(65536, 65536).maxTokens == 0
    ensures GrantedLimits(65536, 65537).maxSeqs == 65537
  {
    assert 65536 * 65537 == 0x1_0001_0000 && 65536 * 65536 == 0x1_0000_0000;
  }

  function Calls(n: nat, perCall: nat): (k: nat)
    requires 1 <= perCall
  {
    if n == 0 then 0 else 1 + Calls(if n < perCall then 0 else n - perCall, perCall)
  }

  /** Calls(n, k) is n/k rounded up. */
  lemma {:induction false} CallsRoundsUp(n: nat, k: nat)
    requires 1 <= k
    ensures n <= Calls(n, k) * k && (n > 0 ==> (Calls(n, k) - 1) * k < n)
    ensures n <= k ==> Calls(n, k) <= 1
  {
    if n > k {
      CallsRoundsUp(n - k, k);
      assert Calls(n, k) * k == Calls(n - k, k) * k + k;
      assert (Calls(n, k) - 1) * k == (Calls(n - k, k) - 1) * k + k;
    } else if n > 0 {
      assert Calls(n, k) == 1 + Calls(0, k);
      assert (Calls(n, k) - 1) * k == 0;
    }
  }

  lemma WindowedSlice(nCtx: nat, items: seq<Item>, lo: nat, hi: nat)
    requires Windowed(nCtx, items) && lo <= hi <= |items|
    ensures Windowed(nCtx, items[lo..hi])
  {
  }

  lemma FitsByCount(nCtx: nat, l: Limits, items: seq<Item>, n: nat)
    requires BudgetNeverBinds(nCtx, l) && Windowed(nCtx, items) && n <= |items|
    ensures Fits(l, items[..n]) <==> n <= l.maxSeqs
  {
    hide TokenCount;
    WindowedSlice(nCtx, items, 0, n);
    assert items[0..n] == items[..n];
  }

  lemma CountedChunk(nCtx: nat, l: Limits, items: seq<Item>) returns (n: nat)
    requires l.Valid() && BudgetNeverBinds(nCtx, l) && Windowed(nCtx, items) && items != []
    ensures n == (if |items| < l.maxSeqs then |items| else l.maxSeqs)
    ensures Greedy(l, items) == [items[..n]] + Greedy(l, items[n..])
  {
    hide TokenCount, Fits, BudgetNeverBinds, Windowed, Longest;
    n := if |items| < l.maxSeqs then |items| else l.maxSeqs;
    var most := Longest(l, items, 1);
    FitsByCount(nCtx, l, items, 1);
    FitsByCount(nCtx, l, items, most);
    LongestIsLongest(l, items, 1, most);
    FitsByCount(nCtx, l, items, n);
    LongestIsLongest(l, items, 1, n);
  }

  /** With the budget out of the way, only the number of texts decides where a chunk ends. */
  lemma {:induction false} CountAlone(nCtx: nat, l: Limits, items: seq<Item>)
    requires l.Valid() && BudgetNeverBinds(nCtx, l) && Windowed(nCtx, items)
    ensures |Greedy(l, items)| == Calls(|items|, l.maxSeqs)
  {
    assert Greedy(l, []) == [] && Calls(0, l.maxSeqs) == 0;
    assert items != [] ==>
      Calls(|items|, l.maxSeqs) == 1 + Calls(if |items| < l.maxSeqs then 0 else |items| - l.maxSeqs, l.maxSeqs);
    hide Greedy, BudgetNeverBinds, Windowed, Calls;
    if items != [] {
      var n := CountedChunk(nCtx, l, items);
      WindowedSlice(nCtx, items, n, |items|);
      assert items[n..] == items[n..|items|];
      CountAlone(nCtx, l, items[n..]);
    }
  }

  lemma OneChunkPerClaim(m: Model, nCtx: nat, maxBatchSize: int, texts: seq<Text>)
    requires m.Valid() && maxBatchSize <= INT_MAX
    requires nCtx * RequestedSeqs(maxBatchSize) <= INT_MAX
    ensures var l := GrantedLimits(nCtx, maxBatchSize);
      var items := TokenizeAll(m, nCtx, texts);
      var kept := KeptItems(l, items);
      && (forall i :: 0 <= i < |items| ==> (Kept(l, items[i]) <==> items[i].ok && items[i].tokens != []))
      && |Greedy(l, kept)| == Calls(|kept|, l.maxSeqs)
      && (1 <= |texts| <= maxBatchSize ==> |Greedy(l, kept)| <= 1)
  {
    var l := GrantedLimits(nCtx, maxBatchSize);
    SizingIsExact(nCtx, maxBatchSize);
    OneTextFits(nCtx, l);
    CountedCalls(nCtx, l, TokenizeAll(m, nCtx, texts));
  }

  /** The library granted what init() requested. */
  ghost predicate Granted(p: LlamaProvider, maxBatchSize: int) {
    && maxBatchSize <= INT_MAX
    && p.ctx.nBatch == RequestedTokens(p.nCtx, maxBatchSize) && p.ctx.nSeqMax == RequestedSeqs(maxBatchSize)
  }

  lemma LayoutsLength(chunks: seq<seq<Item>>)
    ensures |Layouts(chunks)| == |chunks|
  {
  }

  /** Sizing makes a claimed batch one encode call.  Where the product fits in an int and the context was granted as
      requested, a call of embed_batch drops no text for its length, makes exactly as many encode calls as there are
      kept texts over n_seq_max, rounded up, and for a claim of at most max_batch_size texts at most one; and its int
      sums do not overflow. */
  lemma ClaimIsOneEncode(p: LlamaProvider, maxBatchSize: int, texts: seq<Text>, start: Record,
                         oks: seq<bool>, results: seq<Vec>)
    requires p.Valid() && Granted(p, maxBatchSize) && p.nCtx * RequestedSeqs(maxBatchSize) <= INT_MAX
    requires p.Answered(start, TokenizeAll(p.ctx.model, p.nCtx, texts), oks, results)
    ensures var items := TokenizeAll(p.ctx.model, p.nCtx, texts);
      var kept := KeptItems(p.ChunkLimits(), items);
      && (forall i :: 0 <= i < |items| ==> (Kept(p.ChunkLimits(), items[i]) <==> items[i].ok && items[i].tokens != []))
      && |p.ctx.encoded| == |start.encoded| + Calls(|kept|, RequestedSeqs(maxBatchSize))
      && (|texts| <= maxBatchSize ==> |p.ctx.encoded| <= |start.encoded| + 1 && p.SumsFit(items))
  {
    assert p.ChunkLimits() == GrantedLimits(p.nCtx, maxBatchSize);
    var items := TokenizeAll(p.ctx.model, p.nCtx, texts);
    OneChunkPerClaim(p.ctx.model, p.nCtx, maxBatchSize, texts);
    LayoutsLength(Greedy(p.ChunkLimits(), KeptItems(p.ChunkLimits(), items)));
    if texts == [] {
      assert items == [];
    }
    if |texts| <= maxBatchSize {
      WindowedCount(p.nCtx, items);
      TimesMonotone(|items|, RequestedSeqs(maxBatchSize), p.nCtx);
    }
  }

  lemma OneTextFits(nCtx: nat, l: Limits)
    requires l.Valid() && BudgetNeverBinds(nCtx, l)
    ensures nCtx <= l.maxTokens
  {
    var full := [Item(seq(nCtx, _ => 0), 0, true)];
    SingleCount(full[0]);
    assert Windowed(nCtx, full);
  }

  lemma CountedCalls(nCtx: nat, l: Limits, items: seq<Item>)
    requires l.Valid() && BudgetNeverBinds(nCtx, l) && Windowed(nCtx, items) && nCtx <= l.maxTokens
    ensures forall i :: 0 <= i < |items| ==> (Kept(l, items[i]) <==> items[i].ok && items[i].tokens != [])
    ensures |Greedy(l, KeptItems(l, items))| == Calls(|KeptItems(l, items)|, l.maxSeqs)
    ensures |items| <= l.maxSeqs ==> |Greedy(l, KeptItems(l, items))| <= 1
  {
    var kept := KeptItems(l, items);
    KeptMembers(l, items);
    forall i | 0 <= i < |kept| ensures |kept[i].tokens| <= nCtx {
      assert kept[i] in items;
    }
    CountAlone(nCtx, l, kept);
    KeptIsNoLonger(l, items);
    CallsRoundsUp(|kept|, l.maxSeqs);
  }

  lemma {:induction false} KeptIsNoLonger(l: Limits, items: seq<Item>)
    ensures |KeptItems(l, items)| <= |items|
  {
    if items != [] {
      KeptIsNoLonger(l, items[1..]);
    }
  }
}
