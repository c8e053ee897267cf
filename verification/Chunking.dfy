/** The packing decision of LlamaProvider::embed_batch, as a function on token lists.

  A chunk is a group of texts that shares one llama_encode() call.  It may hold at most `maxSeqs`
  texts and `maxTokens` tokens.  `Greedy` cuts the list by always taking the longest prefix that
  fits; the lemmas show that nothing is lost or reordered and that no other cut needs fewer calls.
*/
module Chunking {
  type Token = int

  datatype Item = Item(tokens: seq<Token>, originalIndex: nat, ok: bool)

  datatype Limits = Limits(maxTokens: int, maxSeqs: nat) {
    ghost predicate Valid() { 1 <= maxSeqs }
  }

  function TokenCount(items: seq<Item>): nat {
    if items == [] then 0 else TokenCount(items[..|items| - 1]) + |items[|items| - 1].tokens|
  }

  predicate Fits(l: Limits, chunk: seq<Item>) {
    |chunk| <= l.maxSeqs && TokenCount(chunk) <= l.maxTokens
  }

  predicate Kept(l: Limits, item: Item) {
    item.ok && item.tokens != [] && |item.tokens| <= l.maxTokens
  }

  ghost predicate AllKept(l: Limits, items: seq<Item>) {
    forall i :: 0 <= i < |items| ==> Kept(l, items[i])
  }

  /** The texts that reach the model, in order. */
  function KeptItems(l: Limits, items: seq<Item>): seq<Item> {
    if items == [] then []
    else (if Kept(l, items[0]) then [items[0]] else []) + KeptItems(l, items[1..])
  }

  lemma {:induction false} KeptMembers(l: Limits, items: seq<Item>)
    ensures AllKept(l, KeptItems(l, items))
    ensures forall x :: x in KeptItems(l, items) <==> x in items && Kept(l, x)
  {
    if items != [] {
      KeptMembers(l, items[1..]);
    }
  }

  /** Length of the longest prefix, of length at least n, that fits. */
  function Longest(l: Limits, items: seq<Item>, n: nat): (r: nat)
    requires n <= |items|
    ensures n <= r <= |items|
    decreases |items| - n
  {
    if n < |items| && Fits(l, items[..n + 1]) then Longest(l, items, n + 1) else n
  }

  function Greedy(l: Limits, items: seq<Item>): (chunks: seq<seq<Item>>) {
    if items == [] then []
    else
      var n := Longest(l, items, 1);
      [items[..n]] + Greedy(l, items[n..])
  }

  function Concat(chunks: seq<seq<Item>>): seq<Item> {
    if chunks == [] then [] else chunks[0] + Concat(chunks[1..])
  }

  lemma {:induction false} TokenCountAppend(a: seq<Item>, b: seq<Item>)
    ensures TokenCount(a + b) == TokenCount(a) + TokenCount(b)
    decreases |b|
  {
    if b == [] {
      assert a + b == a;
    } else {
      var front := b[..|b| - 1];
      assert (a + b)[..|a + b| - 1] == a + front;
      TokenCountAppend(a, front);
    }
  }

  lemma SingleCount(x: Item)
    ensures TokenCount([x]) == |x.tokens|
  {
    assert [x][..0] == [];
  }

  /** Any stretch of a chunk that fits also fits. */
  lemma SliceFits(l: Limits, items: seq<Item>, lo: nat, hi: nat)
    requires lo <= hi <= |items| && Fits(l, items)
    ensures Fits(l, items[lo..hi])
  {
    assert items == items[..lo] + items[lo..hi] + items[hi..];
    TokenCountAppend(items[..lo] + items[lo..hi], items[hi..]);
    TokenCountAppend(items[..lo], items[lo..hi]);
  }

  /** Longest finds the longest: everything up to it fits, nothing beyond it does. */
  lemma {:induction false} LongestIsLongest(l: Limits, items: seq<Item>, n: nat, m: nat)
    requires n <= |items| && Fits(l, items[..n]) && m <= |items|
    ensures Fits(l, items[..m]) <==> m <= Longest(l, items, n)
    decreases |items| - n
  {
    if n < |items| && Fits(l, items[..n + 1]) {
      LongestIsLongest(l, items, n + 1, m);
    } else if m <= n {
      SliceFits(l, items[..n], 0, m);
      assert items[..n][0..m] == items[..m];
    } else {
      assert items[..m][0..n + 1] == items[..n + 1];
      if Fits(l, items[..m]) {
        SliceFits(l, items[..m], 0, n + 1);
      }
    }
  }

  lemma FirstFits(l: Limits, items: seq<Item>)
    requires l.Valid() && AllKept(l, items) && items != []
    ensures Fits(l, items[..1])
  {
    assert items[..1] == [items[0]];
    SingleCount(items[0]);
  }

  /** The first chunk is the longest prefix that fits, and the rest is cut in the same way. */
  lemma GreedyStep(l: Limits, items: seq<Item>) returns (n: nat)
    requires l.Valid() && AllKept(l, items) && items != []
    ensures n == Longest(l, items, 1) && 1 <= n <= |items| && Fits(l, items[..1]) && Fits(l, items[..n])
    ensures Greedy(l, items) == [items[..n]] + Greedy(l, items[n..])
  {
    n := Longest(l, items, 1);
    FirstFits(l, items);
    LongestIsLongest(l, items, 1, n);
  }

  lemma KeptTail(l: Limits, items: seq<Item>, d: nat)
    requires AllKept(l, items) && d <= |items|
    ensures AllKept(l, items[d..])
  {
  }

  /** Every chunk is non-empty and within both limits, and the chunks spell the list in order. */
  lemma {:induction false} GreedyPartitions(l: Limits, items: seq<Item>)
    requires l.Valid() && AllKept(l, items)
    ensures Concat(Greedy(l, items)) == items
    ensures forall c :: c in Greedy(l, items) ==> c != [] && Fits(l, c)
    decreases |items|
  {
    hide Fits, Longest, TokenCount;
    if items != [] {
      var n := GreedyStep(l, items);
      var first, rest := items[..n], Greedy(l, items[n..]);
      GreedyPartitions(l, items[n..]);
      assert ([first] + rest)[1..] == rest;
      assert items == first + items[n..];
    }
  }

  /** A first chunk cut from a later text on reaches at least as far. */
  lemma LaterReachesAsFar(l: Limits, items: seq<Item>, d: nat) returns (n: nat, k: nat)
    requires l.Valid() && AllKept(l, items) && d < |items|
    ensures 1 <= n <= |items| && Greedy(l, items) == [items[..n]] + Greedy(l, items[n..])
    ensures 1 <= k <= |items| - d && Greedy(l, items[d..]) == [items[d..][..k]] + Greedy(l, items[d..][k..])
    ensures n <= d + k
  {
    hide Fits, Longest, TokenCount, Greedy, AllKept;
    n := GreedyStep(l, items);
    KeptTail(l, items, d);
    var tail := items[d..];
    k := GreedyStep(l, tail);
    if d < n {
      SliceFits(l, items[..n], d, n);
      assert items[..n][d..n] == tail[..n - d];
      LongestIsLongest(l, tail, 1, n - d);
    }
  }

  /** Starting later never costs more calls. */
  lemma {:induction false} LaterStartNoWorse(l: Limits, items: seq<Item>, d: nat)
    requires l.Valid() && AllKept(l, items) && d <= |items|
    ensures |Greedy(l, items[d..])| <= |Greedy(l, items)|
    decreases |items|
  {
    assert Greedy(l, []) == [];
    hide Fits, Longest, TokenCount, Greedy, AllKept, Limits.Valid;
    if d == |items| {
      assert items[d..] == [];
    } else {
      var n, k := LaterReachesAsFar(l, items, d);
      KeptTail(l, items, n);
      if n <= d {
        LaterStartNoWorse(l, items[n..], d - n);
        assert items[n..][d - n..] == items[d..];
      } else {
        LaterStartNoWorse(l, items[n..], d + k - n);
        assert items[n..][d + k - n..] == items[d..][k..];
      }
    }
  }

  ghost predicate AllFit(l: Limits, parts: seq<seq<Item>>) {
    forall i :: 0 <= i < |parts| ==> Fits(l, parts[i])
  }

  lemma FitPart(l: Limits, parts: seq<seq<Item>>)
    requires AllFit(l, parts) && parts != []
    ensures Fits(l, parts[0]) && AllFit(l, parts[1..])
  {
  }

  lemma FirstPart(items: seq<Item>, parts: seq<seq<Item>>)
    requires Concat(parts) == items && items != []
    ensures parts != [] && |parts[0]| <= |items|
    ensures items[..|parts[0]|] == parts[0] && items[|parts[0]|..] == Concat(parts[1..])
  {
  }

  /** No order-preserving partition that respects both limits uses fewer encode calls. */
  lemma {:induction false} GreedyIsOptimal(l: Limits, items: seq<Item>, parts: seq<seq<Item>>)
    requires l.Valid() && AllKept(l, items)
    requires Concat(parts) == items && AllFit(l, parts)
    ensures |Greedy(l, items)| <= |parts|
    decreases |parts|
  {
    assert Greedy(l, []) == [];
    hide Fits, Longest, TokenCount, Greedy, Concat, AllKept, Limits.Valid, AllFit;
    if items != [] {
      FirstPart(items, parts);
      FitPart(l, parts);
      KeptTail(l, items, |parts[0]|);
      GreedyIsOptimal(l, items[|parts[0]|..], parts[1..]);
      OneMoreChunk(l, items, |parts[0]|);
    }
  }

  /** A first chunk of any other length saves nothing. */
  lemma OneMoreChunk(l: Limits, items: seq<Item>, d: nat)
    requires l.Valid() && AllKept(l, items) && items != [] && d <= |items| && Fits(l, items[..d])
    ensures |Greedy(l, items)| <= 1 + |Greedy(l, items[d..])|
  {
    hide Fits, Longest, TokenCount, Greedy, AllKept, Limits.Valid;
    KeptTail(l, items, d);
    var n := GreedyStep(l, items);
    LongestIsLongest(l, items, 1, d);
    LaterStartNoWorse(l, items[d..], n - d);
    assert items[d..][n - d..] == items[n..];
  }

  /** What the running loop needs: once the next text does not fit, the open chunk is final. */
  lemma ClosedChunk(l: Limits, chunk: seq<Item>, rest: seq<Item>)
    requires chunk != [] && Fits(l, chunk)
    requires rest != [] ==> !Fits(l, chunk + [rest[0]])
    ensures Greedy(l, chunk + rest) == [chunk] + Greedy(l, rest)
  {
    var all := chunk + rest;
    var n := |chunk|;
    assert all[..n] == chunk && all[n..] == rest;
    SliceFits(l, chunk, 0, 1);
    assert chunk[0..1] == all[..1];
    LongestIsLongest(l, all, 1, n);
    if rest != [] {
      LongestIsLongest(l, all, 1, n + 1);
      assert all[..n + 1] == chunk + [rest[0]];
    }
  }
}
