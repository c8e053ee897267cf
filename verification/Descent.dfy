/** Counters that only fall, in the lexicographic order, settle. */
module Descent {
  predicate Falls(a: seq<nat>, b: seq<nat>) {
    |a| == |b| && (a == [] || a[0] < b[0] || (a[0] == b[0] && Falls(a[1..], b[1..])))
  }

  ghost predicate NeverRises(f: nat -> seq<nat>, size: nat) {
    forall i: nat :: |f(i)| == size && Falls(f(i + 1), f(i))
  }

  ghost predicate SettledFrom(f: nat -> seq<nat>, n: nat) {
    forall i: nat :: n <= i ==> f(i) == f(n)
  }

  lemma {:induction false} HeadFalls(f: nat -> seq<nat>, size: nat, i: nat, j: nat)
    requires NeverRises(f, size) && 0 < size && i <= j
    ensures f(j)[0] <= f(i)[0]
  {
    if i < j {
      HeadFalls(f, size, i, j - 1);
      assert Falls(f(j - 1 + 1), f(j - 1));
    }
  }

  /** The first counter reaches its last value. */
  lemma {:induction false} HeadSettles(f: nat -> seq<nat>, size: nat, from: nat) returns (n: nat)
    requires NeverRises(f, size) && 0 < size
    ensures from <= n && forall i: nat :: n <= i ==> f(i)[0] == f(n)[0]
    decreases f(from)[0]
  {
    if j: nat :| from <= j && f(j)[0] < f(from)[0] {
      n := HeadSettles(f, size, j);
    } else {
      n := from;
      forall i: nat | n <= i ensures f(i)[0] == f(n)[0] {
        HeadFalls(f, size, n, i);
      }
    }
  }

  lemma {:induction false} Settles(f: nat -> seq<nat>, size: nat) returns (n: nat)
    requires NeverRises(f, size)
    ensures SettledFrom(f, n)
    decreases size
  {
    if size == 0 {
      n := 0;
    } else {
      var k := HeadSettles(f, size, 0);
      var tails := (i: nat) => if |f(i + k)| > 0 then f(i + k)[1..] else [];
      forall i: nat ensures |tails(i)| == size - 1 && Falls(tails(i + 1), tails(i)) {
        assert Falls(f(i + k + 1), f(i + k));
        assert f(i + 1 + k)[0] == f(i + k)[0];
      }
      var j := Settles(tails, size - 1);
      n := j + k;
      forall i: nat | n <= i ensures f(i) == f(n) {
        assert tails(i - k) == tails(j);
        assert f(i) == [f(i)[0]] + tails(i - k) && f(n) == [f(n)[0]] + tails(j);
      }
    }
  }
}
