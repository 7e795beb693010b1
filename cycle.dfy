/**
 * The rotation `xs[(xs.indexOf(prev) + 1) % xs.length]` that
 * `src/components/PromptWriter.tsx` uses to cycle its placeholder hints,
 * stated for any list of strings.
 */
module Cycle {

  /** `xs.indexOf(x)`: the first position of `x`, or -1. */
  function IndexOf(xs: seq<string>, x: string): (r: int)
    ensures -1 <= r < |xs|
    ensures r == -1 <==> x !in xs
    ensures 0 <= r ==> xs[r] == x && forall j :: 0 <= j < r ==> xs[j] != x
  {
    IndexFrom(xs, x, 0)
  }

  /** The search of `indexOf` from position `k` on. */
  function IndexFrom(xs: seq<string>, x: string, k: nat): (r: int)
    requires k <= |xs|
    ensures r == -1 || k <= r < |xs|
    ensures r == -1 ==> forall j :: k <= j < |xs| ==> xs[j] != x
    ensures r != -1 ==> xs[r] == x && forall j :: k <= j < r ==> xs[j] != x
    decreases |xs| - k
  {
    if k == |xs| then -1
    else if xs[k] == x then k
    else IndexFrom(xs, x, k + 1)
  }

  /** No entry of the list repeats. */
  predicate Distinct(xs: seq<string>) {
    forall i, j :: 0 <= i < j < |xs| ==> Differ(xs, i, j)
  }

  predicate Differ(xs: seq<string>, i: nat, j: nat)
    requires i < |xs| && j < |xs|
  {
    xs[i] != xs[j]
  }

  /**
   * `xs[(xs.indexOf(prev) + 1) % xs.length]`: the entry after `prev`, or the
   * first when `prev` is absent. The index lies in `0..|xs|`, so the remainder
   * is the index itself except at `|xs|`, where it wraps to 0.
   */
  function Successor(xs: seq<string>, prev: string): string
    requires xs != []
  {
    var k := IndexOf(xs, prev) + 1;
    xs[if k < |xs| then k else 0]
  }

  /** The successor is the source's `(indexOf + 1) % length` entry, and so always an entry of the list. */
  lemma SuccessorIsModular(xs: seq<string>, prev: string)
    requires xs != []
    ensures Successor(xs, prev) == xs[(IndexOf(xs, prev) + 1) % |xs|]
    ensures Successor(xs, prev) in xs
  {
    ModSuccessor(IndexOf(xs, prev), |xs|);
  }

  lemma IndexOfDistinct(xs: seq<string>, i: nat)
    requires Distinct(xs) && i < |xs|
    ensures IndexOf(xs, xs[i]) == i
  {
    var r := IndexOf(xs, xs[i]);
    assert r < i ==> Differ(xs, r, i);
  }

  lemma ModSuccessor(i: int, m: nat)
    requires -1 <= i < m
    requires 0 < m
    ensures (i + 1) % m == if i + 1 < m then i + 1 else 0
  {
  }

  /** In a list without repeats, the entry after the `i`-th is the next one, wrapping at the end. */
  lemma SuccessorWraps(xs: seq<string>, i: nat)
    requires Distinct(xs) && i < |xs|
    ensures Successor(xs, xs[i]) == if i + 1 < |xs| then xs[i + 1] else xs[0]
  {
    IndexOfDistinct(xs, i);
  }

  /** In a list without repeats, the entry after the `i`-th is the `(i + 1) % |xs|`-th. */
  lemma SuccessorOfEntry(xs: seq<string>, i: nat)
    requires Distinct(xs) && i < |xs|
    ensures Successor(xs, xs[i]) == xs[(i + 1) % |xs|]
  {
    SuccessorWraps(xs, i);
    ModSuccessor(i, |xs|);
  }

  /** An absent string is followed by the first entry. */
  lemma SuccessorOfStranger(xs: seq<string>, prev: string)
    requires xs != [] && prev !in xs
    ensures Successor(xs, prev) == xs[0]
  {
  }

  /** The entry reached after `n` successor steps. */
  function Rotate(xs: seq<string>, p: string, n: nat): string
    requires xs != []
    decreases n
  {
    if n == 0 then p else Rotate(xs, Successor(xs, p), n - 1)
  }

  /** `a + b` steps are `a` steps followed by `b` steps. */
  lemma {:induction false} RotateAdd(xs: seq<string>, p: string, a: nat, b: nat)
    requires xs != []
    ensures Rotate(xs, p, a + b) == Rotate(xs, Rotate(xs, p, a), b)
    decreases a
  {
    if a > 0 {
      RotateAdd(xs, Successor(xs, p), a - 1, b);
    }
  }

  /** Steps that do not pass the end of the list walk forward through it. */
  lemma {:induction false} RotateForward(xs: seq<string>, i: nat, n: nat)
    requires Distinct(xs) && i + n < |xs|
    ensures Rotate(xs, xs[i], n) == xs[i + n]
    decreases n
  {
    if n > 0 {
      SuccessorWraps(xs, i);
      RotateForward(xs, i + 1, n - 1);
    }
  }

  /** `a` steps to `mid` and `b` more to `q` are `a + b` steps to `q`. */
  lemma RotateThrough(xs: seq<string>, p: string, mid: string, q: string, a: nat, b: nat, c: nat)
    requires xs != [] && a + b == c
    requires Rotate(xs, p, a) == mid && Rotate(xs, mid, b) == q
    ensures Rotate(xs, p, c) == q
  {
    RotateAdd(xs, p, a, b);
  }

  /** From the `i`-th entry, the steps up to the end of the list reach the last entry. */
  lemma RotateToLast(xs: seq<string>, i: nat)
    requires Distinct(xs) && i < |xs|
    ensures Rotate(xs, xs[i], |xs| - 1 - i) == xs[|xs| - 1]
  {
    RotateForward(xs, i, |xs| - 1 - i);
  }

  /** From the last entry, `i + 1` steps wrap around to the `i`-th. */
  lemma WrapAround(xs: seq<string>, i: nat)
    requires Distinct(xs) && i < |xs|
    ensures Rotate(xs, xs[|xs| - 1], i + 1) == xs[i]
  {
    SuccessorWraps(xs, |xs| - 1);
    RotateForward(xs, 0, i);
  }
}
