/** The floor list and the cycling of the current floor index. */
module Floors {
  datatype Floor = Floor(id: int, title: string, src: string)

  const FLOORS: seq<Floor> := [
    Floor(3, "3 этаж", "maps/3.png"),
    Floor(4, "4 этаж", "maps/4.png")
  ]

  /** `(i + 1) % n`: the next floor, wrapping from the last to the first. */
  function NextIndex(i: nat, n: nat): (r: nat)
    requires i < n
    ensures r < n
    ensures i + 1 < n ==> r == i + 1
    ensures i + 1 == n ==> r == 0
  {
    (i + 1) % n
  }

  /** `(i - 1 + n) % n`: the previous floor, wrapping from the first to the last. */
  function PrevIndex(i: nat, n: nat): (r: nat)
    requires i < n
    ensures r < n
    ensures 0 < i ==> r == i - 1
    ensures i == 0 ==> r == n - 1
  {
    (i - 1 + n) % n
  }

  lemma PrevUndoesNext(i: nat, n: nat)
    requires i < n
    ensures PrevIndex(NextIndex(i, n), n) == i
  {
  }

  lemma NextUndoesPrev(i: nat, n: nat)
    requires i < n
    ensures NextIndex(PrevIndex(i, n), n) == i
  {
  }

  /** n steps forward from i: the index an n-fold `nextFloor` reaches. */
  function Forward(i: nat, n: nat, k: nat): (r: nat)
    requires i < n
    ensures r < n
  {
    if k == 0 then i else NextIndex(Forward(i, n, k - 1), n)
  }

  lemma {:induction false} ForwardAdd(i: nat, n: nat, a: nat, b: nat)
    requires i < n
    ensures Forward(i, n, a + b) == Forward(Forward(i, n, a), n, b)
  {
    if b > 0 {
      ForwardAdd(i, n, a, b - 1);
    }
  }

  /** Below the last floor, k steps forward are k floors up. */
  lemma {:induction false} ForwardClimbs(i: nat, n: nat, k: nat)
    requires i + k < n
    ensures Forward(i, n, k) == i + k
  {
    if k > 0 {
      ForwardClimbs(i, n, k - 1);
    }
  }

  /** Going forward through all n floors returns to the starting floor. */
  lemma FullCycle(i: nat, n: nat)
    requires i < n
    ensures Forward(i, n, n) == i
  {
    ForwardClimbs(i, n, n - 1 - i);
    assert Forward(i, n, n - i) == 0;
    ForwardClimbs(0, n, i);
    ForwardAdd(i, n, n - i, i);
  }
}
