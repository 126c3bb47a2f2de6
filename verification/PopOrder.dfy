/** The order in which a pool heap hands its tasks out. */
module PopOrder {
  import opened Tasks
  import opened Scheduler

  /** `x` has no higher score than `r`; a score that is missing ranks as 0.0 on either side. */
  predicate NoMoreUrgent(x: Record, r: Record) {
    match (x.urgencyScore, r.urgencyScore)
    case (Some(a), Some(b)) => a <= b
    case (Some(a), None) => a <= 0.0
    case (None, Some(b)) => 0.0 <= b
    case (None, None) => true
  }

  /** `r` is in the heap and nothing there has a higher score. */
  ghost predicate Top(r: Record, heap: multiset<Record>) {
    r in heap && forall x :: x in heap ==> NoMoreUrgent(x, r)
  }

  /** A heap that is not empty has a task that no other outranks. */
  lemma {:induction false} MostUrgent(heap: multiset<Record>)
    requires heap != multiset{}
    ensures exists r :: Top(r, heap)
    decreases |heap|
  {
    var x :| x in heap;
    var rest := heap - multiset{x};
    forall y | y in heap && y != x ensures y in rest { assert rest[y] == heap[y]; }
    if rest == multiset{} {
      assert Top(x, heap);
    } else {
      MostUrgent(rest);
      var r :| Top(r, rest);
      var best := if NoMoreUrgent(x, r) then r else x;
      forall y | y in heap ensures NoMoreUrgent(y, best) {
        if y != x { RankIsTransitive(y, r, best); }
      }
      assert Top(best, heap);
    }
  }

  lemma RankIsTransitive(a: Record, b: Record, c: Record)
    requires NoMoreUrgent(a, b) && NoMoreUrgent(b, c)
    ensures NoMoreUrgent(a, c)
  {}

  /** The order of the heap is the order by score. */
  lemma TopIsPoppable(sh: Shared, p: Pool, r: Record)
    requires p in sh.pqs
    ensures Poppable(sh, p, r) <==> Top(r, sh.pqs[p])
  {
    forall x ensures NoMoreUrgent(x, r) <==> Urgency(x) <= Urgency(r) {}
  }

  lemma Highest(sh: Shared, p: Pool) returns (r: Record)
    requires p in sh.pqs && sh.pqs[p] != multiset{}
    ensures Poppable(sh, p, r) && Top(r, sh.pqs[p])
  {
    MostUrgent(sh.pqs[p]);
    r :| Top(r, sh.pqs[p]);
    TopIsPoppable(sh, p, r);
  }

  /** `pops` are successive pops of the heap of `p`, down to the empty heap. */
  ghost predicate Drains(sh: Shared, p: Pool, pops: seq<Record>)
    decreases |pops|
  {
    if pops == [] then p in sh.pqs && sh.pqs[p] == multiset{}
    else Poppable(sh, p, pops[0]) && Drains(Pop(sh, p, pops[0]), p, pops[1..])
  }

  /** Popping a heap until it is empty hands every task out, each as often as it is there,
      and the scores never rise. */
  lemma {:induction false} PopsDescend(sh: Shared, p: Pool, pops: seq<Record>)
    requires Drains(sh, p, pops)
    ensures p in sh.pqs && multiset(pops) == sh.pqs[p]
    ensures forall i, j :: 0 <= i <= j < |pops| ==> NoMoreUrgent(pops[j], pops[i])
    decreases |pops|
  {
    if pops != [] {
      var first, rest := pops[0], pops[1..];
      PopsDescend(Pop(sh, p, first), p, rest);
      TopIsPoppable(sh, p, first);
      assert pops == [first] + rest;
      assert multiset(pops) == multiset{first} + multiset(rest) == sh.pqs[p];
      forall i, j | 0 <= i <= j < |pops| ensures NoMoreUrgent(pops[j], pops[i]) {
        assert pops[j] in multiset(pops);
        if i > 0 { assert pops[i] == rest[i - 1] && pops[j] == rest[j - 1]; }
      }
    }
  }

  /** Every heap can be popped until it is empty. */
  lemma {:induction false} DrainExists(sh: Shared, p: Pool) returns (pops: seq<Record>)
    requires p in sh.pqs
    ensures Drains(sh, p, pops)
    decreases |sh.pqs[p]|
  {
    pops := [];
    if sh.pqs[p] != multiset{} {
      var r := Highest(sh, p);
      assert |sh.pqs[p] - multiset{r}| == |sh.pqs[p]| - 1;
      var rest := DrainExists(Pop(sh, p, r), p);
      pops := [r] + rest;
    }
  }
}
