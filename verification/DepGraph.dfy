/** The dependency graph of the live tasks: an edge runs from a live task to every id it
    waits for. An id that is not live has no outgoing edges but can be reached. */
module DepGraph {
  import opened Tasks

  type Graph = map<Id, Record>

  function Edges(g: Graph, id: Id): seq<Id> {
    if id in g then g[id].Deps() else []
  }

  ghost predicate IsPath(g: Graph, p: seq<Id>) {
    && p != []
    && forall i :: 0 <= i < |p| - 1 ==> p[i + 1] in Edges(g, p[i])
  }

  ghost predicate PathFrom(g: Graph, p: seq<Id>, starts: seq<Id>, target: Id) {
    IsPath(g, p) && p[0] in starts && p[|p| - 1] == target
  }

  /** Some path leads from one of `starts` to `target`. */
  ghost predicate Reaches(g: Graph, starts: seq<Id>, target: Id) {
    exists p :: PathFrom(g, p, starts, target)
  }

  /** No task waits for itself, directly or through others. */
  ghost predicate Acyclic(g: Graph) {
    forall p :: IsPath(g, p) && |p| >= 2 ==> p[0] != p[|p| - 1]
  }

  // ------------------------------------------------- closed sets and search

  ghost predicate Closed(g: Graph, s: set<Id>) {
    forall v, w :: v in s && w in Edges(g, v) ==> w in s
  }

  lemma {:induction false} PathStaysInClosed(g: Graph, s: set<Id>, p: seq<Id>)
    requires Closed(g, s) && IsPath(g, p) && p[0] in s
    ensures p[|p| - 1] in s
    decreases |p|
  {
    if |p| > 1 {
      assert p[1] in Edges(g, p[0]);
      assert IsPath(g, p[1..]) by {
        forall i | 0 <= i < |p[1..]| - 1 ensures p[1..][i + 1] in Edges(g, p[1..][i]) {
          assert p[i + 1 + 1] in Edges(g, p[i + 1]);
        }
      }
      PathStaysInClosed(g, s, p[1..]);
    }
  }

  /** A closed set that holds the starts and misses the target proves it unreachable. */
  lemma ClosedSetBlocks(g: Graph, s: set<Id>, starts: seq<Id>, target: Id)
    requires Closed(g, s) && target !in s
    requires forall i :: 0 <= i < |starts| ==> starts[i] in s
    ensures !Reaches(g, starts, target)
  {
    forall p | PathFrom(g, p, starts, target) ensures false {
      PathStaysInClosed(g, s, p);
    }
  }

  lemma ReachesStart(g: Graph, starts: seq<Id>, id: Id)
    requires id in starts
    ensures Reaches(g, starts, id)
  {
    assert PathFrom(g, [id], starts, id);
  }

  lemma ReachesStep(g: Graph, starts: seq<Id>, v: Id, w: Id)
    requires Reaches(g, starts, v) && w in Edges(g, v)
    ensures Reaches(g, starts, w)
  {
    var p :| PathFrom(g, p, starts, v);
    var q := p + [w];
    forall i | 0 <= i < |q| - 1 ensures q[i + 1] in Edges(g, q[i]) {
      if i < |p| - 1 {
        assert p[i + 1] in Edges(g, p[i]);
      }
    }
    assert PathFrom(g, q, starts, w);
  }

  /** Every id that can be met in a search: a bound for termination. */
  function Universe(g: Graph, starts: seq<Id>): set<Id> {
    (set i | 0 <= i < |starts| :: starts[i]) + (set v, w | v in g && w in g[v].Deps() :: w)
  }

  // ------------------------------------------------------------ acyclicity

  lemma SubPath(g: Graph, p: seq<Id>, i: nat, j: nat)
    requires IsPath(g, p) && i < j <= |p|
    ensures IsPath(g, p[i..j])
  {
    var q := p[i..j];
    forall k | 0 <= k < |q| - 1 ensures q[k + 1] in Edges(g, q[k]) {
      assert p[i + k + 1] in Edges(g, p[i + k]);
    }
  }

  lemma JoinPaths(g: Graph, p: seq<Id>, q: seq<Id>)
    requires IsPath(g, p) && IsPath(g, q) && p[|p| - 1] == q[0]
    ensures IsPath(g, p + q[1..])
    ensures (p + q[1..])[|p + q[1..]| - 1] == q[|q| - 1]
  {
    var r := p + q[1..];
    forall k | 0 <= k < |r| - 1 ensures r[k + 1] in Edges(g, r[k]) {
      if k < |p| - 1 {
        assert p[k + 1] in Edges(g, p[k]);
      } else {
        assert q[k - (|p| - 1) + 1] in Edges(g, q[k - (|p| - 1)]);
      }
    }
  }

  /** A path that never leaves `id` survives a change of `id`'s edges. */
  lemma PathAvoiding(g: Graph, h: Graph, id: Id, p: seq<Id>)
    requires IsPath(g, p)
    requires forall i :: 0 <= i < |p| - 1 ==> p[i] != id
    requires forall v :: v != id ==> Edges(g, v) == Edges(h, v)
    ensures IsPath(h, p)
  {
    forall i | 0 <= i < |p| - 1 ensures p[i + 1] in Edges(h, p[i]) {
      assert p[i + 1] in Edges(g, p[i]);
    }
  }

  lemma {:induction false} FirstOccurrence(p: seq<Id>, id: Id) returns (k: nat)
    requires id in p
    ensures k < |p| && p[k] == id && id !in p[..k]
    decreases |p|
  {
    if p[0] == id {
      k := 0;
    } else {
      k := FirstOccurrence(p[1..], id);
      assert p[..k + 1] == [p[0]] + p[1..][..k];
      k := k + 1;
    }
  }

  /** Exactly when saving a task keeps the graph acyclic: its id must not be reachable
      from the ids it waits for. This is what `detect_cycle` tests. */
  lemma InsertAcyclicIff(g: Graph, t: Record)
    requires Acyclic(g)
    ensures Acyclic(g[t.id := t]) <==> !Reaches(g, t.Deps(), t.id)
  {
    var h := g[t.id := t];
    if Reaches(g, t.Deps(), t.id) {
      var p :| PathFrom(g, p, t.Deps(), t.id);
      var k := FirstOccurrence(p, t.id);
      var q := p[..k + 1];
      SubPath(g, p, 0, k + 1);
      forall i | 0 <= i < |q| - 1 ensures q[i] != t.id { assert q[i] in p[..k]; }
      PathAvoiding(g, h, t.id, q);
      assert q[0] == p[0];
      assert IsPath(h, [t.id, q[0]]);
      JoinPaths(h, [t.id, q[0]], q);
      assert !Acyclic(h);
    } else if !Acyclic(h) {
      var p :| IsPath(h, p) && |p| >= 2 && p[0] == p[|p| - 1];
      NewCycleReaches(g, t, p);
    }
  }

  /** A cycle through `id` can be walked from `id`. */
  lemma Rotate(h: Graph, p: seq<Id>, id: Id) returns (c: seq<Id>)
    requires IsPath(h, p) && |p| >= 2 && p[0] == p[|p| - 1] && id in p
    ensures IsPath(h, c) && |c| >= 2 && c[0] == id && c[|c| - 1] == id
  {
    var k := FirstOccurrence(p, id);
    if k == 0 {
      c := p;
    } else {
      var back := p[k..];
      var front := p[..k + 1];
      assert front[0] == p[0] && front[|front| - 1] == id;
      SubPath(h, p, k, |p|);
      SubPath(h, p, 0, k + 1);
      JoinPaths(h, back, front);
      c := back + front[1..];
    }
  }

  /** The cycle is left at its first edge and cut at the next visit of `id`: what
      remains avoids the edges of `id`. */
  lemma CutAtNextVisit(h: Graph, c: seq<Id>, id: Id) returns (q: seq<Id>)
    requires IsPath(h, c) && |c| >= 2 && c[|c| - 1] == id
    ensures IsPath(h, q) && q[0] == c[1] && q[|q| - 1] == id
    ensures forall i :: 0 <= i < |q| - 1 ==> q[i] != id
  {
    var tail := c[1..];
    SubPath(h, c, 1, |c|);
    assert tail[|tail| - 1] == id;
    var j := FirstOccurrence(tail, id);
    q := tail[..j + 1];
    SubPath(h, tail, 0, j + 1);
    forall i | 0 <= i < |q| - 1 ensures q[i] != id { assert q[i] in tail[..j]; }
  }

  /** A cycle that saving `t` creates passes through `t`, so it reaches `t` from `t`'s
      own dependencies along old edges. */
  lemma NewCycleReaches(g: Graph, t: Record, p: seq<Id>)
    requires Acyclic(g)
    requires IsPath(g[t.id := t], p) && |p| >= 2 && p[0] == p[|p| - 1]
    ensures Reaches(g, t.Deps(), t.id)
  {
    var h := g[t.id := t];
    if t.id !in p {
      PathAvoiding(h, g, t.id, p);
      assert false;
    } else {
      var c := Rotate(h, p, t.id);
      var q := CutAtNextVisit(h, c, t.id);
      PathAvoiding(h, g, t.id, q);
      assert c[1] in Edges(h, c[0]);
      assert PathFrom(g, q, t.Deps(), t.id);
    }
  }

  /** Fewer edges cannot make a cycle: deletes, and re-saves that keep the list. */
  lemma FewerEdgesAcyclic(g: Graph, h: Graph)
    requires Acyclic(g)
    requires forall v, w :: w in Edges(h, v) ==> w in Edges(g, v)
    ensures Acyclic(h)
  {
    forall p | IsPath(h, p) && |p| >= 2 ensures p[0] != p[|p| - 1] {
      assert IsPath(g, p);
    }
  }

  /** A re-save of a live id that keeps its dependency list would pass the check. */
  lemma LiveResaveIsSafe(g: Graph, r: Record)
    requires Acyclic(g) && r.id in g && g[r.id].Deps() == r.Deps()
    ensures !Reaches(g, r.Deps(), r.id)
  {
    FewerEdgesAcyclic(g, g[r.id := r]);
    InsertAcyclicIff(g, r);
  }

  /** Two tasks that wait for each other make a cycle, and neither is ever ready. */
  lemma TwoCycle(g: Graph, a: Id, b: Id)
    requires a in g && b in g && b in g[a].Deps() && a in g[b].Deps()
    ensures !Acyclic(g) && !Ready(g, a) && !Ready(g, b)
  {
    var p := [a, b, a];
    assert b in Edges(g, p[0]) && a in Edges(g, p[1]);
    assert IsPath(g, p);
    var i :| 0 <= i < |g[a].Deps()| && g[a].Deps()[i] == b;
    var j :| 0 <= j < |g[b].Deps()| && g[b].Deps()[j] == a;
    assert g[a].Deps()[i] in g && g[b].Deps()[j] in g;
  }

  // ---------------------------------------------------- something can run

  /** The live ids that `id` waits for, directly or not. */
  ghost function Below(g: Graph, id: Id): set<Id> {
    set v | v in g && Reaches(g, Edges(g, id), v)
  }

  lemma BelowShrinks(g: Graph, id: Id, d: Id)
    requires Acyclic(g) && d in Edges(g, id) && d in g
    ensures Below(g, d) < Below(g, id)
  {
    ReachesStart(g, Edges(g, id), d);
    assert d in Below(g, id);
    forall v | v in Below(g, d) ensures v in Below(g, id) {
      var p :| PathFrom(g, p, Edges(g, d), v);
      assert IsPath(g, [d, p[0]]);
      JoinPaths(g, [d, p[0]], p);
      assert PathFrom(g, [d, p[0]] + p[1..], Edges(g, id), v);
    }
    if d in Below(g, d) {
      var p :| PathFrom(g, p, Edges(g, d), d);
      assert IsPath(g, [d, p[0]]);
      JoinPaths(g, [d, p[0]], p);
      assert false;
    }
  }

  ghost predicate Ready(g: Graph, id: Id) {
    id in g && forall i :: 0 <= i < |g[id].Deps()| ==> g[id].Deps()[i] !in g
  }

  lemma StrictSubsetSmaller(a: set<Id>, b: set<Id>)
    requires a < b
    ensures |a| < |b|
  {
    var x :| x in b && x !in a;
    assert a <= b - {x};
    SubsetSize(a, b - {x});
  }

  lemma {:induction false} SubsetSize(a: set<Id>, b: set<Id>)
    requires a <= b
    ensures |a| <= |b|
  {
    if a != {} {
      var x :| x in a;
      SubsetSize(a - {x}, b - {x});
    }
  }

  /** From any live task, following live dependencies ends at one that can run. */
  lemma {:induction false} ReadyBelow(g: Graph, id: Id) returns (r: Id)
    requires Acyclic(g) && id in g
    ensures Ready(g, r) && (r == id || r in Below(g, id))
    decreases |Below(g, id)|
  {
    if Ready(g, id) {
      r := id;
    } else {
      var i :| 0 <= i < |g[id].Deps()| && g[id].Deps()[i] in g;
      var d := g[id].Deps()[i];
      BelowShrinks(g, id, d);
      StrictSubsetSmaller(Below(g, d), Below(g, id));
      ReachesStart(g, Edges(g, id), d);
      r := ReadyBelow(g, d);
    }
  }

  /** An acyclic store that holds a task holds one whose dependencies are all done. */
  lemma SomethingIsReady(g: Graph)
    requires Acyclic(g) && g != map[]
    ensures exists id :: Ready(g, id)
  {
    var id :| id in g;
    var r := ReadyBelow(g, id);
  }
}
