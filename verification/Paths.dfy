/** Directed graphs as finite relations: walks, reachability and cycles. */
module Paths {

  type Arcs = set<(string, string)>

  /** A walk visits at least one node and every step is an arc. */
  ghost predicate IsWalk(arcs: Arcs, w: seq<string>) {
    |w| >= 1 && forall i | 0 <= i < |w| - 1 :: (w[i], w[i + 1]) in arcs
  }

  ghost predicate WalkFromTo(arcs: Arcs, w: seq<string>, a: string, b: string) {
    IsWalk(arcs, w) && w[0] == a && w[|w| - 1] == b
  }

  ghost predicate Reaches(arcs: Arcs, a: string, b: string) {
    exists w :: WalkFromTo(arcs, w, a, b)
  }

  /** Reaches in at least one step. */
  ghost predicate ReachesOn(arcs: Arcs, a: string, b: string) {
    exists w :: WalkFromTo(arcs, w, a, b) && |w| >= 2
  }

  ghost predicate ReachedFrom(arcs: Arcs, starts: set<string>, b: string) {
    exists a | a in starts :: Reaches(arcs, a, b)
  }

  ghost predicate OnCycle(arcs: Arcs, a: string) { ReachesOn(arcs, a, a) }

  ghost predicate Acyclic(arcs: Arcs) { forall a :: !OnCycle(arcs, a) }

  lemma ReachesSelf(arcs: Arcs, a: string)
    ensures Reaches(arcs, a, a)
  {
    assert WalkFromTo(arcs, [a], a, a);
  }

  lemma ArcReaches(arcs: Arcs, a: string, b: string)
    requires (a, b) in arcs
    ensures ReachesOn(arcs, a, b)
  {
    assert WalkFromTo(arcs, [a, b], a, b);
  }

  lemma JoinWalks(arcs: Arcs, w1: seq<string>, w2: seq<string>, a: string, b: string, c: string)
    requires WalkFromTo(arcs, w1, a, b) && WalkFromTo(arcs, w2, b, c)
    ensures WalkFromTo(arcs, w1 + w2[1..], a, c)
  {
    var w := w1 + w2[1..];
    forall i | 0 <= i < |w| - 1 ensures (w[i], w[i + 1]) in arcs {
      if i < |w1| - 1 {
        assert (w1[i], w1[i + 1]) in arcs;
      } else {
        var j := i - (|w1| - 1);
        assert w[i] == w2[j] && w[i + 1] == w2[j + 1];
      }
    }
  }

  lemma ReachesJoin(arcs: Arcs, a: string, b: string, c: string)
    requires Reaches(arcs, a, b) && Reaches(arcs, b, c)
    ensures Reaches(arcs, a, c)
  {
    var w1 :| WalkFromTo(arcs, w1, a, b);
    var w2 :| WalkFromTo(arcs, w2, b, c);
    JoinWalks(arcs, w1, w2, a, b, c);
  }

  lemma ReachesOnJoin(arcs: Arcs, a: string, b: string, c: string)
    requires (ReachesOn(arcs, a, b) && Reaches(arcs, b, c)) || (Reaches(arcs, a, b) && ReachesOn(arcs, b, c))
    ensures ReachesOn(arcs, a, c)
  {
    var w1, w2;
    if ReachesOn(arcs, a, b) && Reaches(arcs, b, c) {
      w1 :| WalkFromTo(arcs, w1, a, b) && |w1| >= 2;
      w2 :| WalkFromTo(arcs, w2, b, c);
    } else {
      w1 :| WalkFromTo(arcs, w1, a, b);
      w2 :| WalkFromTo(arcs, w2, b, c) && |w2| >= 2;
    }
    JoinWalks(arcs, w1, w2, a, b, c);
    assert |w1 + w2[1..]| >= 2;
  }

  lemma ReachesOnIsReaches(arcs: Arcs, a: string, b: string)
    requires ReachesOn(arcs, a, b)
    ensures Reaches(arcs, a, b)
  {
  }

  lemma ReachedOnward(arcs: Arcs, starts: set<string>, b: string, c: string)
    requires ReachedFrom(arcs, starts, b) && Reaches(arcs, b, c)
    ensures ReachedFrom(arcs, starts, c)
  {
    var a :| a in starts && Reaches(arcs, a, b);
    ReachesJoin(arcs, a, b, c);
  }

  lemma ReachedFromOne(arcs: Arcs, a: string, b: string)
    ensures ReachedFrom(arcs, {a}, b) <==> Reaches(arcs, a, b)
  {
    assert a in {a};
  }

  lemma ReachedStart(arcs: Arcs, starts: set<string>, a: string)
    requires a in starts
    ensures ReachedFrom(arcs, starts, a)
  {
    ReachesSelf(arcs, a);
  }

  /** A non-trivial walk ends with an arc. */
  lemma LastArc(arcs: Arcs, a: string, b: string) returns (p: string)
    requires ReachesOn(arcs, a, b)
    ensures Reaches(arcs, a, p) && (p, b) in arcs
  {
    var w :| WalkFromTo(arcs, w, a, b) && |w| >= 2;
    var n := |w| - 1;
    p := w[n - 1];
    assert (w[n - 1], w[n - 1 + 1]) in arcs;
    assert WalkFromTo(arcs, w[..n], a, p);
  }

  /** Reaches along nodes none of which is to be avoided, the two ends included. */
  ghost predicate ReachesOff(arcs: Arcs, avoid: set<string>, a: string, b: string) {
    exists w :: WalkFromTo(arcs, w, a, b) && forall i | 0 <= i < |w| :: w[i] !in avoid
  }

  lemma OffSelf(arcs: Arcs, avoid: set<string>, a: string)
    requires a !in avoid
    ensures ReachesOff(arcs, avoid, a, a)
  {
    assert WalkFromTo(arcs, [a], a, a);
  }

  /** One arc in front, while fewer nodes are to be avoided. */
  lemma OffPrepend(arcs: Arcs, avoid: set<string>, more: set<string>, a: string, b: string, c: string)
    requires avoid <= more && a !in avoid && (a, b) in arcs && ReachesOff(arcs, more, b, c)
    ensures ReachesOff(arcs, avoid, a, c)
  {
    var w :| WalkFromTo(arcs, w, b, c) && forall i | 0 <= i < |w| :: w[i] !in more;
    var v := [a] + w;
    forall i | 0 <= i < |v| - 1 ensures (v[i], v[i + 1]) in arcs {
      if i > 0 { assert (w[i - 1], w[i - 1 + 1]) in arcs; }
    }
    assert WalkFromTo(arcs, v, a, c);
  }

  /** A set that arcs leave only into avoided nodes contains whatever its members reach off them. */
  lemma ClosedOff(arcs: Arcs, closed: set<string>, avoid: set<string>, a: string, b: string)
    requires forall x, y | (x, y) in arcs && x in closed :: y in closed || y in avoid
    requires a in closed && ReachesOff(arcs, avoid, a, b)
    ensures b in closed
  {
    var w :| WalkFromTo(arcs, w, a, b) && forall i | 0 <= i < |w| :: w[i] !in avoid;
    var k := 0;
    while k < |w| - 1
      invariant k < |w| && w[k] in closed
    {
      assert (w[k], w[k + 1]) in arcs;
      k := k + 1;
    }
  }

  /** A set of nodes that every arc out of it stays in contains whatever its members reach. */
  lemma ClosedSet(arcs: Arcs, closed: set<string>, a: string, b: string)
    requires forall x, y | (x, y) in arcs && x in closed :: y in closed
    requires a in closed && Reaches(arcs, a, b)
    ensures b in closed
  {
    var w :| WalkFromTo(arcs, w, a, b);
    var i := 0;
    while i < |w| - 1
      invariant 0 <= i < |w| && w[i] in closed
    {
      assert (w[i], w[i + 1]) in arcs;
      i := i + 1;
    }
  }

  /** Nodes listed so that every arc into a listed node comes from a node listed earlier. */
  ghost predicate SourcesFirst(arcs: Arcs, order: seq<string>) {
    forall i, x | 0 <= i < |order| && (x, order[i]) in arcs :: x in order[..i]
  }

  /** Whatever reaches a listed node is listed, strictly earlier when the walk has a step. */
  lemma AncestorsFirst(arcs: Arcs, order: seq<string>, w: seq<string>, a: string, i: nat)
    requires SourcesFirst(arcs, order) && i < |order|
    requires WalkFromTo(arcs, w, a, order[i])
    ensures exists k :: 0 <= k <= i && order[k] == a && (|w| >= 2 ==> k < i)
    decreases |w|
  {
    if |w| >= 2 {
      var n := |w| - 1;
      var p := w[n - 1];
      assert (w[n - 1], w[n - 1 + 1]) in arcs;
      assert p in order[..i];
      var j :| 0 <= j < i && order[j] == p;
      assert WalkFromTo(arcs, w[..n], a, p);
      AncestorsFirst(arcs, order, w[..n], a, j);
    }
  }

  lemma ListedOffCycle(arcs: Arcs, order: seq<string>, i: nat)
    requires SourcesFirst(arcs, order) && i < |order|
    ensures !OnCycle(arcs, order[i])
  {
    if OnCycle(arcs, order[i]) {
      var k := FirstListed(order, order[i]);
      var w :| WalkFromTo(arcs, w, order[i], order[i]) && |w| >= 2;
      AncestorsFirst(arcs, order, w, order[i], k);
    }
  }

  lemma FirstListed(order: seq<string>, a: string) returns (k: nat)
    requires a in order
    ensures k < |order| && order[k] == a && a !in order[..k]
  {
    k := 0;
    while order[k] != a
      invariant k < |order| && a !in order[..k] && a in order[k..]
      decreases |order| - k
    {
      k := k + 1;
    }
  }

  /** The mirror image: every arc out of a listed node leads to a node listed earlier. */
  ghost predicate TargetsFirst(arcs: Arcs, order: seq<string>) {
    forall i, y | 0 <= i < |order| && (order[i], y) in arcs :: y in order[..i]
  }

  lemma TargetsFirstExtend(arcs: Arcs, order: seq<string>, a: string)
    requires TargetsFirst(arcs, order)
    requires forall y | (a, y) in arcs :: y in order
    ensures TargetsFirst(arcs, order + [a])
  {
    var longer := order + [a];
    forall i, y | 0 <= i < |longer| && (longer[i], y) in arcs ensures y in longer[..i] {
      if i < |order| {
        assert longer[..i] == order[..i] && longer[i] == order[i];
      } else {
        assert longer[..i] == order;
      }
    }
  }

  lemma FinishedOffCycle(arcs: Arcs, order: seq<string>, a: string)
    requires TargetsFirst(arcs, order) && a in order
    ensures !OnCycle(arcs, a)
  {
    if OnCycle(arcs, a) {
      var k := FirstListed(order, a);
      var w :| WalkFromTo(arcs, w, a, a) && |w| >= 2;
      DescendantsFirst(arcs, order, w, a, k);
    }
  }

  lemma DescendantsFirst(arcs: Arcs, order: seq<string>, w: seq<string>, b: string, i: nat)
    requires TargetsFirst(arcs, order) && i < |order|
    requires WalkFromTo(arcs, w, order[i], b)
    ensures exists k :: 0 <= k <= i && order[k] == b && (|w| >= 2 ==> k < i)
    decreases |w|
  {
    if |w| >= 2 {
      assert (w[0], w[0 + 1]) in arcs;
      assert w[1] in order[..i];
      var j :| 0 <= j < i && order[j] == w[1];
      assert WalkFromTo(arcs, w[1..], w[1], b) by {
        forall m | 0 <= m < |w[1..]| - 1 ensures (w[1..][m], w[1..][m + 1]) in arcs {
          assert (w[m + 1], w[m + 1 + 1]) in arcs;
        }
      }
      DescendantsFirst(arcs, order, w[1..], b, j);
    }
  }

  ghost function Ancestors(arcs: Arcs, nodes: set<string>, b: string): set<string> {
    set a | a in nodes && ReachesOn(arcs, a, b)
  }

  /** Passing to a predecessor loses at least that predecessor, unless it lies on a cycle. */
  lemma FewerAncestors(arcs: Arcs, nodes: set<string>, p: string, b: string)
    requires (p, b) in arcs && p in nodes && !OnCycle(arcs, p)
    ensures Ancestors(arcs, nodes, p) < Ancestors(arcs, nodes, b)
  {
    ArcReaches(arcs, p, b);
    ReachesOnIsReaches(arcs, p, b);
    forall a | a in Ancestors(arcs, nodes, p) ensures a in Ancestors(arcs, nodes, b) {
      ReachesOnJoin(arcs, a, p, b);
    }
    assert p in Ancestors(arcs, nodes, b) && p !in Ancestors(arcs, nodes, p);
  }
}
