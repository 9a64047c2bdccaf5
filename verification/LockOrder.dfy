/**
 Theory of the recorded lock order: paths, reachability and acyclicity of a finite relation on
 lock ids, and what adding or forgetting edges does to them.
 */
module LockOrder {

  /** `(a, b)` in the order means that lock b was taken while lock a was held. */
  type Order = set<(int, int)>

  ghost predicate IsPath(r: Order, p: seq<int>) {
    |p| >= 2 && forall i | 0 <= i < |p| - 1 :: (p[i], p[i + 1]) in r
  }

  /** A non-empty path leads from a to b. */
  ghost predicate Reaches(r: Order, a: int, b: int) {
    exists p :: IsPath(r, p) && p[0] == a && p[|p| - 1] == b
  }

  ghost predicate Acyclic(r: Order) {
    forall a :: !Reaches(r, a, a)
  }

  /** The edges that make every lock of `held` precede `id`. */
  ghost function EdgesInto(held: set<int>, id: int): (e: Order) {
    set h | h in held :: (h, id)
  }

  /** The order without any edge touching `id`. */
  ghost function Forget(r: Order, id: int): (f: Order) {
    set e | e in r && e.0 != id && e.1 != id
  }

  /** The ids reachable from `a`: a rank that shrinks along every edge of an acyclic order. */
  ghost function ReachSet(r: Order, a: int): (s: set<int>)
    ensures forall x :: x in s <==> Reaches(r, a, x)
  {
    var targets := set e | e in r :: e.1;
    forall x | Reaches(r, a, x) ensures x in targets {
      var p :| IsPath(r, p) && p[0] == a && p[|p| - 1] == x;
      assert (p[|p| - 2], p[|p| - 2 + 1]) in r;
    }
    set x | x in targets && Reaches(r, a, x)
  }

  lemma EdgeReaches(r: Order, a: int, b: int)
    requires (a, b) in r
    ensures Reaches(r, a, b)
  {
    assert IsPath(r, [a, b]);
  }

  lemma ReachesTransitive(r: Order, a: int, b: int, c: int)
    requires Reaches(r, a, b) && Reaches(r, b, c)
    ensures Reaches(r, a, c)
  {
    var p :| IsPath(r, p) && p[0] == a && p[|p| - 1] == b;
    var q :| IsPath(r, q) && q[0] == b && q[|q| - 1] == c;
    var pq := p + q[1..];
    forall i | 0 <= i < |pq| - 1 ensures (pq[i], pq[i + 1]) in r {
      if i < |p| - 1 {
        assert (p[i], p[i + 1]) in r;
      } else {
        var j := i - (|p| - 1);
        assert (q[j], q[j + 1]) in r;
      }
    }
    assert IsPath(r, pq);
  }

  lemma ReachesMonotone(r: Order, r': Order, a: int, b: int)
    requires r <= r' && Reaches(r, a, b)
    ensures Reaches(r', a, b)
  {
    var p :| IsPath(r, p) && p[0] == a && p[|p| - 1] == b;
    assert IsPath(r', p);
  }

  lemma AcyclicMonotone(r: Order, r': Order)
    requires r <= r' && Acyclic(r')
    ensures Acyclic(r)
  {
    forall a ensures !Reaches(r, a, a) {
      if Reaches(r, a, a) {
        ReachesMonotone(r, r', a, a);
      }
    }
  }

  lemma EmptyAcyclic()
    ensures Acyclic({})
  {
    var r: Order := {};
    forall p ensures !IsPath(r, p) {
      if |p| >= 2 {
        assert (p[0], p[0 + 1]) !in r;
      }
    }
  }

  /** A path is an edge, or an edge followed by a path. */
  lemma ReachesUnfold(r: Order, a: int, b: int)
    ensures Reaches(r, a, b) <==> (a, b) in r || exists i :: (a, i) in r && Reaches(r, i, b)
  {
    if Reaches(r, a, b) && (a, b) !in r {
      var p :| IsPath(r, p) && p[0] == a && p[|p| - 1] == b;
      assert (p[0], p[0 + 1]) in r;
      var q := p[1..];
      forall i | 0 <= i < |q| - 1 ensures (q[i], q[i + 1]) in r {
        assert (p[i + 1], p[i + 1 + 1]) in r;
      }
      assert IsPath(r, q);
      assert Reaches(r, p[1], b);
    }
    if (a, b) in r {
      EdgeReaches(r, a, b);
    } else if i :| (a, i) in r && Reaches(r, i, b) {
      EdgeReaches(r, a, i);
      ReachesTransitive(r, a, i, b);
    }
  }

  /** Following an edge of an acyclic order strictly shrinks the set of reachable ids. */
  lemma ReachSetShrinks(r: Order, a: int, b: int)
    requires Acyclic(r) && (a, b) in r
    ensures ReachSet(r, b) < ReachSet(r, a)
  {
    EdgeReaches(r, a, b);
    forall x | x in ReachSet(r, b) ensures x in ReachSet(r, a) {
      ReachesTransitive(r, a, b, x);
    }
    assert b in ReachSet(r, a) && b !in ReachSet(r, b);
  }

  /** A path in an order extended by edge (x, y) avoids the edge, or enters it at x and leaves it at y. */
  lemma {:induction false} PathThroughNewEdge(r: Order, x: int, y: int, p: seq<int>)
    requires IsPath(r + {(x, y)}, p)
    ensures var a, b := p[0], p[|p| - 1];
            || Reaches(r, a, b)
            || ((a == x || Reaches(r, a, x)) && (y == b || Reaches(r, y, b)))
    decreases |p|
  {
    var a, c, b := p[0], p[|p| - 2], p[|p| - 1];
    assert (p[|p| - 2], p[|p| - 2 + 1]) in r + {(x, y)};
    if |p| == 2 {
      if (a, b) in r {
        EdgeReaches(r, a, b);
      }
    } else {
      var q := p[..|p| - 1];
      forall i | 0 <= i < |q| - 1 ensures (q[i], q[i + 1]) in r + {(x, y)} {
        assert (p[i], p[i + 1]) in r + {(x, y)};
      }
      PathThroughNewEdge(r, x, y, q);
      if (c, b) in r {
        EdgeReaches(r, c, b);
        if Reaches(r, a, c) {
          ReachesTransitive(r, a, c, b);
        } else if y != c {
          ReachesTransitive(r, y, c, b);
        }
      }
    }
  }

  /** Adding one edge to an acyclic order closes a cycle exactly when the way back already exists. */
  lemma AddEdgeAcyclic(r: Order, x: int, y: int)
    requires Acyclic(r)
    ensures Acyclic(r + {(x, y)}) <==> x != y && !Reaches(r, y, x)
  {
    var r' := r + {(x, y)};
    EdgeReaches(r', x, y);
    if Reaches(r, y, x) {
      ReachesMonotone(r, r', y, x);
      ReachesTransitive(r', x, y, x);
    }
    if a :| Reaches(r', a, a) {
      var p :| IsPath(r', p) && p[0] == a && p[|p| - 1] == a;
      PathThroughNewEdge(r, x, y, p);
      if x != y && y != a && a != x {
        ReachesTransitive(r, y, a, x);
      }
    }
  }

  lemma PrefixReaches(r: Order, p: seq<int>, i: nat)
    requires IsPath(r, p) && 0 < i < |p|
    ensures Reaches(r, p[0], p[i])
  {
    var q := p[..i + 1];
    assert forall k | 0 <= k < |q| - 1 :: (p[k], p[k + 1]) in r;
    assert IsPath(r, q);
  }

  /** Extra edges into `id` open no new way out of `id`, as long as no cycle arises. */
  lemma NoNewWayOut(r: Order, held: set<int>, id: int, b: int)
    requires Acyclic(r + EdgesInto(held, id)) && Reaches(r + EdgesInto(held, id), id, b)
    ensures Reaches(r, id, b)
  {
    var r' := r + EdgesInto(held, id);
    var p :| IsPath(r', p) && p[0] == id && p[|p| - 1] == b;
    forall i | 0 <= i < |p| - 1 ensures (p[i], p[i + 1]) in r {
      assert (p[i], p[i + 1]) in r';
      if p[i + 1] == id {
        PrefixReaches(r', p, i + 1);
        assert false;
      }
    }
    assert IsPath(r, p);
  }

  lemma CycleStays(r: Order, r': Order)
    requires r <= r' && !Acyclic(r)
    ensures !Acyclic(r')
  {
    if Acyclic(r') {
      AcyclicMonotone(r, r');
    }
  }

  /** Letting every held lock precede `id` closes a cycle exactly when `id` is itself held or leads to
      a held lock: what the detector searches for is what would go wrong. */
  lemma {:induction false} CycleExactly(r: Order, held: set<int>, id: int)
    requires Acyclic(r)
    ensures !Acyclic(r + EdgesInto(held, id)) <==> exists h :: h in held && (h == id || Reaches(r, id, h))
    decreases |held|
  {
    var all := r + EdgesInto(held, id);
    if h :| h in held && (h == id || Reaches(r, id, h)) {
      AddEdgeAcyclic(r, h, id);
      CycleStays(r + {(h, id)}, all);
    } else if h :| h in held {
      var fewer := r + EdgesInto(held - {h}, id);
      CycleExactly(r, held - {h}, id);
      AddEdgeAcyclic(fewer, h, id);
      if Reaches(fewer, id, h) {
        NoNewWayOut(r, held - {h}, id, h);
      }
      assert all == fewer + {(h, id)};
    } else {
      assert all == r;
    }
  }
}
