/** Finite directed graphs: paths, depth-first preorder, cycles and topological orders. */
module Digraph {
  import opened Prelude

  type Graph = map<string, set<string>>

  predicate Closed(g: Graph) {
    forall n :: n in g ==> g[n] <= g.Keys
  }

  /** The nodes with an edge to `n`. */
  function Predecessors(g: Graph, n: string): set<string> {
    set m | m in g && n in g[m]
  }

  // ---------- paths ----------

  ghost predicate IsPath(g: Graph, p: seq<string>) {
    && p != []
    && (forall i :: 0 <= i < |p| ==> p[i] in g)
    && (forall i :: 0 <= i < |p| - 1 ==> p[i + 1] in g[p[i]])
  }

  ghost predicate PathBetween(g: Graph, p: seq<string>, a: string, b: string) {
    IsPath(g, p) && p[0] == a && p[|p| - 1] == b
  }

  /** Reflexive and transitive reachability. */
  ghost predicate Reaches(g: Graph, a: string, b: string) {
    exists p :: PathBetween(g, p, a, b)
  }

  /** Some node reaches itself along at least one edge. */
  ghost predicate Cyclic(g: Graph) {
    exists p :: IsPath(g, p) && |p| > 1 && p[0] == p[|p| - 1]
  }

  lemma ReachesSelf(g: Graph, a: string)
    requires a in g
    ensures Reaches(g, a, a)
  {
    assert PathBetween(g, [a], a, a);
  }

  lemma ReachesStep(g: Graph, a: string, b: string, c: string)
    requires Closed(g) && Reaches(g, a, b) && b in g && c in g[b]
    ensures Reaches(g, a, c)
  {
    var p :| PathBetween(g, p, a, b);
    assert PathBetween(g, p + [c], a, c);
  }

  lemma ReachesTransitive(g: Graph, a: string, b: string, c: string)
    requires Reaches(g, a, b) && Reaches(g, b, c)
    ensures Reaches(g, a, c)
  {
    var p :| PathBetween(g, p, a, b);
    var q :| PathBetween(g, q, b, c);
    assert PathBetween(g, p + q[1..], a, c) by {
      var r := p + q[1..];
      forall i | 0 <= i < |r| - 1 ensures r[i + 1] in g[r[i]] {
        if i >= |p| - 1 {
          assert r[i] == q[i - (|p| - 1)] && r[i + 1] == q[i + 1 - (|p| - 1)];
        }
      }
    }
  }

  /** A set holding `a` and closed under edges holds everything reachable from `a`. */
  lemma {:induction false} ClosedHoldsReachable(g: Graph, s: set<string>, p: seq<string>)
    requires IsPath(g, p) && p[0] in s
    requires forall n :: n in s && n in g ==> g[n] <= s
    ensures p[|p| - 1] in s
    decreases |p|
  {
    if |p| > 1 {
      var q := p[..|p| - 1];
      ClosedHoldsReachable(g, s, q);
      assert p[|q| - 1 + 1] in g[q[|q| - 1]];
    }
  }

  // ---------- depth-first preorder ----------

  /** The recursive traversal: visit the nodes of `todo` in turn, each followed at once by its sorted successors. */
  function Preorder(g: Graph, todo: seq<string>, seen: seq<string>): (order: seq<string>)
    requires Closed(g) && Elements(todo) <= g.Keys && Elements(seen) <= g.Keys
    ensures seen <= order && Elements(order) <= g.Keys
    decreases g.Keys - Elements(seen), |todo|
  {
    if todo == [] then seen
    else
      var n := todo[0];
      TodoWithin(g, todo);
      if n in seen then Preorder(g, todo[1..], seen)
      else
        VisitsOne(g, seen, n);
        var below := Preorder(g, SortSet(g[n]), seen + [n]);
        GrowsBy(g, seen, n, below);
        Preorder(g, todo[1..], below)
  }

  lemma TodoWithin(g: Graph, todo: seq<string>)
    requires Elements(todo) <= g.Keys && todo != []
    ensures todo[0] in g && Elements(todo[1..]) <= g.Keys
  {
    assert todo[0] in Elements(todo);
    assert Elements(todo[1..]) <= Elements(todo);
  }

  lemma VisitsOne(g: Graph, seen: seq<string>, n: string)
    requires Closed(g) && Elements(seen) <= g.Keys && n in g && n !in seen
    ensures Elements(SortSet(g[n])) <= g.Keys && Elements(seen + [n]) <= g.Keys
    ensures g.Keys - Elements(seen + [n]) < g.Keys - Elements(seen)
  {
    assert Elements(SortSet(g[n])) == g[n];
    assert Elements(seen + [n]) == Elements(seen) + {n};
    GrowsBy(g, seen, n, seen + [n]);
  }

  lemma Below(g: Graph, todo: seq<string>, seen: seq<string>)
    requires Closed(g) && Elements(todo) <= g.Keys && Elements(seen) <= g.Keys && todo != []
    ensures var n := todo[0];
            && Elements(todo[1..]) <= g.Keys && n in g
            && Elements(SortSet(g[n])) == g[n] <= g.Keys
            && Elements(seen + [n]) == Elements(seen) + {n}
  {
    assert todo[0] in Elements(todo);
    assert Elements(todo[1..]) <= Elements(todo);
  }

  lemma {:induction false} PreorderConcat(g: Graph, a: seq<string>, b: seq<string>, seen: seq<string>)
    requires Closed(g) && Elements(a) <= g.Keys && Elements(b) <= g.Keys && Elements(seen) <= g.Keys
    ensures Elements(a + b) <= g.Keys
    ensures Preorder(g, a + b, seen) == Preorder(g, b, Preorder(g, a, seen))
    decreases g.Keys - Elements(seen), |a|
  {
    assert Elements(a + b) == Elements(a) + Elements(b);
    if a == [] {
      assert a + b == b;
    } else {
      Below(g, a, seen);
      assert (a + b)[1..] == a[1..] + b;
      if a[0] in seen {
        PreorderConcat(g, a[1..], b, seen);
      } else {
        var below := Preorder(g, SortSet(g[a[0]]), seen + [a[0]]);
        GrowsBy(g, seen, a[0], below);
        PreorderConcat(g, a[1..], b, below);
      }
    }
  }

  lemma GrowsBy(g: Graph, seen: seq<string>, n: string, below: seq<string>)
    requires n in g && n !in seen && seen + [n] <= below && Elements(below) <= g.Keys
    ensures Elements(seen) <= Elements(below) && n in below
    ensures g.Keys - Elements(below) < g.Keys - Elements(seen)
    ensures g.Keys - Elements(seen + [n]) < g.Keys - Elements(seen)
  {
    assert (seen + [n])[|seen|] == n;
    assert below[|seen|] == n;
    forall x | x in seen ensures x in below {
      var i :| 0 <= i < |seen| && seen[i] == x;
      assert below[i] == x;
    }
    assert n in g.Keys - Elements(seen) && n !in g.Keys - Elements(below);
  }

  lemma {:induction false} PreorderDistinct(g: Graph, todo: seq<string>, seen: seq<string>)
    requires Closed(g) && Elements(todo) <= g.Keys && Elements(seen) <= g.Keys && Distinct(seen)
    ensures Distinct(Preorder(g, todo, seen))
    decreases g.Keys - Elements(seen), |todo|
  {
    if todo != [] {
      Below(g, todo, seen);
      if todo[0] in seen {
        PreorderDistinct(g, todo[1..], seen);
      } else {
        var below := Preorder(g, SortSet(g[todo[0]]), seen + [todo[0]]);
        GrowsBy(g, seen, todo[0], below);
        PreorderDistinct(g, SortSet(g[todo[0]]), seen + [todo[0]]);
        PreorderDistinct(g, todo[1..], below);
      }
    }
  }

  /** Every node the traversal adds is reachable from a node of `todo`. */
  lemma {:induction false} PreorderSound(g: Graph, todo: seq<string>, seen: seq<string>, n: string)
    requires Closed(g) && Elements(todo) <= g.Keys && Elements(seen) <= g.Keys
    requires n in Preorder(g, todo, seen) && n !in seen
    ensures exists t :: t in todo && Reaches(g, t, n)
    decreases g.Keys - Elements(seen), |todo|
  {
    Below(g, todo, seen);
    var t := todo[0];
    if t in seen {
      PreorderSound(g, todo[1..], seen, n);
    } else {
      var below := Preorder(g, SortSet(g[t]), seen + [t]);
      GrowsBy(g, seen, t, below);
      if n == t {
        ReachesSelf(g, t);
      } else if n in below {
        PreorderSound(g, SortSet(g[t]), seen + [t], n);
        var c :| c in SortSet(g[t]) && Reaches(g, c, n);
        ReachesSelf(g, t);
        ReachesStep(g, t, t, c);
        ReachesTransitive(g, t, c, n);
      } else {
        PreorderSound(g, todo[1..], below, n);
      }
    }
  }

  /** The traversal visits all of `todo` and every successor of each node it adds. */
  lemma {:induction false} PreorderComplete(g: Graph, todo: seq<string>, seen: seq<string>)
    requires Closed(g) && Elements(todo) <= g.Keys && Elements(seen) <= g.Keys
    ensures var order := Preorder(g, todo, seen);
            && Elements(todo) <= Elements(order)
            && forall n :: n in order && n !in seen ==> n in g && g[n] <= Elements(order)
    decreases g.Keys - Elements(seen), |todo|
  {
    if todo != [] {
      Below(g, todo, seen);
      var t := todo[0];
      var order := Preorder(g, todo, seen);
      assert todo == [t] + todo[1..];
      if t in seen {
        PreorderComplete(g, todo[1..], seen);
        assert Elements(seen) <= Elements(order) by { PrefixElements(seen, order); }
      } else {
        var below := Preorder(g, SortSet(g[t]), seen + [t]);
        GrowsBy(g, seen, t, below);
        PreorderComplete(g, SortSet(g[t]), seen + [t]);
        PreorderComplete(g, todo[1..], below);
        PrefixElements(below, order);
        assert g[t] <= Elements(below);
      }
    }
  }

  lemma PrefixElements(a: seq<string>, b: seq<string>)
    requires a <= b
    ensures Elements(a) <= Elements(b)
  {
    forall x | x in a ensures x in b {
      var i :| 0 <= i < |a| && a[i] == x;
      assert b[i] == x;
    }
  }

  /** The traversal from `root` starts with `root`, lists each node once, and lists exactly the reachable nodes. */
  lemma PreorderIsReachability(g: Graph, root: string)
    requires Closed(g) && root in g
    ensures Elements([root]) <= g.Keys
    ensures var order := Preorder(g, [root], []);
            && order != [] && order[0] == root && Distinct(order)
            && forall n :: n in order <==> Reaches(g, root, n)
  {
    var order := Preorder(g, [root], []);
    Below(g, [root], []);
    assert [] + [root] == [root];
    PreorderDistinct(g, [root], []);
    PreorderComplete(g, [root], []);
    assert root in Elements([root]);
    assert Preorder(g, SortSet(g[root]), [root]) == order by {
      assert [root][1..] == [];
    }
    forall n ensures n in order <==> Reaches(g, root, n) {
      if n in order {
        PreorderSound(g, [root], [], n);
      }
      if Reaches(g, root, n) {
        var p :| PathBetween(g, p, root, n);
        ClosedHoldsReachable(g, Elements(order), p);
      }
    }
  }

  // ---------- cycles and topological orders ----------

  /** Each node of `order` comes after all its successors. */
  predicate Finished(g: Graph, order: seq<string>) {
    forall i :: 0 <= i < |order| ==>
      order[i] in g && forall d :: d in g[order[i]] ==> d in order[..i]
  }

  ghost predicate Ranked(g: Graph, rank: map<string, nat>) {
    && rank.Keys == g.Keys
    && forall n, d :: n in g && d in g[n] ==> d in rank && rank[d] < rank[n]
  }

  lemma {:induction false} RankFallsAlongPath(g: Graph, rank: map<string, nat>, p: seq<string>)
    requires Ranked(g, rank) && IsPath(g, p) && |p| > 1
    ensures rank[p[|p| - 1]] < rank[p[0]]
    decreases |p|
  {
    assert p[1] in g[p[0]] by { assert p[0 + 1] in g[p[0]]; }
    if |p| > 2 {
      forall i | 0 <= i < |p[1..]| - 1 ensures p[1..][i + 1] in g[p[1..][i]] {
        assert p[i + 1 + 1] in g[p[i + 1]];
      }
      RankFallsAlongPath(g, rank, p[1..]);
    }
  }

  lemma RankedIsAcyclic(g: Graph, rank: map<string, nat>)
    requires Ranked(g, rank)
    ensures !Cyclic(g)
  {
    if Cyclic(g) {
      var p :| IsPath(g, p) && |p| > 1 && p[0] == p[|p| - 1];
      RankFallsAlongPath(g, rank, p);
    }
  }

  function Position(order: seq<string>, n: string): (i: nat)
    requires n in order
    ensures i < |order| && order[i] == n && n !in order[..i]
  {
    if order[0] == n then 0 else 1 + Position(order[1..], n)
  }

  lemma {:induction false} PositionIsFirst(order: seq<string>, n: string, j: nat)
    requires j < |order| && order[j] == n
    ensures n in order && Position(order, n) <= j
  {
    if order[0] != n {
      PositionIsFirst(order[1..], n, j - 1);
    }
  }

  /** A finished order of all nodes gives each node a rank above its successors'. */
  lemma FinishedIsRanked(g: Graph, order: seq<string>)
    requires Closed(g) && Finished(g, order) && Elements(order) == g.Keys
    ensures exists rank :: Ranked(g, rank)
  {
    var rank := map n | n in g :: Position(order, n) as nat;
    forall n, d | n in g && d in g[n] ensures d in rank && rank[d] < rank[n] {
      var i := Position(order, n);
      assert d in order[..i];
      var j :| 0 <= j < i && order[j] == d;
      assert d in order;
      PositionIsFirst(order, d, j);
    }
    assert Ranked(g, rank);
  }
}
