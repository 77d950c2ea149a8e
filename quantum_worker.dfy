/**
 * The quantum visualisation worker: on each message it derives a node count
 * from the record counts, names the nodes, connects node pairs at random with
 * a probability that falls with their index distance, counts node degrees and
 * averages a local entropy term over the edges.
 *
 * `Math.random()` is modelled by `rand`, where `rand(k)` is the value of the
 * k-th call made while handling the message; `Math.log` is a parameter `ln`
 * of which only `LnNonPositiveOnUnit(ln)` is assumed. Node coordinates
 * (trigonometry on floats) are not part of this model.
 */
module QuantumWorker {
  import opened Common
  import Strings

  const MAX_NODES: nat := 20
  const EXTRA_NODES: nat := 5

  /** `Math.min(20, incomeCount + expenseCount + 5)`. */
  function NodeCount(incomeCount: nat, expenseCount: nat): (n: nat)
    ensures EXTRA_NODES <= n <= MAX_NODES
    ensures n == MAX_NODES || n == incomeCount + expenseCount + EXTRA_NODES
    ensures n < MAX_NODES ==> n == incomeCount + expenseCount + EXTRA_NODES
    ensures incomeCount + expenseCount + EXTRA_NODES >= MAX_NODES ==> n == MAX_NODES
  {
    var wanted := incomeCount + expenseCount + EXTRA_NODES;
    if wanted < MAX_NODES then wanted else MAX_NODES
  }

  datatype Node = Node(name: string)

  /** The label of node `i`: "v" followed by `i + 1` in decimal. */
  function NodeName(i: nat): string
  {
    "v" + Strings.NatToDecimal(i + 1)
  }

  lemma NodeNamesDistinct(i: nat, j: nat)
    requires i != j
    ensures NodeName(i) != NodeName(j)
  {
    if NodeName(i) == NodeName(j) {
      assert NodeName(i)[1..] == Strings.NatToDecimal(i + 1);
      assert NodeName(j)[1..] == Strings.NatToDecimal(j + 1);
      Strings.DecimalInjective(i + 1, j + 1);
    }
  }

  /** The first loop of the handler: N nodes, node i named "v(i+1)", no two alike. */
  method BuildNodes(n: nat) returns (nodes: seq<Node>)
    ensures |nodes| == n
    ensures forall i :: 0 <= i < n ==> nodes[i].name == NodeName(i)
    ensures forall i, j :: 0 <= i < j < n ==> nodes[i].name != nodes[j].name
  {
    nodes := [];
    for i := 0 to n
      invariant |nodes| == i
      invariant forall k :: 0 <= k < i ==> nodes[k].name == NodeName(k)
    {
      nodes := nodes + [Node(NodeName(i))];
    }
    forall i, j | 0 <= i < j < n ensures nodes[i].name != nodes[j].name {
      NodeNamesDistinct(i, j);
    }
  }

  /** `entropy` is the value of the second `Math.random()` call made for the edge. */
  datatype Edge = Edge(from: nat, to: nat, entropy: real)

  /** Edges emitted so far and the number of `Math.random()` calls made so far. */
  datatype Draws = Draws(edges: seq<Edge>, calls: nat)

  /** The connection probability `0.8 / distance`; the distance of a pair i < j is at least 1. */
  function Threshold(i: nat, j: nat): real
    requires i < j
  {
    0.8 / ((j - i) as real)
  }

  /** One pass of the inner loop body for the pair (i, j). */
  function ConsiderPair(g: Draws, i: nat, j: nat, rand: nat -> real): Draws
    requires i < j
  {
    if rand(g.calls) < Threshold(i, j) then
      Draws(g.edges + [Edge(i, j, rand(g.calls + 1))], g.calls + 2)
    else
      Draws(g.edges, g.calls + 1)
  }

  /** Row i of the nested loops, after the pairs (i, i+1) .. (i, j-1), starting from `g`. */
  function RowUpTo(g: Draws, i: nat, j: nat, rand: nat -> real): Draws
    requires i < j
    decreases j
  {
    if j == i + 1 then g else ConsiderPair(RowUpTo(g, i, j - 1, rand), i, j - 1, rand)
  }

  /** The state of the nested loops over `n` nodes once rows 0 .. i-1 are done. */
  function RowsBefore(n: nat, i: nat, rand: nat -> real): Draws
    requires i <= n
  {
    if i == 0 then Draws([], 0) else RowUpTo(RowsBefore(n, i - 1, rand), i - 1, n, rand)
  }

  /** The edge list the worker builds for `n` nodes. */
  function Generate(n: nat, rand: nat -> real): Draws
  {
    RowsBefore(n, n, rand)
  }

  /** The index of the `Math.random()` call that decides the pair (i, j). */
  function CallIndex(n: nat, i: nat, j: nat, rand: nat -> real): nat
    requires i < j <= n
  {
    RowUpTo(RowsBefore(n, i, rand), i, j, rand).calls
  }

  /** The second loop of the handler, with the random oracle. */
  method BuildEdges(n: nat, rand: nat -> real) returns (edges: seq<Edge>)
    ensures edges == Generate(n, rand).edges
  {
    edges := [];
    var calls := 0;
    for i := 0 to n
      invariant Draws(edges, calls) == RowsBefore(n, i, rand)
    {
      for j := i + 1 to n
        invariant Draws(edges, calls) == RowUpTo(RowsBefore(n, i, rand), i, j, rand)
      {
        var draw := rand(calls);
        calls := calls + 1;
        if draw < 0.8 / ((j - i) as real) {
          edges := edges + [Edge(i, j, rand(calls))];
          calls := calls + 1;
        }
      }
    }
  }

  // ---------------------------------------------------------------------------
  // Shape of the generated edge list

  predicate HasPair(edges: seq<Edge>, a: nat, b: nat)
  {
    exists k :: 0 <= k < |edges| && edges[k].from == a && edges[k].to == b
  }

  predicate LexLess(e1: Edge, e2: Edge)
  {
    e1.from < e2.from || (e1.from == e2.from && e1.to < e2.to)
  }

  predicate Bounded(edges: seq<Edge>, n: nat)
  {
    forall k :: 0 <= k < |edges| ==> edges[k].from < edges[k].to < n
  }

  predicate StrictlyOrdered(edges: seq<Edge>)
  {
    forall p, q :: 0 <= p < q < |edges| ==> LexLess(edges[p], edges[q])
  }

  /** Number of pairs (i, j) with i < j < n in rows 0 .. i-1. */
  function PairsBeforeRow(n: nat, i: nat): nat
    requires i <= n
  {
    if i == 0 then 0 else PairsBeforeRow(n, i - 1) + (n - i)
  }

  lemma {:induction false} PairsBeforeRowValue(n: nat, i: nat)
    requires i <= n
    ensures 2 * PairsBeforeRow(n, i) == i * (2 * n - i - 1)
  {
    if i > 0 {
      PairsBeforeRowValue(n, i - 1);
      var m: int, k: int := i - 1, 2 * n - i;
      assert 2 * PairsBeforeRow(n, i - 1) == m * k;
      assert i * (2 * n - i - 1) == (m + 1) * (k - 1) == m * k - m + k - 1;
    }
  }

  lemma ConsiderPairHas(g: Draws, i: nat, j: nat, rand: nat -> real, a: nat, b: nat)
    requires i < j
    ensures HasPair(ConsiderPair(g, i, j, rand).edges, a, b)
        <==> HasPair(g.edges, a, b) || (a == i && b == j && rand(g.calls) < Threshold(i, j))
  {
    var r := ConsiderPair(g, i, j, rand);
    if rand(g.calls) < Threshold(i, j) {
      assert r.edges == g.edges + [Edge(i, j, rand(g.calls + 1))];
      assert r.edges[|g.edges|] == Edge(i, j, rand(g.calls + 1));
      if HasPair(r.edges, a, b) {
        var k :| 0 <= k < |r.edges| && r.edges[k].from == a && r.edges[k].to == b;
        if k < |g.edges| {
          assert g.edges[k] == r.edges[k];
        }
      }
      if HasPair(g.edges, a, b) {
        var k :| 0 <= k < |g.edges| && g.edges[k].from == a && g.edges[k].to == b;
        assert r.edges[k] == g.edges[k];
      }
    }
  }

  /** Within row i, the pair (i, b) is present iff its deciding draw fell below the threshold. */
  lemma {:induction false} RowUpToHas(g: Draws, i: nat, j: nat, rand: nat -> real, a: nat, b: nat)
    requires i < j
    ensures HasPair(RowUpTo(g, i, j, rand).edges, a, b)
        <==> HasPair(g.edges, a, b)
             || (a == i && i < b < j && rand(RowUpTo(g, i, b, rand).calls) < Threshold(i, b))
    decreases j
  {
    if j > i + 1 {
      RowUpToHas(g, i, j - 1, rand, a, b);
      ConsiderPairHas(RowUpTo(g, i, j - 1, rand), i, j - 1, rand, a, b);
    }
  }

  lemma {:induction false} RowsBeforeHas(n: nat, i: nat, rand: nat -> real, a: nat, b: nat)
    requires i <= n
    ensures HasPair(RowsBefore(n, i, rand).edges, a, b)
        <==> a < i && a < b < n && rand(CallIndex(n, a, b, rand)) < Threshold(a, b)
  {
    if i > 0 {
      RowsBeforeHas(n, i - 1, rand, a, b);
      RowUpToHas(RowsBefore(n, i - 1, rand), i - 1, n, rand, a, b);
    }
  }

  /** Edge (i, j) is generated exactly when the draw deciding that pair is below 0.8 / (j - i). */
  lemma EdgePresence(n: nat, rand: nat -> real, i: nat, j: nat)
    requires i < j < n
    ensures HasPair(Generate(n, rand).edges, i, j) <==> rand(CallIndex(n, i, j, rand)) < Threshold(i, j)
  {
    RowsBeforeHas(n, n, rand, i, j);
  }

  /** What row i leaves behind once the pairs up to (i, j-1) are considered, starting from `g`. */
  predicate RowShape(g: Draws, r: Draws, i: nat, j: nat, n: nat)
  {
    && Bounded(r.edges, n) && StrictlyOrdered(r.edges)
    && (forall k :: 0 <= k < |r.edges| ==> r.edges[k].from < i || (r.edges[k].from == i && r.edges[k].to < j))
    && r.calls - |r.edges| == g.calls - |g.edges| + (j - i - 1)
    && |r.edges| - |g.edges| <= j - i - 1
    && r.calls >= 2 * |r.edges|
  }

  lemma {:induction false} RowUpToShape(g: Draws, i: nat, j: nat, n: nat, rand: nat -> real)
    requires i < j <= n
    requires Bounded(g.edges, n) && StrictlyOrdered(g.edges)
    requires forall k :: 0 <= k < |g.edges| ==> g.edges[k].from < i
    requires g.calls >= 2 * |g.edges|
    ensures RowShape(g, RowUpTo(g, i, j, rand), i, j, n)
    decreases j
  {
    if j > i + 1 {
      RowUpToShape(g, i, j - 1, n, rand);
      var p := RowUpTo(g, i, j - 1, rand);
      var r := ConsiderPair(p, i, j - 1, rand);
      if rand(p.calls) < Threshold(i, j - 1) {
        var e := Edge(i, j - 1, rand(p.calls + 1));
        assert r.edges == p.edges + [e];
        assert forall k :: 0 <= k < |p.edges| ==> LexLess(p.edges[k], e);
      }
    }
  }

  lemma {:induction false} RowsBeforeShape(n: nat, i: nat, rand: nat -> real)
    requires i <= n
    ensures var r := RowsBefore(n, i, rand);
      && Bounded(r.edges, n) && StrictlyOrdered(r.edges)
      && (forall k :: 0 <= k < |r.edges| ==> r.edges[k].from < i)
      && r.calls == PairsBeforeRow(n, i) + |r.edges|
      && |r.edges| <= PairsBeforeRow(n, i)
      && r.calls >= 2 * |r.edges|
  {
    if i > 0 {
      RowsBeforeShape(n, i - 1, rand);
      RowUpToShape(RowsBefore(n, i - 1, rand), i - 1, n, n, rand);
    }
  }

  /** Every edge satisfies from < to < n, edges come in increasing (from, to) order, so no
      pair appears twice, and there are at most n(n-1)/2 of them. */
  lemma GeneratedEdgesShape(n: nat, rand: nat -> real)
    ensures var edges := Generate(n, rand).edges;
      && Bounded(edges, n)
      && StrictlyOrdered(edges)
      && (forall p, q :: 0 <= p < q < |edges| ==> (edges[p].from, edges[p].to) != (edges[q].from, edges[q].to))
      && 2 * |edges| <= n * (n - 1)
  {
    RowsBeforeShape(n, n, rand);
    PairsBeforeRowValue(n, n);
  }

  // ---------------------------------------------------------------------------
  // Degrees

  /** How many endpoints of `e` are `v` (an edge from v to v would count twice). */
  function Hits(e: Edge, v: nat): nat
  {
    (if e.from == v then 1 else 0) + (if e.to == v then 1 else 0)
  }

  /** The number of edge endpoints equal to `v`. */
  function Degree(edges: seq<Edge>, v: nat): nat
  {
    if edges == [] then 0 else Degree(edges[..|edges| - 1], v) + Hits(edges[|edges| - 1], v)
  }

  /** The `nodeDegrees` dictionary: only nodes that touch an edge have an entry. */
  method CountDegrees(edges: seq<Edge>) returns (deg: map<nat, nat>)
    ensures forall v :: v in deg <==> Degree(edges, v) > 0
    ensures forall v :: v in deg ==> deg[v] == Degree(edges, v)
  {
    deg := map[];
    for k := 0 to |edges|
      invariant forall v :: v in deg <==> Degree(edges[..k], v) > 0
      invariant forall v :: v in deg ==> deg[v] == Degree(edges[..k], v)
    {
      var e := edges[k];
      assert edges[..k + 1][..k] == edges[..k];
      deg := deg[e.from := (if e.from in deg then deg[e.from] else 0) + 1];
      deg := deg[e.to := (if e.to in deg then deg[e.to] else 0) + 1];
    }
    assert edges[..|edges|] == edges;
  }

  /** Every endpoint of a listed edge has degree at least one. */
  lemma {:induction false} DegreeOfMember(edges: seq<Edge>, k: nat)
    requires k < |edges|
    ensures Degree(edges, edges[k].from) >= 1 && Degree(edges, edges[k].to) >= 1
  {
    var n := |edges| - 1;
    if k < n {
      DegreeOfMember(edges[..n], k);
    }
  }

  /** The sum of the degrees of nodes 0 .. n-1. */
  function DegreeSum(edges: seq<Edge>, n: nat): nat
  {
    if n == 0 then 0 else DegreeSum(edges, n - 1) + Degree(edges, n - 1)
  }

  lemma {:induction false} DegreeSumAppend(edges: seq<Edge>, e: Edge, n: nat)
    ensures DegreeSum(edges + [e], n)
         == DegreeSum(edges, n) + (if e.from < n then 1 else 0) + (if e.to < n then 1 else 0)
  {
    assert (edges + [e])[..|edges|] == edges;
    if n > 0 {
      DegreeSumAppend(edges, e, n - 1);
    }
  }

  /** Handshake: when all endpoints are below n, the degrees of nodes 0 .. n-1 add up to twice the edge count. */
  lemma {:induction false} DegreeSumIsTwiceEdges(edges: seq<Edge>, n: nat)
    requires Bounded(edges, n)
    ensures DegreeSum(edges, n) == 2 * |edges|
  {
    if edges == [] {
      DegreeSumEmpty(n);
    } else {
      var m := |edges| - 1;
      assert edges == edges[..m] + [edges[m]];
      DegreeSumIsTwiceEdges(edges[..m], n);
      DegreeSumAppend(edges[..m], edges[m], n);
    }
  }

  lemma {:induction false} DegreeSumEmpty(n: nat)
    ensures DegreeSum([], n) == 0
  {
    if n > 0 {
      DegreeSumEmpty(n - 1);
    }
  }

  // ---------------------------------------------------------------------------
  // Local entropy

  /** `-p * Math.log(p)` for `p = 1 / degree`. */
  function LocalEntropy(degree: nat, ln: real -> real): real
    requires degree >= 1
  {
    var p := 1.0 / (degree as real);
    -p * ln(p)
  }

  lemma LocalEntropyNonNegative(degree: nat, ln: real -> real)
    requires degree >= 1
    requires LnNonPositiveOnUnit(ln)
    ensures LocalEntropy(degree, ln) >= 0.0
  {
    var p := 1.0 / (degree as real);
    assert 0.0 < p <= 1.0;
    assert ln(p) <= 0.0;
    ProductNonPositive(p, ln(p));
  }

  /** `totalEntropy` after the first k edges of the second `forEach`. */
  function TotalEntropy(edges: seq<Edge>, k: nat, ln: real -> real): real
    requires k <= |edges|
  {
    if k == 0 then 0.0
    else
      DegreeOfMember(edges, k - 1);
      TotalEntropy(edges, k - 1, ln) + LocalEntropy(Degree(edges, edges[k - 1].from), ln)
  }

  lemma {:induction false} TotalEntropyNonNegative(edges: seq<Edge>, k: nat, ln: real -> real)
    requires k <= |edges|
    requires LnNonPositiveOnUnit(ln)
    ensures TotalEntropy(edges, k, ln) >= 0.0
  {
    if k > 0 {
      TotalEntropyNonNegative(edges, k - 1, ln);
      DegreeOfMember(edges, k - 1);
      LocalEntropyNonNegative(Degree(edges, edges[k - 1].from), ln);
    }
  }

  /** The mean local entropy over the edges, 0 without edges. Every lookup `deg[edge.from]`
      succeeds and gives at least 1, so `p` lies in (0, 1]. */
  method AverageEntropy(edges: seq<Edge>, deg: map<nat, nat>, ln: real -> real) returns (avg: real)
    requires forall v :: v in deg <==> Degree(edges, v) > 0
    requires forall v :: v in deg ==> deg[v] == Degree(edges, v)
    ensures |edges| == 0 ==> avg == 0.0
    ensures |edges| > 0 ==> avg == TotalEntropy(edges, |edges|, ln) / (|edges| as real)
    ensures LnNonPositiveOnUnit(ln) ==> avg >= 0.0
  {
    var total := 0.0;
    for k := 0 to |edges|
      invariant total == TotalEntropy(edges, k, ln)
    {
      DegreeOfMember(edges, k);
      var p := 1.0 / (deg[edges[k].from] as real);
      total := total + -p * ln(p);
    }
    avg := if |edges| > 0 then total / (|edges| as real) else 0.0;
    if LnNonPositiveOnUnit(ln) {
      TotalEntropyNonNegative(edges, |edges|, ln);
    }
  }

  /** The whole message handler: `{nodes, edges, avgEntropy, N}` for the given record counts. */
  method HandleMessage(incomeCount: nat, expenseCount: nat, rand: nat -> real, ln: real -> real)
    returns (nodes: seq<Node>, edges: seq<Edge>, avgEntropy: real, n: nat)
    ensures n == NodeCount(incomeCount, expenseCount)
    ensures |nodes| == n && forall i :: 0 <= i < n ==> nodes[i].name == NodeName(i)
    ensures edges == Generate(n, rand).edges
    ensures Bounded(edges, n) && StrictlyOrdered(edges) && 2 * |edges| <= n * (n - 1)
    ensures DegreeSum(edges, n) == 2 * |edges|
    ensures |edges| == 0 ==> avgEntropy == 0.0
    ensures |edges| > 0 ==> avgEntropy == TotalEntropy(edges, |edges|, ln) / (|edges| as real)
    ensures LnNonPositiveOnUnit(ln) ==> avgEntropy >= 0.0
  {
    n := NodeCount(incomeCount, expenseCount);
    nodes := BuildNodes(n);
    edges := BuildEdges(n, rand);
    GeneratedEdgesShape(n, rand);
    DegreeSumIsTwiceEdges(edges, n);
    var deg := CountDegrees(edges);
    avgEntropy := AverageEntropy(edges, deg, ln);
  }
}
