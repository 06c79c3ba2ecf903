/** Parent selection (src/selector.rs), with real arithmetic for the weights. */
module Selector {
  import opened Reals
  import opened Wrappers
  import opened Node
  import opened Score
  import opened Ledger

  /** `score_of`. */
  function ScoreOf(node: AgentNode): real {
    match StoredScore(node.body.evalResults) case Some(r) => r case None => 0.0
  }

  /** The score of a node: the number its record holds, and zero without one. */
  lemma ScoreOfExact(node: AgentNode, eval: EvalResult)
    ensures node.body.evalResults == None ==> ScoreOf(node) == 0.0
    ensures node.body.evalResults == Some(EvalJson(eval)) ==>
              ScoreOf(node) == if eval.score.Finite? then FloatValue(eval.score.token) else 0.0
    ensures StoredScore(node.body.evalResults).Some? ==> Some(ScoreOf(node)) == StoredScore(node.body.evalResults)
    ensures StoredScore(node.body.evalResults).None? ==> ScoreOf(node) == 0.0
  {
    StoredScoreOf(eval);
  }

  function Valid(nodes: seq<AgentNode>): (valid: seq<AgentNode>)
    ensures forall n :: n in valid ==> n in nodes && n.body.validParent
  {
    if nodes == [] then []
    else if nodes[0].body.validParent then [nodes[0]] + Valid(nodes[1..])
    else Valid(nodes[1..])
  }

  lemma {:induction false} ValidSnoc(nodes: seq<AgentNode>, n: AgentNode)
    ensures Valid(nodes + [n]) == Valid(nodes) + if n.body.validParent then [n] else []
  {
    if nodes == [] {
      assert nodes + [n] == [n];
      assert [n][1..] == [];
    } else {
      ValidSnoc(nodes[1..], n);
      assert (nodes + [n])[1..] == nodes[1..] + [n];
    }
  }

  lemma {:induction false} ValidEmpty(nodes: seq<AgentNode>)
    ensures Valid(nodes) == [] <==> forall n :: n in nodes ==> !n.body.validParent
  {
    if nodes == [] {
    } else {
      ValidEmpty(nodes[1..]);
      assert forall n :: n in nodes <==> n == nodes[0] || n in nodes[1..];
    }
  }

  /** `filter(|n| n.valid_parent)`. */
  method KeepValid(nodes: seq<AgentNode>) returns (promoted: seq<AgentNode>)
    ensures promoted == Valid(nodes)
  {
    promoted := [];
    for i := 0 to |nodes|
      invariant promoted == Valid(nodes[..i])
    {
      ValidSnoc(nodes[..i], nodes[i]);
      assert nodes[..i + 1] == nodes[..i] + [nodes[i]];
      if nodes[i].body.validParent {
        promoted := promoted + [nodes[i]];
      }
    }
    assert nodes[..|nodes|] == nodes;
  }

  // ---------------------------------------------------------------- latest

  /** `Latest`: the last valid node. */
  function Latest(nodes: seq<AgentNode>): Option<AgentNode> {
    if nodes == [] then None
    else if nodes[|nodes| - 1].body.validParent then Some(nodes[|nodes| - 1])
    else Latest(nodes[..|nodes| - 1])
  }

  /** `Latest::select`: the reverse scan. */
  method SelectLatest(nodes: seq<AgentNode>) returns (r: Result<string>)
    ensures match Latest(nodes) case None => r == Err(LedgerError) case Some(n) => r == Ok(n.agentId)
  {
    assert nodes[..|nodes|] == nodes;
    for i := |nodes| downto 0
      invariant Latest(nodes) == Latest(nodes[..i])
    {
      assert nodes[..i + 1][..i] == nodes[..i];
      if nodes[i].body.validParent {
        return Ok(nodes[i].agentId);
      }
    }
    r := Err(LedgerError);
  }

  // ---------------------------------------------------------------- best

  /** `node` is the first of the valid nodes with the highest score. */
  ghost predicate FirstBest(nodes: seq<AgentNode>, i: nat)
  {
    && i < |nodes|
    && nodes[i].body.validParent
    && (forall j :: 0 <= j < |nodes| && nodes[j].body.validParent ==> ScoreOf(nodes[j]) <= ScoreOf(nodes[i]))
    && (forall j :: 0 <= j < i && nodes[j].body.validParent ==> ScoreOf(nodes[j]) < ScoreOf(nodes[i]))
  }

  /** `Best::select`: one pass, keeping the earlier node on a tie. */
  method Best(nodes: seq<AgentNode>) returns (r: Result<string>, ghost at: nat)
    ensures r.Err? <==> forall n :: n in nodes ==> !n.body.validParent
    ensures r.Err? ==> r.error == LedgerError
    ensures r.Ok? ==> FirstBest(nodes, at) && r.value == nodes[at].agentId
  {
    var best: Option<(real, string)> := None;
    at := 0;
    for i := 0 to |nodes|
      invariant best == None ==> forall j :: 0 <= j < i ==> !nodes[j].body.validParent
      invariant best != None ==> FirstBest(nodes[..i], at) && best == Some((ScoreOf(nodes[at]), nodes[at].agentId))
    {
      var node := nodes[i];
      if !node.body.validParent {
        continue;
      }
      var score := ScoreOf(node);
      match best
      case Some((b, _)) =>
        if !(b >= score) {
          best, at := Some((score, node.agentId)), i;
        }
      case None =>
        best, at := Some((score, node.agentId)), i;
    }
    assert nodes[..|nodes|] == nodes;
    r := match best case Some((_, id)) => Ok(id) case None => Err(LedgerError);
    assert best != None ==> nodes[at] in nodes;
  }

  // ---------------------------------------------------------------- weights

  type Weighted = seq<(real, string)>

  function Prefix(w: Weighted, i: nat): real
    requires i <= |w|
  {
    if i == 0 then 0.0 else Prefix(w, i - 1) + w[i - 1].0
  }

  function Total(w: Weighted): real {
    Prefix(w, |w|)
  }

  /** The first entry, from `i` on, whose running sum reaches `r`; past the end when none does. */
  function PickFrom(w: Weighted, r: real, i: nat): (k: nat)
    requires i <= |w|
    ensures i <= k <= |w|
    decreases |w| - i
  {
    if i == |w| || r <= Prefix(w, i + 1) then i else PickFrom(w, r, i + 1)
  }

  lemma {:induction false} PickFromExact(w: Weighted, r: real, i: nat)
    requires i <= |w|
    ensures forall j :: i < j <= PickFrom(w, r, i) ==> Prefix(w, j) < r
    ensures PickFrom(w, r, i) < |w| ==> r <= Prefix(w, PickFrom(w, r, i) + 1)
    decreases |w| - i
  {
    if i == |w| || r <= Prefix(w, i + 1) {
    } else {
      PickFromExact(w, r, i + 1);
    }
  }

  /** The entry that a draw picks: the last one, should no share hold it. */
  function Drawn(w: Weighted, draw: real): string
    requires w != []
  {
    var k := PickFrom(w, draw, 0);
    w[if k < |w| then k else |w| - 1].1
  }

  /** What `weighted_choice` returns for the unit draw `unit`. */
  function Choose(w: Weighted, unit: real): Option<string> {
    if w == [] then None
    else if Total(w) <= 0.0 then Some(w[|w| - 1].1)
    else Some(Drawn(w, Scaled(unit, Total(w))))
  }

  /** `weighted_choice`, the draw passed in. */
  method WeightedChoice(w: Weighted, unit: real) returns (r: Result<string>)
    ensures match Choose(w, unit) case None => r == Err(LedgerError) case Some(id) => r == Ok(id)
  {
    if w == [] {
      return Err(LedgerError);
    }
    var total := SumWeights(w);
    if total <= 0.0 {
      return Ok(w[|w| - 1].1);
    }
    var id := Draw(w, Scaled(unit, total));
    r := Ok(id);
  }

  method SumWeights(w: Weighted) returns (total: real)
    ensures total == Total(w)
  {
    total := 0.0;
    for i := 0 to |w|
      invariant total == Prefix(w, i)
    {
      total := total + w[i].0;
    }
  }

  /** The sampling loop: the first entry whose running sum reaches the draw, the last entry if none does. */
  method Draw(w: Weighted, draw: real) returns (id: string)
    requires w != []
    ensures id == Drawn(w, draw)
  {
    var acc := 0.0;
    for i := 0 to |w|
      invariant acc == Prefix(w, i)
      invariant PickFrom(w, draw, 0) == PickFrom(w, draw, i)
    {
      acc := acc + w[i].0;
      if draw <= acc {
        return w[i].1;
      }
    }
    id := w[|w| - 1].1;
  }

  ghost predicate NonNegative(w: Weighted) {
    forall i :: 0 <= i < |w| ==> w[i].0 >= 0.0
  }

  lemma {:induction false} PrefixRises(w: Weighted, i: nat, j: nat)
    requires NonNegative(w) && i <= j <= |w|
    ensures Prefix(w, i) <= Prefix(w, j)
    decreases j - i
  {
    if i == j {
    } else {
      PrefixRises(w, i, j - 1);
    }
  }

  /** The draws that pick `i`. */
  ghost predicate InShare(w: Weighted, i: nat, r: real)
    requires i < |w|
  {
    Prefix(w, i) < r <= Prefix(w, i + 1)
  }

  /** Every draw in (0, total] picks exactly one entry, the one whose share it falls in; shares are intervals as
      long as the weights; entries without weight are never picked; and the fallback after the loop is not reached.
      */
  lemma DrawsArePartitioned(w: Weighted, r: real)
    requires NonNegative(w) && 0.0 < r <= Total(w)
    ensures var k := PickFrom(w, r, 0);
            && k < |w| && w[k].0 > 0.0
            && (forall i: nat :: i < |w| ==> (InShare(w, i, r) <==> i == k))
    ensures forall i: nat :: i < |w| ==> Prefix(w, i + 1) - Prefix(w, i) == w[i].0
  {
    var k := PickFrom(w, r, 0);
    PickFromExact(w, r, 0);
    assert Prefix(w, k) < r && Total(w) == Prefix(w, |w|);
    assert k < |w| && Prefix(w, k + 1) == Prefix(w, k) + w[k].0;
    forall i: nat | i < |w| ensures Prefix(w, i + 1) - Prefix(w, i) == w[i].0 {}
    forall i: nat | i < |w| ensures InShare(w, i, r) <==> i == k {
      if i < k {
        assert Prefix(w, i + 1) < r;
      } else if i > k {
        PrefixRises(w, k + 1, i);
      }
    }
  }

  /** A draw of exactly zero picks the first entry, whatever its weight. */
  lemma ZeroDrawPicksFirst(w: Weighted)
    requires NonNegative(w) && w != []
    ensures PickFrom(w, 0.0, 0) == 0
  {
    PrefixRises(w, 0, 1);
  }

  lemma {:induction false} TotalZero(w: Weighted, i: nat)
    requires NonNegative(w) && i <= |w|
    ensures Prefix(w, i) <= 0.0 <==> forall j :: 0 <= j < i ==> w[j].0 == 0.0
  {
    if i == 0 {
    } else {
      TotalZero(w, i - 1);
      PrefixRises(w, 0, i - 1);
    }
  }

  /** With nonnegative weights and a draw in [0, 1]: no entry, no choice; all weights zero, exactly then the last
      entry; otherwise an entry of positive weight unless the draw is exactly zero. */
  lemma ChoiceExact(w: Weighted, unit: real)
    requires NonNegative(w) && 0.0 <= unit <= 1.0
    ensures Choose(w, unit).None? <==> w == []
    ensures w != [] ==> (Total(w) <= 0.0 <==> forall j :: 0 <= j < |w| ==> w[j].0 == 0.0)
    ensures Choose(w, unit).Some? ==> exists i :: 0 <= i < |w| && Choose(w, unit) == Some(w[i].1)
    ensures Total(w) > 0.0 && unit > 0.0 ==>
              exists i: nat ::
                && i < |w| && w[i].0 > 0.0
                && InShare(w, i, Scaled(unit, Total(w))) && Choose(w, unit) == Some(w[i].1)
  {
    TotalZero(w, |w|);
    if w != [] && Total(w) > 0.0 && unit > 0.0 {
      ScaledDown(unit, Total(w));
      var i := DrawnFromShare(w, Scaled(unit, Total(w)));
    }
  }

  lemma DrawnFromShare(w: Weighted, r: real) returns (i: nat)
    requires NonNegative(w) && w != [] && 0.0 < r <= Total(w)
    ensures i < |w| && w[i].0 > 0.0 && InShare(w, i, r) && Drawn(w, r) == w[i].1
  {
    DrawsArePartitioned(w, r);
    i := PickFrom(w, r, 0);
    assert InShare(w, i, r);
  }

  /** Running sums start at nothing and grow weight by weight; the total is the last of them. */
  lemma PrefixExact(w: Weighted, i: nat)
    requires i < |w|
    ensures Prefix(w, 0) == 0.0 && Prefix(w, i + 1) == Prefix(w, i) + w[i].0 && Total(w) == Prefix(w, |w|)
  {}

  /** Without any weight, exactly the last entry is chosen. Otherwise entry `i` is chosen by the draws that, scaled
      to the total, fall in its share: those in an interval as long as its weight's part of the total. */
  lemma ChoiceByShare(w: Weighted, unit: real, i: nat)
    requires NonNegative(w) && 0.0 <= unit <= 1.0 && i < |w|
    ensures Total(w) <= 0.0 ==> Choose(w, unit) == Some(w[|w| - 1].1)
    ensures Total(w) > 0.0 && Prefix(w, i) < Scaled(unit, Total(w)) <= Prefix(w, i + 1) ==>
              Choose(w, unit) == Some(w[i].1)
  {
    if Total(w) > 0.0 && Prefix(w, i) < Scaled(unit, Total(w)) <= Prefix(w, i + 1) {
      PrefixRises(w, 0, i);
      PrefixRises(w, i + 1, |w|);
      DrawsArePartitioned(w, Scaled(unit, Total(w)));
      assert InShare(w, i, Scaled(unit, Total(w)));
    }
  }

  // ---------------------------------------------------------------- child counts

  function ChildCount(nodes: seq<AgentNode>, id: string): nat {
    if nodes == [] then 0
    else ChildCount(nodes[..|nodes| - 1], id) + if nodes[|nodes| - 1].body.parentId == Some(id) then 1 else 0
  }

  /** The nodes that name `id` as their parent. */
  ghost function ChildrenOf(nodes: seq<AgentNode>, id: string): set<int> {
    set i | 0 <= i < |nodes| && nodes[i].body.parentId == Some(id)
  }

  lemma {:induction false} ChildCountExact(nodes: seq<AgentNode>, id: string)
    ensures ChildCount(nodes, id) == |ChildrenOf(nodes, id)|
  {
    if nodes == [] {
    } else {
      var last := |nodes| - 1;
      var rest := ChildrenOf(nodes[..last], id);
      ChildCountExact(nodes[..last], id);
      assert last !in rest;
      assert ChildrenOf(nodes, id) == rest + if nodes[last].body.parentId == Some(id) then {last} else {};
    }
  }

  function WithParent(nodes: seq<AgentNode>): nat {
    if nodes == [] then 0
    else WithParent(nodes[..|nodes| - 1]) + if nodes[|nodes| - 1].body.parentId.Some? then 1 else 0
  }

  /** The sum of a map's values. */
  ghost function Sum(m: map<string, nat>): nat
    decreases |m|
  {
    if m == map[] then 0
    else
      var k :| k in m;
      m[k] + Sum(m - {k})
  }

  lemma {:induction false} SumWithout(m: map<string, nat>, k: string)
    requires k in m
    ensures Sum(m) == m[k] + Sum(m - {k})
    decreases |m|
  {
    var p :| p in m && Sum(m) == m[p] + Sum(m - {p});
    if p != k {
      SumWithout(m - {p}, k);
      SumWithout(m - {k}, p);
      assert m - {p} - {k} == m - {k} - {p};
    }
  }

  lemma SumUpdate(m: map<string, nat>, k: string, v: nat)
    ensures Sum(m[k := v]) == Sum(m) + v - if k in m then m[k] else 0
  {
    var m' := m[k := v];
    SumWithout(m', k);
    if k in m {
      SumWithout(m, k);
      assert m' - {k} == m - {k};
    } else {
      assert m' - {k} == m;
    }
  }

  /** The counting loop of `ScoreChildProportional`: exact for every id, rejected children included, and nothing
      lost. */
  method CountChildren(nodes: seq<AgentNode>) returns (counts: map<string, nat>)
    ensures forall id :: ChildCount(nodes, id) == if id in counts then counts[id] else 0
    ensures Sum(counts) == WithParent(nodes)
  {
    counts := map[];
    for i := 0 to |nodes|
      invariant forall id :: ChildCount(nodes[..i], id) == if id in counts then counts[id] else 0
      invariant Sum(counts) == WithParent(nodes[..i])
    {
      assert nodes[..i + 1][..i] == nodes[..i];
      match nodes[i].body.parentId
      case Some(parent) =>
        var count := if parent in counts then counts[parent] else 0;
        SumUpdate(counts, parent, count + 1);
        counts := counts[parent := count + 1];
      case None =>
    }
    assert nodes[..|nodes|] == nodes;
  }

  // ---------------------------------------------------------------- score and child proportional

  function Max0(x: real): real {
    if x > 0.0 then x else 0.0
  }

  function ChildWeight(nodes: seq<AgentNode>, n: AgentNode): real {
    Max0(ScoreOf(n)) / (1.0 + ChildCount(nodes, n.agentId) as real)
  }

  /** The weights of the valid nodes among the first `i`; child counts are over the whole ledger. */
  function ChildWeights(all: seq<AgentNode>, nodes: seq<AgentNode>): Weighted {
    if nodes == [] then []
    else
      var rest, n := ChildWeights(all, nodes[..|nodes| - 1]), nodes[|nodes| - 1];
      if n.body.validParent then rest + [(ChildWeight(all, n), n.agentId)] else rest
  }

  function ScoreWeights(nodes: seq<AgentNode>): Weighted {
    if nodes == [] then []
    else
      var rest, n := ScoreWeights(nodes[..|nodes| - 1]), nodes[|nodes| - 1];
      if n.body.validParent then rest + [(Max0(ScoreOf(n)), n.agentId)] else rest
  }

  /** `ScoreProportional::select`, the draw passed in. */
  method ScoreProportional(nodes: seq<AgentNode>, unit: real) returns (r: Result<string>)
    ensures match Choose(ScoreWeights(nodes), unit) case None => r == Err(LedgerError) case Some(id) => r == Ok(id)
  {
    var weighted: Weighted := [];
    for i := 0 to |nodes|
      invariant weighted == ScoreWeights(nodes[..i])
    {
      assert nodes[..i + 1][..i] == nodes[..i];
      if nodes[i].body.validParent {
        weighted := weighted + [(Max0(ScoreOf(nodes[i])), nodes[i].agentId)];
      }
    }
    assert nodes[..|nodes|] == nodes;
    r := WeightedChoice(weighted, unit);
  }

  /** `ScoreChildProportional::select`, the draw passed in. */
  method ScoreChildProportional(nodes: seq<AgentNode>, unit: real) returns (r: Result<string>)
    ensures match Choose(ChildWeights(nodes, nodes), unit)
            case None => r == Err(LedgerError)
            case Some(id) => r == Ok(id)
  {
    var counts := CountChildren(nodes);
    var weighted: Weighted := [];
    for i := 0 to |nodes|
      invariant weighted == ChildWeights(nodes, nodes[..i])
    {
      assert nodes[..i + 1][..i] == nodes[..i];
      var n := nodes[i];
      if n.body.validParent {
        var children := if n.agentId in counts then counts[n.agentId] else 0;
        var score := Max0(ScoreOf(n));
        var weight := score / (1.0 + children as real);
        weighted := weighted + [(weight, n.agentId)];
      }
    }
    assert nodes[..|nodes|] == nodes;
    r := WeightedChoice(weighted, unit);
  }

  lemma {:induction false} ChildCountGrows(nodes: seq<AgentNode>, child: AgentNode, id: string)
    ensures ChildCount(nodes + [child], id) == ChildCount(nodes, id) + if child.body.parentId == Some(id) then 1 else 0
  {
    assert (nodes + [child])[..|nodes|] == nodes;
  }

  /** `id` is a valid parent's. */
  ghost predicate ValidId(nodes: seq<AgentNode>, id: string) {
    exists n :: n in nodes && n.body.validParent && n.agentId == id
  }

  /** Nonnegative weights, each on a valid parent. */
  ghost predicate GoodWeights(w: Weighted, nodes: seq<AgentNode>) {
    NonNegative(w) && forall i :: 0 <= i < |w| ==> ValidId(nodes, w[i].1)
  }

  lemma GoodWeightsGrow(w: Weighted, nodes: seq<AgentNode>, n: AgentNode, x: real)
    requires GoodWeights(w, nodes) && x >= 0.0
    ensures GoodWeights(w, nodes + [n])
    ensures n.body.validParent ==> GoodWeights(w + [(x, n.agentId)], nodes + [n])
  {
    assert n in nodes + [n];
    forall i | 0 <= i < |w| ensures ValidId(nodes + [n], w[i].1) {
      assert ValidId(nodes, w[i].1);
      var m :| m in nodes && m.body.validParent && m.agentId == w[i].1;
      assert m in nodes + [n];
    }
  }

  lemma {:induction false} ChildWeightsGood(all: seq<AgentNode>, nodes: seq<AgentNode>)
    ensures GoodWeights(ChildWeights(all, nodes), nodes)
  {
    if nodes == [] {
    } else {
      var rest, n := nodes[..|nodes| - 1], nodes[|nodes| - 1];
      ChildWeightsGood(all, rest);
      GoodWeightsGrow(ChildWeights(all, rest), rest, n, ChildWeight(all, n));
      assert nodes == rest + [n];
    }
  }

  lemma {:induction false} ScoreWeightsGood(nodes: seq<AgentNode>)
    ensures GoodWeights(ScoreWeights(nodes), nodes)
  {
    if nodes == [] {
    } else {
      var rest, n := nodes[..|nodes| - 1], nodes[|nodes| - 1];
      ScoreWeightsGood(rest);
      GoodWeightsGrow(ScoreWeights(rest), rest, n, Max0(ScoreOf(n)));
      assert nodes == rest + [n];
    }
  }

  /** One weight for each valid node, in insertion order, and no other: the score, or the score over one more than the
      children, neither below zero. */
  lemma {:induction false} WeightsOfValid(all: seq<AgentNode>, nodes: seq<AgentNode>)
    ensures |ScoreWeights(nodes)| == |ChildWeights(all, nodes)| == |Valid(nodes)|
    ensures forall i :: 0 <= i < |Valid(nodes)| ==>
              && ScoreWeights(nodes)[i] == (Max0(ScoreOf(Valid(nodes)[i])), Valid(nodes)[i].agentId)
              && ChildWeights(all, nodes)[i] == (ChildWeight(all, Valid(nodes)[i]), Valid(nodes)[i].agentId)
  {
    if nodes == [] {
    } else {
      var rest, n := nodes[..|nodes| - 1], nodes[|nodes| - 1];
      WeightsOfValid(all, rest);
      ValidSnoc(rest, n);
      assert nodes == rest + [n];
    }
  }

  /** What `ScoreProportional` weighs a node with: its score, or zero if that is lower. */
  ghost function ByScore(): AgentNode -> real {
    n => if ScoreOf(n) > 0.0 then ScoreOf(n) else 0.0
  }

  /** What `ScoreChildProportional` weighs a node with: the same, over one more than its children. */
  ghost function ByScoreAndChildren(all: seq<AgentNode>): AgentNode -> real {
    n => (if ScoreOf(n) > 0.0 then ScoreOf(n) else 0.0) / (1 + |ChildrenOf(all, n.agentId)|) as real
  }

  /** A weight list that has the weights of these nodes, in their order. */
  ghost predicate WeighsAs(w: Weighted, nodes: seq<AgentNode>, weight: AgentNode -> real) {
    |w| == |nodes| && forall j :: 0 <= j < |w| ==> w[j] == (weight(nodes[j]), nodes[j].agentId)
  }

  lemma WeighedByScore(nodes: seq<AgentNode>)
    ensures NonNegative(ScoreWeights(nodes)) && WeighsAs(ScoreWeights(nodes), Valid(nodes), ByScore())
  {
    WeightsOfValid(nodes, nodes);
    ScoreWeightsGood(nodes);
  }

  lemma WeighedByChildren(nodes: seq<AgentNode>)
    ensures NonNegative(ChildWeights(nodes, nodes))
    ensures WeighsAs(ChildWeights(nodes, nodes), Valid(nodes), ByScoreAndChildren(nodes))
  {
    WeightsOfValid(nodes, nodes);
    ChildWeightsGood(nodes, nodes);
    var valid := Valid(nodes);
    forall j | 0 <= j < |valid| ensures ChildWeight(nodes, valid[j]) == ByScoreAndChildren(nodes)(valid[j]) {
      SameWeight(nodes, valid[j]);
    }
  }

  lemma SameWeight(all: seq<AgentNode>, n: AgentNode)
    ensures ChildWeight(all, n) == ByScoreAndChildren(all)(n)
  {
    ChildCountExact(all, n.agentId);
  }

  // ---------------------------------------------------------------- what a new child does to the weights

  lemma WeightFalls(score: real, children: nat)
    requires 0.0 <= score
    ensures 0.0 <= score / (1.0 + (children + 1) as real) <= score / (1.0 + children as real)
  {
    QuotientFalls(score, 1.0 + children as real, 1.0 + (children + 1) as real);
  }

  /** A weight's share of its total has not risen: `after` of `totalAfter` against `before` of `totalBefore`. Said
      without division as well, so that totals of zero are covered. */
  ghost predicate ShareNotRisen(before: real, totalBefore: real, after: real, totalAfter: real) {
    && after * totalBefore <= before * totalAfter
    && (totalBefore > 0.0 && totalAfter > 0.0 ==> after / totalAfter <= before / totalBefore)
  }

  lemma ShareFalls(w: real, w': real, total: real, newcomer: real, total': real)
    requires 0.0 <= w' <= w <= total && 0.0 <= newcomer && total' == total - w + w' + newcomer
    ensures ShareNotRisen(w, total, w', total')
  {
    ProductNonNegative(w - w', total - w);
    ProductNonNegative(w, newcomer);
    ShareDifference(w, w', total, newcomer);
    if total > 0.0 && total' > 0.0 {
      CrossDivide(w', total', w, total);
    }
  }

  /** The sum of `ChildWeights`. */
  function TotalWeight(all: seq<AgentNode>, nodes: seq<AgentNode>): real {
    if nodes == [] then 0.0
    else
      var n := nodes[|nodes| - 1];
      TotalWeight(all, nodes[..|nodes| - 1]) + if n.body.validParent then ChildWeight(all, n) else 0.0
  }

  lemma {:induction false} TotalAppend(w: Weighted, e: (real, string), i: nat)
    requires i <= |w|
    ensures Prefix(w + [e], i) == Prefix(w, i)
  {
    if i == 0 {
    } else {
      TotalAppend(w, e, i - 1);
    }
  }

  lemma {:induction false} TotalIsSum(all: seq<AgentNode>, nodes: seq<AgentNode>)
    ensures Total(ChildWeights(all, nodes)) == TotalWeight(all, nodes)
  {
    if nodes == [] {
    } else {
      var rest, n := ChildWeights(all, nodes[..|nodes| - 1]), nodes[|nodes| - 1];
      TotalIsSum(all, nodes[..|nodes| - 1]);
      if n.body.validParent {
        TotalAppend(rest, (ChildWeight(all, n), n.agentId), |rest|);
      }
    }
  }

  lemma OthersKeepWeight(nodes: seq<AgentNode>, child: AgentNode, n: AgentNode)
    requires child.body.parentId != Some(n.agentId)
    ensures ChildWeight(nodes + [child], n) == ChildWeight(nodes, n)
  {
    ChildCountGrows(nodes, child, n.agentId);
  }

  lemma ParentLosesWeight(nodes: seq<AgentNode>, child: AgentNode, n: AgentNode)
    requires child.body.parentId == Some(n.agentId)
    ensures 0.0 <= ChildWeight(nodes + [child], n) <= ChildWeight(nodes, n)
  {
    ChildCountGrows(nodes, child, n.agentId);
    WeightFalls(Max0(ScoreOf(n)), ChildCount(nodes, n.agentId));
  }

  /** Only the parent's term of the total moves. */
  lemma {:induction false} TotalMoves(all: seq<AgentNode>, child: AgentNode, nodes: seq<AgentNode>, p: nat)
    requires UniqueIds(nodes) && p < |all| && |nodes| <= |all| && nodes == all[..|nodes|]
    requires all[p].body.validParent && child.body.parentId == Some(all[p].agentId)
    requires forall i :: 0 <= i < |all| && i != p ==> all[i].agentId != all[p].agentId
    ensures TotalWeight(all + [child], nodes) ==
            TotalWeight(all, nodes) +
            if p < |nodes| then ChildWeight(all + [child], all[p]) - ChildWeight(all, all[p]) else 0.0
    ensures TotalWeight(all, nodes) >= if p < |nodes| then ChildWeight(all, all[p]) else 0.0
  {
    if nodes == [] {
    } else {
      var last := |nodes| - 1;
      TotalMoves(all, child, nodes[..last], p);
      assert ChildWeight(all, nodes[last]) >= 0.0;
      if last != p {
        OthersKeepWeight(all, child, nodes[last]);
      }
    }
  }

  lemma TotalSplit(all: seq<AgentNode>, nodes: seq<AgentNode>, n: AgentNode)
    ensures TotalWeight(all, nodes + [n]) ==
            TotalWeight(all, nodes) + if n.body.validParent then ChildWeight(all, n) else 0.0
  {
    assert (nodes + [n])[..|nodes|] == nodes;
  }

  lemma ChildWeightNonNegative(all: seq<AgentNode>, n: AgentNode)
    ensures ChildWeight(all, n) >= 0.0
  {}

  lemma TotalAfterChild(nodes: seq<AgentNode>, child: AgentNode, p: nat)
    requires UniqueIds(nodes + [child]) && p < |nodes| && nodes[p].body.validParent
    requires child.body.parentId == Some(nodes[p].agentId)
    ensures var grown := nodes + [child];
            && TotalWeight(grown, grown) == TotalWeight(nodes, nodes) - ChildWeight(nodes, nodes[p])
               + ChildWeight(grown, nodes[p]) + (if child.body.validParent then ChildWeight(grown, child) else 0.0)
            && ChildWeight(nodes, nodes[p]) <= TotalWeight(nodes, nodes)
  {
    var grown := nodes + [child];
    UniqueIdsApart(nodes, child, p);
    assert nodes[..|nodes|] == nodes;
    TotalMoves(nodes, child, nodes, p);
    TotalSplit(grown, nodes, child);
  }

  lemma UniqueIdsApart(nodes: seq<AgentNode>, child: AgentNode, p: nat)
    requires UniqueIds(nodes + [child]) && p < |nodes|
    ensures UniqueIds(nodes)
    ensures forall i :: 0 <= i < |nodes| && i != p ==> nodes[i].agentId != nodes[p].agentId
  {
    var grown := nodes + [child];
    assert forall i :: 0 <= i < |nodes| ==> grown[i] == nodes[i];
  }

  /** Appending a child under `nodes[p]`, promoted or rejected, leaves every other node's weight as it was, and the
      parent's share of the total does not rise, whatever the child scores. */
  lemma ChildNeverRaisesShare(nodes: seq<AgentNode>, child: AgentNode, p: nat)
    requires UniqueIds(nodes + [child]) && p < |nodes| && nodes[p].body.validParent
    requires child.body.parentId == Some(nodes[p].agentId)
    ensures forall i :: 0 <= i < |nodes| && i != p ==>
              ChildWeight(nodes + [child], nodes[i]) == ChildWeight(nodes, nodes[i])
    ensures var grown := nodes + [child];
            ShareNotRisen(ChildWeight(nodes, nodes[p]), Total(ChildWeights(nodes, nodes)),
                          ChildWeight(grown, nodes[p]), Total(ChildWeights(grown, grown)))
  {
    var grown := nodes + [child];
    UniqueIdsApart(nodes, child, p);
    forall i | 0 <= i < |nodes| && i != p ensures ChildWeight(grown, nodes[i]) == ChildWeight(nodes, nodes[i]) {
      OthersKeepWeight(nodes, child, nodes[i]);
    }
    ShareAfterChild(nodes, child, p);
  }

  lemma ShareAfterChild(nodes: seq<AgentNode>, child: AgentNode, p: nat)
    requires UniqueIds(nodes + [child]) && p < |nodes| && nodes[p].body.validParent
    requires child.body.parentId == Some(nodes[p].agentId)
    ensures var grown := nodes + [child];
            ShareNotRisen(ChildWeight(nodes, nodes[p]), Total(ChildWeights(nodes, nodes)),
                          ChildWeight(grown, nodes[p]), Total(ChildWeights(grown, grown)))
  {
    var grown := nodes + [child];
    TotalIsSum(nodes, nodes);
    TotalIsSum(grown, grown);
    TotalAfterChild(nodes, child, p);
    ParentLosesWeight(nodes, child, nodes[p]);
    ChildWeightNonNegative(grown, child);
    var newcomer := if child.body.validParent then ChildWeight(grown, child) else 0.0;
    ShareFalls(ChildWeight(nodes, nodes[p]), ChildWeight(grown, nodes[p]), TotalWeight(nodes, nodes), newcomer,
               TotalWeight(grown, grown));
  }

  // ---------------------------------------------------------------- all selectors

  /** The in-tree selectors, each with the draw it makes: a seed or hash, or a unit draw in [0, 1]. */
  datatype ParentSelector =
    | LatestSelector
    | BestSelector
    | RandomSelector(draw: nat)
    | ScoreProportionalSelector(unit: real)
    | ScoreChildProportionalSelector(unit: real)

  /** The best of the nodes, the earlier one on a tie: what the loop of `Best` holds after them. */
  function BestOf(nodes: seq<AgentNode>): Option<AgentNode> {
    if nodes == [] then None
    else
      var best, n := BestOf(nodes[..|nodes| - 1]), nodes[|nodes| - 1];
      if !n.body.validParent then best
      else if best.Some? && ScoreOf(best.value) >= ScoreOf(n) then best
      else Some(n)
  }

  function IdOf(n: Option<AgentNode>): Option<string> {
    match n case None => None case Some(node) => Some(node.agentId)
  }

  /** `ParentSelector::select` over a snapshot of the ledger. */
  function SelectParent(selector: ParentSelector, nodes: seq<AgentNode>): Option<string> {
    match selector
    case LatestSelector => IdOf(Latest(nodes))
    case BestSelector => IdOf(BestOf(nodes))
    case RandomSelector(draw) =>
      var valid := Valid(nodes);
      if valid == [] then None else Some(valid[draw % |valid|].agentId)
    case ScoreProportionalSelector(unit) => Choose(ScoreWeights(nodes), unit)
    case ScoreChildProportionalSelector(unit) => Choose(ChildWeights(nodes, nodes), unit)
  }

  /** Node `i` is valid and nothing appended after it is. */
  ghost predicate LastValid(nodes: seq<AgentNode>, i: nat) {
    && i < |nodes| && nodes[i].body.validParent
    && forall j :: i < j < |nodes| ==> !nodes[j].body.validParent
  }

  /** `Latest` finds the valid node that was appended last, whenever there is one. */
  lemma {:induction false} LatestExact(nodes: seq<AgentNode>)
    ensures Latest(nodes).None? <==> forall n :: n in nodes ==> !n.body.validParent
    ensures Latest(nodes).Some? ==> exists i: nat :: LastValid(nodes, i) && Latest(nodes).value == nodes[i]
  {
    if nodes == [] {
    } else {
      var rest := nodes[..|nodes| - 1];
      LatestExact(rest);
      assert nodes == rest + [nodes[|nodes| - 1]];
      if nodes[|nodes| - 1].body.validParent {
        assert LastValid(nodes, |nodes| - 1);
      } else if Latest(rest).Some? {
        var i: nat :| LastValid(rest, i) && Latest(rest).value == rest[i];
        assert LastValid(nodes, i);
      }
    }
  }

  lemma KeepsBest(rest: seq<AgentNode>, n: AgentNode, i: nat)
    requires FirstBest(rest, i) && (!n.body.validParent || ScoreOf(rest[i]) >= ScoreOf(n))
    ensures FirstBest(rest + [n], i)
  {}

  lemma BeatsBest(rest: seq<AgentNode>, n: AgentNode)
    requires n.body.validParent
    requires forall j :: 0 <= j < |rest| && rest[j].body.validParent ==> ScoreOf(rest[j]) < ScoreOf(n)
    ensures FirstBest(rest + [n], |rest|)
  {}

  /** `BestOf` is the first valid node of maximal score, and there is none just when no node is valid. */
  lemma {:induction false} BestOfExact(nodes: seq<AgentNode>)
    ensures BestOf(nodes).None? ==> forall j :: 0 <= j < |nodes| ==> !nodes[j].body.validParent
    ensures BestOf(nodes).Some? ==> exists i: nat :: FirstBest(nodes, i) && BestOf(nodes).value == nodes[i]
  {
    if nodes == [] {
    } else {
      var rest, n := nodes[..|nodes| - 1], nodes[|nodes| - 1];
      BestOfExact(rest);
      assert nodes == rest + [n];
      if BestOf(rest).Some? {
        var i: nat :| FirstBest(rest, i) && BestOf(rest).value == rest[i];
        if !n.body.validParent || ScoreOf(rest[i]) >= ScoreOf(n) {
          KeepsBest(rest, n, i);
        } else {
          BeatsBest(rest, n);
        }
      } else if n.body.validParent {
        BeatsBest(rest, n);
      }
    }
  }

  /** The two weighted selectors choose among the valid nodes, in insertion order, by weights that are the scores,
      or the scores over one more than the children. */
  lemma WeightedSelection(nodes: seq<AgentNode>, unit: real)
    ensures exists w ::
              && NonNegative(w) && WeighsAs(w, Valid(nodes), ByScore())
              && SelectParent(ScoreProportionalSelector(unit), nodes) == Choose(w, unit)
    ensures exists w ::
              && NonNegative(w) && WeighsAs(w, Valid(nodes), ByScoreAndChildren(nodes))
              && SelectParent(ScoreChildProportionalSelector(unit), nodes) == Choose(w, unit)
  {
    WeighedByScore(nodes);
    WeighedByChildren(nodes);
  }

  lemma RandomSelects(nodes: seq<AgentNode>, draw: nat)
    requires Valid(nodes) != []
    ensures SelectParent(RandomSelector(draw), nodes) == Some(Valid(nodes)[draw % |Valid(nodes)|].agentId)
  {}

  lemma SameRestSelects(nodes: seq<AgentNode>, draw: nat, other: nat)
    requires Valid(nodes) != [] && draw % |Valid(nodes)| == other % |Valid(nodes)|
    ensures SelectParent(RandomSelector(draw), nodes) == SelectParent(RandomSelector(other), nodes)
  {
    RandomSelects(nodes, draw);
    RandomSelects(nodes, other);
  }

  /** `Random` goes round the valid nodes: draws below their number pick one each, in order. */
  lemma RandomSelection(nodes: seq<AgentNode>, i: nat)
    requires i < |Valid(nodes)|
    ensures SelectParent(RandomSelector(i), nodes) == Some(Valid(nodes)[i].agentId)
  {
    SmallRest(i, |Valid(nodes)|);
    RandomSelects(nodes, i);
  }

  /** Then it starts over. */
  lemma RandomRepeats(nodes: seq<AgentNode>, draw: nat)
    requires Valid(nodes) != []
    ensures SelectParent(RandomSelector(draw + |Valid(nodes)|), nodes) == SelectParent(RandomSelector(draw), nodes)
  {
    RestRepeats(draw, |Valid(nodes)|);
    SameRestSelects(nodes, draw + |Valid(nodes)|, draw);
  }

  /** `Best` and `Latest`, by what they select. */
  lemma ScanSelection(nodes: seq<AgentNode>, i: nat)
    ensures FirstBest(nodes, i) ==> SelectParent(BestSelector, nodes) == Some(nodes[i].agentId)
    ensures LastValid(nodes, i) ==> SelectParent(LatestSelector, nodes) == Some(nodes[i].agentId)
  {
    if FirstBest(nodes, i) {
      FirstBestUnique(nodes, i);
    }
    if LastValid(nodes, i) {
      LatestExact(nodes);
      assert nodes[i] in nodes;
      var j: nat :| LastValid(nodes, j) && Latest(nodes).value == nodes[j];
      assert i == j;
    }
  }

  /** Every in-tree selector fails exactly without a valid parent. */
  lemma SelectsUnlessBarren(selector: ParentSelector, nodes: seq<AgentNode>)
    ensures SelectParent(selector, nodes).None? <==> forall n :: n in nodes ==> !n.body.validParent
  {
    match selector
    case LatestSelector => LatestExact(nodes);
    case BestSelector =>
      BestOfExact(nodes);
      if BestOf(nodes).Some? {
        BestOfStored(nodes);
      }
    case RandomSelector(draw) => ValidEmpty(nodes);
    case ScoreProportionalSelector(_) =>
      WeightsOfValid(nodes, nodes);
      ValidEmpty(nodes);
    case ScoreChildProportionalSelector(_) =>
      WeightsOfValid(nodes, nodes);
      ValidEmpty(nodes);
  }

  /** Whatever an in-tree selector returns is the id of a stored valid parent. */
  lemma SelectedIsValidParent(selector: ParentSelector, nodes: seq<AgentNode>)
    ensures SelectParent(selector, nodes).Some? ==> ValidId(nodes, SelectParent(selector, nodes).value)
  {
    match selector
    case LatestSelector => LatestExact(nodes);
    case BestSelector => BestOfStored(nodes);
    case RandomSelector(draw) =>
      var valid := Valid(nodes);
      if valid != [] {
        assert valid[draw % |valid|] in valid;
      }
    case ScoreProportionalSelector(unit) =>
      ScoreWeightsGood(nodes);
      ChosenIsGood(ScoreWeights(nodes), unit, nodes);
    case ScoreChildProportionalSelector(unit) =>
      ChildWeightsGood(nodes, nodes);
      ChosenIsGood(ChildWeights(nodes, nodes), unit, nodes);
  }

  lemma BestOfStored(nodes: seq<AgentNode>)
    ensures BestOf(nodes).Some? ==> BestOf(nodes).value in nodes && BestOf(nodes).value.body.validParent
  {
    BestOfExact(nodes);
  }

  lemma ChosenIsGood(w: Weighted, unit: real, nodes: seq<AgentNode>)
    requires GoodWeights(w, nodes)
    ensures Choose(w, unit).Some? ==> ValidId(nodes, Choose(w, unit).value)
  {}

  /** `select`, by the code of each selector. */
  method Select(selector: ParentSelector, nodes: seq<AgentNode>) returns (r: Result<string>)
    ensures match SelectParent(selector, nodes) case None => r == Err(LedgerError) case Some(id) => r == Ok(id)
  {
    match selector
    case LatestSelector =>
      r := SelectLatest(nodes);
    case BestSelector =>
      ghost var at;
      r, at := Best(nodes);
      BestOfExact(nodes);
      if r.Ok? {
        FirstBestUnique(nodes, at);
      } else {
        assert forall j :: 0 <= j < |nodes| ==> nodes[j] in nodes;
      }
    case RandomSelector(draw) =>
      var valid := KeepValid(nodes);
      r := if valid == [] then Err(LedgerError) else Ok(valid[draw % |valid|].agentId);
    case ScoreProportionalSelector(unit) =>
      r := ScoreProportional(nodes, unit);
    case ScoreChildProportionalSelector(unit) =>
      r := ScoreChildProportional(nodes, unit);
  }

  lemma FirstBestUnique(nodes: seq<AgentNode>, at: nat)
    requires FirstBest(nodes, at)
    ensures BestOf(nodes) == Some(nodes[at])
  {
    BestOfExact(nodes);
    var i: nat :| BestOf(nodes).Some? && FirstBest(nodes, i) && BestOf(nodes).value == nodes[i];
    assert i == at;
  }
}
