/** Ensemble selection (src/ensemble.rs): a stable descending top-k, and its agreement with the `Best` selector. */
module Ensemble {
  import opened Wrappers
  import opened Sorting
  import opened Node
  import opened Selector

  /** The comparison of `BestByMetric`: higher scores first. Scores read from JSON always compare. */
  predicate AtLeast(a: AgentNode, b: AgentNode) {
    ScoreOf(a) >= ScoreOf(b)
  }

  lemma AtLeastIsOrder()
    ensures TotalPreorder(AtLeast)
  {}

  function Ranked(nodes: seq<AgentNode>): seq<AgentNode> {
    Sort(AtLeast, Selector.Valid(nodes))
  }

  function Take(s: seq<AgentNode>, k: nat): seq<AgentNode> {
    if k <= |s| then s[..k] else s
  }

  function TopK(nodes: seq<AgentNode>, k: nat): seq<AgentNode> {
    Take(Ranked(nodes), k)
  }

  function IdsOf(nodes: seq<AgentNode>): seq<string> {
    seq(|nodes|, i requires 0 <= i < |nodes| => nodes[i].agentId)
  }

  method TakeIds(ranked: seq<AgentNode>, k: nat) returns (ids: seq<string>)
    ensures ids == IdsOf(Take(ranked, k))
  {
    ids := [];
    for i := 0 to |Take(ranked, k)|
      invariant |ids| == i && forall j :: 0 <= j < i ==> ids[j] == ranked[j].agentId
    {
      ids := ids + [ranked[i].agentId];
    }
  }

  /** `BestByMetric::select`. */
  method BestByMetric(nodes: seq<AgentNode>, k: nat) returns (ids: seq<string>)
    ensures ids == IdsOf(TopK(nodes, k))
    ensures |ids| == |TopK(nodes, k)| && forall i :: 0 <= i < |ids| ==> ids[i] == TopK(nodes, k)[i].agentId
  {
    var promoted := KeepValid(nodes);
    promoted := Sort(AtLeast, promoted);
    ids := TakeIds(promoted, k);
  }

  /** The ranking is a rearrangement of the valid nodes, best first, ties in insertion order. */
  lemma RankedExact(nodes: seq<AgentNode>, tie: AgentNode)
    ensures multiset(Ranked(nodes)) == multiset(Selector.Valid(nodes))
    ensures Sorted(AtLeast, Ranked(nodes))
    ensures Ties(AtLeast, tie, Ranked(nodes)) == Ties(AtLeast, tie, Selector.Valid(nodes))
  {
    AtLeastIsOrder();
    SortSorted(AtLeast, Selector.Valid(nodes));
    SortStable(AtLeast, tie, Selector.Valid(nodes));
  }

  /** No valid node left out outscores one taken, and between them they are all the valid nodes. */
  lemma TopKExcludes(nodes: seq<AgentNode>, k: nat)
    ensures var top, out := TopK(nodes, k), Ranked(nodes)[|TopK(nodes, k)|..];
            && multiset(top) + multiset(out) == multiset(Selector.Valid(nodes))
            && (forall n, m :: n in top && m in out ==> ScoreOf(m) <= ScoreOf(n))
  {
    var ranked, top := Ranked(nodes), TopK(nodes, k);
    AtLeastIsOrder();
    SortSorted(AtLeast, Selector.Valid(nodes));
    TakenAndLeft(ranked, k);
    SplitSorted(ranked, |top|);
  }

  lemma TakenAndLeft(s: seq<AgentNode>, k: nat)
    ensures |Take(s, k)| <= |s| && Take(s, k) == s[..|Take(s, k)|]
    ensures multiset(Take(s, k)) + multiset(s[|Take(s, k)|..]) == multiset(s)
  {
    var n := |Take(s, k)|;
    assert s == s[..n] + s[n..];
  }

  lemma SplitSorted(s: seq<AgentNode>, k: nat)
    requires Sorted(AtLeast, s) && k <= |s|
    ensures forall n, m :: n in s[..k] && m in s[k..] ==> ScoreOf(m) <= ScoreOf(n)
  {
    forall n, m | n in s[..k] && m in s[k..] ensures ScoreOf(m) <= ScoreOf(n) {
      var i :| 0 <= i < k && s[i] == n;
      var j :| 0 <= j < |s| - k && s[k..][j] == m;
      assert AtLeast(s[i], s[k + j]);
    }
  }

  /** The first `k`, no fewer than there are, best first; and a prefix of the first `k + 1`. */
  lemma TopKExact(nodes: seq<AgentNode>, k: nat)
    ensures var top, valid := TopK(nodes, k), Selector.Valid(nodes);
            && |top| == (if k <= |valid| then k else |valid|)
            && top <= TopK(nodes, k + 1)
            && Sorted(AtLeast, top)
  {
    AtLeastIsOrder();
    SortSorted(AtLeast, Selector.Valid(nodes));
  }

  lemma {:induction false} FirstBestLeadsTies(nodes: seq<AgentNode>, i: nat)
    requires FirstBest(nodes, i)
    ensures Ties(AtLeast, nodes[i], Selector.Valid(nodes)) != []
    ensures Ties(AtLeast, nodes[i], Selector.Valid(nodes))[0] == nodes[i]
  {
    if i == 0 {
    } else {
      var rest := nodes[1..];
      assert forall j :: 0 <= j < |rest| ==> rest[j] == nodes[j + 1];
      assert FirstBest(rest, i - 1);
      FirstBestLeadsTies(rest, i - 1);
      if nodes[0].body.validParent {
        assert ScoreOf(nodes[0]) < ScoreOf(nodes[i]);
        NoTieAhead(nodes[0], nodes[i], Selector.Valid(rest));
      }
    }
  }

  lemma NoTieAhead(worse: AgentNode, best: AgentNode, s: seq<AgentNode>)
    requires ScoreOf(worse) < ScoreOf(best)
    ensures Ties(AtLeast, best, [worse] + s) == Ties(AtLeast, best, s)
  {
    assert ([worse] + s)[1..] == s;
  }

  lemma {:induction false} TiesByScore(a: AgentNode, b: AgentNode, s: seq<AgentNode>)
    requires ScoreOf(a) == ScoreOf(b)
    ensures Ties(AtLeast, a, s) == Ties(AtLeast, b, s)
  {
    if s == [] {
    } else {
      TiesByScore(a, b, s[1..]);
    }
  }

  lemma {:induction false} ValidHasAll(nodes: seq<AgentNode>)
    ensures forall n :: n in Selector.Valid(nodes) <==> n in nodes && n.body.validParent
  {
    if nodes == [] {
    } else {
      ValidHasAll(nodes[1..]);
      assert forall n :: n in nodes <==> n == nodes[0] || n in nodes[1..];
    }
  }

  lemma FirstBestRanksFirst(nodes: seq<AgentNode>, i: nat)
    requires FirstBest(nodes, i)
    ensures Ranked(nodes) != [] && Ranked(nodes)[0] == nodes[i]
  {
    var ranked, best := Ranked(nodes), nodes[i];
    RankedExact(nodes, best);
    SameMultisetSameElements(ranked, Selector.Valid(nodes));
    ValidHasAll(nodes);
    assert best in ranked;
    var k :| 0 <= k < |ranked| && ranked[k] == best;
    assert ScoreOf(ranked[0]) >= ScoreOf(best);
    assert ranked[0] in ranked;
    assert ScoreOf(ranked[0]) <= ScoreOf(best);
    FirstBestLeadsTies(nodes, i);
    assert Ties(AtLeast, best, ranked)[0] == ranked[0];
  }

  lemma {:induction false} NoneValid(nodes: seq<AgentNode>)
    requires forall j :: 0 <= j < |nodes| ==> !nodes[j].body.validParent
    ensures Selector.Valid(nodes) == []
  {
    if nodes == [] {
    } else {
      NoneValid(nodes[1..]);
    }
  }

  /** The one-pass scan of `Best` and the sort of `BestByMetric::top_k(1)` name the same node. */
  lemma BestIsTopOne(nodes: seq<AgentNode>)
    ensures TopK(nodes, 1) == match BestOf(nodes) case None => [] case Some(n) => [n]
  {
    BestOfExact(nodes);
    if BestOf(nodes).Some? {
      var i: nat :| FirstBest(nodes, i) && BestOf(nodes).value == nodes[i];
      FirstBestRanksFirst(nodes, i);
    } else {
      NoneValid(nodes);
    }
  }
}
