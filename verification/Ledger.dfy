/** The in-memory lineage store (src/ledger.rs): its specification on values, and the mutable store proved against
    it. */
module Ledger {
  import opened Wrappers
  import opened Text
  import opened Node

  /** What a store holds: its nodes in insertion order, and the head. */
  datatype Lineage = Lineage(log: seq<AgentNode>, head: Option<string>)

  const EMPTY: Lineage := Lineage([], None)

  ghost predicate Stored(log: seq<AgentNode>, id: string) {
    exists i :: 0 <= i < |log| && log[i].agentId == id
  }

  /** The first node under `id`. */
  function Find(log: seq<AgentNode>, id: string): (r: Option<AgentNode>)
    ensures r.Some? ==> r.value in log && r.value.agentId == id
    ensures r.Some? <==> Stored(log, id)
  {
    if log == [] then None
    else if log[0].agentId == id then
      assert Stored(log, id) by { assert log[0].agentId == id; }
      Some(log[0])
    else
      var r := Find(log[1..], id);
      assert forall i :: 1 <= i < |log| ==> log[i] == log[1..][i - 1];
      assert Stored(log[1..], id) ==> Stored(log, id) by {
        if i :| 0 <= i < |log[1..]| && log[1..][i].agentId == id {
          assert log[i + 1].agentId == id;
        }
      }
      assert Stored(log, id) ==> Stored(log[1..], id) by {
        if i :| 0 <= i < |log| && log[i].agentId == id {
          assert log[1..][i - 1].agentId == id;
        }
      }
      r
  }

  /** `append`: refuses a known id; a Promoted node becomes the head. */
  function AppendNode(s: Lineage, node: AgentNode): Result<Lineage> {
    if Find(s.log, node.agentId).Some? then Err(LedgerError)
    else
      var head := if node.body.status == Promoted then Some(node.agentId) else s.head;
      Ok(Lineage(s.log + [node], head))
  }

  function GetNode(s: Lineage, id: string): Result<AgentNode> {
    match Find(s.log, id) case Some(node) => Ok(node) case None => Err(NotFound(id))
  }

  /** `set_head`: only to a stored id. */
  function MoveHead(s: Lineage, id: string): Result<Lineage> {
    if Find(s.log, id).Some? then Ok(s.(head := Some(id))) else Err(NotFound(id))
  }

  /** An append fails exactly for an id already stored; otherwise the node stands last, is what its id finds, and
      becomes the head if promoted, while every other id finds what it found. */
  lemma AppendExact(s: Lineage, node: AgentNode)
    ensures Stored(s.log, node.agentId) ==> AppendNode(s, node) == Err(LedgerError)
    ensures !Stored(s.log, node.agentId) ==>
              && AppendNode(s, node).Ok?
              && var t := AppendNode(s, node).value;
                 && t.log == s.log + [node]
                 && t.head == (if node.body.status == Promoted then Some(node.agentId) else s.head)
                 && Find(t.log, node.agentId) == Some(node)
                 && forall id :: id != node.agentId ==> Find(t.log, id) == Find(s.log, id)
  {
    if !Stored(s.log, node.agentId) {
      forall id ensures Find(s.log + [node], id) ==
                        if Stored(s.log, id) then Find(s.log, id) else if id == node.agentId then Some(node) else None
      {
        FindInExtended(s.log, node, id);
      }
    }
  }

  lemma {:induction false} FindInExtended(log: seq<AgentNode>, node: AgentNode, id: string)
    ensures Find(log + [node], id) ==
            if Find(log, id).Some? then Find(log, id) else if id == node.agentId then Some(node) else None
  {
    if log == [] {
      assert [node][1..] == [];
    } else {
      FindInExtended(log[1..], node, id);
      assert (log + [node])[1..] == log[1..] + [node];
    }
  }

  /** The head moves exactly to a stored id; a node is found exactly under a stored id. */
  lemma MoveExact(s: Lineage, id: string)
    ensures MoveHead(s, id) == if Stored(s.log, id) then Ok(Lineage(s.log, Some(id))) else Err(NotFound(id))
    ensures GetNode(s, id).Ok? <==> Stored(s.log, id)
    ensures GetNode(s, id).Ok? ==> GetNode(s, id).value in s.log && GetNode(s, id).value.agentId == id
    ensures GetNode(s, id).Err? ==> GetNode(s, id) == Err(NotFound(id))
  {}

  ghost predicate UniqueIds(log: seq<AgentNode>) {
    forall i, j :: 0 <= i < j < |log| ==> log[i].agentId != log[j].agentId
  }

  /** Among unique ids a stored node is the one found under its id. */
  lemma {:induction false} FindUnique(log: seq<AgentNode>, i: nat)
    requires UniqueIds(log) && i < |log|
    ensures Find(log, log[i].agentId) == Some(log[i])
  {
    if i == 0 {
    } else {
      FindUnique(log[1..], i - 1);
    }
  }

  /** What is found stays found, unchanged, however the log grows. */
  lemma {:induction false} FindGrows(log: seq<AgentNode>, more: seq<AgentNode>, id: string)
    requires Find(log, id).Some?
    ensures Find(log + more, id) == Find(log, id)
  {
    if log[0].agentId == id {
    } else {
      FindGrows(log[1..], more, id);
      assert (log + more)[1..] == log[1..] + more;
    }
  }

  // ---------------------------------------------------------------- the store

  /** The order lists exactly the map's keys, nodes sit under their own ids, and the head names a stored node. */
  ghost predicate Matching(nodes: map<string, AgentNode>, order: seq<string>, head: Option<string>) {
    && (forall id :: id in nodes <==> id in order)
    && (forall id :: id in nodes ==> nodes[id].agentId == id)
    && (head.Some? ==> head.value in nodes)
  }

  function InOrder(nodes: map<string, AgentNode>, order: seq<string>): (log: seq<AgentNode>)
    requires forall id :: id in order ==> id in nodes
    ensures |log| == |order| && forall i :: 0 <= i < |order| ==> log[i] == nodes[order[i]]
  {
    seq(|order|, i requires 0 <= i < |order| => nodes[order[i]])
  }

  /** Looking an id up in the map is searching the log for it. */
  lemma FindInMap(nodes: map<string, AgentNode>, order: seq<string>, head: Option<string>, id: string)
    requires Matching(nodes, order, head)
    ensures Find(InOrder(nodes, order), id) == if id in nodes then Some(nodes[id]) else None
    ensures Distinct(order) <==> UniqueIds(InOrder(nodes, order))
  {
    var log := InOrder(nodes, order);
    assert forall i :: 0 <= i < |log| ==> log[i].agentId == order[i];
    if id in nodes {
      var i :| 0 <= i < |order| && order[i] == id;
      assert Stored(log, id) by { assert log[i].agentId == id; }
    }
  }

  /** What both stores do with a node of a new id. */
  lemma Extended(nodes: map<string, AgentNode>, order: seq<string>, head: Option<string>, node: AgentNode)
    requires Matching(nodes, order, head) && node.agentId !in nodes
    ensures var nodes', order' := nodes[node.agentId := node], order + [node.agentId];
            var head' := if node.body.status == Promoted then Some(node.agentId) else head;
            && Matching(nodes', order', head')
            && InOrder(nodes', order') == InOrder(nodes, order) + [node]
            && (Distinct(order) ==> Distinct(order'))
  {
    var nodes', order' := nodes[node.agentId := node], order + [node.agentId];
    assert forall id :: id in order' ==> id in nodes';
    assert InOrder(nodes', order') == InOrder(nodes, order) + [node];
  }

  /** `InMemoryLineage`, its locked fields in the open: one method call is one critical section. */
  class InMemoryLineage {
    var nodes: map<string, AgentNode>
    var insertionOrder: seq<string>
    var head: Option<string>

    ghost predicate Valid()
      reads this
    {
      Matching(nodes, insertionOrder, head) && Distinct(insertionOrder)
    }

    ghost function State(): Lineage
      reads this
      requires Valid()
    {
      Lineage(InOrder(nodes, insertionOrder), head)
    }

    constructor ()
      ensures Valid() && State() == EMPTY
    {
      nodes := map[];
      insertionOrder := [];
      head := None;
    }

    method Append(node: AgentNode) returns (r: Result<()>)
      requires Valid()
      modifies this
      ensures Valid()
      ensures match AppendNode(old(State()), node)
              case Ok(s) => r == Ok(()) && State() == s
              case Err(e) => r == Err(e) && unchanged(this)
    {
      var id := node.agentId;
      FindInMap(nodes, insertionOrder, head, id);
      if id in nodes {
        return Err(LedgerError);
      }
      Extended(nodes, insertionOrder, head, node);
      insertionOrder := insertionOrder + [id];
      nodes := nodes[id := node];
      if node.body.status == Promoted {
        head := Some(id);
      }
      r := Ok(());
    }

    method Get(id: string) returns (r: Result<AgentNode>)
      requires Valid()
      ensures r == GetNode(State(), id)
    {
      FindInMap(nodes, insertionOrder, head, id);
      r := if id in nodes then Ok(nodes[id]) else Err(NotFound(id));
    }

    method Head() returns (r: Option<string>)
      requires Valid()
      ensures r == State().head
    {
      r := head;
    }

    method SetHead(id: string) returns (r: Result<()>)
      requires Valid()
      modifies this`head
      ensures Valid()
      ensures match MoveHead(old(State()), id)
              case Ok(s) => r == Ok(()) && State() == s
              case Err(e) => r == Err(e) && unchanged(this)
    {
      FindInMap(nodes, insertionOrder, head, id);
      if id !in nodes {
        return Err(NotFound(id));
      }
      head := Some(id);
      r := Ok(());
    }

    /** `nodes`: every stored node, in insertion order. */
    method Nodes() returns (all: seq<AgentNode>)
      requires Valid()
      ensures all == State().log
    {
      all := [];
      for i := 0 to |insertionOrder|
        invariant all == InOrder(nodes, insertionOrder)[..i]
      {
        var id := insertionOrder[i];
        if id in nodes {
          all := all + [nodes[id]];
        }
      }
    }
  }
}
