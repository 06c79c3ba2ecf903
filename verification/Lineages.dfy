/** What holds along whole lineages: their shape, where capabilities come from, and that scores rise. */
module Lineages {
  import opened Wrappers
  import opened Json
  import opened Score
  import opened Node
  import opened Policy
  import opened Sbom
  import opened Ledger
  import opened Graph
  import opened Selector
  import opened Protocol
  import opened Invariant
  import opened Parents

  /** Where the node at `i` says its parent is. */
  function ParentIndex(log: seq<AgentNode>, i: nat): Option<nat>
    requires i < |log|
  {
    match log[i].body.parentId case None => None case Some(id) => IndexOf(log, id)
  }

  lemma IndexOfUnique(log: seq<AgentNode>, i: nat)
    requires UniqueIds(log) && i < |log|
    ensures IndexOf(log, log[i].agentId) == Some(i)
  {
    FindUnique(log, i);
  }

  /** The parent recorded for a node, when it is known. */
  function RecordedParent(origin: Origin): Option<nat> {
    match origin
    case FromRoot(_) => None
    case FromCycle(_, _, at) => at
    case FromApproval(_, _, _, at) => at
    case FromRollback(_, _, headAt, _, _) => Some(headAt)
  }

  /** Only roots lack a parent; every other node's parent id names an earlier, promoted node, one generation above. */
  lemma ParentsAreEarlier(v: Config, w: World, i: nat)
    requires LogOk(v, w) && ParentsKnown(w) && i < |w.ledger.log|
    ensures w.made[i].FromRoot? <==> w.ledger.log[i].body.parentId == None
    ensures w.made[i].FromRoot? ==> w.ledger.log[i].body.generation == 0
    ensures !w.made[i].FromRoot? ==>
              && RecordedParent(w.made[i]).Some?
              && ParentIndex(w.ledger.log, i) == RecordedParent(w.made[i])
              && var j := RecordedParent(w.made[i]).value;
                 && j < i && w.ledger.log[j].body.status == Promoted
                 && w.ledger.log[i].body.generation == NextGeneration(w.ledger.log[j].body.generation)
  {
    var log := w.ledger.log;
    assert MadeAs(v, w, log[i], w.made[i], i) && Known(w.made[i]);
    if !w.made[i].FromRoot? {
      var j := RecordedParent(w.made[i]).value;
      assert j < i && log[i].body.parentId == Some(log[j].agentId);
      assert MadeAs(v, w, log[j], w.made[j], j);
      IndexOfUnique(log, j);
    }
  }

  // ---------------------------------------------------------------- shape

  /** The length of the parent path from `i` to a root. */
  function Depth(log: seq<AgentNode>, i: nat): nat
    requires i < |log|
    decreases i
  {
    match ParentIndex(log, i)
    case None => 0
    case Some(j) => if j < i then 1 + Depth(log, j) else 0
  }

  /** The parent, if any, is stored earlier and one generation above; without one the generation is zero. */
  ghost predicate DescendsAt(log: seq<AgentNode>, i: nat)
    requires i < |log|
  {
    match ParentIndex(log, i)
    case None => log[i].body.parentId == None && log[i].body.generation == 0
    case Some(j) => j < i && log[i].body.generation == NextGeneration(log[j].body.generation)
  }

  ghost predicate Descending(log: seq<AgentNode>) {
    forall i: nat :: i < |log| ==> DescendsAt(log, i)
  }

  lemma LogDescends(v: Config, w: World)
    requires LogOk(v, w) && ParentsKnown(w)
    ensures Descending(w.ledger.log)
  {
    forall i: nat | i < |w.ledger.log| ensures DescendsAt(w.ledger.log, i) {
      ParentsAreEarlier(v, w, i);
    }
  }

  /** The number that a `u32` counter shows. */
  ghost predicate Counts(g: U32, depth: nat) {
    g == depth % U32_RANGE
  }

  lemma DepthOver(log: seq<AgentNode>, i: nat, j: nat)
    requires i < |log| && ParentIndex(log, i) == Some(j) && j < i
    ensures Depth(log, i) == 1 + Depth(log, j)
  {}

  lemma {:induction false} DepthCounted(log: seq<AgentNode>, i: nat)
    requires Descending(log) && i < |log|
    ensures Counts(log[i].body.generation, Depth(log, i)) && Depth(log, i) <= i
    decreases i
  {
    assert DescendsAt(log, i);
    match ParentIndex(log, i)
    case None =>
    case Some(j) =>
      DepthCounted(log, j);
      DepthOver(log, i, j);
      NextWraps(log[j].body.generation, Depth(log, j));
  }

  /** The generation is the depth as a `u32` counts it, and the depth is at most the insertion index. */
  lemma GenerationIsDepth(v: Config, run: seq<Event>, i: nat)
    requires Genuine(v.signer) && Disciplined(v, run) && i < |Run(v, run).ledger.log|
    ensures var log := Run(v, run).ledger.log;
            log[i].body.generation == Depth(log, i) % U32_RANGE && Depth(log, i) <= i
  {
    RunKnown(v, run);
    LogDescends(v, Run(v, run));
    DepthCounted(Run(v, run).ledger.log, i);
  }

  lemma NextWraps(g: U32, depth: nat)
    requires Counts(g, depth)
    ensures Counts(NextGeneration(g), depth + 1)
  {
    if g + 1 == U32_RANGE {
      assert depth + 1 == (depth / U32_RANGE + 1) * U32_RANGE;
    }
  }

  lemma CountsSmall(g: U32, depth: nat, bound: int)
    requires g == depth % U32_RANGE && depth < bound <= U32_RANGE
    ensures g == depth
    ensures bound < U32_RANGE ==> NextGeneration(g) == g + 1
  {}

  lemma ShapeOf(log: seq<AgentNode>, i: nat)
    requires Descending(log) && i < |log| <= U32_RANGE
    ensures log[i].body.generation == Depth(log, i) <= i
    ensures log[i].body.parentId.Some? ==> ParentIndex(log, i).Some? && ParentIndex(log, i).value < i
    ensures |log| < U32_RANGE ==> NextGeneration(log[i].body.generation) == log[i].body.generation + 1
  {
    assert DescendsAt(log, i);
    DepthCounted(log, i);
    CountsSmall(log[i].body.generation, Depth(log, i), |log|);
  }

  /** In any disciplined run: every parent is stored earlier, the generation is the exact depth and at most the
      insertion index while the ledger has at most 2^32 nodes, and as long as it has fewer `generation + 1` does not
      overflow. */
  lemma LineageShape(v: Config, run: seq<Event>, i: nat)
    requires Genuine(v.signer) && Disciplined(v, run)
    requires i < |Run(v, run).ledger.log| <= U32_RANGE
    ensures var log := Run(v, run).ledger.log;
            && log[i].body.generation == Depth(log, i) <= i
            && (log[i].body.parentId.Some? ==> ParentIndex(log, i).Some? && ParentIndex(log, i).value < i)
            && (|log| < U32_RANGE ==> NextGeneration(log[i].body.generation) == log[i].body.generation + 1)
  {
    RunKnown(v, run);
    LogDescends(v, Run(v, run));
    ShapeOf(Run(v, run).ledger.log, i);
  }

  /** A promotion by a cycle or an approval respects its parent's generation cap. Rollbacks are not gated. */
  lemma CapRespected(v: Config, run: seq<Event>, i: nat)
    requires Genuine(v.signer) && Disciplined(v, run)
    requires i < |Run(v, run).made| == |Run(v, run).ledger.log|
    requires Run(v, run).ledger.log[i].body.status == Promoted
    requires Run(v, run).made[i].FromCycle? || Run(v, run).made[i].FromApproval?
    ensures var log := Run(v, run).ledger.log;
            && ParentIndex(log, i).Some?
            && var cap := log[ParentIndex(log, i).value].body.scope.maxGeneration;
               cap.Some? ==> log[i].body.generation <= cap.value
  {
    RunKnown(v, run);
    var w := Run(v, run);
    ParentsAreEarlier(v, w, i);
    assert MadeAs(v, w, w.ledger.log[i], w.made[i], i);
  }

  /** Over every run each root is one as the runner makes them: promoted, a valid parent, successful, with no past. */
  lemma RootsArePromoted(v: Config, run: seq<Event>, i: nat)
    requires Genuine(v.signer) && i < |Run(v, run).made| == |Run(v, run).ledger.log|
    requires Run(v, run).made[i].FromRoot?
    ensures var body := Run(v, run).ledger.log[i].body; IsRoot(body, body.artifact, body.scope, body.createdAt)
  {
    RunKeeps(v, run);
    var w := Run(v, run);
    assert MadeAs(v, w, w.ledger.log[i], w.made[i], i);
  }

  /** `eval_results` is documented as absent for roots only. Over every run it is absent exactly for roots and signed
      rollbacks. */
  lemma UnevaluatedExactly(v: Config, run: seq<Event>, i: nat)
    requires Genuine(v.signer) && i < |Run(v, run).made| == |Run(v, run).ledger.log|
    ensures Run(v, run).ledger.log[i].body.evalResults == None <==>
            Run(v, run).made[i].FromRoot? || Run(v, run).made[i].FromRollback?
  {
    RunKeeps(v, run);
    var w := Run(v, run);
    assert MadeAs(v, w, w.ledger.log[i], w.made[i], i);
  }

  // ---------------------------------------------------------------- scores

  /** With the strict rule on, a promoted node with a stored score beats its parent whenever that has one too;
      approval makes no exception. */
  lemma ScoresRise(v: Config, w: World, i: nat)
    requires LogOk(v, w) && ParentsKnown(w) && v.strict && i < |w.ledger.log|
    requires w.ledger.log[i].body.status == Promoted
    ensures var log := w.ledger.log;
            ParentIndex(log, i).Some? && StoredScore(log[i].body.evalResults).Some?
            && StoredScore(log[ParentIndex(log, i).value].body.evalResults).Some? ==>
              StoredScore(log[ParentIndex(log, i).value].body.evalResults).value <
              StoredScore(log[i].body.evalResults).value
  {
    ParentsAreEarlier(v, w, i);
    assert MadeAs(v, w, w.ledger.log[i], w.made[i], i);
  }

  /** A parent path: each node followed by its parent. */
  ghost predicate ParentPath(log: seq<AgentNode>, path: seq<nat>) {
    && (forall k :: 0 <= k < |path| ==> path[k] < |log|)
    && (forall k :: 0 <= k < |path| - 1 ==> ParentIndex(log, path[k]) == Some(path[k + 1]))
  }

  ghost predicate AllScored(log: seq<AgentNode>, path: seq<nat>) {
    forall k :: 0 <= k < |path| ==>
      path[k] < |log| && log[path[k]].body.status == Promoted && StoredScore(log[path[k]].body.evalResults).Some?
  }

  /** Along every parent path of scored promoted nodes scores strictly increase towards the descendant, however long
      it is. */
  lemma {:induction false} ScoresRiseAlongPaths(v: Config, run: seq<Event>, path: seq<nat>)
    requires Genuine(v.signer) && Disciplined(v, run) && v.strict
    requires |path| >= 2 && ParentPath(Run(v, run).ledger.log, path) && AllScored(Run(v, run).ledger.log, path)
    ensures var log := Run(v, run).ledger.log;
            StoredScore(log[path[|path| - 1]].body.evalResults).value < StoredScore(log[path[0]].body.evalResults).value
  {
    RunKnown(v, run);
    var w := Run(v, run);
    PathRises(v, w, path);
  }

  lemma {:induction false} PathRises(v: Config, w: World, path: seq<nat>)
    requires LogOk(v, w) && ParentsKnown(w) && v.strict
    requires |path| >= 2 && ParentPath(w.ledger.log, path) && AllScored(w.ledger.log, path)
    ensures StoredScore(w.ledger.log[path[|path| - 1]].body.evalResults).value <
            StoredScore(w.ledger.log[path[0]].body.evalResults).value
  {
    ScoresRise(v, w, path[0]);
    assert ParentIndex(w.ledger.log, path[0]) == Some(path[1]);
    if |path| > 2 {
      var rest := path[1..];
      assert forall k :: 0 <= k < |rest| ==> rest[k] == path[k + 1];
      PathRises(v, w, rest);
    }
  }

  // ---------------------------------------------------------------- capabilities

  /** One step back in a capability's history: to the parent of a cycle, or to the target of a rollback. */
  ghost predicate TracesTo(w: World, i: nat, j: nat) {
    && i < |w.made|
    && match w.made[i]
       case FromCycle(_, _, at) => at == Some(j)
       case FromRollback(_, targetAt, _, _, _) => j == targetAt
       case _ => false
  }

  /** Where a capability may begin: a root that holds it, an approval, or a cycle whose parent's scope lists it. */
  ghost predicate CapabilityOrigin(w: World, i: nat, c: string) {
    && i < |w.made| == |w.ledger.log|
    && match w.made[i]
       case FromRoot(_) => true
       case FromApproval(_, _, _, _) => true
       case FromCycle(_, _, at) => at.Some? && at.value < i && CapabilityInScope(c, w.ledger.log[at.value].body.scope)
       case FromRollback(_, _, _, _, _) => false
  }

  /** Promoted nodes, each holding `c`, from a node back to where `c` began. */
  ghost predicate CapabilityPath(w: World, path: seq<nat>, c: string) {
    && path != []
    && (forall k :: 0 <= k < |path| ==>
          && path[k] < |w.ledger.log| && w.ledger.log[path[k]].body.status == Promoted
          && c in w.ledger.log[path[k]].capabilitySbom)
    && (forall k :: 0 <= k < |path| - 1 ==> path[k + 1] < path[k] && TracesTo(w, path[k], path[k + 1]))
    && CapabilityOrigin(w, path[|path| - 1], c)
  }

  lemma {:induction false} FindCapabilityPath(v: Config, w: World, i: nat, c: string) returns (path: seq<nat>)
    requires LogOk(v, w) && ParentsKnown(w) && i < |w.ledger.log|
    requires w.ledger.log[i].body.status == Promoted && c in w.ledger.log[i].capabilitySbom
    ensures CapabilityPath(w, path, c) && path[0] == i
    decreases i
  {
    ParentsAreEarlier(v, w, i);
    assert MadeAs(v, w, w.ledger.log[i], w.made[i], i);
    match w.made[i]
    case FromRoot(_) => path := [i];
    case FromApproval(_, _, _, _) => path := [i];
    case FromCycle(_, _, at) =>
      if CapabilityInScope(c, w.ledger.log[at.value].body.scope) {
        path := [i];
      } else {
        var rest := FindCapabilityPath(v, w, at.value, c);
        path := PathExtends(w, i, rest, c);
      }
    case FromRollback(_, targetAt, _, _, _) =>
      assert MadeAs(v, w, w.ledger.log[targetAt], w.made[targetAt], targetAt);
      var rest := FindCapabilityPath(v, w, targetAt, c);
      path := PathExtends(w, i, rest, c);
  }

  lemma PathExtends(w: World, i: nat, rest: seq<nat>, c: string) returns (path: seq<nat>)
    requires CapabilityPath(w, rest, c) && i < |w.ledger.log| && rest[0] < i && TracesTo(w, i, rest[0])
    requires w.ledger.log[i].body.status == Promoted && c in w.ledger.log[i].capabilitySbom
    ensures CapabilityPath(w, path, c) && path[0] == i
  {
    path := [i] + rest;
  }

  /** Every capability of every promoted node, in every disciplined run, traces back through parents and rollback
      targets, all promoted and all holding it, to a root that holds it, an approved node, or a node whose parent's
      scope lists it. */
  lemma CapabilityProvenance(v: Config, run: seq<Event>, i: nat, c: string)
    requires Genuine(v.signer) && Disciplined(v, run)
    requires i < |Run(v, run).ledger.log|
    requires Run(v, run).ledger.log[i].body.status == Promoted && c in Run(v, run).ledger.log[i].capabilitySbom
    ensures exists path :: CapabilityPath(Run(v, run), path, c) && path[0] == i
  {
    RunKnown(v, run);
    var path := FindCapabilityPath(v, Run(v, run), i, c);
  }

  /** One root, scopes handed down unchanged, nothing approved out of band. */
  ghost predicate OneUnattendedFamily(w: World) {
    && |w.made| == |w.ledger.log|
    && (forall i :: 1 <= i < |w.made| ==> !w.made[i].FromRoot?)
    && (forall i :: 0 <= i < |w.made| ==> !w.made[i].FromApproval?)
    && (forall i :: 0 <= i < |w.made| && w.made[i].FromCycle? ==>
          w.ledger.log[i].body.scope == w.made[i].parent.body.scope)
  }

  lemma {:induction false} ScopeIsTheRoots(v: Config, w: World, i: nat)
    requires LogOk(v, w) && ParentsKnown(w) && OneUnattendedFamily(w) && i < |w.ledger.log|
    ensures w.ledger.log[i].body.scope == w.ledger.log[0].body.scope
    decreases i
  {
    ParentsAreEarlier(v, w, i);
    assert MadeAs(v, w, w.ledger.log[i], w.made[i], i);
    match w.made[i]
    case FromRoot(_) =>
    case FromCycle(_, _, at) => ScopeIsTheRoots(v, w, at.value);
    case FromRollback(_, targetAt, _, _, _) => ScopeIsTheRoots(v, w, targetAt);
    case FromApproval(_, _, _, _) =>
  }

  /** In such a family no promoted node ever holds a capability that the root neither held nor listed. */
  lemma FamilyStaysInScope(v: Config, run: seq<Event>, i: nat, c: string)
    requires Genuine(v.signer) && Disciplined(v, run) && OneUnattendedFamily(Run(v, run))
    requires i < |Run(v, run).ledger.log|
    requires Run(v, run).ledger.log[i].body.status == Promoted && c in Run(v, run).ledger.log[i].capabilitySbom
    ensures var root := Run(v, run).ledger.log[0];
            c in root.capabilitySbom || CapabilityInScope(c, root.body.scope)
  {
    RunKnown(v, run);
    FamilyOrigin(v, Run(v, run), i, c);
  }

  lemma FamilyOrigin(v: Config, w: World, i: nat, c: string)
    requires LogOk(v, w) && ParentsKnown(w) && OneUnattendedFamily(w) && i < |w.ledger.log|
    requires w.ledger.log[i].body.status == Promoted && c in w.ledger.log[i].capabilitySbom
    ensures c in w.ledger.log[0].capabilitySbom || CapabilityInScope(c, w.ledger.log[0].body.scope)
  {
    var path := FindCapabilityPath(v, w, i, c);
    var last := path[|path| - 1];
    assert CapabilityOrigin(w, last, c);
    if w.made[last].FromCycle? {
      ScopeIsTheRoots(v, w, w.made[last].parentAt.value);
    }
  }
}
