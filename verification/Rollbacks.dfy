/** Signed rollbacks: what they restore, whatever happens around them, and through any number of rollbacks to
    rollbacks. */
module Rollbacks {
  import opened Wrappers
  import opened Json
  import opened Node
  import opened Ledger
  import opened Graph
  import opened Selector
  import opened Protocol
  import opened Invariant
  import opened Calls
  import opened Lineages

  // ---------------------------------------------------------------- chains of rollbacks

  /** The node a chain of rollbacks ends at, followed by the targets recorded in the signed intents. */
  function Base(log: seq<AgentNode>, i: nat): nat
    requires i < |log|
    decreases i
  {
    match RollbackTarget(log[i].body.intent)
    case None => i
    case Some(id) =>
      match IndexOf(log, id)
      case None => i
      case Some(j) => if j < i then Base(log, j) else i
  }

  /** No cycle claims to be a rollback: the goal "rollback" is left to `commit_rollback`. */
  ghost predicate NoForgedRollback(w: World) {
    && |w.made| == |w.ledger.log|
    && forall i :: 0 <= i < |w.made| && (w.made[i].FromCycle? || w.made[i].FromApproval?) ==>
         w.ledger.log[i].body.intent.goal != "rollback"
  }

  lemma RollbackIntentTarget(id: string)
    ensures RollbackTarget(RollbackIntent(id)) == Some(id)
  {
    assert Get(RollbackIntent(id).metadata, "rollback_target") == Some(Str(id));
  }

  /** The intent of a rollback names its target, which is stored earlier; no other intent names one. */
  lemma RollbackNamesTarget(v: Config, w: World, i: nat)
    requires LogOk(v, w) && NoForgedRollback(w) && i < |w.made|
    ensures w.made[i].FromRollback? ==>
              && w.made[i].targetAt < i
              && RollbackTarget(w.ledger.log[i].body.intent) == Some(w.ledger.log[w.made[i].targetAt].agentId)
              && IndexOf(w.ledger.log, w.ledger.log[w.made[i].targetAt].agentId) == Some(w.made[i].targetAt)
    ensures !w.made[i].FromRollback? ==> RollbackTarget(w.ledger.log[i].body.intent) == None
  {
    assert MadeAs(v, w, w.ledger.log[i], w.made[i], i);
    if w.made[i].FromRollback? {
      var at := w.made[i].targetAt;
      RollbackIntentTarget(w.ledger.log[at].agentId);
      IndexOfUnique(w.ledger.log, at);
    } else if w.made[i].FromRoot? {
      assert w.ledger.log[i].body.intent.goal == "genesis";
    }
  }

  /** Following the signed targets from any promoted node ends at a promoted node that is no rollback and has the
      very same artifact, scope and capabilities. */
  lemma {:induction false} BaseRestored(v: Config, w: World, i: nat)
    requires LogOk(v, w) && NoForgedRollback(w) && i < |w.ledger.log|
    requires w.ledger.log[i].body.status == Promoted
    ensures var b := Base(w.ledger.log, i);
            && b <= i
            && !w.made[b].FromRollback?
            && RollbackTarget(w.ledger.log[b].body.intent) == None
            && w.ledger.log[b].body.status == Promoted
            && w.ledger.log[b].body.artifact == w.ledger.log[i].body.artifact
            && w.ledger.log[b].body.scope == w.ledger.log[i].body.scope
            && w.ledger.log[b].capabilitySbom == w.ledger.log[i].capabilitySbom
    decreases i
  {
    RollbackNamesTarget(v, w, i);
    if w.made[i].FromRollback? {
      var at := w.made[i].targetAt;
      RollbackCopies(v, w, i);
      BaseRestored(v, w, at);
      assert Base(w.ledger.log, i) == Base(w.ledger.log, at);
    }
  }

  lemma RollbackCopies(v: Config, w: World, i: nat)
    requires LogOk(v, w) && i < |w.made| && w.made[i].FromRollback?
    ensures var at := w.made[i].targetAt;
            && at < i && w.ledger.log[at].body.status == Promoted
            && w.ledger.log[at].body.artifact == w.ledger.log[i].body.artifact
            && w.ledger.log[at].body.scope == w.ledger.log[i].body.scope
            && w.ledger.log[at].capabilitySbom == w.ledger.log[i].capabilitySbom
  {
    var at := w.made[i].targetAt;
    assert MadeAs(v, w, w.ledger.log[i], w.made[i], i) && MadeAs(v, w, w.ledger.log[at], w.made[at], at);
  }

  /** The same over every run. */
  lemma RollbackChainsRestore(v: Config, run: seq<Event>, i: nat)
    requires Genuine(v.signer) && NoForgedRollback(Run(v, run))
    requires i < |Run(v, run).ledger.log| && Run(v, run).ledger.log[i].body.status == Promoted
    ensures var log := Run(v, run).ledger.log;
            var b := Base(log, i);
            && b <= i && RollbackTarget(log[b].body.intent) == None && log[b].body.status == Promoted
            && log[b].body.artifact == log[i].body.artifact && log[b].body.scope == log[i].body.scope
  {
    RunKeeps(v, run);
    BaseRestored(v, Run(v, run), i);
  }

  // ---------------------------------------------------------------- which head a rollback was put on

  /** A rollback in the log comes from a call of `commit_rollback` with its target and timestamp, and its parent was
      the head at some step from that call on and before the append: up to and including that step it was not in the
      log. It holds the target's artifact and scope. */
  lemma RollbackParentWasHead(v: Config, run: seq<Event>, i: nat)
    requires Genuine(v.signer)
    requires i < |Run(v, run).made| == |Run(v, run).ledger.log| && Run(v, run).made[i].FromRollback?
    ensures var w, origin := Run(v, run), Run(v, run).made[i];
            && origin.called <= origin.seen < |run|
            && origin.targetAt < i
            && run[origin.called] ==
               CallRollback(origin.task, w.ledger.log[origin.targetAt].agentId, w.ledger.log[i].body.createdAt)
            && Run(v, run[..origin.seen]).ledger.head == w.ledger.log[i].body.parentId
            && (forall n :: 0 <= n <= |run| && i < |Run(v, run[..n]).ledger.log| ==> origin.seen < n)
    ensures var w, origin := Run(v, run), Run(v, run).made[i];
            && origin.targetAt < i
            && w.ledger.log[i].body.artifact == w.ledger.log[origin.targetAt].body.artifact
            && w.ledger.log[i].body.scope == w.ledger.log[origin.targetAt].body.scope
  {
    RunKeeps(v, run);
    HeadsRecorded(v, run);
    var w := Run(v, run);
    var origin := w.made[i];
    assert MadeAs(v, w, w.ledger.log[i], origin, i);
    CallNamesTarget(v, run, i);
    forall n | 0 <= n <= |run| && i < |Run(v, run[..n]).ledger.log| ensures origin.seen < n {
      SeenBefore(v, run, n, i);
    }
  }

  lemma CallNamesTarget(v: Config, run: seq<Event>, i: nat)
    requires Genuine(v.signer)
    requires i < |Run(v, run).made| == |Run(v, run).ledger.log| && Run(v, run).made[i].FromRollback?
    ensures var w, origin := Run(v, run), Run(v, run).made[i];
            && origin.targetAt < i && origin.called < |run|
            && run[origin.called] ==
               CallRollback(origin.task, w.ledger.log[origin.targetAt].agentId, w.ledger.log[i].body.createdAt)
  {
    RunKeeps(v, run);
    RunCalled(v, run);
    var w := Run(v, run);
    var node, origin := w.ledger.log[i], w.made[i];
    assert MadeAs(v, w, node, origin, i) && CommitCalled(v, run, node, origin);
    var id :|
      CalledAt(run, origin.called, origin.task, id, node.body.createdAt) && node.body.intent == RollbackIntent(id);
    RollbackIntentTarget(id);
    RollbackIntentTarget(w.ledger.log[origin.targetAt].agentId);
  }

  lemma SeenBefore(v: Config, run: seq<Event>, n: nat, i: nat)
    requires Genuine(v.signer) && n <= |run| && i < |Run(v, run[..n]).ledger.log|
    requires i < |Run(v, run).made| && Run(v, run).made[i].FromRollback?
    ensures Run(v, run).made[i].seen < n
  {
    RunKeeps(v, run[..n]);
    HeadsRecorded(v, run[..n]);
    RunGrows(v, run, n);
    var w := Run(v, run[..n]);
    assert MadeAs(v, w, w.ledger.log[i], w.made[i], i);
  }
}
