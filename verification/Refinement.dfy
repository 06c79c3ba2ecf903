/** Calls that run alone: with nothing in between, the steps of a call do to the ledger what the runner's method
    does. */
module Refinement {
  import opened Wrappers
  import opened Node
  import opened Ledger
  import opened Graph
  import opened Selector
  import opened Protocol

  /** With nothing in between, the steps of a cycle do to the ledger what `Veh.RunCycle` does. */
  lemma CycleAlone(v: Config, w: World, t: nat, inputs: CycleInputs, diff: string, eval: EvalResult)
    requires Unused(w, t)
    ensures var w' := Step(v, Step(v, Step(v, w, CallCycle(t, inputs)), Gate(t, diff, Some(eval))), DoAppend(t));
            exists r :: CycleEnds(v, w.ledger, w'.ledger, Judge(v, inputs, diff, eval), eval, r)
  {
    AloneBegins(v, w, t, inputs);
    JudgedAlone(v, Step(v, w, CallCycle(t, inputs)), t, diff, eval);
  }

  /** The same from where the driver's cycles begin: a call that waits for its gate step. */
  lemma JudgedAlone(v: Config, w: World, t: nat, diff: string, eval: EvalResult)
    requires At(w, t) && w.tasks[t].Cycling?
    ensures var w' := Step(v, Step(v, w, Gate(t, diff, Some(eval))), DoAppend(t));
            exists r :: CycleEnds(v, w.ledger, w'.ledger, Judge(v, w.tasks[t].inputs, diff, eval), eval, r)
  {
    var w2 := Step(v, w, Gate(t, diff, Some(eval)));
    var w3 := Step(v, w2, DoAppend(t));
    AloneJudged(v, w, t, diff, eval);
    var verdict := Judge(v, w.tasks[t].inputs, diff, eval);
    match verdict
    case Promoting(commit) =>
      var node := v.signer.sign(commit, v.key);
      AloneAppends(v, w2, t, node);
      var r := match AppendNode(w.ledger, node) case Ok(_) => Ok(CyclePromoted(node, eval)) case Err(e) => Err(e);
      assert CycleEnds(v, w.ledger, w3.ledger, verdict, eval, r);
    case Rejecting(commit) =>
      var node := v.signer.sign(commit, v.key);
      AloneAppends(v, w2, t, node);
      var r := match AppendNode(w.ledger, node) case Ok(_) => Ok(CycleRejected(node)) case Err(e) => Err(e);
      assert CycleEnds(v, w.ledger, w3.ledger, verdict, eval, r);
    case Pausing(pending) =>
      AloneIsOver(v, w2, t);
      assert CycleEnds(v, w.ledger, w3.ledger, verdict, eval, Ok(AwaitingApproval(pending)));
  }

  /** An evaluator that fails ends the cycle and leaves the ledger alone. */
  lemma FailedEvaluationAlone(v: Config, w: World, t: nat, diff: string)
    requires At(w, t) && w.tasks[t].Cycling?
    ensures var w' := Step(v, w, Gate(t, diff, None)); w'.ledger == w.ledger && w'.done == w.done[t := Failed]
  {}

  /** The two steps with which the driver begins a cycle: the parent is the node stored under the id that the selector
      returns, the candidate is the proposal; without a selection, a stored node or a proposal the call is over. */
  lemma GenerationAlone(v: Config, w: World, t: nat, selector: ParentSelector, intent: MutationIntent,
                        scope: AllowedScope, createdAt: string, proposal: Option<Artifact>)
    requires Unused(w, t)
    ensures var w' := Step(v, Step(v, w, CallGeneration(t, selector)),
                           ReadSelected(t, intent, scope, createdAt, proposal));
            && w'.ledger == w.ledger
            && match SelectParent(selector, w.ledger.log)
               case None => !At(w', t)
               case Some(id) =>
                 match Find(w.ledger.log, id)
                 case None => !At(w', t)
                 case Some(parent) =>
                   if proposal == None then !At(w', t)
                   else
                     && At(w', t) && w'.tasks[t].Cycling?
                     && w'.tasks[t].inputs == CycleInputs(parent, intent, proposal.value, scope, createdAt)
  {
    AloneSelects(v, w, t, selector);
    var w1 := Step(v, w, CallGeneration(t, selector));
    if At(w1, t) {
      AloneFetches(v, w1, t, intent, scope, createdAt, proposal);
    } else {
      AloneSkips(v, w1, t, intent, scope, createdAt, proposal);
    }
  }

  lemma AloneSelects(v: Config, w: World, t: nat, selector: ParentSelector)
    requires Unused(w, t)
    ensures var w' := Step(v, w, CallGeneration(t, selector));
            && w'.ledger == w.ledger
            && match SelectParent(selector, w.ledger.log)
               case None => !At(w', t)
               case Some(id) => At(w', t) && w'.tasks[t] == Selected(id)
  {}

  lemma AloneFetches(v: Config, w: World, t: nat, intent: MutationIntent, scope: AllowedScope, createdAt: string,
                     proposal: Option<Artifact>)
    requires At(w, t) && w.tasks[t].Selected?
    ensures var w' := Step(v, w, ReadSelected(t, intent, scope, createdAt, proposal));
            && w'.ledger == w.ledger
            && match Find(w.ledger.log, w.tasks[t].parentId)
               case None => !At(w', t)
               case Some(parent) =>
                 if proposal == None then !At(w', t)
                 else
                   && At(w', t) && w'.tasks[t].Cycling?
                   && w'.tasks[t].inputs == CycleInputs(parent, intent, proposal.value, scope, createdAt)
  {}

  lemma AloneSkips(v: Config, w: World, t: nat, intent: MutationIntent, scope: AllowedScope, createdAt: string,
                   proposal: Option<Artifact>)
    requires !At(w, t)
    ensures var w' := Step(v, w, ReadSelected(t, intent, scope, createdAt, proposal));
            w'.ledger == w.ledger && !At(w', t)
  {}

  /** The two steps of a root are `Veh.CommitRoot`. */
  lemma RootAlone(v: Config, w: World, t: nat, artifact: Artifact, scope: AllowedScope, createdAt: string)
    requires Unused(w, t)
    ensures var w' := Step(v, Step(v, w, CallRoot(t, artifact, scope, createdAt)), DoAppend(t));
            var node := v.signer.sign(RootCommit(artifact, scope, createdAt), v.key);
            exists r :: Appends(w.ledger, w'.ledger, node, r)
  {
    var w1 := Step(v, w, CallRoot(t, artifact, scope, createdAt));
    var node := v.signer.sign(RootCommit(artifact, scope, createdAt), v.key);
    AloneRoots(v, w, t, artifact, scope, createdAt);
    AloneCommitted(v, w1, t, node);
  }

  lemma AloneRoots(v: Config, w: World, t: nat, artifact: Artifact, scope: AllowedScope, createdAt: string)
    requires Unused(w, t)
    ensures var w' := Step(v, w, CallRoot(t, artifact, scope, createdAt));
            && w'.ledger == w.ledger && At(w', t) && w'.tasks[t].Committing?
            && w'.tasks[t].node == v.signer.sign(RootCommit(artifact, scope, createdAt), v.key)
  {}

  /** The two steps of a resumption are `Veh.ResumeWithApproval` on what the pause captured. */
  lemma ResumeAlone(v: Config, w: World, t: nat, p: nat, key: string)
    requires Unused(w, t) && p in w.paused && p !in w.resumed
    ensures var w' := Step(v, Step(v, w, CallResume(t, p, key)), DoAppend(t));
            exists r :: Appends(w.ledger, w'.ledger, v.signer.sign(ResumeCommit(w.paused[p].pending), key), r)
  {
    AloneResumes(v, w, t, p, key);
    AloneCommitted(v, Step(v, w, CallResume(t, p, key)), t, v.signer.sign(ResumeCommit(w.paused[p].pending), key));
  }

  lemma AloneResumes(v: Config, w: World, t: nat, p: nat, key: string)
    requires Unused(w, t) && p in w.paused && p !in w.resumed
    ensures var w' := Step(v, w, CallResume(t, p, key));
            && w'.ledger == w.ledger && At(w', t) && w'.tasks[t].Committing?
            && w'.tasks[t].node == v.signer.sign(ResumeCommit(w.paused[p].pending), key)
  {}

  lemma AloneCommitted(v: Config, w: World, t: nat, node: AgentNode)
    requires At(w, t) && w.tasks[t].Committing? && w.tasks[t].node == node
    ensures exists r :: Appends(w.ledger, Step(v, w, DoAppend(t)).ledger, node, r)
  {
    AloneAppends(v, w, t, node);
    var r := match AppendNode(w.ledger, node) case Ok(_) => Ok(node) case Err(e) => Err(e);
    assert Appends(w.ledger, Step(v, w, DoAppend(t)).ledger, node, r);
  }

  lemma AloneBegins(v: Config, w: World, t: nat, inputs: CycleInputs)
    requires Unused(w, t)
    ensures var w' := Step(v, w, CallCycle(t, inputs));
            && w'.ledger == w.ledger && t in w'.tasks && w'.tasks[t].Cycling? && w'.tasks[t].inputs == inputs
  {}

  lemma AloneJudged(v: Config, w: World, t: nat, diff: string, eval: EvalResult)
    requires t in w.tasks && w.tasks[t].Cycling?
    ensures var w' := Step(v, w, Gate(t, diff, Some(eval)));
            && w'.ledger == w.ledger
            && match Judge(v, w.tasks[t].inputs, diff, eval)
               case Promoting(commit) =>
                 At(w', t) && w'.tasks[t].Committing? && w'.tasks[t].node == v.signer.sign(commit, v.key)
               case Rejecting(commit) =>
                 At(w', t) && w'.tasks[t].Committing? && w'.tasks[t].node == v.signer.sign(commit, v.key)
               case Pausing(_) => !At(w', t)
  {}

  lemma AloneAppends(v: Config, w: World, t: nat, node: AgentNode)
    requires At(w, t) && w.tasks[t].Committing? && w.tasks[t].node == node
    ensures Step(v, w, DoAppend(t)).ledger == match AppendNode(w.ledger, node) case Ok(s) => s case Err(_) => w.ledger
  {}

  /** The same for a signed rollback: its four steps in a row are `Veh.CommitRollback`. */
  lemma RollbackAlone(v: Config, w: World, t: nat, targetId: string, createdAt: string)
    requires Unused(w, t)
    ensures var w1 := Step(v, w, CallRollback(t, targetId, createdAt));
            var w' := Step(v, Step(v, Step(v, w1, ReadHead(t)), ReadParent(t)), DoAppend(t));
            match RollbackInputs(v, w.ledger, targetId, createdAt)
            case Ok(commit) => exists r :: Appends(w.ledger, w'.ledger, v.signer.sign(commit, v.key), r)
            case Err(_) => w'.ledger == w.ledger
  {
    var w1 := Step(v, w, CallRollback(t, targetId, createdAt));
    var w2 := Step(v, w1, ReadHead(t));
    var w3 := Step(v, w2, ReadParent(t));
    AloneTargets(v, w, t, targetId, createdAt);
    match RollbackTargetNode(v, w.ledger, targetId)
    case Err(_) =>
      AloneIsOver(v, w1, t);
      AloneIsOver(v, w2, t);
      AloneIsOver(v, w3, t);
    case Ok(target) =>
      AloneReadsHead(v, w1, t);
      if w.ledger.head == None {
        AloneIsOver(v, w2, t);
        AloneIsOver(v, w3, t);
      } else {
        AloneCommits(v, w2, t);
      }
  }

  /** The last two steps of a rollback that has read the head. */
  lemma AloneCommits(v: Config, w: World, t: nat)
    requires At(w, t) && w.tasks[t].HeadRead?
    ensures var task, w' := w.tasks[t], Step(v, Step(v, w, ReadParent(t)), DoAppend(t));
            match GetNode(w.ledger, task.headId)
            case Err(_) => w'.ledger == w.ledger
            case Ok(parent) =>
              exists r ::
                Appends(w.ledger, w'.ledger,
                        v.signer.sign(RollbackCommit(task.target, parent, task.createdAt), v.key), r)
  {
    var task, w1 := w.tasks[t], Step(v, w, ReadParent(t));
    AloneSigns(v, w, t);
    match GetNode(w.ledger, task.headId)
    case Err(_) => AloneIsOver(v, w1, t);
    case Ok(parent) =>
      var node := v.signer.sign(RollbackCommit(task.target, parent, task.createdAt), v.key);
      AloneAppends(v, w1, t, node);
      var r := match AppendNode(w.ledger, node) case Ok(_) => Ok(node) case Err(e) => Err(e);
      assert Appends(w.ledger, Step(v, w1, DoAppend(t)).ledger, node, r);
  }

  /** A call that is over takes no further step. */
  lemma AloneIsOver(v: Config, w: World, t: nat)
    requires !At(w, t)
    ensures Step(v, w, ReadHead(t)).ledger == w.ledger && !At(Step(v, w, ReadHead(t)), t)
    ensures Step(v, w, ReadParent(t)).ledger == w.ledger && !At(Step(v, w, ReadParent(t)), t)
    ensures Step(v, w, DoAppend(t)).ledger == w.ledger
  {}

  lemma AloneTargets(v: Config, w: World, t: nat, targetId: string, createdAt: string)
    requires Unused(w, t)
    ensures var w' := Step(v, w, CallRollback(t, targetId, createdAt));
            && w'.ledger == w.ledger
            && match RollbackTargetNode(v, w.ledger, targetId)
               case Err(_) => !At(w', t)
               case Ok(target) =>
                 && At(w', t) && w'.tasks[t].RollingBack?
                 && w'.tasks[t].target == target && w'.tasks[t].createdAt == createdAt
  {}

  lemma AloneReadsHead(v: Config, w: World, t: nat)
    requires At(w, t) && w.tasks[t].RollingBack?
    ensures var w' := Step(v, w, ReadHead(t));
            && w'.ledger == w.ledger
            && match w.ledger.head
               case None => !At(w', t)
               case Some(id) =>
                 && At(w', t) && w'.tasks[t].HeadRead? && w'.tasks[t].headId == id
                 && w'.tasks[t].target == w.tasks[t].target && w'.tasks[t].createdAt == w.tasks[t].createdAt
  {}

  lemma AloneSigns(v: Config, w: World, t: nat)
    requires At(w, t) && w.tasks[t].HeadRead?
    ensures var w' := Step(v, w, ReadParent(t));
            && w'.ledger == w.ledger
            && match GetNode(w.ledger, w.tasks[t].headId)
               case Err(_) => !At(w', t)
               case Ok(parent) =>
                 && At(w', t) && w'.tasks[t].Committing?
                 && w'.tasks[t].node ==
                    v.signer.sign(RollbackCommit(w.tasks[t].target, parent, w.tasks[t].createdAt), v.key)
  {}

  /** And for a head move, whose guard reads what its write then changes. */
  lemma MoveAlone(v: Config, w: World, t: nat, targetId: string)
    requires Unused(w, t)
    ensures var w' := Step(v, Step(v, w, CallMove(t, targetId)), DoMove(t));
            w'.ledger == match RollbackTargetNode(v, w.ledger, targetId)
                         case Ok(_) => w.ledger.(head := Some(targetId))
                         case Err(_) => w.ledger
  {
    var w1 := Step(v, w, CallMove(t, targetId));
    assert w1.ledger == w.ledger;
    assert RollbackTargetNode(v, w.ledger, targetId).Ok? ==> At(w1, t) && w1.tasks[t] == Moving(targetId);
  }
}
