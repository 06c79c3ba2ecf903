/** What the calls of a run leave in the log: the heads they saw, the calls that rollbacks came from, and the keys
    that signed. */
module Calls {
  import opened Wrappers
  import opened Node
  import opened Ledger
  import opened Graph
  import opened Selector
  import opened Protocol
  import opened Invariant

  // ---------------------------------------------------------------- the heads of a run

  lemma ActKeepsHeads(v: Config, w: World, e: Event)
    ensures Act(v, w, e).heads == w.heads
  {}

  lemma StepNotesHead(v: Config, w: World, e: Event)
    ensures Step(v, w, e).heads == w.heads + [w.ledger.head]
  {
    ActKeepsHeads(v, Ticked(w), e);
  }

  lemma RunNotesHead(v: Config, run: seq<Event>)
    requires run != []
    ensures var w := Run(v, run[..|run| - 1]); Run(v, run).heads == w.heads + [w.ledger.head]
  {
    StepNotesHead(v, Run(v, run[..|run| - 1]), run[|run| - 1]);
  }

  /** Entry by entry, what `head` says of the prefixes of a run. */
  ghost predicate HeadsAre(heads: seq<Option<string>>, run: seq<Event>, head: seq<Event> -> Option<string>) {
    |heads| == |run| && forall k :: 0 <= k < |run| ==> heads[k] == head(run[..k])
  }

  lemma HeadsExtend(heads: seq<Option<string>>, run: seq<Event>, head: seq<Event> -> Option<string>)
    requires run != [] && HeadsAre(heads, run[..|run| - 1], head)
    ensures HeadsAre(heads + [head(run[..|run| - 1])], run, head)
  {
    var before := run[..|run| - 1];
    assert forall k :: 0 <= k < |before| ==> before[..k] == run[..k];
  }

  function HeadAfter(v: Config): seq<Event> -> Option<string> {
    run => Run(v, run).ledger.head
  }

  lemma {:induction false} HeadsAreRecorded(v: Config, run: seq<Event>)
    ensures HeadsAre(Run(v, run).heads, run, HeadAfter(v))
  {
    if run == [] {
    } else {
      var before := run[..|run| - 1];
      HeadsAreRecorded(v, before);
      HeadsExtend(Run(v, before).heads, run, HeadAfter(v));
      RunNotesHead(v, run);
    }
  }

  /** The recorded heads are the heads before each step. */
  lemma HeadsRecorded(v: Config, run: seq<Event>)
    ensures |Run(v, run).heads| == |run|
    ensures forall k :: 0 <= k < |run| ==> Run(v, run).heads[k] == Run(v, run[..k]).ledger.head
  {
    HeadsAreRecorded(v, run);
    forall k | 0 <= k < |run| ensures Run(v, run).heads[k] == Run(v, run[..k]).ledger.head {
      assert HeadAfter(v)(run[..k]) == Run(v, run[..k]).ledger.head;
    }
  }

  // ---------------------------------------------------------------- the calls of a run

  /** Event `at` of the run is the call that `t` began with. */
  ghost predicate CalledAt(run: seq<Event>, at: nat, t: nat, targetId: string, createdAt: string) {
    at < |run| && run[at] == CallRollback(t, targetId, createdAt)
  }

  /** Event `at` of the run is the call that resumes pause `p`, which nobody had resumed, as `t` and with this key. */
  ghost predicate ResumedAt(v: Config, run: seq<Event>, at: nat, t: nat, p: nat, key: string) {
    && at < |run| && run[at] == CallResume(t, p, key)
    && var w := Run(v, run[..at]); Unused(w, t) && p in w.paused && p !in w.resumed
  }

  /** The node was signed by the runner or, if approved, by the key that its resumption was called with. */
  ghost predicate CommitSigned(v: Config, run: seq<Event>, node: AgentNode, origin: Origin) {
    match origin
    case FromApproval(t, p, _, _) =>
      exists at: nat, key :: ResumedAt(v, run, at, t, p, key) && node == v.signer.sign(node.body, key)
    case _ => node == v.signer.sign(node.body, v.key)
  }

  ghost predicate CommitCalled(v: Config, run: seq<Event>, node: AgentNode, origin: Origin) {
    && CommitSigned(v, run, node, origin)
    && (origin.FromRollback? ==>
          exists id ::
            && CalledAt(run, origin.called, origin.task, id, node.body.createdAt)
            && node.body.intent == RollbackIntent(id))
  }

  ghost predicate TaskCalled(v: Config, run: seq<Event>, t: nat, task: Task) {
    match task
    case RollingBack(target, _, createdAt, called) => CalledAt(run, called, t, target.agentId, createdAt)
    case HeadRead(target, _, createdAt, called, _, _) => CalledAt(run, called, t, target.agentId, createdAt)
    case Committing(node, origin) => CommitCalled(v, run, node, origin) && origin.task == t
    case _ => true
  }

  ghost predicate CallsOk(v: Config, run: seq<Event>, w: World) {
    && (forall t :: t in w.tasks ==> TaskCalled(v, run, t, w.tasks[t]))
    && |w.made| == |w.ledger.log|
    && (forall i :: 0 <= i < |w.made| ==> CommitCalled(v, run, w.ledger.log[i], w.made[i]))
  }

  lemma CommitExtends(v: Config, run: seq<Event>, e: Event, node: AgentNode, origin: Origin)
    requires CommitCalled(v, run, node, origin)
    ensures CommitCalled(v, run + [e], node, origin)
  {
    var longer := run + [e];
    if origin.FromRollback? {
      var id :|
        CalledAt(run, origin.called, origin.task, id, node.body.createdAt) && node.body.intent == RollbackIntent(id);
      assert CalledAt(longer, origin.called, origin.task, id, node.body.createdAt);
    } else if origin.FromApproval? {
      var at: nat, key :|
        ResumedAt(v, run, at, origin.task, origin.pause, key) && node == v.signer.sign(node.body, key);
      assert longer[..at] == run[..at];
      assert ResumedAt(v, longer, at, origin.task, origin.pause, key);
    }
  }

  lemma CallsExtend(v: Config, run: seq<Event>, e: Event, w: World, w': World)
    requires CallsOk(v, run, w) && w'.tasks == w.tasks && w'.made == w.made && w'.ledger == w.ledger
    ensures CallsOk(v, run + [e], w')
  {
    forall node, origin | CommitCalled(v, run, node, origin) ensures CommitCalled(v, run + [e], node, origin) {
      CommitExtends(v, run, e, node, origin);
    }
  }

  lemma BeginCalled(v: Config, run: seq<Event>, w: World, t: nat, task: Task)
    requires CallsOk(v, run, w) && TaskCalled(v, run, t, task)
    ensures CallsOk(v, run, Begin(w, t, task))
  {}

  lemma FinishCalled(v: Config, run: seq<Event>, w: World, t: nat, outcome: Outcome)
    requires CallsOk(v, run, w)
    ensures CallsOk(v, run, Finish(w, t, outcome))
  {}

  lemma SignedByRunner(v: Config, run: seq<Event>, w: World, t: nat, commit: CommitInputs, origin: Origin)
    requires Genuine(v.signer) && CallsOk(v, run, w) && origin.task == t && (origin.FromCycle? || origin.FromRoot?)
    ensures CallsOk(v, run, Begin(w, t, Committing(v.signer.sign(commit, v.key), origin)))
  {
    var node := v.signer.sign(commit, v.key);
    assert CommitSigned(v, run, node, origin);
    BeginCalled(v, run, w, t, Committing(node, origin));
  }

  lemma PauseCalled(v: Config, run: seq<Event>, w: World, t: nat, pause: Pause)
    requires CallsOk(v, run, w)
    ensures CallsOk(v, run, Suspend(w, t, pause))
  {
    FinishCalled(v, run, w.(paused := w.paused[t := pause]), t, Paused);
  }

  lemma SettleCalled(v: Config, run: seq<Event>, w: World, t: nat, task: Task, diff: string, eval: EvalResult)
    requires Genuine(v.signer) && CallsOk(v, run, w) && task.Cycling?
    ensures CallsOk(v, run, Settle(v, w, t, task.inputs, task.parentAt, diff, eval))
  {
    var origin := FromCycle(t, task.inputs.parent, task.parentAt);
    match Judge(v, task.inputs, diff, eval)
    case Promoting(commit) => SignedByRunner(v, run, w, t, commit, origin);
    case Rejecting(commit) => SignedByRunner(v, run, w, t, commit, origin);
    case Pausing(pending) => PauseCalled(v, run, w, t, Pause(pending, task.inputs.parent, task.parentAt));
  }

  lemma EvaluatedCalled(v: Config, run: seq<Event>, w: World, t: nat, task: Task, diff: string,
                        eval: Option<EvalResult>)
    requires Genuine(v.signer) && CallsOk(v, run, w) && task.Cycling?
    ensures CallsOk(v, run, Evaluated(v, w, t, task, diff, eval))
  {
    if eval == None {
      FinishCalled(v, run, w, t, Failed);
    } else {
      SettleCalled(v, run, w, t, task, diff, eval.value);
    }
  }

  lemma AppendCalled(v: Config, run: seq<Event>, w: World, t: nat, node: AgentNode, origin: Origin)
    requires CallsOk(v, run, w) && CommitCalled(v, run, node, origin)
    ensures CallsOk(v, run, Append(w, t, node, origin))
  {}

  lemma ResumeCalled(v: Config, run: seq<Event>, w: World, t: nat, p: nat, key: string)
    requires Genuine(v.signer) && CallsOk(v, run, w) && p in w.paused
    requires run != [] && ResumedAt(v, run, |run| - 1, t, p, key)
    ensures CallsOk(v, run, Resume(v, w, t, p, key))
  {
    var pause := w.paused[p];
    var node := v.signer.sign(ResumeCommit(pause.pending), key);
    assert node == v.signer.sign(node.body, key);
    BeginCalled(v, run, w, t, Committing(node, FromApproval(t, p, pause.parent, pause.parentAt)));
  }

  lemma RollbackCalled(v: Config, run: seq<Event>, w: World, t: nat, targetId: string, createdAt: string)
    requires CallsOk(v, run, w) && CalledAt(run, Now(w), t, targetId, createdAt)
    ensures CallsOk(v, run, BeginRollback(v, w, t, targetId, createdAt))
  {}

  lemma NoteHeadCalled(v: Config, run: seq<Event>, w: World, t: nat)
    requires CallsOk(v, run, w) && t in w.tasks && w.tasks[t].RollingBack?
    ensures CallsOk(v, run, NoteHead(w, t, w.tasks[t]))
  {
    assert TaskCalled(v, run, t, w.tasks[t]);
  }

  lemma SignCalled(v: Config, run: seq<Event>, w: World, t: nat)
    requires Genuine(v.signer) && CallsOk(v, run, w) && t in w.tasks && w.tasks[t].HeadRead?
    ensures CallsOk(v, run, SignRollback(v, w, t, w.tasks[t]))
  {
    var task := w.tasks[t];
    assert TaskCalled(v, run, t, task);
    match IndexOf(w.ledger.log, task.headId)
    case None => FinishCalled(v, run, w, t, Failed);
    case Some(at) =>
      var node := v.signer.sign(RollbackCommit(task.target, w.ledger.log[at], task.createdAt), v.key);
      var origin := FromRollback(t, task.targetAt, at, task.called, task.seen);
      assert CalledAt(run, origin.called, origin.task, task.target.agentId, node.body.createdAt);
      BeginCalled(v, run, w, t, Committing(node, origin));
  }

  lemma MoveCalled(v: Config, run: seq<Event>, w: World, t: nat, id: string)
    requires CallsOk(v, run, w)
    ensures CallsOk(v, run, BeginMove(v, w, t, id))
  {
    if RollbackTargetNode(v, w.ledger, id).Err? {
      FinishCalled(v, run, w, t, Failed);
    } else {
      BeginCalled(v, run, w, t, Moving(id));
    }
  }

  lemma HeadMoved(v: Config, run: seq<Event>, w: World, t: nat, id: string)
    requires CallsOk(v, run, w)
    ensures CallsOk(v, run, Move(w, t, id))
  {}

  lemma GenerationCalled(v: Config, run: seq<Event>, w: World, t: nat, e: Event)
    requires CallsOk(v, run, w)
    ensures e.CallGeneration? ==> CallsOk(v, run, BeginGeneration(w, t, e.selector))
    ensures e.CallCycle? ==> CallsOk(v, run, BeginCycle(w, t, e.inputs))
  {
    if e.CallGeneration? {
      match SelectParent(e.selector, w.ledger.log)
      case None => FinishCalled(v, run, w, t, Failed);
      case Some(id) => BeginCalled(v, run, w, t, Selected(id));
    }
    if e.CallCycle? {
      BeginCalled(v, run, w, t, Cycling(e.inputs, ParentAt(w.ledger.log, e.inputs.parent)));
    }
  }

  lemma RootCalled(v: Config, run: seq<Event>, w: World, e: Event)
    requires Genuine(v.signer) && CallsOk(v, run, w) && e.CallRoot?
    ensures CallsOk(v, run, BeginRoot(v, w, e.task, e.artifact, e.scope, e.createdAt))
  {
    SignedByRunner(v, run, w, e.task, RootCommit(e.artifact, e.scope, e.createdAt), FromRoot(e.task));
  }

  lemma FetchCalled(v: Config, run: seq<Event>, w: World, id: string, e: Event)
    requires CallsOk(v, run, w) && e.ReadSelected?
    ensures CallsOk(v, run, FetchSelected(w, e.task, id, e.intent, e.scope, e.createdAt, e.proposal))
  {}

  lemma ActCalled(v: Config, run: seq<Event>, w: World, e: Event)
    requires Genuine(v.signer) && CallsOk(v, run, w)
    requires |run| > 0 && run[|run| - 1] == e && Now(w) == |run| - 1
    requires w == Ticked(Run(v, run[..|run| - 1]))
    ensures CallsOk(v, run, Act(v, w, e))
  {
    var t := e.task;
    match e
    case CallRoot(_, _, _, _) => RootCalled(v, run, w, e);
    case CallCycle(_, _) => GenerationCalled(v, run, w, t, e);
    case Gate(_, diff, eval) =>
      if At(w, t) && w.tasks[t].Cycling? {
        EvaluatedCalled(v, run, w, t, w.tasks[t], diff, eval);
      }
    case DoAppend(_) =>
      if At(w, t) && w.tasks[t].Committing? {
        assert TaskCalled(v, run, t, w.tasks[t]);
        AppendCalled(v, run, w, t, w.tasks[t].node, w.tasks[t].origin);
      }
    case CallResume(_, p, key) =>
      if Unused(w, t) && p in w.paused && p !in w.resumed {
        assert ResumedAt(v, run, |run| - 1, t, p, key);
        ResumeCalled(v, run, w, t, p, key);
      }
    case CallRollback(_, targetId, createdAt) => RollbackCalled(v, run, w, t, targetId, createdAt);
    case ReadHead(_) =>
      if At(w, t) && w.tasks[t].RollingBack? {
        NoteHeadCalled(v, run, w, t);
      }
    case ReadParent(_) =>
      if At(w, t) && w.tasks[t].HeadRead? {
        SignCalled(v, run, w, t);
      }
    case CallMove(_, targetId) => MoveCalled(v, run, w, t, targetId);
    case DoMove(_) =>
      if At(w, t) && w.tasks[t].Moving? {
        HeadMoved(v, run, w, t, w.tasks[t].targetId);
      }
    case CallGeneration(_, _) => GenerationCalled(v, run, w, t, e);
    case ReadSelected(_, _, _, _, _) =>
      if At(w, t) && w.tasks[t].Selected? {
        FetchCalled(v, run, w, w.tasks[t].parentId, e);
      }
  }

  lemma StepCalled(v: Config, before: seq<Event>, e: Event)
    requires Genuine(v.signer) && CallsOk(v, before, Run(v, before))
    ensures CallsOk(v, before + [e], Step(v, Run(v, before), e))
  {
    var run, w := before + [e], Run(v, before);
    HeadsRecorded(v, before);
    CallsExtend(v, before, e, w, Ticked(w));
    assert run[..|run| - 1] == before;
    ActCalled(v, run, Ticked(w), e);
  }

  lemma {:induction false} RunCalled(v: Config, run: seq<Event>)
    requires Genuine(v.signer)
    ensures CallsOk(v, run, Run(v, run))
  {
    if run == [] {
    } else {
      RunCalled(v, run[..|run| - 1]);
      StepCalled(v, run[..|run| - 1], run[|run| - 1]);
      assert run == run[..|run| - 1] + [run[|run| - 1]];
    }
  }

  /** Which key signed: in every run the runner's, but for an approved node, which was signed by the key that the call
      which resumed its pause was given. */
  lemma SignedBy(v: Config, run: seq<Event>, i: nat)
    requires Genuine(v.signer) && i < |Run(v, run).made| == |Run(v, run).ledger.log|
    ensures CommitSigned(v, run, Run(v, run).ledger.log[i], Run(v, run).made[i])
  {
    RunCalled(v, run);
    assert CommitCalled(v, run, Run(v, run).ledger.log[i], Run(v, run).made[i]);
  }
}
