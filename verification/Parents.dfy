/** Where parents come from: the driver's parents are stored valid parents by construction, a direct caller's are if
    the caller sees to it. */
module Parents {
  import opened Wrappers
  import opened Node
  import opened Ledger
  import opened Graph
  import opened Selector
  import opened Protocol
  import opened Invariant

  /** The parent given is a node of the ledger and may be a parent. */
  ghost predicate StoredParent(log: seq<AgentNode>, parent: AgentNode) {
    parent in log && parent.body.validParent
  }

  /** Every direct `run_cycle` of the run was given a stored valid parent. Cycles of the driver need no such
      promise. */
  ghost predicate Disciplined(v: Config, run: seq<Event>) {
    forall i :: 0 <= i < |run| && run[i].CallCycle? ==> StoredParent(Run(v, run[..i]).ledger.log, run[i].inputs.parent)
  }

  ghost predicate Known(origin: Origin) {
    match origin
    case FromCycle(_, _, at) => at.Some?
    case FromApproval(_, _, _, at) => at.Some?
    case _ => true
  }

  ghost predicate TaskKnown(task: Task) {
    match task
    case Cycling(_, at) => at.Some?
    case Committing(_, origin) => Known(origin)
    case _ => true
  }

  /** Every parent in the world is known to be a stored valid parent. */
  ghost predicate ParentsKnown(w: World) {
    && (forall i :: 0 <= i < |w.made| ==> Known(w.made[i]))
    && (forall t :: t in w.tasks ==> TaskKnown(w.tasks[t]))
    && (forall p :: p in w.paused ==> w.paused[p].parentAt.Some?)
  }

  lemma StoredParentFound(log: seq<AgentNode>, parent: AgentNode)
    requires UniqueIds(log)
    ensures StoredParent(log, parent) <==> ParentAt(log, parent).Some?
  {
    if StoredParent(log, parent) {
      var i :| 0 <= i < |log| && log[i] == parent;
      FindUnique(log, i);
    }
  }

  /** What `get` returns for a valid parent's id is that valid parent. */
  lemma ValidIdFound(log: seq<AgentNode>, id: string)
    requires UniqueIds(log) && ValidId(log, id)
    ensures Find(log, id).Some? && StoredParent(log, Find(log, id).value)
  {
    var n :| n in log && n.body.validParent && n.agentId == id;
    var i :| 0 <= i < |log| && log[i] == n;
    FindUnique(log, i);
  }

  lemma BeginKnown(w: World, t: nat, task: Task)
    requires ParentsKnown(w) && TaskKnown(task)
    ensures ParentsKnown(Begin(w, t, task))
  {}

  lemma FinishKnown(w: World, t: nat, outcome: Outcome)
    requires ParentsKnown(w)
    ensures ParentsKnown(Finish(w, t, outcome))
  {}

  lemma SettleKnown(v: Config, w: World, t: nat, inputs: CycleInputs, at: Option<nat>, diff: string, eval: EvalResult)
    requires ParentsKnown(w) && at.Some?
    ensures ParentsKnown(Settle(v, w, t, inputs, at, diff, eval))
  {}

  lemma AppendKnown(w: World, t: nat, node: AgentNode, origin: Origin)
    requires ParentsKnown(w) && Known(origin)
    ensures ParentsKnown(Append(w, t, node, origin))
  {}

  lemma ResumeKnown(v: Config, w: World, t: nat, p: nat, key: string)
    requires ParentsKnown(w) && p in w.paused
    ensures ParentsKnown(Resume(v, w, t, p, key))
  {}

  lemma MoveKnown(w: World, t: nat, id: string)
    requires ParentsKnown(w)
    ensures ParentsKnown(Move(w, t, id))
  {}

  lemma CycleKnown(w: World, t: nat, inputs: CycleInputs)
    requires ParentsKnown(w) && UniqueIds(w.ledger.log) && StoredParent(w.ledger.log, inputs.parent)
    ensures ParentsKnown(BeginCycle(w, t, inputs))
  {
    StoredParentFound(w.ledger.log, inputs.parent);
    BeginKnown(w, t, Cycling(inputs, ParentAt(w.ledger.log, inputs.parent)));
  }

  lemma FetchKnown(w: World, t: nat, parentId: string, intent: MutationIntent, scope: AllowedScope, createdAt: string,
                   proposal: Option<Artifact>)
    requires ParentsKnown(w) && UniqueIds(w.ledger.log) && ValidId(w.ledger.log, parentId)
    ensures ParentsKnown(FetchSelected(w, t, parentId, intent, scope, createdAt, proposal))
  {
    ValidIdFound(w.ledger.log, parentId);
    if proposal.Some? {
      CycleKnown(w, t, CycleInputs(Find(w.ledger.log, parentId).value, intent, proposal.value, scope, createdAt));
    } else {
      FinishKnown(w, t, Failed);
    }
  }

  lemma RootKnown(v: Config, w: World, t: nat, artifact: Artifact, scope: AllowedScope, createdAt: string)
    requires ParentsKnown(w)
    ensures ParentsKnown(BeginRoot(v, w, t, artifact, scope, createdAt))
  {}

  lemma RollbackKnown(v: Config, w: World, t: nat, targetId: string, createdAt: string)
    requires ParentsKnown(w)
    ensures ParentsKnown(BeginRollback(v, w, t, targetId, createdAt))
    ensures ParentsKnown(BeginMove(v, w, t, targetId))
  {}

  lemma HeadKnown(v: Config, w: World, t: nat, task: Task)
    requires ParentsKnown(w)
    ensures task.RollingBack? ==> ParentsKnown(NoteHead(w, t, task))
    ensures task.HeadRead? ==> ParentsKnown(SignRollback(v, w, t, task))
  {}

  lemma GenerationKnown(w: World, t: nat, selector: ParentSelector)
    requires ParentsKnown(w)
    ensures ParentsKnown(BeginGeneration(w, t, selector))
  {
    match SelectParent(selector, w.ledger.log)
    case None => FinishKnown(w, t, Failed);
    case Some(id) => BeginKnown(w, t, Selected(id));
  }

  lemma EvaluatedKnown(v: Config, w: World, t: nat, task: Task, diff: string, eval: Option<EvalResult>)
    requires ParentsKnown(w) && task.Cycling? && TaskKnown(task)
    ensures ParentsKnown(Evaluated(v, w, t, task, diff, eval))
  {
    if eval == None {
      FinishKnown(w, t, Failed);
    } else {
      SettleKnown(v, w, t, task.inputs, task.parentAt, diff, eval.value);
    }
  }

  lemma SelectedValid(v: Config, w: World, t: nat)
    requires TasksOk(v, w) && t in w.tasks && w.tasks[t].Selected?
    ensures ValidId(w.ledger.log, w.tasks[t].parentId)
  {
    assert TaskOk(v, w, t, w.tasks[t]);
  }

  lemma CycleCallKnown(v: Config, w: World, e: Event)
    requires UniqueIds(w.ledger.log) && ParentsKnown(w) && (e.CallCycle? || e.CallResume? || e.CallGeneration?)
    requires e.CallCycle? ==> StoredParent(w.ledger.log, e.inputs.parent)
    ensures ParentsKnown(Act(v, w, e))
  {
    match e
    case CallCycle(t, inputs) => CycleKnown(w, t, inputs);
    case CallResume(t, p, key) =>
      if p in w.paused {
        ResumeKnown(v, w, t, p, key);
      }
    case CallGeneration(t, selector) => GenerationKnown(w, t, selector);
  }

  lemma OtherCallKnown(v: Config, w: World, e: Event)
    requires ParentsKnown(w) && (e.CallRoot? || e.CallRollback? || e.CallMove?)
    ensures ParentsKnown(Act(v, w, e))
  {
    match e
    case CallRoot(t, artifact, scope, createdAt) => RootKnown(v, w, t, artifact, scope, createdAt);
    case CallRollback(t, targetId, createdAt) => RollbackKnown(v, w, t, targetId, createdAt);
    case CallMove(t, targetId) => RollbackKnown(v, w, t, targetId, "");
  }

  lemma LaterStepKnown(v: Config, w: World, e: Event)
    requires UniqueIds(w.ledger.log) && TasksOk(v, w) && ParentsKnown(w) && At(w, e.task)
    requires e.Gate? || e.DoAppend? || e.ReadHead? || e.ReadParent? || e.DoMove? || e.ReadSelected?
    ensures ParentsKnown(Act(v, w, e))
  {
    var task := w.tasks[e.task];
    match e
    case Gate(t, diff, eval) =>
      if task.Cycling? {
        EvaluatedKnown(v, w, t, task, diff, eval);
      }
    case DoAppend(t) =>
      if task.Committing? {
        AppendKnown(w, t, task.node, task.origin);
      }
    case ReadHead(t) => HeadKnown(v, w, t, task);
    case ReadParent(t) => HeadKnown(v, w, t, task);
    case DoMove(t) =>
      if task.Moving? {
        MoveKnown(w, t, task.targetId);
      }
    case ReadSelected(t, intent, scope, createdAt, proposal) =>
      if task.Selected? {
        SelectedValid(v, w, t);
        FetchKnown(w, t, task.parentId, intent, scope, createdAt, proposal);
      }
  }

  lemma ActKnown(v: Config, w: World, e: Event)
    requires UniqueIds(w.ledger.log) && TasksOk(v, w) && ParentsKnown(w)
    requires e.CallCycle? ==> StoredParent(w.ledger.log, e.inputs.parent)
    ensures ParentsKnown(Act(v, w, e))
  {
    if e.CallCycle? || e.CallResume? || e.CallGeneration? {
      CycleCallKnown(v, w, e);
    } else if e.CallRoot? || e.CallRollback? || e.CallMove? {
      OtherCallKnown(v, w, e);
    } else if At(w, e.task) {
      LaterStepKnown(v, w, e);
    } else {
      assert Act(v, w, e) == w;
    }
  }

  /** In a disciplined run every parent is known to be a stored valid parent. */
  lemma {:induction false} RunKnown(v: Config, run: seq<Event>)
    requires Genuine(v.signer) && Disciplined(v, run)
    ensures ParentsKnown(Run(v, run)) && Inv(v, Run(v, run))
  {
    RunKeeps(v, run);
    if run != [] {
      var before := run[..|run| - 1];
      assert Disciplined(v, before) by {
        assert forall i :: 0 <= i < |before| ==> before[i] == run[i] && before[..i] == run[..i];
      }
      RunKnown(v, before);
      StepKnown(v, Run(v, before), run[|run| - 1]);
    }
  }

  lemma StepKnown(v: Config, w: World, e: Event)
    requires Inv(v, w) && ParentsKnown(w)
    requires e.CallCycle? ==> StoredParent(w.ledger.log, e.inputs.parent)
    ensures ParentsKnown(Step(v, w, e))
  {
    TickKeeps(v, w);
    ActKnown(v, Ticked(w), e);
  }

  /** A run in which every cycle is the driver's is disciplined: `run_generation` with an in-tree selector only ever
      hands `run_cycle` a stored valid parent. */
  lemma DriverIsDisciplined(v: Config, run: seq<Event>)
    requires Genuine(v.signer)
    requires forall e :: e in run ==> !e.CallCycle?
    ensures Disciplined(v, run)
    ensures forall t :: t in Run(v, run).tasks && Run(v, run).tasks[t].Cycling? ==>
              StoredParent(Run(v, run).ledger.log, Run(v, run).tasks[t].inputs.parent)
  {
    assert forall i :: 0 <= i < |run| ==> run[i] in run;
    RunKnown(v, run);
    var w := Run(v, run);
    forall t | t in w.tasks && w.tasks[t].Cycling? ensures StoredParent(w.ledger.log, w.tasks[t].inputs.parent) {
      assert TaskOk(v, w, t, w.tasks[t]) && TaskKnown(w.tasks[t]);
    }
  }
}
