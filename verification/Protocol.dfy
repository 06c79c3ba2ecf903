/** All interleavings of the lifecycle (src/graph.rs, src/evolution.rs). The runner is shared between asynchronous
    tasks and only single ledger calls are atomic, so a run is any sequence of the steps below, each one such call
    or the pure work between two of them. The histories a world carries beside the ledger are for stating properties
    only. */
module Protocol {
  import opened Wrappers
  import opened Json
  import opened Score
  import opened Node
  import opened Policy
  import opened Ledger
  import opened Graph
  import opened Selector

  // ---------------------------------------------------------------- worlds

  /** How a stored node came to be. `parentAt` is where the caller's parent is stored as a valid parent, if it is. */
  datatype Origin =
    | FromRoot(task: nat)
    | FromCycle(task: nat, parent: AgentNode, parentAt: Option<nat>)
    | FromApproval(task: nat, pause: nat, parent: AgentNode, parentAt: Option<nat>)
    | FromRollback(task: nat, targetAt: nat, headAt: nat, called: nat, seen: nat)

  /** A call under way. */
  datatype Task =
    | Selected(parentId: string)
    | Cycling(inputs: CycleInputs, parentAt: Option<nat>)
    | Committing(node: AgentNode, origin: Origin)
    | RollingBack(target: AgentNode, targetAt: nat, createdAt: string, called: nat)
    | HeadRead(target: AgentNode, targetAt: nat, createdAt: string, called: nat, headId: string, seen: nat)
    | Moving(targetId: string)

  /** How a call ended. */
  datatype Outcome = Appended(at: nat) | Paused | Moved | Failed

  datatype Pause = Pause(pending: PendingApproval, parent: AgentNode, parentAt: Option<nat>)

  /** The ledger; how each of its nodes was made; calls under way and ended, by task number; every cycle ever
      paused, by the number of its task; which task resumed which pause; and the head before every step so far. */
  datatype World = World(
    ledger: Lineage,
    made: seq<Origin>,
    tasks: map<nat, Task>,
    done: map<nat, Outcome>,
    paused: map<nat, Pause>,
    resumed: map<nat, nat>,
    heads: seq<Option<string>>)

  const START: World := World(EMPTY, [], map[], map[], map[], map[], [])

  datatype Event =
    | CallRoot(task: nat, artifact: Artifact, scope: AllowedScope, createdAt: string)
    | CallCycle(task: nat, inputs: CycleInputs)
    | Gate(task: nat, diff: string, eval: Option<EvalResult>)
    | DoAppend(task: nat)
    | CallResume(task: nat, pause: nat, key: string)
    | CallRollback(task: nat, targetId: string, createdAt: string)
    | ReadHead(task: nat)
    | ReadParent(task: nat)
    | CallMove(task: nat, targetId: string)
    | DoMove(task: nat)
    | CallGeneration(task: nat, selector: ParentSelector)
    | ReadSelected(task: nat, intent: MutationIntent, scope: AllowedScope, createdAt: string,
                   proposal: Option<Artifact>)

  // ---------------------------------------------------------------- steps

  /** Where `id` is first stored. */
  function IndexOf(log: seq<AgentNode>, id: string): (at: Option<nat>)
    ensures at.Some? ==> at.value < |log| && log[at.value].agentId == id && Find(log, id) == Some(log[at.value])
    ensures at.Some? <==> Find(log, id).Some?
  {
    if log == [] then None
    else if log[0].agentId == id then Some(0)
    else match IndexOf(log[1..], id) case None => None case Some(i) => Some(i + 1)
  }

  /** Where `parent` is stored as a valid parent, if it is. */
  function ParentAt(log: seq<AgentNode>, parent: AgentNode): (at: Option<nat>)
    ensures at.Some? ==> at.value < |log| && log[at.value] == parent && parent.body.validParent
  {
    match IndexOf(log, parent.agentId)
    case None => None
    case Some(i) => if log[i] == parent && parent.body.validParent then Some(i) else None
  }

  predicate Unused(w: World, t: nat) {
    t !in w.tasks && t !in w.done
  }

  function Begin(w: World, t: nat, task: Task): World {
    w.(tasks := w.tasks[t := task])
  }

  function Finish(w: World, t: nat, outcome: Outcome): World {
    w.(tasks := w.tasks - {t}, done := w.done[t := outcome])
  }

  function Now(w: World): nat {
    if w.heads == [] then 0 else |w.heads| - 1
  }

  /** The pure rest of a judged cycle. */
  function Settle(v: Config, w: World, t: nat, inputs: CycleInputs, parentAt: Option<nat>, diff: string,
                  eval: EvalResult): World
  {
    match Judge(v, inputs, diff, eval)
    case Promoting(commit) =>
      Begin(w, t, Committing(v.signer.sign(commit, v.key), FromCycle(t, inputs.parent, parentAt)))
    case Rejecting(commit) =>
      Begin(w, t, Committing(v.signer.sign(commit, v.key), FromCycle(t, inputs.parent, parentAt)))
    case Pausing(pending) =>
      Finish(w.(paused := w.paused[t := Pause(pending, inputs.parent, parentAt)]), t, Paused)
  }

  function Append(w: World, t: nat, node: AgentNode, origin: Origin): World {
    match AppendNode(w.ledger, node)
    case Ok(s) => Finish(w.(ledger := s, made := w.made + [origin]), t, Appended(|w.ledger.log|))
    case Err(_) => Finish(w, t, Failed)
  }

  function BeginRollback(v: Config, w: World, t: nat, targetId: string, createdAt: string): World {
    match RollbackTargetNode(v, w.ledger, targetId)
    case Err(_) => Finish(w, t, Failed)
    case Ok(target) =>
      match IndexOf(w.ledger.log, targetId)
      case None => Finish(w, t, Failed)
      case Some(at) => Begin(w, t, RollingBack(target, at, createdAt, Now(w)))
  }

  function SignRollback(v: Config, w: World, t: nat, task: Task): World
    requires task.HeadRead?
  {
    match IndexOf(w.ledger.log, task.headId)
    case None => Finish(w, t, Failed)
    case Some(at) =>
      var node := v.signer.sign(RollbackCommit(task.target, w.ledger.log[at], task.createdAt), v.key);
      Begin(w, t, Committing(node, FromRollback(t, task.targetAt, at, task.called, task.seen)))
  }

  function BeginRoot(v: Config, w: World, t: nat, artifact: Artifact, scope: AllowedScope, createdAt: string): World {
    Begin(w, t, Committing(v.signer.sign(RootCommit(artifact, scope, createdAt), v.key), FromRoot(t)))
  }

  function BeginCycle(w: World, t: nat, inputs: CycleInputs): World {
    Begin(w, t, Cycling(inputs, ParentAt(w.ledger.log, inputs.parent)))
  }

  function Evaluated(v: Config, w: World, t: nat, task: Task, diff: string, eval: Option<EvalResult>): World
    requires task.Cycling?
  {
    if eval == None then Finish(w, t, Failed) else Settle(v, w, t, task.inputs, task.parentAt, diff, eval.value)
  }

  function Resume(v: Config, w: World, t: nat, p: nat, key: string): World
    requires p in w.paused
  {
    var pause := w.paused[p];
    var node := v.signer.sign(ResumeCommit(pause.pending), key);
    Begin(w.(resumed := w.resumed[p := t]), t, Committing(node, FromApproval(t, p, pause.parent, pause.parentAt)))
  }

  function NoteHead(w: World, t: nat, task: Task): World
    requires task.RollingBack?
  {
    if w.ledger.head == None then Finish(w, t, Failed)
    else Begin(w, t, HeadRead(task.target, task.targetAt, task.createdAt, task.called, w.ledger.head.value, Now(w)))
  }

  function BeginMove(v: Config, w: World, t: nat, targetId: string): World {
    if RollbackTargetNode(v, w.ledger, targetId).Err? then Finish(w, t, Failed) else Begin(w, t, Moving(targetId))
  }

  function Move(w: World, t: nat, targetId: string): World {
    match MoveHead(w.ledger, targetId)
    case Ok(s) => Finish(w.(ledger := s), t, Moved)
    case Err(_) => Finish(w, t, Failed)
  }

  function BeginGeneration(w: World, t: nat, selector: ParentSelector): World {
    match SelectParent(selector, w.ledger.log)
    case None => Finish(w, t, Failed)
    case Some(id) => Begin(w, t, Selected(id))
  }

  /** `run_generation` after the selection: the parent is fetched; the mutator and the sandbox may fail; the cycle
      begins. */
  function FetchSelected(w: World, t: nat, parentId: string, intent: MutationIntent, scope: AllowedScope,
                         createdAt: string, proposal: Option<Artifact>): World
  {
    match GetNode(w.ledger, parentId)
    case Err(_) => Finish(w, t, Failed)
    case Ok(parent) =>
      if proposal == None then Finish(w, t, Failed)
      else BeginCycle(w, t, CycleInputs(parent, intent, proposal.value, scope, createdAt))
  }

  predicate At(w: World, t: nat) {
    t in w.tasks
  }

  /** What a step does. A step of a call that is not at that point changes nothing. */
  function Act(v: Config, w: World, e: Event): World {
    match e
    case CallRoot(t, artifact, scope, createdAt) =>
      if Unused(w, t) then BeginRoot(v, w, t, artifact, scope, createdAt) else w
    case CallCycle(t, inputs) => if Unused(w, t) then BeginCycle(w, t, inputs) else w
    case Gate(t, diff, eval) =>
      if At(w, t) && w.tasks[t].Cycling? then Evaluated(v, w, t, w.tasks[t], diff, eval) else w
    case DoAppend(t) =>
      if At(w, t) && w.tasks[t].Committing? then Append(w, t, w.tasks[t].node, w.tasks[t].origin) else w
    case CallResume(t, p, key) =>
      if Unused(w, t) && p in w.paused && p !in w.resumed then Resume(v, w, t, p, key) else w
    case CallRollback(t, targetId, createdAt) =>
      if Unused(w, t) then BeginRollback(v, w, t, targetId, createdAt) else w
    case ReadHead(t) => if At(w, t) && w.tasks[t].RollingBack? then NoteHead(w, t, w.tasks[t]) else w
    case ReadParent(t) => if At(w, t) && w.tasks[t].HeadRead? then SignRollback(v, w, t, w.tasks[t]) else w
    case CallMove(t, targetId) => if Unused(w, t) then BeginMove(v, w, t, targetId) else w
    case DoMove(t) => if At(w, t) && w.tasks[t].Moving? then Move(w, t, w.tasks[t].targetId) else w
    case CallGeneration(t, selector) => if Unused(w, t) then BeginGeneration(w, t, selector) else w
    case ReadSelected(t, intent, scope, createdAt, proposal) =>
      if At(w, t) && w.tasks[t].Selected?
      then FetchSelected(w, t, w.tasks[t].parentId, intent, scope, createdAt, proposal)
      else w
  }

  /** The head noted for the record. */
  function Ticked(w: World): World {
    w.(heads := w.heads + [w.ledger.head])
  }

  /** Note the head, then act. */
  function Step(v: Config, w: World, e: Event): World {
    Act(v, Ticked(w), e)
  }

  /** The world after a run. */
  function Run(v: Config, run: seq<Event>): World {
    if run == [] then START else Step(v, Run(v, run[..|run| - 1]), run[|run| - 1])
  }

  // ---------------------------------------------------------------- what every step keeps

  /** A reference to an earlier valid parent. */
  ghost predicate RefersTo(log: seq<AgentNode>, at: Option<nat>, node: AgentNode, bound: nat) {
    at.Some? ==> at.value < bound && at.value < |log| && log[at.value] == node && node.body.validParent
  }

  ghost predicate Descends(parent: AgentNode, commit: CommitInputs) {
    && commit.parentId == Some(parent.agentId)
    && commit.generation == NextGeneration(parent.body.generation)
  }

  /** Under the strict rule a stored numeric score beats the parent's. */
  ghost predicate Improves(v: Config, parent: AgentNode, evalResults: Option<Value>) {
    v.strict && StoredScore(parent.body.evalResults).Some? && StoredScore(evalResults).Some? ==>
      StoredScore(parent.body.evalResults).value < StoredScore(evalResults).value
  }

  /** What a cycle leaves behind. */
  ghost predicate MadeByCycle(v: Config, parent: AgentNode, node: AgentNode) {
    && Descends(parent, node.body)
    && node.body.evalResults.Some?
    && (node.body.status == Promoted ==>
          && !CapExceeded(parent)
          && AdditionsListed(node.capabilitySbom, parent.capabilitySbom, parent.body.scope)
          && NothingGated(parent.body.scope.gatedCapabilities, node.capabilitySbom, node.body.intent.constraints)
          && Improves(v, parent, node.body.evalResults))
  }

  /** What a pause captured of its parent. */
  ghost predicate Captured(v: Config, log: seq<AgentNode>, p: Pause, bound: nat) {
    && p.pending.parentId == Some(p.parent.agentId)
    && p.pending.parentGeneration == p.parent.body.generation
    && !CapExceeded(p.parent)
    && Improves(v, p.parent, Some(p.pending.evalResults))
    && RefersTo(log, p.parentAt, p.parent, bound)
  }

  ghost predicate IsPromotedAt(log: seq<AgentNode>, at: nat, bound: nat) {
    at < bound && at < |log| && log[at].body.status == Promoted
  }

  /** The node was signed, and made as its origin says, from nodes before `bound`. */
  ghost predicate MadeAs(v: Config, w: World, node: AgentNode, origin: Origin, bound: nat) {
    && v.signer.verify(node) == Ok(())
    && node.capabilitySbom == v.signer.sbom(node.body.artifact)
    && (node.body.validParent <==> node.body.status == Promoted)
    && match origin
       case FromRoot(_) => node.body == RootCommit(node.body.artifact, node.body.scope, node.body.createdAt)
       case FromCycle(_, parent, at) => RefersTo(w.ledger.log, at, parent, bound) && MadeByCycle(v, parent, node)
       case FromApproval(t, p, parent, at) =>
         && p in w.paused && p in w.resumed && w.resumed[p] == t
         && w.paused[p].parent == parent && w.paused[p].parentAt == at
         && node.body == ResumeCommit(w.paused[p].pending)
         && Captured(v, w.ledger.log, w.paused[p], bound)
       case FromRollback(_, targetAt, headAt, called, seen) =>
         && IsPromotedAt(w.ledger.log, targetAt, bound) && IsPromotedAt(w.ledger.log, headAt, bound)
         && called <= seen < |w.heads| && w.heads[seen] == Some(w.ledger.log[headAt].agentId)
         && node.body == RollbackCommit(w.ledger.log[targetAt], w.ledger.log[headAt], node.body.createdAt)
  }

  /** Ids are unique and every stored node was made as recorded, from earlier nodes only. */
  ghost predicate LogOk(v: Config, w: World) {
    && UniqueIds(w.ledger.log)
    && |w.made| == |w.ledger.log|
    && forall i :: 0 <= i < |w.made| ==> MadeAs(v, w, w.ledger.log[i], w.made[i], i)
  }

  ghost predicate PromotedId(log: seq<AgentNode>, id: string) {
    exists i :: 0 <= i < |log| && log[i].agentId == id && log[i].body.status == Promoted
  }

  /** The head is absent exactly when nothing was promoted, and names a stored Promoted node otherwise. */
  ghost predicate HeadOk(s: Lineage) {
    match s.head
    case None => forall i :: 0 <= i < |s.log| ==> s.log[i].body.status == Rejected
    case Some(id) => PromotedId(s.log, id)
  }

  ghost predicate TaskOk(v: Config, w: World, t: nat, task: Task) {
    var log := w.ledger.log;
    match task
    case Selected(id) => ValidId(log, id)
    case Cycling(inputs, at) => RefersTo(log, at, inputs.parent, |log|)
    case Committing(node, origin) => origin.task == t && MadeAs(v, w, node, origin, |log|)
    case RollingBack(target, at, _, called) =>
      IsPromotedAt(log, at, |log|) && log[at] == target && called < |w.heads|
    case HeadRead(target, at, _, called, headId, seen) =>
      && IsPromotedAt(log, at, |log|) && log[at] == target
      && called <= seen < |w.heads| && w.heads[seen] == Some(headId) && PromotedId(log, headId)
    case Moving(id) => PromotedId(log, id)
  }

  ghost predicate TasksOk(v: Config, w: World) {
    forall t :: t in w.tasks ==> TaskOk(v, w, t, w.tasks[t])
  }

  ghost predicate PausesOk(v: Config, w: World) {
    forall p :: p in w.paused ==> Captured(v, w.ledger.log, w.paused[p], |w.ledger.log|)
  }

  /** Accounting: a call is under way or ended, not both; appended nodes and appending calls match one to one; the
      pauses are exactly the calls that ended paused; a pause is resumed by one call at most. */
  ghost predicate BooksOk(w: World) {
    && w.tasks.Keys !! w.done.Keys
    && (forall i :: 0 <= i < |w.made| ==> w.made[i].task in w.done && w.done[w.made[i].task] == Appended(i))
    && (forall t :: t in w.done && w.done[t].Appended? ==> w.done[t].at < |w.made| && w.made[w.done[t].at].task == t)
    && (forall p :: p in w.paused <==> p in w.done && w.done[p] == Paused)
    && (forall p :: p in w.resumed ==> p in w.paused && (w.resumed[p] in w.tasks || w.resumed[p] in w.done))
  }

  ghost predicate Inv(v: Config, w: World) {
    LogOk(v, w) && HeadOk(w.ledger) && TasksOk(v, w) && PausesOk(v, w) && BooksOk(w)
  }

  /** `w'` is a later `w`: the log and the histories only grow, and nothing recorded changes. */
  ghost predicate Grows(w: World, w': World) {
    && w.ledger.log <= w'.ledger.log
    && w.made <= w'.made
    && w.heads <= w'.heads
    && (forall t :: t in w.done ==> t in w'.done && w'.done[t] == w.done[t])
    && (forall p :: p in w.paused ==> p in w'.paused && w'.paused[p] == w.paused[p])
    && (forall p :: p in w.resumed ==> p in w'.resumed && w'.resumed[p] == w.resumed[p])
  }

  lemma GrowsTransitive(a: World, b: World, c: World)
    requires Grows(a, b) && Grows(b, c)
    ensures Grows(a, c)
  {}

  /** How a node was made stays true as the world grows. */
  lemma MadeAsGrows(v: Config, w: World, w': World, node: AgentNode, origin: Origin, bound: nat, bound': nat)
    requires Grows(w, w') && MadeAs(v, w, node, origin, bound) && bound <= bound' && bound <= |w.ledger.log|
    ensures MadeAs(v, w', node, origin, bound')
  {}

  lemma PromotedIdGrows(log: seq<AgentNode>, log': seq<AgentNode>, id: string)
    requires log <= log'
    ensures PromotedId(log, id) ==> PromotedId(log', id)
    ensures ValidId(log, id) ==> ValidId(log', id)
  {
    if PromotedId(log, id) {
      var i :| 0 <= i < |log| && log[i].agentId == id && log[i].body.status == Promoted;
      assert log'[i] == log[i];
    }
    if ValidId(log, id) {
      var n :| n in log && n.body.validParent && n.agentId == id;
      assert n in log';
    }
  }

  lemma TaskGrows(v: Config, w: World, w': World, t: nat, task: Task)
    requires Grows(w, w') && TaskOk(v, w, t, task)
    ensures TaskOk(v, w', t, task)
  {
    match task
    case Selected(id) => PromotedIdGrows(w.ledger.log, w'.ledger.log, id);
    case Committing(node, origin) => MadeAsGrows(v, w, w', node, origin, |w.ledger.log|, |w'.ledger.log|);
    case HeadRead(_, _, _, _, id, _) => PromotedIdGrows(w.ledger.log, w'.ledger.log, id);
    case Moving(id) => PromotedIdGrows(w.ledger.log, w'.ledger.log, id);
    case _ =>
  }
}
