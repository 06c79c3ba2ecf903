/** The ledger invariant, for every interleaving. */
module Invariant {
  import opened Wrappers
  import opened Json
  import opened Score
  import opened Decimals
  import opened Node
  import opened Policy
  import opened Ledger
  import opened Graph
  import opened Selector
  import opened Protocol

  // ---------------------------------------------------------------- steps that leave the log alone

  lemma LogGrows(v: Config, w: World, w': World)
    requires Grows(w, w') && w'.ledger.log == w.ledger.log && w'.made == w.made
    requires LogOk(v, w)
    ensures LogOk(v, w')
  {
    forall i | 0 <= i < |w.made| ensures MadeAs(v, w', w.ledger.log[i], w.made[i], i) {
      MadeAsGrows(v, w, w', w.ledger.log[i], w.made[i], i, i);
    }
  }

  /** All tasks but `t` are old ones. */
  lemma TasksGrow(v: Config, w: World, w': World, t: nat)
    requires Grows(w, w') && TasksOk(v, w)
    requires forall u :: u in w'.tasks && u != t ==> u in w.tasks && w'.tasks[u] == w.tasks[u]
    requires t in w'.tasks ==> TaskOk(v, w', t, w'.tasks[t])
    ensures TasksOk(v, w')
  {
    forall u | u in w'.tasks ensures TaskOk(v, w', u, w'.tasks[u]) {
      if u != t {
        TaskGrows(v, w, w', u, w.tasks[u]);
      }
    }
  }

  lemma TickKeeps(v: Config, w: World)
    requires Inv(v, w)
    ensures var w' := Ticked(w);
            Inv(v, w') && Grows(w, w') && |w'.heads| > 0 && w'.heads[Now(w')] == w'.ledger.head
  {
    var w' := Ticked(w);
    LogGrows(v, w, w');
    forall t | t in w.tasks ensures TaskOk(v, w', t, w.tasks[t]) {
      TaskGrows(v, w, w', t, w.tasks[t]);
    }
  }

  /** Nothing but calls and their accounts differ. */
  ghost predicate SameWorldRecord(w: World, w': World) {
    w'.ledger == w.ledger && w'.made == w.made && w'.paused == w.paused && w'.heads == w.heads
  }

  lemma RecordKeeps(v: Config, w: World, w': World)
    requires SameWorldRecord(w, w') && Grows(w, w')
    requires LogOk(v, w) && HeadOk(w.ledger) && PausesOk(v, w)
    ensures LogOk(v, w') && HeadOk(w'.ledger) && PausesOk(v, w')
  {
    LogGrows(v, w, w');
  }

  /** All tasks but `t` are those of `w`, and `t`, if it goes on, is in order. */
  ghost predicate TasksBut(v: Config, w: World, w': World, t: nat) {
    && (forall u :: u in w'.tasks && u != t ==> u in w.tasks && w'.tasks[u] == w.tasks[u])
    && (t in w'.tasks ==> TaskOk(v, w', t, w'.tasks[t]))
  }

  lemma RecordedKeeps(v: Config, w: World, w': World, t: nat)
    requires Inv(v, w) && SameWorldRecord(w, w') && Grows(w, w') && BooksOk(w') && TasksBut(v, w, w', t)
    ensures Inv(v, w')
  {
    RecordKeeps(v, w, w');
    TasksGrow(v, w, w', t);
  }

  lemma BeginBooks(w: World, t: nat, task: Task)
    requires BooksOk(w) && t !in w.done
    ensures BooksOk(Begin(w, t, task)) && SameWorldRecord(w, Begin(w, t, task)) && Grows(w, Begin(w, t, task))
  {}

  lemma BeginKeeps(v: Config, w: World, t: nat, task: Task)
    requires Inv(v, w) && t !in w.done && TaskOk(v, w, t, task)
    ensures Inv(v, Begin(w, t, task)) && Grows(w, Begin(w, t, task))
  {
    BeginBooks(w, t, task);
    TaskGrows(v, w, Begin(w, t, task), t, task);
    RecordedKeeps(v, w, Begin(w, t, task), t);
  }

  lemma FinishBooks(w: World, t: nat, outcome: Outcome)
    requires BooksOk(w) && t !in w.done && (outcome.Failed? || outcome.Moved?)
    ensures BooksOk(Finish(w, t, outcome))
    ensures SameWorldRecord(w, Finish(w, t, outcome)) && Grows(w, Finish(w, t, outcome))
  {}

  lemma FinishKeeps(v: Config, w: World, t: nat, outcome: Outcome)
    requires Inv(v, w) && t !in w.done && (outcome.Failed? || outcome.Moved?)
    ensures Inv(v, Finish(w, t, outcome)) && Grows(w, Finish(w, t, outcome))
  {
    FinishBooks(w, t, outcome);
    RecordedKeeps(v, w, Finish(w, t, outcome), t);
  }

  function Suspend(w: World, t: nat, pause: Pause): World {
    Finish(w.(paused := w.paused[t := pause]), t, Paused)
  }

  lemma PauseBooks(w: World, t: nat, pause: Pause)
    requires BooksOk(w) && t in w.tasks
    ensures BooksOk(Suspend(w, t, pause)) && Grows(w, Suspend(w, t, pause))
  {}

  lemma PauseKeeps(v: Config, w: World, t: nat, pause: Pause)
    requires Inv(v, w) && t in w.tasks && Captured(v, w.ledger.log, pause, |w.ledger.log|)
    ensures Inv(v, Suspend(w, t, pause)) && Grows(w, Suspend(w, t, pause))
  {
    var w' := Suspend(w, t, pause);
    PauseBooks(w, t, pause);
    LogGrows(v, w, w');
    TasksGrow(v, w, w', t);
    PauseRecorded(v, w, t, pause);
  }

  lemma PauseRecorded(v: Config, w: World, t: nat, pause: Pause)
    requires PausesOk(v, w) && Captured(v, w.ledger.log, pause, |w.ledger.log|)
    ensures PausesOk(v, Suspend(w, t, pause))
  {}

  // ---------------------------------------------------------------- what a signed commit is

  /** A candidate that the rule lets through beats its parent wherever both have a stored score. */
  lemma ImprovesOrFails(v: Config, parent: AgentNode, eval: EvalResult)
    ensures FailsToImprove(v, parent, eval) || Improves(v, parent, Some(EvalJson(eval)))
  {
    StoredScoreOf(eval);
  }

  /** The rule is documented to reject every candidate that is not strictly above its parent. It keeps that promise,
      for a parent evaluated at `p` and a candidate at `e`, exactly when the candidate is no NaN and the parent's
      score is finite (or minus infinity, while the candidate's is not): any other score is stored as null, and the
      rule is skipped. */
  lemma RuleIsStrictExactly(v: Config, parent: AgentNode, p: EvalResult, e: EvalResult)
    requires v.strict && parent.body.evalResults == Some(EvalJson(p))
    ensures (FailsToImprove(v, parent, e) <==> !Beats(e.score, p.score)) <==>
            e.score != NaN && (p.score.Finite? || (p.score == Infinite(true) && e.score != Infinite(true)))
  {
    StoredScoreOf(p);
  }

  /** The same for any parent, however its record came to be: the rule refuses exactly the candidates, NaN apart,
      that do not exceed a numeric score stored for the parent. */
  lemma RuleReadsStoredScore(v: Config, parent: AgentNode, e: EvalResult)
    ensures var stored := StoredScore(parent.body.evalResults);
            FailsToImprove(v, parent, e) <==>
            v.strict && stored.Some? && !Exceeds(e.score, stored.value) && e.score != NaN
  {}

  /** Two decimal scores: the rule compares the numbers that their texts write, by whole-number arithmetic. */
  lemma RuleComparesDecimals(v: Config, inputs: CycleInputs, diff: string, p: EvalResult, e: EvalResult,
                             a: Decimal, b: Decimal)
    requires v.strict && inputs.parent.body.evalResults == Some(EvalJson(p)) && a.Valid() && b.Valid()
    requires p.score.Finite? && p.score.token == a.Written() && e.score.Finite? && e.score.token == b.Written()
    ensures FailsToImprove(v, inputs.parent, e) <==> NoMore(b, a)
    ensures Judge(v, inputs, diff, e).Rejecting? <==> NoMore(b, a) || CapExceeded(inputs.parent)
  {
    StoredScoreOf(p);
    DecimalsCompare(b, a);
    JudgeExact(v, inputs, diff, e);
  }

  /** A candidate at one half passes under a parent at plus infinity. */
  lemma RuleFailsAtInfinity(v: Config, parent: AgentNode, p: EvalResult, e: EvalResult)
    requires v.strict && parent.body.evalResults == Some(EvalJson(p))
    requires p.score == Infinite(false) && e.score == Finite("0.5")
    ensures !Beats(e.score, p.score) && !FailsToImprove(v, parent, e)
  {
    StoredScoreOf(p);
  }

  /** A NaN passes under a parent at one half. */
  lemma RuleFailsAtNaN(v: Config, parent: AgentNode, p: EvalResult, e: EvalResult)
    requires v.strict && parent.body.evalResults == Some(EvalJson(p))
    requires p.score == Finite("0.5") && e.score == NaN
    ensures !Beats(e.score, p.score) && !FailsToImprove(v, parent, e)
  {
    StoredScoreOf(p);
  }

  /** Under a parent without an evaluation, such as a root or a signed rollback, every candidate passes the rule. */
  lemma RulePassesUnevaluated(v: Config, parent: AgentNode, e: EvalResult)
    requires parent.body.evalResults == None
    ensures !FailsToImprove(v, parent, e)
  {}

  lemma JudgedCommit(v: Config, inputs: CycleInputs, diff: string, eval: EvalResult, key: string)
    requires Genuine(v.signer)
    ensures match Judge(v, inputs, diff, eval)
            case Promoting(commit) => SignedCycle(v, inputs.parent, v.signer.sign(commit, key))
            case Rejecting(commit) => SignedCycle(v, inputs.parent, v.signer.sign(commit, key))
            case Pausing(p) =>
              && p.parentId == Some(inputs.parent.agentId) && p.parentGeneration == inputs.parent.body.generation
              && !CapExceeded(inputs.parent) && Improves(v, inputs.parent, Some(p.evalResults))
  {
    ImprovesOrFails(v, inputs.parent, eval);
    GateExact(inputs.parent, inputs.intent, v.signer.sbom(inputs.candidate));
  }

  ghost predicate SignedCycle(v: Config, parent: AgentNode, node: AgentNode) {
    && v.signer.verify(node) == Ok(())
    && node.capabilitySbom == v.signer.sbom(node.body.artifact)
    && (node.body.validParent <==> node.body.status == Promoted)
    && MadeByCycle(v, parent, node)
  }

  // ---------------------------------------------------------------- the remaining steps

  lemma SettleKeeps(v: Config, w: World, t: nat, diff: string, eval: EvalResult)
    requires Genuine(v.signer) && Inv(v, w) && t in w.tasks && w.tasks[t].Cycling?
    ensures var w' := Settle(v, w, t, w.tasks[t].inputs, w.tasks[t].parentAt, diff, eval); Inv(v, w') && Grows(w, w')
  {
    var inputs, at := w.tasks[t].inputs, w.tasks[t].parentAt;
    assert TaskOk(v, w, t, w.tasks[t]);
    JudgedCommit(v, inputs, diff, eval, v.key);
    match Judge(v, inputs, diff, eval)
    case Promoting(commit) =>
      BeginKeeps(v, w, t, Committing(v.signer.sign(commit, v.key), FromCycle(t, inputs.parent, at)));
    case Rejecting(commit) =>
      BeginKeeps(v, w, t, Committing(v.signer.sign(commit, v.key), FromCycle(t, inputs.parent, at)));
    case Pausing(pending) =>
      PauseKeeps(v, w, t, Pause(pending, inputs.parent, at));
  }

  lemma ResumeBooks(w: World, t: nat, p: nat, task: Task)
    requires BooksOk(w) && Unused(w, t) && p in w.paused && p !in w.resumed
    ensures var w' := Begin(w.(resumed := w.resumed[p := t]), t, task);
            BooksOk(w') && SameWorldRecord(w, w') && Grows(w, w')
  {}

  lemma ResumedNode(v: Config, w: World, t: nat, p: nat, key: string)
    requires Genuine(v.signer) && PausesOk(v, w) && p in w.paused && p in w.resumed && w.resumed[p] == t
    ensures var pause := w.paused[p];
            TaskOk(v, w, t, Committing(v.signer.sign(ResumeCommit(pause.pending), key),
                                       FromApproval(t, p, pause.parent, pause.parentAt)))
  {
    assert Captured(v, w.ledger.log, w.paused[p], |w.ledger.log|);
  }

  lemma ResumeKeeps(v: Config, w: World, t: nat, p: nat, key: string)
    requires Genuine(v.signer) && Inv(v, w) && Unused(w, t) && p in w.paused && p !in w.resumed
    ensures var w' := Resume(v, w, t, p, key); Inv(v, w') && Grows(w, w')
  {
    var pause := w.paused[p];
    var node := v.signer.sign(ResumeCommit(pause.pending), key);
    var task := Committing(node, FromApproval(t, p, pause.parent, pause.parentAt));
    var w' := Begin(w.(resumed := w.resumed[p := t]), t, task);
    ResumeBooks(w, t, p, task);
    ResumedNode(v, w', t, p, key);
    RecordedKeeps(v, w, w', t);
  }

  lemma MovedHead(v: Config, w: World, t: nat, id: string)
    requires LogOk(v, w) && PausesOk(v, w) && BooksOk(w) && t !in w.done && PromotedId(w.ledger.log, id)
    ensures var w' := Finish(w.(ledger := w.ledger.(head := Some(id))), t, Moved);
            LogOk(v, w') && HeadOk(w'.ledger) && PausesOk(v, w') && BooksOk(w') && Grows(w, w')
  {
    var w' := Finish(w.(ledger := w.ledger.(head := Some(id))), t, Moved);
    FinishBooks(w, t, Moved);
    LogGrows(v, w, w');
  }

  lemma MoveKeeps(v: Config, w: World, t: nat)
    requires Inv(v, w) && t in w.tasks && w.tasks[t].Moving?
    ensures var w' := Move(w, t, w.tasks[t].targetId); Inv(v, w') && Grows(w, w')
  {
    var id := w.tasks[t].targetId;
    assert TaskOk(v, w, t, w.tasks[t]);
    if MoveHead(w.ledger, id).Ok? {
      MovedHead(v, w, t, id);
      TasksGrow(v, w, Finish(w.(ledger := w.ledger.(head := Some(id))), t, Moved), t);
    } else {
      FinishKeeps(v, w, t, Failed);
    }
  }

  lemma PromotedInLog(log: seq<AgentNode>, at: nat)
    requires IsPromotedAt(log, at, |log|)
    ensures PromotedId(log, log[at].agentId)
  {}

  lemma RollbackKeeps(v: Config, w: World, t: nat, targetId: string, createdAt: string)
    requires Inv(v, w) && Unused(w, t) && |w.heads| > 0
    ensures var w' := BeginRollback(v, w, t, targetId, createdAt); Inv(v, w') && Grows(w, w')
  {
    var r := RollbackTargetNode(v, w.ledger, targetId);
    if r.Ok? && IndexOf(w.ledger.log, targetId).Some? {
      BeginKeeps(v, w, t, RollingBack(r.value, IndexOf(w.ledger.log, targetId).value, createdAt, Now(w)));
    } else {
      FinishKeeps(v, w, t, Failed);
    }
  }

  lemma HeadReadOk(v: Config, w: World, t: nat, task: Task)
    requires task.RollingBack? && TaskOk(v, w, t, task) && HeadOk(w.ledger) && w.ledger.head.Some?
    requires |w.heads| > 0 && w.heads[Now(w)] == w.ledger.head
    ensures TaskOk(v, w, t,
                   HeadRead(task.target, task.targetAt, task.createdAt, task.called, w.ledger.head.value, Now(w)))
  {}

  lemma ReadHeadKeeps(v: Config, w: World, t: nat)
    requires Inv(v, w) && t in w.tasks && w.tasks[t].RollingBack?
    requires |w.heads| > 0 && w.heads[Now(w)] == w.ledger.head
    ensures var w' := NoteHead(w, t, w.tasks[t]); Inv(v, w') && Grows(w, w')
  {
    var task := w.tasks[t];
    if w.ledger.head == None {
      FinishKeeps(v, w, t, Failed);
    } else {
      HeadReadOk(v, w, t, task);
      var headId := w.ledger.head.value;
      BeginKeeps(v, w, t, HeadRead(task.target, task.targetAt, task.createdAt, task.called, headId, Now(w)));
    }
  }

  lemma PromotedFound(log: seq<AgentNode>, id: string)
    requires UniqueIds(log) && PromotedId(log, id)
    ensures IndexOf(log, id).Some? && log[IndexOf(log, id).value].body.status == Promoted
  {
    var i :| 0 <= i < |log| && log[i].agentId == id && log[i].body.status == Promoted;
    FindUnique(log, i);
  }

  lemma ReadParentKeeps(v: Config, w: World, t: nat)
    requires Genuine(v.signer) && Inv(v, w) && t in w.tasks && w.tasks[t].HeadRead?
    ensures var w' := SignRollback(v, w, t, w.tasks[t]); Inv(v, w') && Grows(w, w')
  {
    var task := w.tasks[t];
    assert TaskOk(v, w, t, task);
    PromotedFound(w.ledger.log, task.headId);
    var at := IndexOf(w.ledger.log, task.headId).value;
    var node := v.signer.sign(RollbackCommit(task.target, w.ledger.log[at], task.createdAt), v.key);
    BeginKeeps(v, w, t, Committing(node, FromRollback(t, task.targetAt, at, task.called, task.seen)));
  }

  lemma RootKeeps(v: Config, w: World, t: nat, artifact: Artifact, scope: AllowedScope, createdAt: string)
    requires Genuine(v.signer) && Inv(v, w) && Unused(w, t)
    ensures var w' := BeginRoot(v, w, t, artifact, scope, createdAt); Inv(v, w') && Grows(w, w')
  {
    BeginKeeps(v, w, t, Committing(v.signer.sign(RootCommit(artifact, scope, createdAt), v.key), FromRoot(t)));
  }

  lemma HeadAfterAppend(s: Lineage, node: AgentNode)
    requires HeadOk(s) && AppendNode(s, node).Ok?
    ensures HeadOk(AppendNode(s, node).value)
  {
    var s' := AppendNode(s, node).value;
    if node.body.status == Promoted {
      assert s'.log[|s.log|].agentId == node.agentId;
    } else if s.head.Some? {
      PromotedIdGrows(s.log, s'.log, s.head.value);
    }
  }

  lemma AppendKeeps(v: Config, w: World, t: nat)
    requires Inv(v, w) && t in w.tasks && w.tasks[t].Committing?
    ensures var w' := Append(w, t, w.tasks[t].node, w.tasks[t].origin); Inv(v, w') && Grows(w, w')
  {
    var node, origin := w.tasks[t].node, w.tasks[t].origin;
    assert TaskOk(v, w, t, w.tasks[t]);
    if AppendNode(w.ledger, node).Ok? {
      LoggedKeeps(v, w, t, AppendNode(w.ledger, node).value, node, origin);
    } else {
      FinishKeeps(v, w, t, Failed);
    }
  }

  function Logged(w: World, t: nat, s: Lineage, origin: Origin): World {
    Finish(w.(ledger := s, made := w.made + [origin]), t, Appended(|w.ledger.log|))
  }

  lemma LoggedKeeps(v: Config, w: World, t: nat, s: Lineage, node: AgentNode, origin: Origin)
    requires Inv(v, w) && t in w.tasks && origin.task == t
    requires AppendNode(w.ledger, node) == Ok(s) && MadeAs(v, w, node, origin, |w.ledger.log|)
    ensures Inv(v, Logged(w, t, s, origin)) && Grows(w, Logged(w, t, s, origin))
  {
    var w' := Logged(w, t, s, origin);
    AppendBooks(w, t, s, origin);
    AppendRecord(v, w, w', node, origin);
    TasksGrow(v, w, w', t);
  }

  lemma AppendRecord(v: Config, w: World, w': World, node: AgentNode, origin: Origin)
    requires Grows(w, w') && LogOk(v, w) && HeadOk(w.ledger) && PausesOk(v, w)
    requires MadeAs(v, w, node, origin, |w.ledger.log|)
    requires AppendNode(w.ledger, node) == Ok(w'.ledger) && w'.made == w.made + [origin] && w'.paused == w.paused
    ensures LogOk(v, w') && HeadOk(w'.ledger) && PausesOk(v, w')
  {
    AppendLogOk(v, w, w', node, origin);
    HeadAfterAppend(w.ledger, node);
  }

  lemma AppendLogOk(v: Config, w: World, w': World, node: AgentNode, origin: Origin)
    requires Grows(w, w') && LogOk(v, w) && MadeAs(v, w, node, origin, |w.ledger.log|)
    requires w'.ledger.log == w.ledger.log + [node] && w'.made == w.made + [origin]
    requires Find(w.ledger.log, node.agentId).None?
    ensures LogOk(v, w')
  {
    forall i | 0 <= i < |w'.made| ensures MadeAs(v, w', w'.ledger.log[i], w'.made[i], i) {
      if i < |w.made| {
        MadeAsGrows(v, w, w', w.ledger.log[i], w.made[i], i, i);
      } else {
        MadeAsGrows(v, w, w', node, origin, |w.ledger.log|, i);
      }
    }
  }

  lemma AppendBooks(w: World, t: nat, s: Lineage, origin: Origin)
    requires BooksOk(w) && |w.made| == |w.ledger.log| && t in w.tasks && origin.task == t && w.ledger.log <= s.log
    ensures BooksOk(Logged(w, t, s, origin)) && Grows(w, Logged(w, t, s, origin))
  {}

  lemma SelectKeeps(v: Config, w: World, t: nat, selector: ParentSelector)
    requires Inv(v, w) && Unused(w, t)
    ensures var w' := BeginGeneration(w, t, selector); Inv(v, w') && Grows(w, w')
  {
    SelectedIsValidParent(selector, w.ledger.log);
    match SelectParent(selector, w.ledger.log)
    case None => FinishKeeps(v, w, t, Failed);
    case Some(id) => BeginKeeps(v, w, t, Selected(id));
  }

  lemma CycleKeeps(v: Config, w: World, t: nat, inputs: CycleInputs)
    requires Inv(v, w) && t !in w.done
    ensures Inv(v, BeginCycle(w, t, inputs)) && Grows(w, BeginCycle(w, t, inputs))
  {
    BeginKeeps(v, w, t, Cycling(inputs, ParentAt(w.ledger.log, inputs.parent)));
  }

  lemma EvaluatedKeeps(v: Config, w: World, t: nat, diff: string, eval: Option<EvalResult>)
    requires Genuine(v.signer) && Inv(v, w) && t in w.tasks && w.tasks[t].Cycling?
    ensures var w' := Evaluated(v, w, t, w.tasks[t], diff, eval); Inv(v, w') && Grows(w, w')
  {
    if eval == None {
      FinishKeeps(v, w, t, Failed);
    } else {
      SettleKeeps(v, w, t, diff, eval.value);
    }
  }

  lemma Stays(w: World)
    ensures Grows(w, w)
  {}

  lemma NewCallKeeps(v: Config, w: World, e: Event)
    requires Genuine(v.signer) && Inv(v, w) && |w.heads| > 0 && Unused(w, e.task)
    requires e.CallRoot? || e.CallCycle? || e.CallRollback? || e.CallMove? || e.CallGeneration?
    ensures Inv(v, Act(v, w, e)) && Grows(w, Act(v, w, e))
  {
    match e
    case CallRoot(t, artifact, scope, createdAt) => RootKeeps(v, w, t, artifact, scope, createdAt);
    case CallCycle(t, inputs) => CycleKeeps(v, w, t, inputs);
    case CallRollback(t, targetId, createdAt) => RollbackKeeps(v, w, t, targetId, createdAt);
    case CallMove(t, targetId) => CallMoveKeeps(v, w, t, targetId);
    case CallGeneration(t, selector) => SelectKeeps(v, w, t, selector);
  }

  lemma LaterStepKeeps(v: Config, w: World, e: Event)
    requires Genuine(v.signer) && Inv(v, w) && |w.heads| > 0 && w.heads[Now(w)] == w.ledger.head && At(w, e.task)
    requires e.ReadHead? || e.ReadParent? || e.DoMove? || e.ReadSelected?
    ensures Inv(v, Act(v, w, e)) && Grows(w, Act(v, w, e))
  {
    Stays(w);
    match e
    case ReadHead(t) =>
      if w.tasks[t].RollingBack? {
        ReadHeadKeeps(v, w, t);
      }
    case ReadParent(t) =>
      if w.tasks[t].HeadRead? {
        ReadParentKeeps(v, w, t);
      }
    case DoMove(t) =>
      if w.tasks[t].Moving? {
        MoveKeeps(v, w, t);
      }
    case ReadSelected(t, intent, scope, createdAt, proposal) =>
      if w.tasks[t].Selected? {
        FetchKeeps(v, w, t, w.tasks[t].parentId, intent, scope, createdAt, proposal);
      }
  }

  /** One step of any call keeps the invariant, and the log and the histories only grow. */
  lemma GateKeeps(v: Config, w: World, t: nat, diff: string, eval: Option<EvalResult>)
    requires Genuine(v.signer) && Inv(v, w)
    ensures var w' := Act(v, w, Gate(t, diff, eval)); Inv(v, w') && Grows(w, w')
  {
    Stays(w);
    if At(w, t) && w.tasks[t].Cycling? {
      EvaluatedKeeps(v, w, t, diff, eval);
    }
  }

  lemma AppendOrStayKeeps(v: Config, w: World, w': World, t: nat)
    requires Inv(v, w)
    requires w' == if At(w, t) && w.tasks[t].Committing? then Append(w, t, w.tasks[t].node, w.tasks[t].origin) else w
    ensures Inv(v, w') && Grows(w, w')
  {
    if At(w, t) && w.tasks[t].Committing? {
      AppendKeeps(v, w, t);
    } else {
      Stays(w);
    }
  }

  lemma GateActs(v: Config, w: World, t: nat, diff: string, eval: Option<EvalResult>)
    ensures Act(v, w, Gate(t, diff, eval)) ==
            if At(w, t) && w.tasks[t].Cycling? then Evaluated(v, w, t, w.tasks[t], diff, eval) else w
  {}

  lemma DoAppendActs(v: Config, w: World, t: nat)
    ensures Act(v, w, DoAppend(t)) ==
            if At(w, t) && w.tasks[t].Committing? then Append(w, t, w.tasks[t].node, w.tasks[t].origin) else w
  {}

  lemma CallResumeActs(v: Config, w: World, t: nat, p: nat, key: string)
    ensures Act(v, w, CallResume(t, p, key)) ==
            if Unused(w, t) && p in w.paused && p !in w.resumed then Resume(v, w, t, p, key) else w
  {}

  lemma DoAppendKeeps(v: Config, w: World, t: nat)
    requires Inv(v, w)
    ensures Inv(v, Act(v, w, DoAppend(t))) && Grows(w, Act(v, w, DoAppend(t)))
  {
    DoAppendActs(v, w, t);
    AppendOrStayKeeps(v, w, Act(v, w, DoAppend(t)), t);
  }

  lemma ResumeOrStayKeeps(v: Config, w: World, w': World, t: nat, p: nat, key: string)
    requires Genuine(v.signer) && Inv(v, w)
    requires w' == if Unused(w, t) && p in w.paused && p !in w.resumed then Resume(v, w, t, p, key) else w
    ensures Inv(v, w') && Grows(w, w')
  {
    if Unused(w, t) && p in w.paused && p !in w.resumed {
      ResumeKeeps(v, w, t, p, key);
    } else {
      Stays(w);
    }
  }

  lemma CallResumeKeeps(v: Config, w: World, t: nat, p: nat, key: string)
    requires Genuine(v.signer) && Inv(v, w)
    ensures var w' := Act(v, w, CallResume(t, p, key)); Inv(v, w') && Grows(w, w')
  {
    CallResumeActs(v, w, t, p, key);
    ResumeOrStayKeeps(v, w, Act(v, w, CallResume(t, p, key)), t, p, key);
  }

  lemma ActKeeps(v: Config, w: World, e: Event)
    requires Genuine(v.signer) && Inv(v, w)
    requires |w.heads| > 0 && w.heads[Now(w)] == w.ledger.head
    ensures Inv(v, Act(v, w, e)) && Grows(w, Act(v, w, e))
  {
    Stays(w);
    match e
    case Gate(t, diff, eval) => GateKeeps(v, w, t, diff, eval);
    case DoAppend(t) => DoAppendKeeps(v, w, t);
    case CallResume(t, p, key) => CallResumeKeeps(v, w, t, p, key);
    case ReadHead(t) =>
      if At(w, t) {
        LaterStepKeeps(v, w, e);
      }
    case ReadParent(t) =>
      if At(w, t) {
        LaterStepKeeps(v, w, e);
      }
    case DoMove(t) =>
      if At(w, t) {
        LaterStepKeeps(v, w, e);
      }
    case ReadSelected(t, _, _, _, _) =>
      if At(w, t) {
        LaterStepKeeps(v, w, e);
      }
    case _ =>
      if Unused(w, e.task) {
        NewCallKeeps(v, w, e);
      }
  }

  lemma CallMoveKeeps(v: Config, w: World, t: nat, targetId: string)
    requires Inv(v, w) && Unused(w, t)
    ensures var w' := BeginMove(v, w, t, targetId); Inv(v, w') && Grows(w, w')
  {
    var r := RollbackTargetNode(v, w.ledger, targetId);
    if r.Ok? {
      var at := IndexOf(w.ledger.log, targetId).value;
      PromotedInLog(w.ledger.log, at);
      BeginKeeps(v, w, t, Moving(targetId));
    } else {
      FinishKeeps(v, w, t, Failed);
    }
  }

  lemma FetchKeeps(v: Config, w: World, t: nat, parentId: string, intent: MutationIntent, scope: AllowedScope,
                   createdAt: string, proposal: Option<Artifact>)
    requires Inv(v, w) && t !in w.done
    ensures var w' := FetchSelected(w, t, parentId, intent, scope, createdAt, proposal); Inv(v, w') && Grows(w, w')
  {
    if GetNode(w.ledger, parentId).Ok? && proposal.Some? {
      CycleKeeps(v, w, t, CycleInputs(GetNode(w.ledger, parentId).value, intent, proposal.value, scope, createdAt));
    } else {
      FinishKeeps(v, w, t, Failed);
    }
  }

  lemma StepKeeps(v: Config, w: World, e: Event)
    requires Genuine(v.signer) && Inv(v, w)
    ensures Inv(v, Step(v, w, e)) && Grows(w, Step(v, w, e))
  {
    var w' := Ticked(w);
    TickKeeps(v, w);
    ActKeeps(v, w', e);
    GrowsTransitive(w, w', Act(v, w', e));
  }

  // ---------------------------------------------------------------- runs

  /** Every run, whatever its interleaving, keeps the invariant. */
  lemma {:induction false} RunKeeps(v: Config, run: seq<Event>)
    requires Genuine(v.signer)
    ensures Inv(v, Run(v, run))
  {
    if run == [] {
    } else {
      RunKeeps(v, run[..|run| - 1]);
      StepKeeps(v, Run(v, run[..|run| - 1]), run[|run| - 1]);
    }
  }

  /** A longer run has a longer log: later logs extend earlier ones, and stored nodes never change. */
  lemma {:induction false} RunGrows(v: Config, run: seq<Event>, n: nat)
    requires Genuine(v.signer) && n <= |run|
    ensures Grows(Run(v, run[..n]), Run(v, run))
  {
    if n == |run| {
      assert run[..n] == run;
    } else {
      var last := |run| - 1;
      RunGrows(v, run[..last], n);
      assert run[..last][..n] == run[..n];
      RunKeeps(v, run[..last]);
      StepKeeps(v, Run(v, run[..last]), run[last]);
      GrowsTransitive(Run(v, run[..n]), Run(v, run[..last]), Run(v, run));
    }
  }

  /** The ledger after any run: unique ids; every node verifies and can be a parent just when it was promoted; no
      head exactly while nothing was promoted, a stored Promoted head otherwise. */
  lemma LedgerInvariant(v: Config, run: seq<Event>)
    requires Genuine(v.signer)
    ensures var s := Run(v, run).ledger;
            && UniqueIds(s.log)
            && (forall n :: n in s.log ==>
                  v.signer.verify(n) == Ok(()) && (n.body.validParent <==> n.body.status == Promoted))
            && (s.head == None <==> forall n :: n in s.log ==> n.body.status == Rejected)
            && (s.head.Some? ==> PromotedId(s.log, s.head.value))
  {
    RunKeeps(v, run);
    var w := Run(v, run);
    forall n | n in w.ledger.log
      ensures v.signer.verify(n) == Ok(()) && (n.body.validParent <==> n.body.status == Promoted)
    {
      var i :| 0 <= i < |w.ledger.log| && w.ledger.log[i] == n;
      assert MadeAs(v, w, w.ledger.log[i], w.made[i], i);
    }
    if w.ledger.head.Some? {
      var log := w.ledger.log;
      var i :| 0 <= i < |log| && log[i].agentId == w.ledger.head.value && log[i].body.status == Promoted;
      assert log[i] in log;
    }
  }
}
