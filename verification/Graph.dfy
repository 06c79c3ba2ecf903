/** The lifecycle runner (src/graph.rs): what each operation signs, and the operations on a shared ledger. */
module Graph {
  import opened Wrappers
  import opened Json
  import opened Score
  import opened Node
  import opened Policy
  import opened Ledger
  import Identity
  import Sbom

  /** What the runner needs of `crate::identity` and of the artifact. */
  datatype Signer = Signer(
    sign: (CommitInputs, string) -> AgentNode,
    verify: AgentNode -> Result<()>,
    sbom: Artifact -> seq<string>)

  /** A signed node holds what was signed and the artifact's capabilities, and it verifies. */
  ghost predicate Genuine(s: Signer) {
    forall inputs, key ::
      && s.sign(inputs, key).body == inputs
      && s.sign(inputs, key).capabilitySbom == s.sbom(inputs.artifact)
      && s.verify(s.sign(inputs, key)) == Ok(())
  }

  /** The crate's own signer. */
  function CrateSigner(c: Identity.Crypto): Signer {
    Signer(
      (inputs, key) => Identity.SignNode(c, inputs, key),
      node => Identity.VerifyNode(c, node),
      Sbom.CapabilitySbom)
  }

  lemma CrateSignerGenuine(c: Identity.Crypto)
    requires Identity.Lawful(c)
    ensures Genuine(CrateSigner(c))
  {
    forall inputs: CommitInputs, key: string
      ensures CrateSigner(c).verify(CrateSigner(c).sign(inputs, key)) == Ok(())
    {
      Identity.SignedVerifies(c, inputs, key);
    }
  }

  /** A runner's fixed parts. */
  datatype Config = Config(signer: Signer, key: string, strict: bool)

  datatype CycleInputs = CycleInputs(
    parent: AgentNode,
    intent: MutationIntent,
    candidate: Artifact,
    scope: AllowedScope,
    createdAt: string)

  /** `PendingApproval`: what a paused cycle carries. */
  datatype PendingApproval = PendingApproval(
    parentId: Option<string>,
    parentGeneration: U32,
    intent: MutationIntent,
    candidate: Artifact,
    scope: AllowedScope,
    createdAt: string,
    evalResults: Value,
    mutationDiff: string,
    reason: ApprovalReason)

  // ---------------------------------------------------------------- what is signed

  function RootCommit(artifact: Artifact, scope: AllowedScope, createdAt: string): CommitInputs {
    CommitInputs(None, 0, createdAt, NewIntent("genesis"), "", scope, None, artifact, Promoted, true, true, None)
  }

  /** `commit_promoted` and `commit_rejected`. */
  function CycleCommit(inputs: CycleInputs, diff: string, eval: EvalResult, status: NodeStatus): CommitInputs {
    CommitInputs(
      Some(inputs.parent.agentId), NextGeneration(inputs.parent.body.generation), inputs.createdAt, inputs.intent, diff,
      inputs.scope, Some(EvalJson(eval)), inputs.candidate, status, true, status == Promoted, None)
  }

  function ResumeCommit(p: PendingApproval): CommitInputs {
    CommitInputs(
      p.parentId, NextGeneration(p.parentGeneration), p.createdAt, p.intent, p.mutationDiff,
      p.scope, Some(p.evalResults), p.candidate, Promoted, true, true, None)
  }

  function RollbackCommit(target: AgentNode, parent: AgentNode, createdAt: string): CommitInputs {
    CommitInputs(
      Some(parent.agentId), NextGeneration(parent.body.generation), createdAt, RollbackIntent(target.agentId), "",
      target.body.scope, None, target.body.artifact, Promoted, true, true, None)
  }

  /** What a root is: promoted, a valid parent, successful, at generation zero, with nothing before it. */
  ghost predicate IsRoot(body: CommitInputs, artifact: Artifact, scope: AllowedScope, createdAt: string) {
    && body.parentId == None && body.generation == 0 && body.createdAt == createdAt
    && body.intent == MutationIntent("genesis", "", None, [], Null)
    && body.mutationDiff == "" && body.evalResults == None && body.evalStage == None
    && body.scope == scope && body.artifact == artifact
    && body.status == Promoted && body.parentAgentSuccess && body.validParent
  }

  lemma RootExact(artifact: Artifact, scope: AllowedScope, createdAt: string)
    ensures IsRoot(RootCommit(artifact, scope, createdAt), artifact, scope, createdAt)
  {}

  /** What a signed rollback is: a promoted copy of the target, one generation above the parent, that names its
      target. */
  ghost predicate Restores(body: CommitInputs, target: AgentNode, parent: AgentNode, createdAt: string) {
    && body.parentId == Some(parent.agentId) && body.generation == NextGeneration(parent.body.generation)
    && body.createdAt == createdAt
    && body.intent.goal == "rollback" && body.intent.rationale == "revert to " + target.agentId
    && body.intent.expectedImprovement == None && body.intent.constraints == []
    && body.intent.metadata == Obj([Field("rollback_target", Str(target.agentId))])
    && body.mutationDiff == "" && body.evalResults == None && body.evalStage == None
    && body.scope == target.body.scope && body.artifact == target.body.artifact
    && body.status == Promoted && body.parentAgentSuccess && body.validParent
  }

  lemma RollbackExact(target: AgentNode, parent: AgentNode, createdAt: string)
    ensures Restores(RollbackCommit(target, parent, createdAt), target, parent, createdAt)
  {}

  // ---------------------------------------------------------------- what is decided

  datatype Verdict =
    | Promoting(commit: CommitInputs)
    | Rejecting(commit: CommitInputs)
    | Pausing(pending: PendingApproval)

  /** The strict-improvement rule: it rejects a candidate that does not beat a parent with a numeric score. */
  predicate FailsToImprove(v: Config, parent: AgentNode, eval: EvalResult) {
    var parentScore := StoredScore(parent.body.evalResults);
    v.strict && parentScore.Some? && AtMost(eval.score, parentScore.value)
  }

  /** `run_cycle` between the evaluation and the append. */
  function Judge(v: Config, inputs: CycleInputs, diff: string, eval: EvalResult): Verdict {
    if FailsToImprove(v, inputs.parent, eval) then Rejecting(CycleCommit(inputs, diff, eval, Rejected))
    else
      match Evaluate(inputs.parent, inputs.intent, v.signer.sbom(inputs.candidate))
      case Approve => Promoting(CycleCommit(inputs, diff, eval, Promoted))
      case Deny(_, _) => Rejecting(CycleCommit(inputs, diff, eval, Rejected))
      case RequireApproval(reason) =>
        Pausing(PendingApproval(
          Some(inputs.parent.agentId), inputs.parent.body.generation, inputs.intent, inputs.candidate, inputs.scope,
          inputs.createdAt, EvalJson(eval), diff, reason))
  }

  /** The gate has nothing to ask about the candidate. */
  ghost predicate Clear(v: Config, inputs: CycleInputs) {
    var sbom := v.signer.sbom(inputs.candidate);
    && AdditionsListed(sbom, inputs.parent.capabilitySbom, inputs.parent.body.scope)
    && NothingGated(inputs.parent.body.scope.gatedCapabilities, sbom, inputs.intent.constraints)
  }

  ghost predicate Refused(v: Config, inputs: CycleInputs, eval: EvalResult) {
    FailsToImprove(v, inputs.parent, eval) || CapExceeded(inputs.parent)
  }

  /** A commit that records the cycle: what was asked, what the evaluator said, and a place under the given parent. */
  ghost predicate Records(commit: CommitInputs, inputs: CycleInputs, diff: string, eval: EvalResult) {
    && commit.parentId == Some(inputs.parent.agentId)
    && commit.generation == NextGeneration(inputs.parent.body.generation)
    && commit.artifact == inputs.candidate
    && commit.intent == inputs.intent
    && commit.scope == inputs.scope
    && commit.createdAt == inputs.createdAt
    && commit.mutationDiff == diff
    && commit.evalResults == Some(EvalJson(eval))
    && commit.parentAgentSuccess && (commit.validParent <==> commit.status == Promoted)
    && commit.evalStage == None
  }

  /** Exactly when a cycle is rejected, promoted or paused. A rejection comes before any pause. What resuming a
      pause signs is what promoting at once would have signed. */
  lemma JudgeExact(v: Config, inputs: CycleInputs, diff: string, eval: EvalResult)
    ensures match Judge(v, inputs, diff, eval)
            case Rejecting(commit) =>
              Refused(v, inputs, eval) && commit.status == Rejected && Records(commit, inputs, diff, eval)
            case Promoting(commit) =>
              && !Refused(v, inputs, eval) && Clear(v, inputs)
              && commit.status == Promoted && Records(commit, inputs, diff, eval)
            case Pausing(pending) =>
              && !Refused(v, inputs, eval) && !Clear(v, inputs)
              && ResumeCommit(pending) == CycleCommit(inputs, diff, eval, Promoted)
              && ResumeCommit(pending).status == Promoted && Records(ResumeCommit(pending), inputs, diff, eval)
              && Evaluate(inputs.parent, inputs.intent, v.signer.sbom(inputs.candidate)) ==
                 RequireApproval(pending.reason)
  {
    GateExact(inputs.parent, inputs.intent, v.signer.sbom(inputs.candidate));
  }

  /** The node a rollback may go to: stored, verified and Promoted. */
  function RollbackTargetNode(v: Config, s: Lineage, targetId: string): Result<AgentNode> {
    var target :- GetNode(s, targetId);
    var _ :- v.signer.verify(target);
    if target.body.status != Promoted then Err(PolicyDenied) else Ok(target)
  }

  /** What `commit_rollback` signs when nothing happens in between. */
  function RollbackInputs(v: Config, s: Lineage, targetId: string, createdAt: string): Result<CommitInputs> {
    var target :- RollbackTargetNode(v, s, targetId);
    if s.head == None then Err(LedgerError)
    else
      var parent :- GetNode(s, s.head.value);
      Ok(RollbackCommit(target, parent, createdAt))
  }

  /** A node may be rolled back to exactly when it is stored under the id, passes verification and was promoted; the
      first of the three that fails gives the error. */
  lemma RollbackTargetExact(v: Config, s: Lineage, targetId: string, t: AgentNode)
    ensures RollbackTargetNode(v, s, targetId) == Ok(t) <==>
            Find(s.log, targetId) == Some(t) && v.signer.verify(t).Ok? && t.body.status == Promoted
    ensures !Stored(s.log, targetId) ==> RollbackTargetNode(v, s, targetId) == Err(NotFound(targetId))
    ensures Find(s.log, targetId) == Some(t) && v.signer.verify(t).Err? ==>
              RollbackTargetNode(v, s, targetId) == Err(v.signer.verify(t).error)
    ensures Find(s.log, targetId) == Some(t) && v.signer.verify(t).Ok? && t.body.status == Rejected ==>
              RollbackTargetNode(v, s, targetId) == Err(PolicyDenied)
  {}

  /** When a signed rollback is made, of what, and on top of what; and which error comes otherwise. */
  lemma RollbackInputsExact(v: Config, s: Lineage, targetId: string, createdAt: string)
    ensures var r, target := RollbackInputs(v, s, targetId, createdAt), RollbackTargetNode(v, s, targetId);
            && (r.Ok? <==> target.Ok? && s.head.Some? && Stored(s.log, s.head.value))
            && (r.Ok? ==> Restores(r.value, target.value, Find(s.log, s.head.value).value, createdAt))
            && (target.Err? ==> r == Err(target.error))
            && (target.Ok? && s.head == None ==> r == Err(LedgerError))
            && (target.Ok? && s.head.Some? && !Stored(s.log, s.head.value) ==> r == Err(NotFound(s.head.value)))
  {
    if RollbackInputs(v, s, targetId, createdAt).Ok? {
      RollbackExact(RollbackTargetNode(v, s, targetId).value, Find(s.log, s.head.value).value, createdAt);
    }
  }

  /** A signed rollback is no root, and carries no evaluation. */
  lemma RollbackHasNoEvaluation(v: Config, s: Lineage, targetId: string, createdAt: string)
    requires RollbackInputs(v, s, targetId, createdAt).Ok?
    ensures var commit := RollbackInputs(v, s, targetId, createdAt).value;
            commit.parentId.Some? && commit.evalResults == None
  {}

  // ---------------------------------------------------------------- the operations

  datatype CycleOutcome =
    | CyclePromoted(node: AgentNode, eval: EvalResult)
    | CycleRejected(node: AgentNode)
    | AwaitingApproval(pending: PendingApproval)

  /** The effect of signing `commit` and appending it. */
  ghost predicate Appends(before: Lineage, after: Lineage, node: AgentNode, r: Result<AgentNode>) {
    match AppendNode(before, node)
    case Ok(s) => r == Ok(node) && after == s
    case Err(e) => r == Err(e) && after == before
  }

  /** How a cycle that was judged ends. */
  ghost predicate CycleEnds(v: Config, before: Lineage, after: Lineage, verdict: Verdict, eval: EvalResult,
                            r: Result<CycleOutcome>)
  {
    match verdict
    case Promoting(commit) =>
      var node := v.signer.sign(commit, v.key);
      (match AppendNode(before, node)
       case Ok(s) => r == Ok(CyclePromoted(node, eval)) && after == s
       case Err(e) => r == Err(e) && after == before)
    case Rejecting(commit) =>
      var node := v.signer.sign(commit, v.key);
      (match AppendNode(before, node)
       case Ok(s) => r == Ok(CycleRejected(node)) && after == s
       case Err(e) => r == Err(e) && after == before)
    case Pausing(pending) => r == Ok(AwaitingApproval(pending)) && after == before
  }

  /** `Veh`, each call run alone. */
  class Veh {
    const config: Config
    const ledger: InMemoryLineage

    constructor (config: Config, ledger: InMemoryLineage)
      ensures this.config == config && this.ledger == ledger
    {
      this.config := config;
      this.ledger := ledger;
    }

    method SignAndAppend(commit: CommitInputs, key: string) returns (r: Result<AgentNode>)
      requires ledger.Valid()
      modifies ledger
      ensures ledger.Valid()
      ensures Appends(old(ledger.State()), ledger.State(), config.signer.sign(commit, key), r)
    {
      var node := config.signer.sign(commit, key);
      var appended := ledger.Append(node);
      r := match appended case Ok(_) => Ok(node) case Err(e) => Err(e);
    }

    method CommitRoot(artifact: Artifact, scope: AllowedScope, createdAt: string) returns (r: Result<AgentNode>)
      requires ledger.Valid()
      modifies ledger
      ensures ledger.Valid()
      ensures Appends(old(ledger.State()), ledger.State(),
                      config.signer.sign(RootCommit(artifact, scope, createdAt), config.key), r)
      ensures Genuine(config.signer) && r.Ok? ==>
                && IsRoot(r.value.body, artifact, scope, createdAt)
                && ledger.State().log == old(ledger.State().log) + [r.value]
                && ledger.State().head == Some(r.value.agentId)
    {
      r := SignAndAppend(RootCommit(artifact, scope, createdAt), config.key);
    }

    /** `run_cycle`; the diff and the evaluator's answer are passed in. */
    method RunCycle(inputs: CycleInputs, diff: string, eval: Result<EvalResult>) returns (r: Result<CycleOutcome>)
      requires ledger.Valid()
      modifies ledger
      ensures ledger.Valid()
      ensures eval.Err? ==> r == Err(eval.error) && ledger.State() == old(ledger.State())
      ensures eval.Ok? ==>
                CycleEnds(config, old(ledger.State()), ledger.State(), Judge(config, inputs, diff, eval.value),
                          eval.value, r)
    {
      if eval.Err? {
        return Err(eval.error);
      }
      if FailsToImprove(config, inputs.parent, eval.value) {
        var node := SignAndAppend(CycleCommit(inputs, diff, eval.value, Rejected), config.key);
        return match node case Ok(n) => Ok(CycleRejected(n)) case Err(e) => Err(e);
      }
      var sbom := config.signer.sbom(inputs.candidate);
      match Evaluate(inputs.parent, inputs.intent, sbom)
      case Approve =>
        var node := SignAndAppend(CycleCommit(inputs, diff, eval.value, Promoted), config.key);
        r := match node case Ok(n) => Ok(CyclePromoted(n, eval.value)) case Err(e) => Err(e);
      case Deny(_, _) =>
        var node := SignAndAppend(CycleCommit(inputs, diff, eval.value, Rejected), config.key);
        r := match node case Ok(n) => Ok(CycleRejected(n)) case Err(e) => Err(e);
      case RequireApproval(reason) =>
        r := Ok(AwaitingApproval(PendingApproval(
          Some(inputs.parent.agentId), inputs.parent.body.generation, inputs.intent, inputs.candidate, inputs.scope,
          inputs.createdAt, EvalJson(eval.value), diff, reason)));
    }

    method ResumeWithApproval(pending: PendingApproval, approvalKey: string) returns (r: Result<AgentNode>)
      requires ledger.Valid()
      modifies ledger
      ensures ledger.Valid()
      ensures Appends(old(ledger.State()), ledger.State(), config.signer.sign(ResumeCommit(pending), approvalKey), r)
      ensures Genuine(config.signer) && r.Ok? ==>
                && r.value.body.status == Promoted && r.value.body.parentId == pending.parentId
                && ledger.State().log == old(ledger.State().log) + [r.value]
                && ledger.State().head == Some(r.value.agentId)
    {
      r := SignAndAppend(ResumeCommit(pending), approvalKey);
    }

    method RollbackTo(targetId: string) returns (r: Result<()>)
      requires ledger.Valid()
      modifies ledger
      ensures ledger.Valid()
      ensures match RollbackTargetNode(config, old(ledger.State()), targetId)
              case Ok(_) => r == Ok(()) && ledger.State() == old(ledger.State()).(head := Some(targetId))
              case Err(e) => r == Err(e) && ledger.State() == old(ledger.State())
    {
      var target := ledger.Get(targetId);
      if target.Err? {
        return Err(target.error);
      }
      var verified := config.signer.verify(target.value);
      if verified.Err? {
        return verified;
      }
      if target.value.body.status != Promoted {
        return Err(PolicyDenied);
      }
      r := ledger.SetHead(targetId);
    }

    method CommitRollback(targetId: string, createdAt: string) returns (r: Result<AgentNode>)
      requires ledger.Valid()
      modifies ledger
      ensures ledger.Valid()
      ensures match RollbackInputs(config, old(ledger.State()), targetId, createdAt)
              case Ok(commit) => Appends(old(ledger.State()), ledger.State(), config.signer.sign(commit, config.key), r)
              case Err(e) => r == Err(e) && ledger.State() == old(ledger.State())
      ensures Genuine(config.signer) && r.Ok? ==>
                && ledger.State().log == old(ledger.State().log) + [r.value]
                && ledger.State().head == Some(r.value.agentId)
                && old(ledger.State().head).Some?
                && Find(old(ledger.State().log), old(ledger.State().head).value).Some?
                && Find(old(ledger.State().log), targetId).Some?
                && Restores(r.value.body, Find(old(ledger.State().log), targetId).value,
                            Find(old(ledger.State().log), old(ledger.State().head).value).value, createdAt)
    {
      ghost var before := ledger.State();
      var target := ledger.Get(targetId);
      if target.Err? {
        return Err(target.error);
      }
      var verified := config.signer.verify(target.value);
      if verified.Err? {
        return Err(verified.error);
      }
      if target.value.body.status != Promoted {
        return Err(PolicyDenied);
      }
      var head := ledger.Head();
      if head == None {
        return Err(LedgerError);
      }
      var parent := ledger.Get(head.value);
      match parent
      case Err(e) => r := Err(e);
      case Ok(p) =>
        r := SignAndAppend(RollbackCommit(target.value, p, createdAt), config.key);
        RollbackExact(target.value, p, createdAt);
        AppendExact(before, config.signer.sign(RollbackCommit(target.value, p, createdAt), config.key));
    }
  }
}
