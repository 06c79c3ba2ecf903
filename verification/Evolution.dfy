/** The evolution driver (src/evolution.rs): one generation, from the selection of a parent to the teardown. */
module Evolution {
  import opened Wrappers
  import opened Node
  import opened Ledger
  import opened Graph
  import opened Selector
  import opened Parents

  /** What the host's mutator, sandbox and evaluator answer during one generation. */
  datatype Host = Host(
    propose: AgentNode -> Result<Artifact>,
    enforce: Artifact -> Result<()>,
    diff: (Artifact, Artifact) -> string,
    evaluate: Artifact -> Result<EvalResult>,
    teardown: Result<()>)

  /** `outcome?; teardown?`: the first error wins, and a failed teardown hides an outcome that is already in the
      ledger. */
  function AfterTeardown(outcome: Result<CycleOutcome>, teardown: Result<()>): Result<CycleOutcome> {
    match (outcome, teardown)
    case (Err(e), _) => Err(e)
    case (Ok(_), Err(e)) => Err(e)
    case _ => outcome
  }

  /** The outcome stands unless the teardown alone fails. */
  ghost predicate FirstErrorWins(outcome: Result<CycleOutcome>, teardown: Result<()>, r: Result<CycleOutcome>) {
    && (outcome.Err? ==> r == outcome)
    && (outcome.Ok? && teardown.Err? ==> r == Err(teardown.error))
    && (outcome.Ok? && teardown.Ok? ==> r == outcome)
  }

  /** What a generation does once its parent is known. */
  ghost predicate GenerationEnds(v: Config, before: Lineage, after: Lineage, host: Host, parent: AgentNode,
                                 intent: MutationIntent, scope: AllowedScope, createdAt: string,
                                 r: Result<CycleOutcome>)
  {
    match host.propose(parent)
    case Err(e) => r == Err(e) && after == before
    case Ok(candidate) =>
      match host.enforce(candidate)
      case Err(e) => r == Err(e) && after == before
      case Ok(_) =>
        match host.evaluate(candidate)
        case Err(e) => r == Err(e) && after == before
        case Ok(eval) =>
          var inputs := CycleInputs(parent, intent, candidate, scope, createdAt);
          exists outcome ::
            && CycleEnds(v, before, after, Judge(v, inputs, host.diff(parent.body.artifact, candidate), eval), eval,
                         outcome)
            && FirstErrorWins(outcome, host.teardown, r)
  }

  lemma CycleEndsGeneration(v: Config, before: Lineage, after: Lineage, host: Host, parent: AgentNode,
                            intent: MutationIntent, scope: AllowedScope, createdAt: string,
                            outcome: Result<CycleOutcome>)
    requires host.propose(parent).Ok? && host.enforce(host.propose(parent).value).Ok?
    requires var candidate := host.propose(parent).value;
             var inputs, eval :=
               CycleInputs(parent, intent, candidate, scope, createdAt), host.evaluate(candidate);
             && (eval.Err? ==> outcome == Err(eval.error) && after == before)
             && (eval.Ok? ==>
                   CycleEnds(v, before, after, Judge(v, inputs, host.diff(parent.body.artifact, candidate), eval.value),
                             eval.value, outcome))
    ensures GenerationEnds(v, before, after, host, parent, intent, scope, createdAt,
                           AfterTeardown(outcome, host.teardown))
  {
    assert FirstErrorWins(outcome, host.teardown, AfterTeardown(outcome, host.teardown));
  }

  class EvolutionDriver {
    const veh: Veh
    const ledger: InMemoryLineage
    const selector: ParentSelector

    /** The driver must be given the runner's own store. */
    constructor (veh: Veh, ledger: InMemoryLineage, selector: ParentSelector)
      requires veh.ledger == ledger
      ensures this.veh == veh && this.ledger == ledger && this.selector == selector
    {
      this.veh, this.ledger, this.selector := veh, ledger, selector;
    }

    /** `run_generation`. The parent handed to the cycle is always a stored valid parent. */
    method RunGeneration(intent: MutationIntent, scope: AllowedScope, createdAt: string, host: Host)
      returns (r: Result<CycleOutcome>, ghost parent: Option<AgentNode>)
      requires veh.ledger == ledger && ledger.Valid()
      modifies ledger
      ensures ledger.Valid()
      ensures parent.None? <==> SelectParent(selector, old(ledger.State()).log).None?
      ensures parent.None? ==> r == Err(LedgerError) && ledger.State() == old(ledger.State())
      ensures parent.Some? ==>
                && StoredParent(old(ledger.State()).log, parent.value)
                && SelectParent(selector, old(ledger.State()).log) == Some(parent.value.agentId)
                && GenerationEnds(veh.config, old(ledger.State()), ledger.State(), host, parent.value,
                                  intent, scope, createdAt, r)
    {
      parent := None;
      var nodes := ledger.Nodes();
      var parentId := Select(selector, nodes);
      if parentId.Err? {
        return Err(parentId.error), None;
      }
      SelectedIsValidParent(selector, nodes);
      FindInMap(ledger.nodes, ledger.insertionOrder, ledger.head, parentId.value);
      ValidIdFound(nodes, parentId.value);
      var found := ledger.Get(parentId.value);
      var node := found.value;
      parent := Some(node);
      var candidate := host.propose(node);
      if candidate.Err? {
        return Err(candidate.error), parent;
      }
      var enforced := host.enforce(candidate.value);
      if enforced.Err? {
        return Err(enforced.error), parent;
      }
      var inputs := CycleInputs(node, intent, candidate.value, scope, createdAt);
      var diff := host.diff(node.body.artifact, candidate.value);
      var outcome := veh.RunCycle(inputs, diff, host.evaluate(candidate.value));
      CycleEndsGeneration(veh.config, old(ledger.State()), ledger.State(), host, node, intent, scope, createdAt,
                          outcome);
      r := AfterTeardown(outcome, host.teardown);
    }
  }
}
