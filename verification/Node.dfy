/** The records of the ledger (src/node.rs, src/intent.rs, src/evaluator.rs). */
module Node {
  import opened Wrappers
  import opened Text
  import opened Json
  import opened Score

  const U32_RANGE: int := 0x1_0000_0000

  type U32 = n: int | 0 <= n < U32_RANGE

  /** `generation + 1` as release builds compute it. Debug builds stop on the wrap instead. */
  function NextGeneration(g: U32): U32 {
    (g + 1) % U32_RANGE
  }

  datatype MutationIntent = MutationIntent(
    goal: string,
    rationale: string,
    expectedImprovement: Option<F64>,
    constraints: seq<string>,
    metadata: Value)

  function NewIntent(goal: string): MutationIntent {
    MutationIntent(goal, "", None, [], Null)
  }

  function RollbackIntent(target: string): MutationIntent {
    var name := Str(target);
    assert UniqueKeys(name);
    MutationIntent("rollback", "revert to " + target, None, [], Obj([Field("rollback_target", name)]))
  }

  function RollbackTarget(intent: MutationIntent): Option<string> {
    if intent.goal != "rollback" then None
    else match Get(intent.metadata, "rollback_target")
      case Some(Str(target)) => Some(target)
      case _ => None
  }

  datatype AllowedScope = AllowedScope(
    allowedTools: seq<string>,
    allowedMcpServers: seq<string>,
    allowedDelegates: seq<string>,
    maxGeneration: Option<U32>,
    gatedCapabilities: seq<string>)

  datatype NodeStatus = Promoted | Rejected

  datatype EvalStage = Continue | Promote | Stop

  datatype EvalResult = EvalResult(score: F64, details: Value)

  /** `serde_json::to_value(eval)`. */
  function EvalJson(eval: EvalResult): Value {
    Obj([Field("score", ToJson(eval.score)), Field("details", eval.details)])
  }

  /** What an evaluation is stored as: two fields, a score that is not finite as null. */
  lemma EvalJsonExact(eval: EvalResult)
    ensures Get(EvalJson(eval), "score") ==
            Some(if eval.score.Finite? then Num(Float(eval.score.token)) else Null)
    ensures Get(EvalJson(eval), "details") == Some(eval.details)
    ensures forall k :: Get(EvalJson(eval), k).Some? ==> k in {"score", "details"}
  {
    var fields := EvalJson(eval).fields;
    assert "score" != "details";
    LookupAt(fields, 0);
    LookupAt(fields, 1);
    forall k | Get(EvalJson(eval), k).Some? ensures k in {"score", "details"} {
      LookupFound(fields, k);
    }
  }

  /** Storing a score and reading it back: what is not finite is stored as no score at all. */
  lemma StoredScoreOf(eval: EvalResult)
    ensures StoredScore(Some(EvalJson(eval))) ==
            if eval.score.Finite? then Some(FloatValue(eval.score.token)) else None
  {
    EvalJsonExact(eval);
  }

  /** Which records hold a score, and which number it is: a number under the key `score`, whole or not. */
  lemma StoredScoreExact(evalResults: Option<Raw>)
    ensures evalResults == None ==> StoredScore(evalResults) == None
    ensures evalResults.Some? ==>
              match Get(evalResults.value, "score")
              case Some(Num(Int(i))) => StoredScore(evalResults) == Some(i as real)
              case Some(Num(Float(token))) => StoredScore(evalResults) == Some(FloatValue(token))
              case _ => StoredScore(evalResults) == None
  {}

  /** An artifact is its manifest, and a manifest is its JSON form. */
  type Artifact = Value

  function NamesIn(items: seq<Raw>): seq<string> {
    if items == [] then []
    else match Get(items[0], "name")
      case Some(Str(name)) => [name] + NamesIn(items[1..])
      case _ => NamesIn(items[1..])
  }

  /** The names in one of a manifest's lists: `tools`, `mcp_servers` or `delegates`. */
  function ManifestNames(manifest: Artifact, list: string): seq<string> {
    match Get(manifest, list)
    case Some(Arr(items)) => NamesIn(items)
    case _ => []
  }

  /** What is signed: `CommitInputs`, and every field of `AgentNode` with the same name. */
  datatype CommitInputs = CommitInputs(
    parentId: Option<string>,
    generation: U32,
    createdAt: string,
    intent: MutationIntent,
    mutationDiff: string,
    scope: AllowedScope,
    evalResults: Option<Value>,
    artifact: Artifact,
    status: NodeStatus,
    parentAgentSuccess: bool,
    validParent: bool,
    evalStage: Option<EvalStage>)

  /** `AgentNode`, its signed fields grouped under `body`. */
  datatype AgentNode = AgentNode(
    agentId: string,
    body: CommitInputs,
    capabilitySbom: seq<string>,
    signerPublicKey: string,
    signature: string)
}
