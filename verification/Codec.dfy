/** One ledger line (src/ledger.rs, src/node.rs): the JSON of a node, and the node read back from it. */
module Codec {
  import opened Wrappers
  import opened Text
  import opened Json
  import opened Canonical
  import opened Score
  import opened Node
  import opened Records
  import opened Payload

  const KEYS_A: seq<string> := ["agent_id", "parent_id", "generation", "created_at"]
  const KEYS_B: seq<string> := ["mutation_intent", "capability_sbom", "eval_results", "mutation_diff"]
  const KEYS_C: seq<string> := ["allowed_scope", "artifact", "signer_public_key", "signature"]
  const KEYS_D: seq<string> := ["status", "parent_agent_success", "valid_parent", "eval_stage"]

  const NODE_KEYS: seq<string> := KEYS_A + KEYS_B + KEYS_C + KEYS_D

  lemma NodeKeysDistinct()
    ensures Distinct(NODE_KEYS)
  {
    var tags := [8097100, 9112100, 10103110, 10099116, 15109116, 15099109, 12101115, 13109102,
                 13097101, 8097116, 17115121, 9115101, 6115115, 20112115, 12118116, 10101101];
    assert Distinct(tags);
    DistinctByTag(NODE_KEYS, tags);
  }

  function ArtifactJson(artifact: Artifact): Value {
    Record(["manifest"], [artifact])
  }

  function ValuesA(n: AgentNode): seq<Value> {
    [Str(n.agentId), IdJson(n.body.parentId), Num(Int(n.body.generation)), Str(n.body.createdAt)]
  }

  function ValuesB(n: AgentNode): seq<Value> {
    [IntentJson(n.body.intent), StringsJson(n.capabilitySbom), EvalOrNull(n.body.evalResults), Str(n.body.mutationDiff)]
  }

  function ValuesC(n: AgentNode): seq<Value> {
    [ScopeJson(n.body.scope), ArtifactJson(n.body.artifact), Str(n.signerPublicKey), Str(n.signature)]
  }

  function ValuesD(n: AgentNode): seq<Value> {
    [StatusJson(n.body.status), Bool(n.body.parentAgentSuccess), Bool(n.body.validParent), StageJson(n.body.evalStage)]
  }

  function NodeValues(n: AgentNode): seq<Value> {
    ValuesA(n) + ValuesB(n) + ValuesC(n) + ValuesD(n)
  }

  /** The derived `Serialize` of `AgentNode`: its fields in declaration order. */
  function NodeToJson(n: AgentNode): Value {
    NodeKeysDistinct();
    Record(NODE_KEYS, NodeValues(n))
  }

  // ---------------------------------------------------------------- reading

  function Member(v: Value, key: string): (m: Option<Value>)
    ensures m == Get(v, key)
  {
    match Get(v, key)
    case None => None
    case Some(m) =>
      LookupFound(v.fields, key);
      Some(m)
  }

  function ReadText(v: Option<Value>): Option<string> {
    match v case Some(Str(s)) => Some(s) case _ => None
  }

  /** `#[serde(default)]` on a string. */
  function ReadTextOr(v: Option<Value>, default: string): Option<string> {
    match v case None => Some(default) case Some(Str(s)) => Some(s) case _ => None
  }

  function ReadOptionalText(v: Option<Value>): Option<Option<string>> {
    match v case None => Some(None) case Some(Null) => Some(None) case Some(Str(s)) => Some(Some(s)) case _ => None
  }

  function ReadBoolOr(v: Option<Value>, default: bool): Option<bool> {
    match v case None => Some(default) case Some(Bool(b)) => Some(b) case _ => None
  }

  function ReadU32(v: Option<Value>): Option<U32> {
    match v case Some(Num(Int(i))) => if 0 <= i < U32_RANGE then Some(i) else None case _ => None
  }

  function ReadOptionalU32(v: Option<Value>): Option<Option<U32>> {
    match v
    case None => Some(None)
    case Some(Null) => Some(None)
    case Some(n) => match ReadU32(Some(n)) case None => None case Some(i) => Some(Some(i))
  }

  function ReadStrings(items: seq<Raw>): Option<seq<string>> {
    if items == [] then Some([])
    else match (items[0], ReadStrings(items[1..]))
      case (Str(s), Some(rest)) => Some([s] + rest)
      case _ => None
  }

  function ReadList(v: Option<Value>): Option<seq<string>> {
    match v case Some(Arr(items)) => ReadStrings(items) case _ => None
  }

  function ReadListOr(v: Option<Value>): Option<seq<string>> {
    match v case None => Some([]) case _ => ReadList(v)
  }

  function ReadImprovement(v: Option<Value>): Option<Option<F64>> {
    match v
    case None => Some(None)
    case Some(Null) => Some(None)
    case Some(Num(Float(token))) => Some(Some(Finite(token)))
    case _ => None
  }

  /** `Option<Value>`: null reads as absent. */
  function ReadOptionalValue(v: Option<Value>): Option<Value> {
    match v case None => None case Some(x) => if x == Null then None else Some(x)
  }

  function ReadValueOr(v: Option<Value>): Value {
    match v case None => Null case Some(x) => x
  }

  function ReadStatusOr(v: Option<Value>): Option<NodeStatus> {
    match v
    case None => Some(Promoted)
    case Some(Str(s)) => if s == "promoted" then Some(Promoted) else if s == "rejected" then Some(Rejected) else None
    case _ => None
  }

  function ReadStage(v: Option<Value>): Option<Option<EvalStage>> {
    match v
    case None => Some(None)
    case Some(Null) => Some(None)
    case Some(Str(s)) =>
      if s == "continue" then Some(Some(Continue))
      else if s == "promote" then Some(Some(Promote))
      else if s == "stop" then Some(Some(Stop))
      else None
    case _ => None
  }

  function ReadIntent(v: Value): Option<MutationIntent> {
    var goal :- ReadText(Member(v, "goal"));
    var rationale :- ReadTextOr(Member(v, "rationale"), "");
    var improvement :- ReadImprovement(Member(v, "expected_improvement"));
    var constraints :- ReadListOr(Member(v, "constraints"));
    Some(MutationIntent(goal, rationale, improvement, constraints, ReadValueOr(Member(v, "metadata"))))
  }

  function ReadScope(v: Value): Option<AllowedScope> {
    var tools :- ReadListOr(Member(v, "allowed_tools"));
    var servers :- ReadListOr(Member(v, "allowed_mcp_servers"));
    var delegates :- ReadListOr(Member(v, "allowed_delegates"));
    var cap :- ReadOptionalU32(Member(v, "max_generation"));
    var gated :- ReadListOr(Member(v, "gated_capabilities"));
    Some(AllowedScope(tools, servers, delegates, cap, gated))
  }

  datatype PartA = PartA(agentId: string, parentId: Option<string>, generation: U32, createdAt: string)
  datatype PartB = PartB(intent: MutationIntent, sbom: seq<string>, evalResults: Option<Value>, diff: string)
  datatype PartC = PartC(scope: AllowedScope, artifact: Artifact, signer: string, signature: string)
  datatype PartD = PartD(status: NodeStatus, success: bool, validParent: bool, stage: Option<EvalStage>)

  function ReadA(v: Value): Option<PartA> {
    var agentId :- ReadText(Member(v, "agent_id"));
    var parentId :- ReadOptionalText(Member(v, "parent_id"));
    var generation :- ReadU32(Member(v, "generation"));
    var createdAt :- ReadText(Member(v, "created_at"));
    Some(PartA(agentId, parentId, generation, createdAt))
  }

  function ReadB(v: Value): Option<PartB> {
    var intentJson :- Member(v, "mutation_intent");
    var intent :- ReadIntent(intentJson);
    var sbom :- ReadList(Member(v, "capability_sbom"));
    var diff :- ReadTextOr(Member(v, "mutation_diff"), "");
    Some(PartB(intent, sbom, ReadOptionalValue(Member(v, "eval_results")), diff))
  }

  function ReadC(v: Value): Option<PartC> {
    var scopeJson :- Member(v, "allowed_scope");
    var scope :- ReadScope(scopeJson);
    var artifactJson :- Member(v, "artifact");
    var manifest :- Member(artifactJson, "manifest");
    var signer :- ReadText(Member(v, "signer_public_key"));
    var signature :- ReadText(Member(v, "signature"));
    Some(PartC(scope, manifest, signer, signature))
  }

  function ReadD(v: Value): Option<PartD> {
    var status :- ReadStatusOr(Member(v, "status"));
    var success :- ReadBoolOr(Member(v, "parent_agent_success"), false);
    var validParent :- ReadBoolOr(Member(v, "valid_parent"), false);
    var stage :- ReadStage(Member(v, "eval_stage"));
    Some(PartD(status, success, validParent, stage))
  }

  function Assemble(a: PartA, b: PartB, c: PartC, d: PartD): AgentNode {
    AgentNode(
      a.agentId,
      CommitInputs(a.parentId, a.generation, a.createdAt, b.intent, b.diff, c.scope, b.evalResults, c.artifact,
                   d.status, d.success, d.validParent, d.stage),
      b.sbom, c.signer, c.signature)
  }

  /** The derived `Deserialize` of `AgentNode`. */
  function NodeFromJson(v: Value): Option<AgentNode> {
    var a :- ReadA(v);
    var b :- ReadB(v);
    var c :- ReadC(v);
    var d :- ReadD(v);
    Some(Assemble(a, b, c, d))
  }

  // ---------------------------------------------------------------- reading inverts writing

  function ReloadedImprovement(f: Option<F64>): Option<F64> {
    match f case Some(Finite(token)) => f case _ => None
  }

  function ReloadedEval(v: Option<Value>): Option<Value> {
    match v case Some(x) => if x == Null then None else v case None => None
  }

  /** What a node becomes when it is written and read: a null evaluation and a non-finite expected improvement are
      lost. */
  function Reloaded(n: AgentNode): AgentNode {
    var intent := n.body.intent.(expectedImprovement := ReloadedImprovement(n.body.intent.expectedImprovement));
    n.(body := n.body.(intent := intent, evalResults := ReloadedEval(n.body.evalResults)))
  }

  ghost predicate Storable(n: AgentNode) {
    && n.body.evalResults != Some(Null)
    && (n.body.intent.expectedImprovement.Some? ==> n.body.intent.expectedImprovement.value.Finite?)
  }

  lemma MemberOf(keys: seq<string>, values: seq<Value>, i: nat, key: string)
    requires |keys| == |values| && Distinct(keys) && i < |keys| && keys[i] == key
    ensures Member(Record(keys, values), key) == Some(values[i])
  {
    RecordAt(keys, values, i);
  }

  lemma {:induction false} ReadStringsRoundTrip(s: seq<string>)
    ensures ReadStrings(Strings(s)) == Some(s)
  {
    if s == [] {
    } else {
      ReadStringsRoundTrip(s[1..]);
      assert Strings(s)[1..] == Strings(s[1..]);
      assert s == [s[0]] + s[1..];
    }
  }

  lemma IntentRoundTrip(intent: MutationIntent)
    ensures ReadIntent(IntentJson(intent)) ==
            Some(intent.(expectedImprovement := ReloadedImprovement(intent.expectedImprovement)))
  {
    IntentKeysDistinct();
    var values := IntentValues(intent);
    MemberOf(INTENT_KEYS, values, 0, "goal");
    MemberOf(INTENT_KEYS, values, 1, "rationale");
    MemberOf(INTENT_KEYS, values, 2, "expected_improvement");
    MemberOf(INTENT_KEYS, values, 3, "constraints");
    MemberOf(INTENT_KEYS, values, 4, "metadata");
    ReadStringsRoundTrip(intent.constraints);
  }

  lemma ScopeMembers(scope: AllowedScope)
    ensures var v, values := ScopeJson(scope), ScopeValues(scope);
            && Member(v, "allowed_tools") == Some(values[0]) && Member(v, "allowed_mcp_servers") == Some(values[1])
            && Member(v, "allowed_delegates") == Some(values[2]) && Member(v, "max_generation") == Some(values[3])
            && Member(v, "gated_capabilities") == Some(values[4])
  {
    ScopeKeysDistinct();
    var values := ScopeValues(scope);
    MemberOf(SCOPE_KEYS, values, 0, "allowed_tools");
    MemberOf(SCOPE_KEYS, values, 1, "allowed_mcp_servers");
    MemberOf(SCOPE_KEYS, values, 2, "allowed_delegates");
    MemberOf(SCOPE_KEYS, values, 3, "max_generation");
    MemberOf(SCOPE_KEYS, values, 4, "gated_capabilities");
  }

  lemma ScopeRoundTrip(scope: AllowedScope)
    ensures ReadScope(ScopeJson(scope)) == Some(scope)
  {
    ScopeMembers(scope);
    ReadStringsRoundTrip(scope.allowedTools);
    ReadStringsRoundTrip(scope.allowedMcpServers);
    ReadStringsRoundTrip(scope.allowedDelegates);
    ReadStringsRoundTrip(scope.gatedCapabilities);
  }

  lemma QuartersAt<T>(a: seq<T>, b: seq<T>, c: seq<T>, d: seq<T>, i: nat)
    requires |a| == |b| == |c| == |d| == 4 && i < 4
    ensures var s := a + b + c + d;
            |s| == 16 && s[i] == a[i] && s[4 + i] == b[i] && s[8 + i] == c[i] && s[12 + i] == d[i]
  {}

  lemma ValuesAt(n: AgentNode, i: nat)
    requires i < 4
    ensures |NodeValues(n)| == |NODE_KEYS| == 16
    ensures NODE_KEYS[i] == KEYS_A[i] && NODE_KEYS[4 + i] == KEYS_B[i]
    ensures NODE_KEYS[8 + i] == KEYS_C[i] && NODE_KEYS[12 + i] == KEYS_D[i]
    ensures NodeValues(n)[i] == ValuesA(n)[i]
    ensures NodeValues(n)[4 + i] == ValuesB(n)[i]
    ensures NodeValues(n)[8 + i] == ValuesC(n)[i]
    ensures NodeValues(n)[12 + i] == ValuesD(n)[i]
  {
    QuartersAt(KEYS_A, KEYS_B, KEYS_C, KEYS_D, i);
    QuartersAt(ValuesA(n), ValuesB(n), ValuesC(n), ValuesD(n), i);
  }

  lemma NodeMembers(n: AgentNode, i: nat)
    requires i < 4
    ensures Member(NodeToJson(n), KEYS_A[i]) == Some(ValuesA(n)[i])
    ensures Member(NodeToJson(n), KEYS_B[i]) == Some(ValuesB(n)[i])
    ensures Member(NodeToJson(n), KEYS_C[i]) == Some(ValuesC(n)[i])
    ensures Member(NodeToJson(n), KEYS_D[i]) == Some(ValuesD(n)[i])
  {
    ValuesAt(n, i);
    NodeKeysDistinct();
    var values := NodeValues(n);
    MemberOf(NODE_KEYS, values, i, KEYS_A[i]);
    MemberOf(NODE_KEYS, values, 4 + i, KEYS_B[i]);
    MemberOf(NODE_KEYS, values, 8 + i, KEYS_C[i]);
    MemberOf(NODE_KEYS, values, 12 + i, KEYS_D[i]);
  }

  lemma RoundTripA(n: AgentNode, v: Value)
    requires Member(v, "agent_id") == Some(ValuesA(n)[0]) && Member(v, "parent_id") == Some(ValuesA(n)[1])
    requires Member(v, "generation") == Some(ValuesA(n)[2]) && Member(v, "created_at") == Some(ValuesA(n)[3])
    ensures ReadA(v) == Some(PartA(n.agentId, n.body.parentId, n.body.generation, n.body.createdAt))
  {}

  lemma RoundTripB(n: AgentNode, v: Value)
    requires Member(v, "mutation_intent") == Some(ValuesB(n)[0]) && Member(v, "capability_sbom") == Some(ValuesB(n)[1])
    requires Member(v, "eval_results") == Some(ValuesB(n)[2]) && Member(v, "mutation_diff") == Some(ValuesB(n)[3])
    ensures ReadB(v) ==
            Some(PartB(Reloaded(n).body.intent, n.capabilitySbom, ReloadedEval(n.body.evalResults),
                       n.body.mutationDiff))
  {
    IntentRoundTrip(n.body.intent);
    ReadStringsRoundTrip(n.capabilitySbom);
  }

  lemma RoundTripC(n: AgentNode, v: Value)
    requires Member(v, "allowed_scope") == Some(ValuesC(n)[0]) && Member(v, "artifact") == Some(ValuesC(n)[1])
    requires Member(v, "signer_public_key") == Some(ValuesC(n)[2]) && Member(v, "signature") == Some(ValuesC(n)[3])
    ensures ReadC(v) == Some(PartC(n.body.scope, n.body.artifact, n.signerPublicKey, n.signature))
  {
    ScopeRoundTrip(n.body.scope);
    MemberOf(["manifest"], [n.body.artifact], 0, "manifest");
  }

  lemma RoundTripD(n: AgentNode, v: Value)
    requires Member(v, "status") == Some(ValuesD(n)[0]) && Member(v, "parent_agent_success") == Some(ValuesD(n)[1])
    requires Member(v, "valid_parent") == Some(ValuesD(n)[2]) && Member(v, "eval_stage") == Some(ValuesD(n)[3])
    ensures ReadD(v) ==
            Some(PartD(n.body.status, n.body.parentAgentSuccess, n.body.validParent, n.body.evalStage))
  {}

  lemma NodeReadA(n: AgentNode)
    ensures ReadA(NodeToJson(n)) == Some(PartA(n.agentId, n.body.parentId, n.body.generation, n.body.createdAt))
  {
    NodeMembers(n, 0);
    NodeMembers(n, 1);
    NodeMembers(n, 2);
    NodeMembers(n, 3);
    RoundTripA(n, NodeToJson(n));
  }

  lemma NodeReadB(n: AgentNode)
    ensures ReadB(NodeToJson(n)) ==
            Some(PartB(Reloaded(n).body.intent, n.capabilitySbom, ReloadedEval(n.body.evalResults),
                       n.body.mutationDiff))
  {
    NodeMembers(n, 0);
    NodeMembers(n, 1);
    NodeMembers(n, 2);
    NodeMembers(n, 3);
    RoundTripB(n, NodeToJson(n));
  }

  lemma NodeReadC(n: AgentNode)
    ensures ReadC(NodeToJson(n)) == Some(PartC(n.body.scope, n.body.artifact, n.signerPublicKey, n.signature))
  {
    NodeMembers(n, 0);
    NodeMembers(n, 1);
    NodeMembers(n, 2);
    NodeMembers(n, 3);
    RoundTripC(n, NodeToJson(n));
  }

  lemma NodeReadD(n: AgentNode)
    ensures ReadD(NodeToJson(n)) ==
            Some(PartD(n.body.status, n.body.parentAgentSuccess, n.body.validParent, n.body.evalStage))
  {
    NodeMembers(n, 0);
    NodeMembers(n, 1);
    NodeMembers(n, 2);
    NodeMembers(n, 3);
    RoundTripD(n, NodeToJson(n));
  }

  ghost predicate IdentitySays(v: Raw, n: AgentNode) {
    && Get(v, "agent_id") == Some(Str(n.agentId))
    && Get(v, "parent_id") == Some(match n.body.parentId case None => Null case Some(id) => Str(id))
    && Get(v, "generation") == Some(Num(Int(n.body.generation)))
    && Get(v, "created_at") == Some(Str(n.body.createdAt))
  }

  ghost predicate MutationSays(v: Raw, n: AgentNode) {
    && Get(v, "mutation_intent").Some? && IntentSays(Get(v, "mutation_intent").value, n.body.intent)
    && Get(v, "capability_sbom") == Some(StringsJson(n.capabilitySbom))
    && Get(v, "eval_results") == Some(match n.body.evalResults case None => Null case Some(x) => x)
    && Get(v, "mutation_diff") == Some(Str(n.body.mutationDiff))
  }

  ghost predicate SealSays(v: Raw, n: AgentNode) {
    && Get(v, "allowed_scope").Some? && ScopeSays(Get(v, "allowed_scope").value, n.body.scope)
    && Get(v, "artifact") == Some(Obj([Field("manifest", n.body.artifact)]))
    && Get(v, "signer_public_key") == Some(Str(n.signerPublicKey))
    && Get(v, "signature") == Some(Str(n.signature))
  }

  ghost predicate StatusSays(v: Raw, n: AgentNode) {
    && Get(v, "status") == Some(Str(if n.body.status == Promoted then "promoted" else "rejected"))
    && Get(v, "parent_agent_success") == Some(Bool(n.body.parentAgentSuccess))
    && Get(v, "valid_parent") == Some(Bool(n.body.validParent))
    && Get(v, "eval_stage") ==
       Some(match n.body.evalStage
            case None => Null
            case Some(Continue) => Str("continue")
            case Some(Promote) => Str("promote")
            case Some(Stop) => Str("stop"))
  }

  lemma IdentityWritten(n: AgentNode)
    ensures IdentitySays(NodeToJson(n), n)
  {
    NodeMembers(n, 0);
    NodeMembers(n, 1);
    NodeMembers(n, 2);
    NodeMembers(n, 3);
  }

  lemma MutationWritten(n: AgentNode)
    ensures MutationSays(NodeToJson(n), n)
  {
    NodeMembers(n, 0);
    NodeMembers(n, 1);
    NodeMembers(n, 2);
    NodeMembers(n, 3);
    IntentHeld(n.body.intent);
  }

  lemma ArtifactJsonExact(artifact: Artifact)
    ensures ArtifactJson(artifact) == Obj([Field("manifest", artifact)])
  {
    assert Record(["manifest"], [artifact]).fields == [Field("manifest", artifact)];
  }

  lemma SealFromMembers(n: AgentNode, v: Value)
    requires Member(v, "allowed_scope") == Some(ValuesC(n)[0]) && Member(v, "artifact") == Some(ValuesC(n)[1])
    requires Member(v, "signer_public_key") == Some(ValuesC(n)[2]) && Member(v, "signature") == Some(ValuesC(n)[3])
    ensures SealSays(v, n)
  {
    ScopeHeld(n.body.scope);
    ArtifactJsonExact(n.body.artifact);
  }

  lemma SealWritten(n: AgentNode)
    ensures SealSays(NodeToJson(n), n)
  {
    NodeMembers(n, 0);
    NodeMembers(n, 1);
    NodeMembers(n, 2);
    NodeMembers(n, 3);
    SealFromMembers(n, NodeToJson(n));
  }

  lemma StatusWritten(n: AgentNode)
    ensures StatusSays(NodeToJson(n), n)
  {
    NodeMembers(n, 0);
    NodeMembers(n, 1);
    NodeMembers(n, 2);
    NodeMembers(n, 3);
  }

  /** What a written node says, key by key. */
  lemma NodeJsonSays(n: AgentNode)
    ensures var v := NodeToJson(n); IdentitySays(v, n) && MutationSays(v, n) && SealSays(v, n) && StatusSays(v, n)
    ensures NodeToJson(n).Obj? && Keys(NodeToJson(n).fields) == NODE_KEYS
  {
    IdentityWritten(n);
    MutationWritten(n);
    SealWritten(n);
    StatusWritten(n);
  }

  /** The fields that a line may leave out, and what they are then. */
  lemma AbsentFields(v: Value, n: AgentNode)
    requires NodeFromJson(v) == Some(n)
    ensures Get(v, "parent_id").None? ==> n.body.parentId == None
    ensures Get(v, "eval_results").None? ==> n.body.evalResults == None
    ensures Get(v, "mutation_diff").None? ==> n.body.mutationDiff == ""
    ensures Get(v, "status").None? ==> n.body.status == Promoted
    ensures Get(v, "parent_agent_success").None? ==> !n.body.parentAgentSuccess
    ensures Get(v, "valid_parent").None? ==> !n.body.validParent
    ensures Get(v, "eval_stage").None? ==> n.body.evalStage == None
  {
    AbsentMutation(v);
    AbsentStatus(v);
  }

  lemma AbsentMutation(v: Value)
    ensures ReadA(v).Some? && Get(v, "parent_id").None? ==> ReadA(v).value.parentId == None
    ensures ReadB(v).Some? && Get(v, "eval_results").None? ==> ReadB(v).value.evalResults == None
    ensures ReadB(v).Some? && Get(v, "mutation_diff").None? ==> ReadB(v).value.diff == ""
  {}

  lemma AbsentStatus(v: Value)
    requires ReadD(v).Some?
    ensures Get(v, "status").None? ==> ReadD(v).value.status == Promoted
    ensures Get(v, "parent_agent_success").None? ==> !ReadD(v).value.success
    ensures Get(v, "valid_parent").None? ==> !ReadD(v).value.validParent
    ensures Get(v, "eval_stage").None? ==> ReadD(v).value.stage == None
  {}

  lemma AbsentInIntent(v: Value, intent: MutationIntent)
    requires ReadIntent(v) == Some(intent)
    ensures Get(v, "goal").Some?
    ensures Get(v, "rationale").None? ==> intent.rationale == ""
    ensures Get(v, "expected_improvement").None? ==> intent.expectedImprovement == None
    ensures Get(v, "constraints").None? ==> intent.constraints == []
    ensures Get(v, "metadata").None? ==> intent.metadata == Null
  {}

  lemma AbsentInScope(v: Value, scope: AllowedScope)
    requires ReadScope(v) == Some(scope)
    ensures Get(v, "allowed_tools").None? ==> scope.allowedTools == []
    ensures Get(v, "allowed_mcp_servers").None? ==> scope.allowedMcpServers == []
    ensures Get(v, "allowed_delegates").None? ==> scope.allowedDelegates == []
    ensures Get(v, "max_generation").None? ==> scope.maxGeneration == None
    ensures Get(v, "gated_capabilities").None? ==> scope.gatedCapabilities == []
  {}

  /** The fields that every line must have. */
  lemma RequiredFields(v: Value)
    requires NodeFromJson(v).Some?
    ensures Get(v, "agent_id").Some? && Get(v, "generation").Some? && Get(v, "created_at").Some?
    ensures Get(v, "mutation_intent").Some? && Get(v, "capability_sbom").Some?
    ensures Get(v, "allowed_scope").Some? && Get(v, "artifact").Some?
    ensures Get(v, "signer_public_key").Some? && Get(v, "signature").Some?
  {}

  /** Reading a written node gives the node back, but for what `Reloaded` says is lost. */
  lemma NodeRoundTrip(n: AgentNode)
    ensures NodeFromJson(NodeToJson(n)) == Some(Reloaded(n))
  {
    NodeReadA(n);
    NodeReadB(n);
    NodeReadC(n);
    NodeReadD(n);
  }

  /** Nothing is lost exactly from the storable nodes. */
  lemma ReloadedExact(n: AgentNode)
    ensures Reloaded(n) == n <==> Storable(n)
  {}

  /** What is lost is nothing the payload shows. */
  lemma ReloadedSameCommit(n: AgentNode)
    ensures SameCommit(n.body, Reloaded(n).body)
  {}
}
