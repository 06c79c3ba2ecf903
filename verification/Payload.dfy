/** The signing payload (src/identity.rs), and which differences between two commits its bytes show. */
module Payload {
  import opened Wrappers
  import opened Text
  import opened Json
  import opened Canonical
  import opened Score
  import opened Node
  import opened Records
  import opened Sbom

  function IdJson(id: Option<string>): Value {
    match id case None => Null case Some(s) => Str(s)
  }

  function CapJson(cap: Option<U32>): Value {
    match cap case None => Null case Some(n) => Num(Int(n))
  }

  function ImprovementJson(f: Option<F64>): Value {
    match f case None => Null case Some(x) => Score.ToJson(x)
  }

  function StatusJson(status: NodeStatus): Value {
    match status case Promoted => Str("promoted") case Rejected => Str("rejected")
  }

  function StageJson(stage: Option<EvalStage>): Value {
    match stage
    case None => Null
    case Some(Continue) => Str("continue")
    case Some(Promote) => Str("promote")
    case Some(Stop) => Str("stop")
  }

  function EvalOrNull(evalResults: Option<Value>): Value {
    match evalResults case None => Null case Some(v) => v
  }

  const INTENT_KEYS: seq<string> := ["goal", "rationale", "expected_improvement", "constraints", "metadata"]

  const SCOPE_KEYS: seq<string> :=
    ["allowed_tools", "allowed_mcp_servers", "allowed_delegates", "max_generation", "gated_capabilities"]

  const PAYLOAD_KEYS: seq<string> :=
    [ "parent_id", "generation", "created_at", "mutation_intent", "mutation_diff", "allowed_scope", "eval_results",
      "capability_sbom", "manifest", "status", "parent_agent_success", "valid_parent", "eval_stage" ]

  lemma IntentKeysDistinct()
    ensures Distinct(INTENT_KEYS)
  {
    DistinctByTag(INTENT_KEYS, [4103108, 9114101, 20101116, 11099115, 8109097]);
  }

  lemma ScopeKeysDistinct()
    ensures Distinct(SCOPE_KEYS)
  {
    DistinctByTag(SCOPE_KEYS, [13097115, 19097115, 17097115, 14109110, 18103115]);
  }

  lemma PayloadKeysDistinct()
    ensures Distinct(PAYLOAD_KEYS)
  {
    var tags := [9112100, 10103110, 10099116, 15109116, 13109102, 13097101, 12101115,
                 15099109, 8109116, 6115115, 20112115, 12118116, 10101101];
    assert Distinct(tags);
    DistinctByTag(PAYLOAD_KEYS, tags);
  }

  function IntentValues(intent: MutationIntent): seq<Value> {
    [ Str(intent.goal), Str(intent.rationale), ImprovementJson(intent.expectedImprovement),
      StringsJson(intent.constraints), intent.metadata ]
  }

  function IntentJson(intent: MutationIntent): Value {
    IntentKeysDistinct();
    Record(INTENT_KEYS, IntentValues(intent))
  }

  function ScopeValues(scope: AllowedScope): seq<Value> {
    [ StringsJson(scope.allowedTools), StringsJson(scope.allowedMcpServers), StringsJson(scope.allowedDelegates),
      CapJson(scope.maxGeneration), StringsJson(scope.gatedCapabilities) ]
  }

  function ScopeJson(scope: AllowedScope): Value {
    ScopeKeysDistinct();
    Record(SCOPE_KEYS, ScopeValues(scope))
  }

  function LineageValues(inputs: CommitInputs): seq<Value> {
    [IdJson(inputs.parentId), Num(Int(inputs.generation)), Str(inputs.createdAt), IntentJson(inputs.intent)]
  }

  function ContentValues(inputs: CommitInputs): seq<Value> {
    [Str(inputs.mutationDiff), ScopeJson(inputs.scope), EvalOrNull(inputs.evalResults)]
  }

  function ArtifactValues(artifact: Artifact): seq<Value> {
    [StringsJson(CapabilitySbom(artifact)), artifact]
  }

  function OutcomeValues(inputs: CommitInputs): seq<Value> {
    [ StatusJson(inputs.status), Bool(inputs.parentAgentSuccess), Bool(inputs.validParent),
      StageJson(inputs.evalStage) ]
  }

  /** The signed values, under `PAYLOAD_KEYS`. */
  function PayloadValues(inputs: CommitInputs): seq<Value> {
    LineageValues(inputs) + ContentValues(inputs) + ArtifactValues(inputs.artifact) + OutcomeValues(inputs)
  }

  function PayloadJson(inputs: CommitInputs): Value {
    PayloadKeysDistinct();
    Record(PAYLOAD_KEYS, PayloadValues(inputs))
  }

  /** `CommitInputs::signing_payload`. */
  function SigningPayload(inputs: CommitInputs): string {
    CanonicalJson(PayloadJson(inputs))
  }

  // ---------------------------------------------------------------- what the payload shows

  /** Two intents that the payload cannot tell apart: equal but for key order in the metadata and for which
      non-finite number, or none, was expected. */
  ghost predicate SameIntent(a: MutationIntent, b: MutationIntent) {
    && a.goal == b.goal
    && a.rationale == b.rationale
    && ImprovementJson(a.expectedImprovement) == ImprovementJson(b.expectedImprovement)
    && a.constraints == b.constraints
    && Mean(a.metadata) == Mean(b.metadata)
  }

  /** Field-by-field agreement of two commits: `eval_results` up to absent versus null, JSON up to key order. */
  ghost predicate SameCommit(a: CommitInputs, b: CommitInputs) {
    && a.parentId == b.parentId
    && a.generation == b.generation
    && a.createdAt == b.createdAt
    && SameIntent(a.intent, b.intent)
    && a.mutationDiff == b.mutationDiff
    && a.scope == b.scope
    && Mean(EvalOrNull(a.evalResults)) == Mean(EvalOrNull(b.evalResults))
    && Mean(a.artifact) == Mean(b.artifact)
    && a.status == b.status
    && a.parentAgentSuccess == b.parentAgentSuccess
    && a.validParent == b.validParent
    && a.evalStage == b.evalStage
  }

  lemma FiveValues(v: seq<Value>, w: seq<Value>)
    requires |v| == |w| == 5
    ensures SameValues(v, w) <==>
            && Mean(v[0]) == Mean(w[0]) && Mean(v[1]) == Mean(w[1]) && Mean(v[2]) == Mean(w[2])
            && Mean(v[3]) == Mean(w[3]) && Mean(v[4]) == Mean(w[4])
  {}

  lemma FourValues(v: seq<Value>, w: seq<Value>)
    requires |v| == |w| == 4
    ensures SameValues(v, w) <==>
            && Mean(v[0]) == Mean(w[0]) && Mean(v[1]) == Mean(w[1]) && Mean(v[2]) == Mean(w[2])
            && Mean(v[3]) == Mean(w[3])
  {}

  lemma IntentValuesMeaning(a: MutationIntent, b: MutationIntent)
    ensures SameValues(IntentValues(a), IntentValues(b)) <==> SameIntent(a, b)
  {
    FiveValues(IntentValues(a), IntentValues(b));
    StringsMeaning(a.constraints, b.constraints);
  }

  lemma IntentMeaning(a: MutationIntent, b: MutationIntent)
    ensures Mean(IntentJson(a)) == Mean(IntentJson(b)) <==> SameIntent(a, b)
  {
    IntentValuesMeaning(a, b);
    IntentKeysDistinct();
    RecordMeaning(INTENT_KEYS, IntentValues(a), IntentValues(b));
  }

  lemma ScopeValuesMeaning(a: AllowedScope, b: AllowedScope)
    ensures SameValues(ScopeValues(a), ScopeValues(b)) <==> a == b
  {
    FiveValues(ScopeValues(a), ScopeValues(b));
    StringsMeaning(a.allowedTools, b.allowedTools);
    StringsMeaning(a.allowedMcpServers, b.allowedMcpServers);
    StringsMeaning(a.allowedDelegates, b.allowedDelegates);
    StringsMeaning(a.gatedCapabilities, b.gatedCapabilities);
  }

  lemma ScopeMeaning(a: AllowedScope, b: AllowedScope)
    ensures Mean(ScopeJson(a)) == Mean(ScopeJson(b)) <==> a == b
  {
    ScopeValuesMeaning(a, b);
    ScopeKeysDistinct();
    RecordMeaning(SCOPE_KEYS, ScopeValues(a), ScopeValues(b));
  }

  lemma {:induction false} NamesByMeaning(a: seq<Raw>, b: seq<Raw>)
    requires MeanItems(a) == MeanItems(b)
    ensures NamesIn(a) == NamesIn(b)
  {
    assert |a| == |MeanItems(a)| == |MeanItems(b)| == |b|;
    if a != [] {
      assert MeanItems(a)[0] == Mean(a[0]) && MeanItems(b)[0] == Mean(b[0]);
      assert MeanItems(a)[1..] == MeanItems(a[1..]) && MeanItems(b)[1..] == MeanItems(b[1..]);
      NamesByMeaning(a[1..], b[1..]);
      GetMeaning(a[0], b[0], "name");
    }
  }

  lemma GetMeaning(v: Raw, w: Raw, k: string)
    requires Mean(v) == Mean(w)
    ensures Get(v, k).Some? <==> Get(w, k).Some?
    ensures Get(v, k).Some? ==> Mean(Get(v, k).value) == Mean(Get(w, k).value)
  {
    if v.Obj? {
      MeanLookup(v.fields, k);
      MeanLookup(w.fields, k);
    }
  }

  /** The capabilities are a function of what the manifest means. */
  lemma SbomMeaning(a: Artifact, b: Artifact)
    requires Mean(a) == Mean(b)
    ensures CapabilitySbom(a) == CapabilitySbom(b)
  {
    ListMeaning(a, b, "tools");
    ListMeaning(a, b, "mcp_servers");
    ListMeaning(a, b, "delegates");
  }

  lemma ListMeaning(a: Artifact, b: Artifact, list: string)
    requires Mean(a) == Mean(b)
    ensures ManifestNames(a, list) == ManifestNames(b, list)
  {
    GetMeaning(a, b, list);
    match (Get(a, list), Get(b, list))
    case (Some(Arr(x)), Some(Arr(y))) => NamesByMeaning(x, y);
    case _ =>
  }

  /** Two commits have the same payload bytes exactly when they agree field by field. */
  lemma PayloadExact(a: CommitInputs, b: CommitInputs)
    ensures SigningPayload(a) == SigningPayload(b) <==> SameCommit(a, b)
  {
    CanonicalExact(PayloadJson(a), PayloadJson(b));
    PayloadMeaning(a, b);
  }

  /** The diff is part of what is signed: no two diffs of one commit share a payload. */
  lemma DiffIsSigned(a: CommitInputs, diff: string)
    ensures SigningPayload(a.(mutationDiff := diff)) == SigningPayload(a) <==> diff == a.mutationDiff
  {
    PayloadExact(a.(mutationDiff := diff), a);
  }

  lemma PayloadMeaning(a: CommitInputs, b: CommitInputs)
    ensures Mean(PayloadJson(a)) == Mean(PayloadJson(b)) <==> SameCommit(a, b)
  {
    PayloadValuesMeaning(a, b);
    PayloadKeysDistinct();
    RecordMeaning(PAYLOAD_KEYS, PayloadValues(a), PayloadValues(b));
  }

  lemma PayloadValuesMeaning(a: CommitInputs, b: CommitInputs)
    ensures SameValues(PayloadValues(a), PayloadValues(b)) <==> SameCommit(a, b)
  {
    LineageMeaning(a, b);
    ContentMeaning(a, b);
    OutcomeMeaning(a, b);
    SameValuesConcat(LineageValues(a), LineageValues(b), ContentValues(a), ContentValues(b));
    ArtifactMeaning(a.artifact, b.artifact);
    SameValuesConcat(LineageValues(a) + ContentValues(a), LineageValues(b) + ContentValues(b),
                     ArtifactValues(a.artifact), ArtifactValues(b.artifact));
    SameValuesConcat(LineageValues(a) + ContentValues(a) + ArtifactValues(a.artifact),
                     LineageValues(b) + ContentValues(b) + ArtifactValues(b.artifact),
                     OutcomeValues(a), OutcomeValues(b));
  }

  lemma SameValuesConcat(v: seq<Value>, w: seq<Value>, v': seq<Value>, w': seq<Value>)
    requires |v| == |w|
    ensures SameValues(v + v', w + w') <==> SameValues(v, w) && SameValues(v', w')
  {
    if SameValues(v + v', w + w') {
      forall i | 0 <= i < |v| ensures Mean(v[i]) == Mean(w[i]) {
        assert (v + v')[i] == v[i] && (w + w')[i] == w[i];
      }
      forall i | 0 <= i < |v'| ensures Mean(v'[i]) == Mean(w'[i]) {
        assert (v + v')[|v| + i] == v'[i] && (w + w')[|w| + i] == w'[i];
      }
    }
  }

  lemma LineageMeaning(a: CommitInputs, b: CommitInputs)
    ensures SameValues(LineageValues(a), LineageValues(b)) <==>
            && a.parentId == b.parentId && a.generation == b.generation && a.createdAt == b.createdAt
            && SameIntent(a.intent, b.intent)
  {
    FourValues(LineageValues(a), LineageValues(b));
    IntentMeaning(a.intent, b.intent);
  }

  lemma ContentMeaning(a: CommitInputs, b: CommitInputs)
    ensures SameValues(ContentValues(a), ContentValues(b)) <==>
            && a.mutationDiff == b.mutationDiff && a.scope == b.scope
            && Mean(EvalOrNull(a.evalResults)) == Mean(EvalOrNull(b.evalResults))
  {
    var v, w := ContentValues(a), ContentValues(b);
    ScopeMeaning(a.scope, b.scope);
    assert SameValues(v, w) <==> Mean(v[0]) == Mean(w[0]) && Mean(v[1]) == Mean(w[1]) && Mean(v[2]) == Mean(w[2]);
  }

  lemma PairValues(v: seq<Value>, w: seq<Value>)
    requires |v| == |w| == 2
    ensures SameValues(v, w) <==> Mean(v[0]) == Mean(w[0]) && Mean(v[1]) == Mean(w[1])
  {}

  lemma TwoValues(s: Value, v: Value, t: Value, w: Value)
    ensures SameValues([s, v], [t, w]) <==> Mean(s) == Mean(t) && Mean(v) == Mean(w)
  {
    PairValues([s, v], [t, w]);
  }

  lemma ArtifactMeaning(a: Artifact, b: Artifact)
    ensures SameValues(ArtifactValues(a), ArtifactValues(b)) <==> Mean(a) == Mean(b)
  {
    TwoValues(StringsJson(CapabilitySbom(a)), a, StringsJson(CapabilitySbom(b)), b);
    if Mean(a) == Mean(b) {
      SbomMeaning(a, b);
    }
  }

  lemma OutcomeMeaning(a: CommitInputs, b: CommitInputs)
    ensures SameValues(OutcomeValues(a), OutcomeValues(b)) <==>
            && a.status == b.status && a.parentAgentSuccess == b.parentAgentSuccess
            && a.validParent == b.validParent && a.evalStage == b.evalStage
  {
    FourValues(OutcomeValues(a), OutcomeValues(b));
    assert "promoted" != "rejected" && "continue" != "promote" && "continue" != "stop" && "promote" != "stop";
  }

  // ---------------------------------------------------------------- what stands under which key

  /** Under `key` stands a value that means what `x` means; for text, numbers, booleans and null that is `x` itself.
      */
  ghost predicate Holds(v: Raw, key: string, x: Raw) {
    Get(v, key).Some? && Mean(Get(v, key).value) == Mean(x)
  }

  ghost predicate OnlyKeys(v: Raw, keys: set<string>) {
    forall k :: Get(v, k).Some? ==> k in keys
  }

  ghost predicate IntentSays(v: Raw, intent: MutationIntent) {
    && Holds(v, "goal", Str(intent.goal))
    && Holds(v, "rationale", Str(intent.rationale))
    && Holds(v, "expected_improvement",
             match intent.expectedImprovement case Some(Finite(token)) => Num(Float(token)) case _ => Null)
    && Holds(v, "constraints", StringsJson(intent.constraints))
    && Holds(v, "metadata", intent.metadata)
    && OnlyKeys(v, {"goal", "rationale", "expected_improvement", "constraints", "metadata"})
  }

  ghost predicate ScopeSays(v: Raw, scope: AllowedScope) {
    && Holds(v, "allowed_tools", StringsJson(scope.allowedTools))
    && Holds(v, "allowed_mcp_servers", StringsJson(scope.allowedMcpServers))
    && Holds(v, "allowed_delegates", StringsJson(scope.allowedDelegates))
    && Holds(v, "max_generation", match scope.maxGeneration case None => Null case Some(n) => Num(Int(n)))
    && Holds(v, "gated_capabilities", StringsJson(scope.gatedCapabilities))
    && OnlyKeys(v, {"allowed_tools", "allowed_mcp_servers", "allowed_delegates", "max_generation",
                    "gated_capabilities"})
  }

  ghost predicate LineageSays(v: Raw, inputs: CommitInputs) {
    && Holds(v, "parent_id", match inputs.parentId case None => Null case Some(id) => Str(id))
    && Holds(v, "generation", Num(Int(inputs.generation)))
    && Holds(v, "created_at", Str(inputs.createdAt))
    && Get(v, "mutation_intent").Some? && IntentSays(Get(v, "mutation_intent").value, inputs.intent)
  }

  ghost predicate ContentSays(v: Raw, inputs: CommitInputs) {
    && Holds(v, "mutation_diff", Str(inputs.mutationDiff))
    && Get(v, "allowed_scope").Some? && ScopeSays(Get(v, "allowed_scope").value, inputs.scope)
    && Holds(v, "eval_results", match inputs.evalResults case None => Null case Some(x) => x)
  }

  ghost predicate ArtifactSays(v: Raw, artifact: Artifact) {
    && Holds(v, "capability_sbom", StringsJson(CapabilitySbom(artifact)))
    && Holds(v, "manifest", artifact)
  }

  ghost predicate OutcomeSays(v: Raw, inputs: CommitInputs) {
    && Holds(v, "status", Str(if inputs.status == Promoted then "promoted" else "rejected"))
    && Holds(v, "parent_agent_success", Bool(inputs.parentAgentSuccess))
    && Holds(v, "valid_parent", Bool(inputs.validParent))
    && Holds(v, "eval_stage",
             match inputs.evalStage
             case None => Null
             case Some(Continue) => Str("continue")
             case Some(Promote) => Str("promote")
             case Some(Stop) => Str("stop"))
  }

  /** The object says of the commit, under each of thirteen keys and under no other, what it has to say. */
  ghost predicate PayloadSays(v: Raw, inputs: CommitInputs) {
    && LineageSays(v, inputs) && ContentSays(v, inputs) && ArtifactSays(v, inputs.artifact) && OutcomeSays(v, inputs)
    && OnlyKeys(v, set k | k in PAYLOAD_KEYS)
  }

  lemma OnlyRecordKeys(keys: seq<string>, values: seq<Value>)
    requires |keys| == |values| && Distinct(keys)
    ensures OnlyKeys(Record(keys, values), set k | k in keys)
  {
    var fields := Record(keys, values).fields;
    forall k | Get(Record(keys, values), k).Some? ensures k in keys {
      LookupFound(fields, k);
      var i :| 0 <= i < |fields| && fields[i].key == k;
      assert keys[i] == k;
    }
  }

  lemma HeldAt(keys: seq<string>, values: seq<Value>, i: nat, key: string)
    requires |keys| == |values| && Distinct(keys) && i < |keys| && keys[i] == key
    ensures Get(Record(keys, values), key) == Some(values[i])
    ensures Holds(Record(keys, values), key, values[i])
  {
    RecordAt(keys, values, i);
  }

  lemma IntentHeld(intent: MutationIntent)
    ensures IntentSays(IntentJson(intent), intent)
  {
    IntentKeysDistinct();
    var values := IntentValues(intent);
    HeldAt(INTENT_KEYS, values, 0, "goal");
    HeldAt(INTENT_KEYS, values, 1, "rationale");
    HeldAt(INTENT_KEYS, values, 2, "expected_improvement");
    HeldAt(INTENT_KEYS, values, 3, "constraints");
    HeldAt(INTENT_KEYS, values, 4, "metadata");
    OnlyRecordKeys(INTENT_KEYS, values);
  }

  lemma ScopeHeld(scope: AllowedScope)
    ensures ScopeSays(ScopeJson(scope), scope)
  {
    ScopeKeysDistinct();
    var values := ScopeValues(scope);
    HeldAt(SCOPE_KEYS, values, 0, "allowed_tools");
    HeldAt(SCOPE_KEYS, values, 1, "allowed_mcp_servers");
    HeldAt(SCOPE_KEYS, values, 2, "allowed_delegates");
    HeldAt(SCOPE_KEYS, values, 3, "max_generation");
    HeldAt(SCOPE_KEYS, values, 4, "gated_capabilities");
    OnlyRecordKeys(SCOPE_KEYS, values);
  }

  lemma ConcatAt(a: seq<Value>, b: seq<Value>, c: seq<Value>, d: seq<Value>, i: nat)
    requires |a| == 4 && |b| == 3 && |c| == 2 && |d| == 4 && i < 13
    ensures |a + b + c + d| == 13
    ensures (a + b + c + d)[i] ==
            if i < 4 then a[i] else if i < 7 then b[i - 4] else if i < 9 then c[i - 7] else d[i - 9]
  {}

  /** The values in the order of the keys. */
  function PayloadValue(inputs: CommitInputs, i: nat): Value
    requires i < 13
  {
    if i < 4 then LineageValues(inputs)[i]
    else if i < 7 then ContentValues(inputs)[i - 4]
    else if i < 9 then ArtifactValues(inputs.artifact)[i - 7]
    else OutcomeValues(inputs)[i - 9]
  }

  lemma PayloadGet(inputs: CommitInputs, i: nat, key: string)
    requires i < 13 && PAYLOAD_KEYS[i] == key
    ensures Get(PayloadJson(inputs), key) == Some(PayloadValue(inputs, i))
  {
    ConcatAt(LineageValues(inputs), ContentValues(inputs), ArtifactValues(inputs.artifact), OutcomeValues(inputs), i);
    PayloadKeysDistinct();
    HeldAt(PAYLOAD_KEYS, PayloadValues(inputs), i, key);
  }

  lemma ParentIdAt(inputs: CommitInputs)
    ensures Get(PayloadJson(inputs), "parent_id") == Some(PayloadValue(inputs, 0))
  {
    PayloadGet(inputs, 0, "parent_id");
  }

  lemma GenerationAt(inputs: CommitInputs)
    ensures Get(PayloadJson(inputs), "generation") == Some(PayloadValue(inputs, 1))
  {
    PayloadGet(inputs, 1, "generation");
  }

  lemma CreatedAtAt(inputs: CommitInputs)
    ensures Get(PayloadJson(inputs), "created_at") == Some(PayloadValue(inputs, 2))
  {
    PayloadGet(inputs, 2, "created_at");
  }

  lemma MutationIntentAt(inputs: CommitInputs)
    ensures Get(PayloadJson(inputs), "mutation_intent") == Some(PayloadValue(inputs, 3))
  {
    PayloadGet(inputs, 3, "mutation_intent");
  }

  lemma MutationDiffAt(inputs: CommitInputs)
    ensures Get(PayloadJson(inputs), "mutation_diff") == Some(PayloadValue(inputs, 4))
  {
    PayloadGet(inputs, 4, "mutation_diff");
  }

  lemma AllowedScopeAt(inputs: CommitInputs)
    ensures Get(PayloadJson(inputs), "allowed_scope") == Some(PayloadValue(inputs, 5))
  {
    PayloadGet(inputs, 5, "allowed_scope");
  }

  lemma EvalResultsAt(inputs: CommitInputs)
    ensures Get(PayloadJson(inputs), "eval_results") == Some(PayloadValue(inputs, 6))
  {
    PayloadGet(inputs, 6, "eval_results");
  }

  lemma CapabilitySbomAt(inputs: CommitInputs)
    ensures Get(PayloadJson(inputs), "capability_sbom") == Some(PayloadValue(inputs, 7))
  {
    PayloadGet(inputs, 7, "capability_sbom");
  }

  lemma ManifestAt(inputs: CommitInputs)
    ensures Get(PayloadJson(inputs), "manifest") == Some(PayloadValue(inputs, 8))
  {
    PayloadGet(inputs, 8, "manifest");
  }

  lemma StatusAt(inputs: CommitInputs)
    ensures Get(PayloadJson(inputs), "status") == Some(PayloadValue(inputs, 9))
  {
    PayloadGet(inputs, 9, "status");
  }

  lemma ParentAgentSuccessAt(inputs: CommitInputs)
    ensures Get(PayloadJson(inputs), "parent_agent_success") == Some(PayloadValue(inputs, 10))
  {
    PayloadGet(inputs, 10, "parent_agent_success");
  }

  lemma ValidParentAt(inputs: CommitInputs)
    ensures Get(PayloadJson(inputs), "valid_parent") == Some(PayloadValue(inputs, 11))
  {
    PayloadGet(inputs, 11, "valid_parent");
  }

  lemma EvalStageAt(inputs: CommitInputs)
    ensures Get(PayloadJson(inputs), "eval_stage") == Some(PayloadValue(inputs, 12))
  {
    PayloadGet(inputs, 12, "eval_stage");
  }

  lemma LineageFromGets(v: Raw, inputs: CommitInputs)
    requires Get(v, "parent_id") == Some(PayloadValue(inputs, 0))
    requires Get(v, "generation") == Some(PayloadValue(inputs, 1))
    requires Get(v, "created_at") == Some(PayloadValue(inputs, 2))
    requires Get(v, "mutation_intent") == Some(PayloadValue(inputs, 3))
    ensures LineageSays(v, inputs)
  {
    IntentHeld(inputs.intent);
  }

  lemma LineageHeld(inputs: CommitInputs)
    ensures LineageSays(PayloadJson(inputs), inputs)
  {
    ParentIdAt(inputs);
    GenerationAt(inputs);
    CreatedAtAt(inputs);
    MutationIntentAt(inputs);
    LineageFromGets(PayloadJson(inputs), inputs);
  }

  lemma ContentFromGets(v: Raw, inputs: CommitInputs)
    requires Get(v, "mutation_diff") == Some(PayloadValue(inputs, 4))
    requires Get(v, "allowed_scope") == Some(PayloadValue(inputs, 5))
    requires Get(v, "eval_results") == Some(PayloadValue(inputs, 6))
    ensures ContentSays(v, inputs)
  {
    ScopeHeld(inputs.scope);
  }

  lemma ContentHeld(inputs: CommitInputs)
    ensures ContentSays(PayloadJson(inputs), inputs)
  {
    MutationDiffAt(inputs);
    AllowedScopeAt(inputs);
    EvalResultsAt(inputs);
    ContentFromGets(PayloadJson(inputs), inputs);
  }

  lemma ArtifactFromGets(v: Raw, inputs: CommitInputs)
    requires Get(v, "capability_sbom") == Some(PayloadValue(inputs, 7))
    requires Get(v, "manifest") == Some(PayloadValue(inputs, 8))
    ensures ArtifactSays(v, inputs.artifact)
  {}

  lemma ArtifactHeld(inputs: CommitInputs)
    ensures ArtifactSays(PayloadJson(inputs), inputs.artifact)
  {
    CapabilitySbomAt(inputs);
    ManifestAt(inputs);
    ArtifactFromGets(PayloadJson(inputs), inputs);
  }

  lemma OutcomeFromGets(v: Raw, inputs: CommitInputs)
    requires Get(v, "status") == Some(PayloadValue(inputs, 9))
    requires Get(v, "parent_agent_success") == Some(PayloadValue(inputs, 10))
    requires Get(v, "valid_parent") == Some(PayloadValue(inputs, 11))
    requires Get(v, "eval_stage") == Some(PayloadValue(inputs, 12))
    ensures OutcomeSays(v, inputs)
  {}

  lemma OutcomeHeld(inputs: CommitInputs)
    ensures OutcomeSays(PayloadJson(inputs), inputs)
  {
    StatusAt(inputs);
    ParentAgentSuccessAt(inputs);
    ValidParentAt(inputs);
    EvalStageAt(inputs);
    OutcomeFromGets(PayloadJson(inputs), inputs);
  }

  lemma PayloadKeysOnly(inputs: CommitInputs)
    ensures OnlyKeys(PayloadJson(inputs), set k | k in PAYLOAD_KEYS)
  {
    PayloadKeysDistinct();
    ConcatAt(LineageValues(inputs), ContentValues(inputs), ArtifactValues(inputs.artifact), OutcomeValues(inputs), 0);
    OnlyRecordKeys(PAYLOAD_KEYS, PayloadValues(inputs));
  }

  /** What is signed, key by key. */
  lemma PayloadSaysCommit(inputs: CommitInputs)
    ensures PayloadSays(PayloadJson(inputs), inputs)
  {
    LineageHeld(inputs);
    ContentHeld(inputs);
    ArtifactHeld(inputs);
    OutcomeHeld(inputs);
    PayloadKeysOnly(inputs);
  }

  lemma SaysSame(v: Raw, w: Raw, key: string)
    requires Mean(v) == Mean(w)
    ensures forall x :: Holds(v, key, x) <==> Holds(w, key, x)
  {
    GetMeaning(v, w, key);
  }

  lemma OnlyKeysSame(v: Raw, w: Raw, keys: set<string>)
    requires Mean(v) == Mean(w) && OnlyKeys(v, keys)
    ensures OnlyKeys(w, keys)
  {
    forall k | Get(w, k).Some? ensures k in keys {
      GetMeaning(v, w, k);
    }
  }

  lemma IntentSaysSame(v: Raw, w: Raw, intent: MutationIntent)
    requires Mean(v) == Mean(w) && IntentSays(v, intent)
    ensures IntentSays(w, intent)
  {
    SaysSame(v, w, "goal");
    SaysSame(v, w, "rationale");
    SaysSame(v, w, "expected_improvement");
    SaysSame(v, w, "constraints");
    SaysSame(v, w, "metadata");
    OnlyKeysSame(v, w, {"goal", "rationale", "expected_improvement", "constraints", "metadata"});
  }

  lemma ScopeSaysSame(v: Raw, w: Raw, scope: AllowedScope)
    requires Mean(v) == Mean(w) && ScopeSays(v, scope)
    ensures ScopeSays(w, scope)
  {
    SaysSame(v, w, "allowed_tools");
    SaysSame(v, w, "allowed_mcp_servers");
    SaysSame(v, w, "allowed_delegates");
    SaysSame(v, w, "max_generation");
    SaysSame(v, w, "gated_capabilities");
    OnlyKeysSame(v, w, {"allowed_tools", "allowed_mcp_servers", "allowed_delegates", "max_generation",
                        "gated_capabilities"});
  }

  lemma LineageSaysSame(v: Raw, w: Raw, inputs: CommitInputs)
    requires Mean(v) == Mean(w) && LineageSays(v, inputs)
    ensures LineageSays(w, inputs)
  {
    SaysSame(v, w, "parent_id");
    SaysSame(v, w, "generation");
    SaysSame(v, w, "created_at");
    GetMeaning(v, w, "mutation_intent");
    IntentSaysSame(Get(v, "mutation_intent").value, Get(w, "mutation_intent").value, inputs.intent);
  }

  lemma ContentSaysSame(v: Raw, w: Raw, inputs: CommitInputs)
    requires Mean(v) == Mean(w) && ContentSays(v, inputs)
    ensures ContentSays(w, inputs)
  {
    SaysSame(v, w, "mutation_diff");
    SaysSame(v, w, "eval_results");
    GetMeaning(v, w, "allowed_scope");
    ScopeSaysSame(Get(v, "allowed_scope").value, Get(w, "allowed_scope").value, inputs.scope);
  }

  lemma ArtifactSaysSame(v: Raw, w: Raw, artifact: Artifact)
    requires Mean(v) == Mean(w) && ArtifactSays(v, artifact)
    ensures ArtifactSays(w, artifact)
  {
    SaysSame(v, w, "capability_sbom");
    SaysSame(v, w, "manifest");
  }

  lemma OutcomeSaysSame(v: Raw, w: Raw, inputs: CommitInputs)
    requires Mean(v) == Mean(w) && OutcomeSays(v, inputs)
    ensures OutcomeSays(w, inputs)
  {
    SaysSame(v, w, "status");
    SaysSame(v, w, "parent_agent_success");
    SaysSame(v, w, "valid_parent");
    SaysSame(v, w, "eval_stage");
  }

  lemma PayloadSaysSame(v: Raw, w: Raw, inputs: CommitInputs)
    requires Mean(v) == Mean(w) && PayloadSays(v, inputs)
    ensures PayloadSays(w, inputs)
  {
    LineageSaysSame(v, w, inputs);
    ContentSaysSame(v, w, inputs);
    ArtifactSaysSame(v, w, inputs.artifact);
    OutcomeSaysSame(v, w, inputs);
    OnlyKeysSame(v, w, set k | k in PAYLOAD_KEYS);
  }

  lemma PayloadDecodes(inputs: CommitInputs)
    ensures ParseValue(SigningPayload(inputs)) == Some(Parsed(Canon(PayloadJson(inputs)), ""))
    ensures Mean(Canon(PayloadJson(inputs))) == Mean(PayloadJson(inputs))
  {
    CanonicalDecodes(PayloadJson(inputs), "");
    assert SigningPayload(inputs) + "" == SigningPayload(inputs);
  }

  /** The signed bytes are one JSON text, and whoever decodes it reads of the commit, key by key, what it says. */
  lemma PayloadBytesSay(inputs: CommitInputs)
    ensures ParseValue(SigningPayload(inputs)).Some?
    ensures var p := ParseValue(SigningPayload(inputs)).value; p.rest == "" && PayloadSays(p.value, inputs)
  {
    PayloadDecodes(inputs);
    PayloadSaysCommit(inputs);
    PayloadSaysSame(PayloadJson(inputs), Canon(PayloadJson(inputs)), inputs);
  }

  /** For text, numbers, booleans and null, to hold a value under a key is to have exactly that value there. */
  lemma HoldsScalar(v: Raw, key: string, x: Raw)
    requires !x.Arr? && !x.Obj?
    ensures Holds(v, key, x) <==> Get(v, key) == Some(x)
  {}

  /** A list of strings is an array of them, in order. */
  lemma StringsJsonExact(s: seq<string>)
    ensures StringsJson(s).Arr? && |StringsJson(s).items| == |s|
    ensures forall i :: 0 <= i < |s| ==> StringsJson(s).items[i] == Str(s[i])
  {}
}
