/** The default policy gate (src/policy.rs). */
module Policy {
  import opened Wrappers
  import opened Node
  import opened Sbom

  /** Why the gate paused a cycle: the first offending capability in list order. */
  datatype ApprovalReason = OutsideScope(capability: string) | GatedPresent(capability: string)

  datatype PolicyDecision =
    | Approve
    | Deny(maxGeneration: U32, parentGeneration: U32)
    | RequireApproval(reason: ApprovalReason)

  /** The first capability that the parent does not hold and the scope does not list. */
  function FirstOutside(sbom: seq<string>, parentSbom: seq<string>, scope: AllowedScope): Option<string> {
    if sbom == [] then None
    else if sbom[0] !in parentSbom && !CapabilityInScope(sbom[0], scope) then Some(sbom[0])
    else FirstOutside(sbom[1..], parentSbom, scope)
  }

  function FirstGated(gated: seq<string>, sbom: seq<string>, constraints: seq<string>): Option<string> {
    if gated == [] then None
    else if gated[0] in sbom || gated[0] in constraints then Some(gated[0])
    else FirstGated(gated[1..], sbom, constraints)
  }

  /** `DefaultPolicyGate::evaluate`. */
  function Evaluate(parent: AgentNode, intent: MutationIntent, sbom: seq<string>): PolicyDecision {
    var scope := parent.body.scope;
    if scope.maxGeneration.Some? && NextGeneration(parent.body.generation) > scope.maxGeneration.value then
      Deny(scope.maxGeneration.value, parent.body.generation)
    else
      match FirstOutside(sbom, parent.capabilitySbom, scope)
      case Some(capability) => RequireApproval(OutsideScope(capability))
      case None =>
        match FirstGated(scope.gatedCapabilities, sbom, intent.constraints)
        case Some(capability) => RequireApproval(GatedPresent(capability))
        case None => Approve
  }

  /** Every added capability is listed by the parent's scope. */
  ghost predicate AdditionsListed(sbom: seq<string>, parentSbom: seq<string>, scope: AllowedScope) {
    forall c :: c in sbom ==> c in parentSbom || CapabilityInScope(c, scope)
  }

  ghost predicate NothingGated(gated: seq<string>, sbom: seq<string>, constraints: seq<string>) {
    forall c :: c in gated ==> c !in sbom && c !in constraints
  }

  ghost predicate CapExceeded(parent: AgentNode) {
    && parent.body.scope.maxGeneration.Some?
    && NextGeneration(parent.body.generation) > parent.body.scope.maxGeneration.value
  }

  lemma {:induction false} FirstOutsideExact(sbom: seq<string>, parentSbom: seq<string>, scope: AllowedScope)
    ensures FirstOutside(sbom, parentSbom, scope).None? <==> AdditionsListed(sbom, parentSbom, scope)
  {
    if sbom == [] {
    } else {
      FirstOutsideExact(sbom[1..], parentSbom, scope);
      assert forall c :: c in sbom <==> c == sbom[0] || c in sbom[1..];
    }
  }

  lemma {:induction false} FirstGatedExact(gated: seq<string>, sbom: seq<string>, constraints: seq<string>)
    ensures FirstGated(gated, sbom, constraints).None? <==> NothingGated(gated, sbom, constraints)
  {
    if gated == [] {
    } else {
      FirstGatedExact(gated[1..], sbom, constraints);
      assert forall c :: c in gated <==> c == gated[0] || c in gated[1..];
    }
  }

  /** The decision, exactly: deny past the generation cap; otherwise pause on any unlisted addition or gated
      capability; otherwise approve. Only membership matters, so the order and repetition of every list is
      invisible. */
  lemma GateExact(parent: AgentNode, intent: MutationIntent, sbom: seq<string>)
    ensures var d := Evaluate(parent, intent, sbom);
            var scope := parent.body.scope;
            && (d.Deny? <==> CapExceeded(parent))
            && (d.Approve? <==>
                && !CapExceeded(parent)
                && AdditionsListed(sbom, parent.capabilitySbom, scope)
                && NothingGated(scope.gatedCapabilities, sbom, intent.constraints))
  {
    FirstOutsideExact(sbom, parent.capabilitySbom, parent.body.scope);
    FirstGatedExact(parent.body.scope.gatedCapabilities, sbom, intent.constraints);
  }

  /** A capability that the candidate adds and the scope does not list. */
  predicate Outside(c: string, parentSbom: seq<string>, scope: AllowedScope) {
    c !in parentSbom && !CapabilityInScope(c, scope)
  }

  ghost predicate FirstOutsideAt(sbom: seq<string>, parentSbom: seq<string>, scope: AllowedScope, i: nat) {
    && i < |sbom| && Outside(sbom[i], parentSbom, scope)
    && forall j :: 0 <= j < i ==> !Outside(sbom[j], parentSbom, scope)
  }

  lemma {:induction false} FirstOutsideIs(sbom: seq<string>, parentSbom: seq<string>, scope: AllowedScope, c: string)
    ensures FirstOutside(sbom, parentSbom, scope) == Some(c) <==>
            exists i: nat :: FirstOutsideAt(sbom, parentSbom, scope, i) && sbom[i] == c
  {
    if sbom == [] {
    } else if Outside(sbom[0], parentSbom, scope) {
      assert FirstOutsideAt(sbom, parentSbom, scope, 0);
    } else {
      var rest := sbom[1..];
      FirstOutsideIs(rest, parentSbom, scope, c);
      if i: nat :| FirstOutsideAt(sbom, parentSbom, scope, i) && sbom[i] == c {
        assert forall j :: 0 <= j < |rest| ==> rest[j] == sbom[j + 1];
        assert FirstOutsideAt(rest, parentSbom, scope, i - 1);
      }
      if i: nat :| FirstOutsideAt(rest, parentSbom, scope, i) && rest[i] == c {
        assert forall j :: 1 <= j < |sbom| ==> sbom[j] == rest[j - 1];
        assert FirstOutsideAt(sbom, parentSbom, scope, i + 1);
      }
    }
  }

  ghost predicate FirstGatedAt(gated: seq<string>, sbom: seq<string>, constraints: seq<string>, i: nat) {
    && i < |gated| && (gated[i] in sbom || gated[i] in constraints)
    && forall j :: 0 <= j < i ==> gated[j] !in sbom && gated[j] !in constraints
  }

  lemma {:induction false} FirstGatedIs(gated: seq<string>, sbom: seq<string>, constraints: seq<string>, c: string)
    ensures FirstGated(gated, sbom, constraints) == Some(c) <==>
            exists i: nat :: FirstGatedAt(gated, sbom, constraints, i) && gated[i] == c
  {
    if gated == [] {
    } else if gated[0] in sbom || gated[0] in constraints {
      assert FirstGatedAt(gated, sbom, constraints, 0);
    } else {
      var rest := gated[1..];
      FirstGatedIs(rest, sbom, constraints, c);
      if i: nat :| FirstGatedAt(gated, sbom, constraints, i) && gated[i] == c {
        assert forall j :: 0 <= j < |rest| ==> rest[j] == gated[j + 1];
        assert FirstGatedAt(rest, sbom, constraints, i - 1);
      }
      if i: nat :| FirstGatedAt(rest, sbom, constraints, i) && rest[i] == c {
        assert forall j :: 1 <= j < |gated| ==> gated[j] == rest[j - 1];
        assert FirstGatedAt(gated, sbom, constraints, i + 1);
      }
    }
  }

  /** The reasons: a denial names the cap and the parent's generation; a pause names the first unlisted addition,
      or, if all are listed, the first gated capability that is present. */
  lemma ReasonExact(parent: AgentNode, intent: MutationIntent, sbom: seq<string>, c: string)
    ensures var d, scope := Evaluate(parent, intent, sbom), parent.body.scope;
            d.Deny? ==> scope.maxGeneration == Some(d.maxGeneration) && d.parentGeneration == parent.body.generation
    ensures Evaluate(parent, intent, sbom) == RequireApproval(OutsideScope(c)) <==>
            && !CapExceeded(parent)
            && exists i: nat ::
                 FirstOutsideAt(sbom, parent.capabilitySbom, parent.body.scope, i) && sbom[i] == c
    ensures Evaluate(parent, intent, sbom) == RequireApproval(GatedPresent(c)) <==>
            && !CapExceeded(parent)
            && AdditionsListed(sbom, parent.capabilitySbom, parent.body.scope)
            && exists i: nat ::
                 FirstGatedAt(parent.body.scope.gatedCapabilities, sbom, intent.constraints, i)
                 && parent.body.scope.gatedCapabilities[i] == c
  {
    FirstOutsideExact(sbom, parent.capabilitySbom, parent.body.scope);
    FirstOutsideIs(sbom, parent.capabilitySbom, parent.body.scope, c);
    FirstGatedIs(parent.body.scope.gatedCapabilities, sbom, intent.constraints, c);
  }

  /** The cap compares a `u32` sum. It is the cap on the true depth exactly while that sum does not wrap. */
  lemma CapIsDepthUnlessWrapped(parent: AgentNode)
    requires parent.body.scope.maxGeneration.Some?
    ensures (CapExceeded(parent) <==> parent.body.generation + 1 > parent.body.scope.maxGeneration.value) <==>
            parent.body.generation + 1 < U32_RANGE
  {
    if parent.body.generation + 1 < U32_RANGE {
      assert NextGeneration(parent.body.generation) == parent.body.generation + 1;
    } else {
      assert NextGeneration(parent.body.generation) == 0;
    }
  }

  /** How strict a decision is. */
  function Strictness(d: PolicyDecision): nat {
    match d
    case Approve => 0
    case RequireApproval(_) => 1
    case Deny(_, _) => 2
  }

  ghost predicate Within(a: seq<string>, b: seq<string>) {
    forall x :: x in a ==> x in b
  }

  /** `wide` allows whatever `narrow` allows: longer allow-lists, fewer gated capabilities, a higher cap or none. */
  ghost predicate Widens(narrow: AllowedScope, wide: AllowedScope) {
    && Within(narrow.allowedTools, wide.allowedTools)
    && Within(narrow.allowedMcpServers, wide.allowedMcpServers)
    && Within(narrow.allowedDelegates, wide.allowedDelegates)
    && Within(wide.gatedCapabilities, narrow.gatedCapabilities)
    && (wide.maxGeneration.Some? ==>
          narrow.maxGeneration.Some? && narrow.maxGeneration.value <= wide.maxGeneration.value)
  }

  /** A wider scope, a parent that holds more, fewer candidate capabilities and fewer constraints never make the
      gate stricter. */
  lemma GateMonotone(parent: AgentNode, intent: MutationIntent, sbom: seq<string>,
                     wider: AgentNode, intent': MutationIntent, fewer: seq<string>)
    requires wider.body.generation == parent.body.generation
    requires Widens(parent.body.scope, wider.body.scope)
    requires Within(parent.capabilitySbom, wider.capabilitySbom)
    requires Within(fewer, sbom) && Within(intent'.constraints, intent.constraints)
    ensures Strictness(Evaluate(wider, intent', fewer)) <= Strictness(Evaluate(parent, intent, sbom))
  {
    GateExact(parent, intent, sbom);
    GateExact(wider, intent', fewer);
  }

  /** The kind of decision is a function of sets. */
  lemma GateForgetsOrder(parent: AgentNode, intent: MutationIntent, sbom: seq<string>,
                         parent': AgentNode, intent': MutationIntent, sbom': seq<string>)
    requires parent'.body.generation == parent.body.generation
    requires Widens(parent.body.scope, parent'.body.scope) && Widens(parent'.body.scope, parent.body.scope)
    requires SameNames(parent.capabilitySbom, parent'.capabilitySbom)
    requires SameNames(sbom, sbom') && SameNames(intent.constraints, intent'.constraints)
    ensures Strictness(Evaluate(parent, intent, sbom)) == Strictness(Evaluate(parent', intent', sbom'))
  {
    GateMonotone(parent, intent, sbom, parent', intent', sbom');
    GateMonotone(parent', intent', sbom', parent, intent, sbom);
  }
}
