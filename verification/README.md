# A verified model of rig-veh

`rig-veh` keeps a signed, append-only ledger of agent revisions and promotes a revision only through an
evaluation, a policy gate and, where the gate asks for it, an approval. This project models its core in Dafny
and proves what the ledger is for: ids that commit to whole histories, a log that no interleaving can spoil,
capabilities that can be traced to where they were allowed, scores that rise, rollbacks that restore, and
parent selection that does what its formulas say.

`dafny verify dfyconfig.toml` checks everything.

## How the source is modelled

* **Text.** A Rust `String` or `Vec<u8>` is a Dafny `string`, one character for each byte. `serde_json` escapes
  byte by byte and Rust orders strings byte by byte, so both are modelled on the bytes themselves.
* **JSON** (`Json`, `Canonical`, `Records`). Objects are association lists in insertion order with unique keys.
  `Mean` reads a value with its objects as maps; it is the independent notion of equality that the canonical
  bytes are compared with. The text of a finite float is an opaque token, never printed by an integer; `Decimals`
  says which number it denotes, and `Spelling` what JSON text the decoder accepts.
* **Identity** (`Payload`, `Identity`). SHA-256 and Ed25519 are function parameters; `Lawful` assumes their
  sizes and that genuine signatures check. Collision freedom is a hypothesis about the byte strings at hand only.
* **Manifests.** The `rig_compose` schema is not part of this model: a manifest is its JSON value, and its name
  lists are read from `tools`, `mcp_servers` and `delegates`, as the tests of `src/artifact.rs` write them.
* **Stores** (`Ledger`, `Jsonl`), **runner** (`Graph`), **driver** (`Evolution`) and the **canonical writer** are
  classes and methods with the source's fields and loops, each proved against a specification on values.
* **Concurrency** (`Protocol`). Only single ledger calls are atomic. A run is any sequence of steps of any number of
  calls: begin, evaluate and gate, append, pause, resume, the get, head, get and append of a signed rollback, the
  get and set of a head move, the select and get of the driver. `World` also carries histories (how each node was
  made, how each call ended, the head before every step) that exist only to state properties.
* Library sorts appear as a function with the promises of `slice::sort` proved for it (`Sorting`).

Reading order: `Json`, `Spelling`, `Canonical`, `Payload`, `Identity`; `Ledger`, `Jsonl`; `Policy`, `Graph`, `Protocol`, `Invariant`,
`Parents`, `Lineages`, `Calls`, `Rollbacks`, `Conservation`, `Refinement`, `Histories`;
`Selector`, `Draws`, `Ensemble`, `Evolution`.

## Where code and documentation disagree

The model follows the code.

* `src/diff.rs:12-14` says the diff is not in the hashed payload; `src/identity.rs:75` puts it there
  (`Payload.DiffIsSigned`).
* `src/graph.rs:114-116` promises to reject every candidate that does not exceed its parent.
  `Invariant.RuleIsStrictExactly` says when it does: the candidate is no NaN, and the parent's score is finite, or
  minus infinity while the candidate's is not. A NaN passes (`Invariant.RuleFailsAtNaN`); so does everything under a
  parent promoted at plus infinity, whose score is stored as null (`Invariant.RuleFailsAtInfinity`), and under a
  parent without an evaluation (`Invariant.RulePassesUnevaluated`).
* The generation cap compares a `u32` sum, which wraps at the largest generation in release builds
  (`Policy.CapIsDepthUnlessWrapped`); `Lineages.LineageShape` shows when that cannot happen.
* `src/ledger.rs:32` calls the head the most recently promoted node; `rollback_to` moves it elsewhere, and since head
  moves are not written, a reopened file store forgets them (`Jsonl.ReplayRebuilds` says exactly when it shows).
* `JsonlLineage::open` does not reject repeated ids as `append` does; `Jsonl.OpenExact` says for every file when that
  shows, `Jsonl.RepeatedIdOpens` gives a file where it does.
* `src/node.rs:35` says only roots lack an evaluation; exactly the roots and the signed rollbacks do
  (`Lineages.UnevaluatedExactly`, `Graph.RollbackHasNoEvaluation`).
* `src/intent.rs:116` speaks of tool names or prefixes; the gate compares whole names (`Sbom.ScopeReadsSbom`,
  `Sbom.PrefixIsNoName`, `Sbom.PrefixFails`).
* `src/selector.rs:280` says the draw is below one; it is one exactly for the 1024 largest hashes
  (`Draws.UnitDrawExact`), and the draw lemmas include it.
* A failing teardown makes `run_generation` return an error after the cycle's node has been appended
  (`Evolution.EvolutionDriver.RunGeneration`).

## Model

| member | source | states |
|---|---|---|
| Json.ParsePrint | src/artifact.rs:74-114 | a decoder reads every printed value back, whatever delimited text follows it |
| Json.PrintNoControl | src/ledger.rs:188 | printed JSON contains no control character, so no line feed or carriage return, whatever its strings hold |
| Json.EscapeExact | src/artifact.rs:81-82 | the escape of every character: `serde_json`'s two-character forms, lower-case hexadecimal for the other control characters, the rest as it is |
| Spelling.ValueSpelled | src/ledger.rs:166 | whatever the decoder reads is, up to where it stops, a JSON text of that value: nothing else is accepted |
| Text.LeExact | src/artifact.rs:97-98 | the key order: at the first difference the smaller byte goes first, and a text before its extensions |
| Text.IntTextShape | src/artifact.rs:79 | integers are written in full, with a minus sign exactly below zero and no leading zeros |
| Canonical.CanonicalExact | src/artifact.rs:68-114 | canonical bytes are equal exactly when the values are equal with objects read as maps |
| Canonical.CanonicalInjective | src/artifact.rs:68-114 | inside a longer text too: the same bytes mean the same value and the same rest |
| Canonical.CanonicalDecodes | src/artifact.rs:68-114 | decoding canonical bytes gives the value back with the keys of every object sorted and its meaning kept |
| Canonical.KeyOrderIsInvisible | src/artifact.rs:31-38 | listing the keys of any object, at any depth, in another order leaves the bytes alone |
| Canonical.CanonSorts | src/artifact.rs:97-98 | at every depth the canonical form has its keys in byte order |
| Canonical.WriteCanonical | src/artifact.rs:74-114 | the writer appends exactly the canonical form to its buffer, for every value |
| Canonical.WriteItems | src/artifact.rs:85-94 | the array loop appends the items' canonical forms, separated |
| Canonical.WriteFields | src/artifact.rs:95-111 | the object loop appends key and canonical value for each sorted key; no lookup fails |
| Canonical.CanonicalBytes | src/artifact.rs:68-72 | the entry point returns the canonical form |
| Sbom.SbomExact | src/artifact.rs:40-61 | the SBOM is strictly sorted and holds exactly the prefixed names |
| Sbom.CapabilitySbomExact | src/artifact.rs:43-61 | of a manifest's own lists: `tool:` names exactly its tools, `mcp:` its servers, `delegate:` its delegates, and nothing else is in it |
| Sbom.ManifestNamesExact | src/artifact.rs:45-57 | a list names exactly the `name` fields of the items of the manifest's array under its key |
| Sbom.SbomForgetsOrder | src/artifact.rs:40-61 | two manifests have the same SBOM exactly when they name the same tools, servers and delegates, in any order, any number of times |
| Sbom.ComputeSbom | src/artifact.rs:43-61 | the three loops, the sort and the dedup compute that SBOM |
| Sbom.ScopeReadsSbom | src/policy.rs:105-117 | the scope check on a prefixed entry holds exactly when the name is in the matching list, names with colons included |
| Sbom.ScopeExact | src/policy.rs:105-117 | in scope is exactly what is a listed tool, server or delegate under its prefix; no other kind, and nothing without a colon |
| Sbom.PrefixIsNoName | src/policy.rs:105-117 | reading the tool list as prefixes would allow the same exactly when no listed name is a proper prefix of an unlisted tool |
| Payload.PayloadExact | src/identity.rs:61-107 | two commits have the same signing payload exactly when they agree field by field: evaluations up to absent versus null, JSON up to key order |
| Payload.PayloadSaysCommit | src/identity.rs:61-107 | which value of the commit stands under each of the thirteen keys, under each key of the intent and the scope, and that there are no others |
| Payload.PayloadBytesSay | src/identity.rs:61-107 | the signed bytes are one JSON text, and what decodes from it says all that of the commit |
| Payload.DiffIsSigned | src/identity.rs:75 | commits that differ only in the diff have different payloads |
| Payload.SbomMeaning | src/identity.rs:86-89 | manifests that mean the same have the same capabilities, so signing the SBOM adds no further distinction |
| Identity.SignedVerifies | src/identity.rs:123-202 | every node that is signed verifies, under any key |
| Identity.VerifyExact | src/identity.rs:155-202 | acceptance exactly: 64 signature bytes, the id their hash behind the payload, a 32-byte key, and a signature that checks; and which error each failing stage gives |
| Identity.SignExact | src/identity.rs:123-147 | what signing writes: the inputs, the capabilities, the key, the signature over the payload, the id over both |
| Identity.IdFixesCommit | src/identity.rs:115-120 | verified nodes with one id agree in every signed field and in the signature, unless the hashed bytes collide |
| Identity.TamperingShows | src/identity.rs:155-202 | changing a signed field under a kept id, key and signature is reported as a hash mismatch, and nothing else is |
| Identity.SameIdSameHistory | src/identity.rs:61-202 | ledgers that share an id share its ancestry, generation by generation to the root |
| Identity.ComputeAgentId | src/identity.rs:115-120 | feeding payload and signature to the hasher step by step gives the id |
| Text.HexRoundTrip | src/identity.rs:119-120 | hexadecimal decoding inverts encoding (section 8 of RFC 4648) |
| Text.HexEncodeShape | src/identity.rs:119-120 | encoding writes two lower-case digits a byte |
| Text.HexDecodeExact | src/identity.rs:172-188 | decoding reads exactly the texts of evenly many hexadecimal digits |
| Text.HexDecodeAt | src/identity.rs:172-188 | two digits make a byte, the higher one first |
| Codec.NodeRoundTrip | src/node.rs:19-65 | a node read from its own JSON is itself, but for a null evaluation and a non-finite expected improvement |
| Codec.ReloadedExact | src/node.rs:36-37 | nothing is lost exactly from nodes without those two |
| Codec.NodeJsonSays | src/node.rs:19-65 | which value of the node stands under each of its sixteen keys, in the order of declaration |
| Codec.AbsentFields | src/node.rs:19-65 | what a field that a line leaves out is read as |
| Codec.RequiredFields | src/node.rs:19-65 | which fields no line may leave out |
| Jsonl.JsonLinesSound | src/ledger.rs:188-200 | every node is written as one non-blank line without control characters, and reads back |
| Jsonl.OpenExact | src/ledger.rs:154-180 | of any file: it fails to open exactly when a line does not parse; else the order lists every line's id, the map the last line of each id; ids are listed once exactly when none repeats, and the store shows the lines' nodes exactly when repeated ids repeat the node |
| Jsonl.BlankExact | src/ledger.rs:163 | a line is blank exactly when all of it is ASCII white space |
| Jsonl.LinesExact | src/ledger.rs:161-162 | where lines end, the carriage return they lose, and the last line without a line feed |
| Jsonl.BlankLinesSkipped | src/ledger.rs:163-165 | a blank line anywhere changes nothing |
| Jsonl.BadLineStops | src/ledger.rs:166 | a line that does not parse makes the whole open fail, wherever it stands |
| Jsonl.LineIsJson | src/ledger.rs:166 | a line that reads as a node is a JSON text whose fields are that node's |
| Jsonl.ReadLinePrinted | src/ledger.rs:166 | a printed object reads as a node exactly when its keys are unique and its fields a node's; text behind it makes the line fail |
| Jsonl.RepeatedIdOpens | src/ledger.rs:166-174 | a file with one id on two lines opens, and the later node stands in both places |
| Jsonl.ReplayRebuilds | src/ledger.rs:154-230 | after any calls from an empty file, opening rebuilds order and nodes; its head is the last promotion, equal to the live head exactly unless a later head move left it elsewhere |
| Jsonl.ReplayExact | src/ledger.rs:154-208 | a store whose nodes lose nothing in JSON is rebuilt exactly |
| Jsonl.LiveHead | src/ledger.rs:186-230 | the live head is where head moves since the last promotion left it, or that promotion |
| Jsonl.ReloadedVerifies | src/ledger.rs:166 | a node verifies after reloading exactly when it did before |
| Jsonl.JsonlLineage.Open | src/ledger.rs:154-180 | on lines as `serde_json` writes them, the replay loop gives the replayed store, or the error of the first line that does not parse |
| Jsonl.JsonlLineage.Append | src/ledger.rs:186-208 | appends the node and its line, or refuses a known id and changes nothing |
| Jsonl.JsonlLineage.SetHead | src/ledger.rs:223-230 | moves the head to a stored id only, and leaves the file alone |
| Ledger.InMemoryLineage.Append | src/ledger.rs:80-96 | map, order and head stay in agreement; a known id is refused; a promoted node becomes the head |
| Ledger.InMemoryLineage.Get | src/ledger.rs:98-105 | finds the node stored under the id, or reports it missing |
| Ledger.InMemoryLineage.SetHead | src/ledger.rs:111-118 | moves the head to a stored id only |
| Ledger.InMemoryLineage.Nodes | src/ledger.rs:133-140 | returns the whole log in insertion order; no listed id is missing from the map |
| Ledger.FindInMap | src/ledger.rs:60-68 | looking an id up in the map is searching the ordered log for it |
| Ledger.AppendExact | src/ledger.rs:80-96 | an append fails exactly for a stored id; else the node stands last, is found under its id, becomes the head if promoted, and all other ids find what they found |
| Ledger.MoveExact | src/ledger.rs:98-118 | the head moves, and a node is found, exactly for stored ids; else the id is reported missing |
| Policy.GateExact | src/policy.rs:52-103 | Deny exactly past the cap; Approve exactly when no addition is unlisted and nothing gated is present; otherwise approval is required |
| Policy.ReasonExact | src/policy.rs:61-100 | the reason given: the cap and the generation; or the first unlisted addition; or, if all are listed, the first gated capability present |
| Policy.GateMonotone | src/policy.rs:52-103 | a wider scope, a richer parent, fewer capabilities and constraints never make the gate stricter |
| Policy.GateForgetsOrder | src/policy.rs:72-99 | the kind of decision depends on sets only |
| Policy.CapIsDepthUnlessWrapped | src/policy.rs:60-70 | the cap bounds the true depth exactly while the sum does not wrap |
| Invariant.RuleIsStrictExactly | src/graph.rs:195-203 | for every evaluated parent and every candidate: the rule rejects just what does not exceed the parent exactly when the candidate is no NaN and the parent's score is finite, or minus infinity and the candidate's is not |
| Invariant.RuleReadsStoredScore | src/graph.rs:195-203 | for every parent whatsoever: refused is exactly what, NaN apart, does not exceed a numeric score stored for the parent |
| Decimals.FloatValueExact | src/evaluator.rs:18 | the number a score's text denotes: its digits as a whole number times a power of ten, negated by a minus sign |
| Decimals.DecimalsCompare | src/graph.rs:202 | decimal texts compare as the numbers they write, by whole-number arithmetic |
| Invariant.RuleComparesDecimals | src/graph.rs:195-203 | of two decimal scores the cycle rejects exactly a candidate that is not above its parent, or is past the cap |
| Node.EvalJsonExact | src/evaluator.rs:16-22 | an evaluation is stored as `score` and `details`, a score that is not finite as null |
| Node.StoredScoreExact | src/graph.rs:195-200 | which records hold a numeric score, and which number it is |
| Invariant.RuleFailsAtInfinity | src/graph.rs:195-203 | one half passes under a parent at plus infinity |
| Invariant.RuleFailsAtNaN | src/graph.rs:195-203 | a NaN passes under a parent at one half |
| Invariant.RulePassesUnevaluated | src/graph.rs:195-203 | everything passes under a parent without an evaluation |
| Graph.JudgeExact | src/graph.rs:195-275 | a cycle is rejected exactly when the rule or the cap refuses it, else promoted exactly when the gate has nothing to ask, else paused; and resuming a pause signs exactly what promoting at once would have |
| Graph.RollbackTargetExact | src/graph.rs:322-361 | a node may be rolled back to exactly when it is stored, verifies and was promoted; the first that fails gives the error |
| Graph.RollbackInputsExact | src/graph.rs:346-386 | when a signed rollback is made, the whole commit it is then, and which error comes otherwise |
| Graph.RollbackHasNoEvaluation | src/graph.rs:362-376 | a signed rollback is no root and has no evaluation |
| Graph.CrateSignerGenuine | src/identity.rs:123-147 | the crate's signing keeps what was signed, lists its capabilities and verifies |
| Graph.Veh.CommitRoot | src/graph.rs:149-175 | signs and appends a root, or reports the refusal and changes nothing |
| Graph.Veh.RunCycle | src/graph.rs:178-277 | ends as the verdict says: one append, one pause that leaves the ledger alone, or an error that does |
| Graph.Veh.ResumeWithApproval | src/graph.rs:286-313 | appends what the pause captured, signed with the approver's key |
| Graph.Veh.RollbackTo | src/graph.rs:322-331 | moves the head to a stored, verified, promoted node, or reports why not and changes nothing |
| Graph.Veh.CommitRollback | src/graph.rs:346-386 | appends a signed copy of the target on top of the head, or reports why not and changes nothing |
| Invariant.StepKeeps | src/graph.rs:149-452 | every single step of every call keeps the whole invariant and only extends the log and the histories |
| Invariant.LedgerInvariant | src/graph.rs:149-452 | after any interleaving: unique ids, every node verified, valid parents exactly the promoted nodes, no head exactly while nothing is promoted, a promoted head otherwise |
| Invariant.RunGrows | src/ledger.rs:80-96 | later logs extend earlier ones and stored nodes never change, over every run |
| Parents.DriverIsDisciplined | src/evolution.rs:118-146 | runs whose cycles are all the driver's only ever use stored valid parents |
| Parents.RunKnown | src/evolution.rs:125-138 | in runs whose direct callers pass stored valid parents, every parent anywhere is one, pauses and resumptions included |
| Lineages.ParentsAreEarlier | src/graph.rs:401-406 | only roots lack a parent; any other parent is an earlier promoted node, one generation above |
| Lineages.LineageShape | src/graph.rs:297-371 | generation is the length of the parent path and at most the insertion index, and its `u32` increment cannot overflow below 2^32 nodes |
| Lineages.GenerationIsDepth | src/graph.rs:404 | without any bound: the generation is that length modulo 2^32 |
| Lineages.CapRespected | src/policy.rs:60-70 | every promotion by a cycle or an approval respects its parent's generation cap |
| Lineages.UnevaluatedExactly | src/graph.rs:149-452 | over every run, exactly the roots and the signed rollbacks lack an evaluation |
| Lineages.RootsArePromoted | src/graph.rs:149-175 | over every run each root is promoted, a valid parent, successful, at generation zero, with no past |
| Lineages.ScoresRise | src/graph.rs:195-221 | with the rule on, a scored promotion beats a scored parent, approved ones included |
| Lineages.ScoresRiseAlongPaths | src/graph.rs:195-221 | scores strictly rise along every parent path of scored promotions |
| Lineages.CapabilityProvenance | src/policy.rs:72-88 | every capability of every promotion traces back through parents and rollback targets to a root holding it, an approval, or a parent scope listing it |
| Lineages.FamilyStaysInScope | src/policy.rs:72-99 | one root, scopes handed down unchanged, no approvals: no promotion ever exceeds what the root held or listed |
| Rollbacks.RollbackParentWasHead | src/graph.rs:346-386 | a rollback comes from a call with its target and timestamp, its parent was the head between that call and the append, and it holds the target's artifact and scope |
| Rollbacks.BaseRestored | src/intent.rs:84-104 | following signed targets ends at a promoted non-rollback with the same artifact, scope and capabilities |
| Rollbacks.RollbackChainsRestore | src/graph.rs:346-386 | the same over every run in which no cycle claims the goal "rollback" |
| Conservation.CycleConservation | src/graph.rs:178-277 | a begun cycle is under way or ended in exactly one way, as the answer of its own gate step decides: by appending the very node signed for it, by that pause, or by an error for a stated reason; the log holds its one node or none |
| Conservation.AnsweredOnce | src/graph.rs:189-192 | a cycle is evaluated once: a call that had its answer never waits for another |
| Conservation.AnswerIsEvent | src/graph.rs:189-192 | the answer is that of one event of the run, taken while the cycle was waiting for it |
| Conservation.CycleNodeJudged | src/graph.rs:195-275 | in any run, a cycle's node records the evaluation its gate step brought; it is promoted exactly when that was not refused and the gate had nothing to ask, rejected exactly when refused |
| Conservation.PauseConservation | src/graph.rs:286-313 | at most one node comes of a pause, and it is what was captured, parent and generation included |
| Conservation.CallsResumeOnce | src/graph.rs:286-313 | no call resumes two pauses |
| Conservation.QuietSteps | src/graph.rs:258-275 | only appends change the log, by one node; only appends and head moves change the head |
| Conservation.AppendsCounted | src/graph.rs:149-452 | the log is as long as the number of calls that ended in an append |
| Refinement.CycleAlone | src/graph.rs:178-277 | uninterrupted, the steps of a cycle do to the ledger what the method does |
| Refinement.RollbackAlone | src/graph.rs:346-386 | so do the four steps of a signed rollback, errors included |
| Refinement.MoveAlone | src/graph.rs:322-331 | and the two of a head move |
| Refinement.RootAlone | src/graph.rs:149-175 | and the two of a root |
| Refinement.ResumeAlone | src/graph.rs:286-313 | and the two of a resumption, on what the pause captured |
| Refinement.GenerationAlone | src/evolution.rs:125-138 | the driver's two steps begin a cycle on the stored node that the selector named and the proposed candidate, or end the call |
| Histories.StoredNodesVerify | src/graph.rs:149-452 | every node stored in any run passes `verify_node` |
| Histories.StoredSignaturesCheck | src/identity.rs:193-202 | in any run the Ed25519 signature of every stored node checks, under its own key and over its own payload, and its id is their hash |
| Histories.SignerIsRecorded | src/graph.rs:281-312 | in any run a stored node shows the runner's public key, an approved one that of the approving key in the call which resumed it |
| Calls.SignedBy | src/graph.rs:281-312 | for any signer: which key signed each stored node |
| Histories.SharedIdSharedHistory | src/identity.rs:61-202 | two runs that ever store the same id have stored the same history above it |
| Selector.Best | src/selector.rs:88-103 | the scan returns the first valid node of maximal score, an error exactly without valid nodes |
| Draws.UnitDrawExact | src/selector.rs:263-283 | the draw of a 64-bit hash lies in [0, 1] and is one exactly for the 1024 largest hashes |
| Selector.DrawsArePartitioned | src/selector.rs:249-256 | every draw in (0, total] picks the one entry whose share holds it; shares are as long as the weights; weightless entries are never picked; the fallback is not reached |
| Selector.ZeroDrawPicksFirst | src/selector.rs:249-256 | a draw of exactly zero picks the first entry whatever its weight |
| Selector.ChoiceExact | src/selector.rs:236-261 | the last entry is the fallback exactly when all weights are zero; otherwise the choice has positive weight |
| Selector.ChoiceByShare | src/selector.rs:236-261 | without weights exactly the last entry is chosen, else the one whose share holds the scaled draw |
| Selector.PrefixExact | src/selector.rs:236-256 | running sums start at nothing and grow weight by weight; the total is the last of them |
| Selector.WeightedSelection | src/selector.rs:188-233 | the two weighted selectors choose among the valid nodes in insertion order, by the scores above zero, or those over one more than the children |
| Selector.RandomSelection | src/selector.rs:126-163 | `Random` picks the valid nodes in turn, for draws below their number |
| Selector.RandomRepeats | src/selector.rs:126-163 | and starts over after them |
| Selector.ScanSelection | src/selector.rs:68-103 | `Best` and `Latest` select the first best and the last valid node |
| Selector.ScoreOfExact | src/selector.rs:50-60 | the score of a node is the number stored, and zero without one |
| Selector.ChildCountExact | src/selector.rs:214-219 | the count of an id is the number of nodes that name it as their parent |
| Selector.WeightedChoice | src/selector.rs:236-261 | the summing and sampling code makes that choice |
| Selector.CountChildren | src/selector.rs:214-219 | the count of every id is the number of nodes naming it as parent, and the counts sum to the nodes with a parent |
| Selector.ChildNeverRaisesShare | src/selector.rs:220-231 | a new child changes no other node's weight and never raises its parent's share, whatever it scores |
| Selector.ScoreChildProportional | src/selector.rs:212-233 | the selector's code chooses by those weights |
| Selector.LatestExact | src/selector.rs:70-78 | `Latest` finds the valid node appended last, and nothing only when no node is valid |
| Selector.WeightsOfValid | src/selector.rs:188-231 | one weight for each valid node, in insertion order: its score, or its score over one more than its children |
| Selector.SelectsUnlessBarren | src/selector.rs:68-261 | every in-tree selector fails exactly when no valid parent is stored |
| Selector.SelectedIsValidParent | src/selector.rs:47-49 | whatever an in-tree selector returns is the id of a stored valid parent |
| Selector.Select | src/selector.rs:68-233 | the code of each selector returns what its specification says |
| Ensemble.BestByMetric | src/ensemble.rs:66-83 | the filter, sort and take compute the top k |
| Ensemble.RankedExact | src/ensemble.rs:73-77 | the ranking rearranges the valid nodes, best first, ties in insertion order |
| Ensemble.TopKExact | src/ensemble.rs:66-83 | the top k has min(k, valid) nodes, is descending and is a prefix of the top k + 1 |
| Ensemble.TopKExcludes | src/ensemble.rs:66-83 | no valid node left out outscores one taken |
| Ensemble.BestIsTopOne | src/selector.rs:88-103 | the one-pass scan and the sort of `top_k(1)` name the same node |
| Evolution.EvolutionDriver.RunGeneration | src/evolution.rs:118-145 | the parent is a stored valid parent; proposal and sandbox failures leave the ledger alone; then the cycle ends as the runner says, and the first error wins |

## Left out

- SHA-256, Ed25519 and key handling: library code; sizes and the sign/verify law are assumed, forgery is not ruled out.
- Rounding, printing and parsing of `f64`: weights are real numbers, and a float's text is taken to read back as itself; only the conversion of a hash to a draw is rounded as the source does.
- `Jsonl.JsonlLineage.Open`: reads lines as `serde_json` writes them; other spellings of JSON, repeated fields, invalid UTF-8 and non-ASCII blank lines are outside the decoder, because no append produces them.
- File-system failures, partial writes and several processes on one file.
- `DefaultHasher` and `SystemTime`: the hash, and so the draw, is a parameter of the selector.
- The `u32` of a child count: counted without bound.
- Overflow checks of debug builds, which stop where release builds wrap.
- The texts of errors and of rejection reasons; the gate's approval reason is kept as a value.
- Policy gates other than the default one, and lineage stores other than the two in the crate; the runner class is written over the in-memory store.
- The thirteen inserts of `signing_payload`: the payload object is built as one record, whose order the canonical form makes irrelevant.
- `manifest_diff`, evaluators, mutators and sandboxes: arbitrary inputs of a step.
- `CompositeEvaluator`, `EvidenceBundle`, `export_dag_json`, `export_dot`, builder setters and tracing: simple projections.
- The canonical bytes as UTF-8 text, and lock internals.
