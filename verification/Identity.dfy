/** Signing, verifying and identifying nodes (src/identity.rs). */
module Identity {
  import opened Wrappers
  import opened Text
  import opened Json
  import opened Canonical
  import opened Node
  import opened Sbom
  import opened Payload

  /** SHA-256 and Ed25519, as functions on byte strings. Their constructions are not part of this model. */
  datatype Crypto = Crypto(
    hash: string -> string,
    sign: (string, string) -> string,
    publicKey: string -> string,
    isPublicKey: string -> bool,
    check: (string, string, string) -> bool)

  /** The sizes of the two schemes, and that a genuine signature checks. Nothing is assumed about forgeries or
      collisions. */
  ghost predicate Lawful(c: Crypto) {
    && (forall m :: |c.hash(m)| == 32 && IsBytes(c.hash(m)))
    && (forall k, m :: |c.sign(k, m)| == 64 && IsBytes(c.sign(k, m)))
    && (forall k :: |c.publicKey(k)| == 32 && IsBytes(c.publicKey(k)) && c.isPublicKey(c.publicKey(k)))
    && (forall k, m :: c.check(c.publicKey(k), m, c.sign(k, m)))
  }

  /** `compute_agent_id`. */
  function AgentIdOf(c: Crypto, payload: string, signature: string): string {
    HexEncode(c.hash(payload + signature))
  }

  /** The four fields that seal a payload. */
  datatype Seal = Seal(agentId: string, signerPublicKey: string, signature: string)

  function SealPayload(c: Crypto, payload: string, key: string): Seal {
    var signature := c.sign(key, payload);
    Seal(AgentIdOf(c, payload, signature), HexEncode(c.publicKey(key)), HexEncode(signature))
  }

  /** `sign_node`. */
  function SignNode(c: Crypto, inputs: CommitInputs, key: string): (node: AgentNode) {
    var seal := SealPayload(c, SigningPayload(inputs), key);
    AgentNode(seal.agentId, inputs, CapabilitySbom(inputs.artifact), seal.signerPublicKey, seal.signature)
  }

  function CheckSeal(c: Crypto, payload: string, seal: Seal): Result<()> {
    match HexDecode(seal.signature)
    case None => Err(SignatureInvalid)
    case Some(signature) =>
      if |signature| != 64 then Err(SignatureInvalid)
      else if AgentIdOf(c, payload, signature) != seal.agentId then Err(HashMismatch)
      else
        match HexDecode(seal.signerPublicKey)
        case None => Err(InvalidKey)
        case Some(key) =>
          if |key| != 32 || !c.isPublicKey(key) then Err(InvalidKey)
          else if !c.check(key, payload, signature) then Err(SignatureInvalid)
          else Ok(())
  }

  function SealOf(node: AgentNode): Seal {
    Seal(node.agentId, node.signerPublicKey, node.signature)
  }

  /** `verify_node`, error by error. */
  function VerifyNode(c: Crypto, node: AgentNode): Result<()> {
    CheckSeal(c, SigningPayload(node.body), SealOf(node))
  }

  /** The signature's bytes, if there are 64 of them. */
  function SignatureBytes(node: AgentNode): Option<string> {
    match HexDecode(node.signature)
    case None => None
    case Some(s) => if |s| == 64 then Some(s) else None
  }

  /** The signer's key, if it is one. */
  function KeyBytes(c: Crypto, node: AgentNode): Option<string> {
    match HexDecode(node.signerPublicKey)
    case None => None
    case Some(k) => if |k| == 32 && c.isPublicKey(k) then Some(k) else None
  }

  /** The id is the hash of what was signed with the signature behind it. */
  predicate IdIsRight(c: Crypto, node: AgentNode) {
    SignatureBytes(node).Some? &&
    node.agentId == HexEncode(c.hash(SigningPayload(node.body) + SignatureBytes(node).value))
  }

  /** Exactly what `verify_node` accepts, and which error it gives otherwise, at the first of four stages that
      fails: the signature has 64 bytes, the id is their hash behind the payload, the key is a key, the signature
      checks. */
  lemma VerifyExact(c: Crypto, node: AgentNode)
    ensures VerifyNode(c, node) == Ok(()) <==>
            && IdIsRight(c, node) && KeyBytes(c, node).Some?
            && c.check(KeyBytes(c, node).value, SigningPayload(node.body), SignatureBytes(node).value)
    ensures VerifyNode(c, node) == Err(HashMismatch) <==> SignatureBytes(node).Some? && !IdIsRight(c, node)
    ensures VerifyNode(c, node) == Err(InvalidKey) <==> IdIsRight(c, node) && KeyBytes(c, node).None?
    ensures VerifyNode(c, node) == Err(SignatureInvalid) <==>
            || SignatureBytes(node).None?
            || (&& IdIsRight(c, node) && KeyBytes(c, node).Some?
                && !c.check(KeyBytes(c, node).value, SigningPayload(node.body), SignatureBytes(node).value))
  {}

  /** What signing puts into a node. */
  lemma SignExact(c: Crypto, inputs: CommitInputs, key: string)
    ensures var node, payload := SignNode(c, inputs, key), SigningPayload(inputs);
            && node.body == inputs
            && node.capabilitySbom == CapabilitySbom(inputs.artifact)
            && node.signerPublicKey == HexEncode(c.publicKey(key))
            && node.signature == HexEncode(c.sign(key, payload))
            && node.agentId == HexEncode(c.hash(payload + c.sign(key, payload)))
  {}

  lemma SealChecks(c: Crypto, payload: string, key: string)
    requires Lawful(c)
    ensures CheckSeal(c, payload, SealPayload(c, payload, key)) == Ok(())
  {
    HexRoundTrip(c.sign(key, payload));
    HexRoundTrip(c.publicKey(key));
  }

  /** Whatever is signed verifies, under any key. */
  lemma SignedVerifies(c: Crypto, inputs: CommitInputs, key: string)
    requires Lawful(c)
    ensures VerifyNode(c, SignNode(c, inputs, key)) == Ok(())
  {
    SealChecks(c, SigningPayload(inputs), key);
  }

  /** The bytes an id is the hash of. */
  function SealedBytes(payload: string, seal: Seal): string {
    payload + match HexDecode(seal.signature) case None => "" case Some(s) => s
  }

  function Hashed(node: AgentNode): string {
    SealedBytes(SigningPayload(node.body), SealOf(node))
  }

  /** Two different byte strings with one hash. */
  ghost predicate Collide(c: Crypto, x: string, y: string) {
    x != y && c.hash(x) == c.hash(y)
  }

  lemma HexInjective(a: string, b: string)
    requires IsBytes(a) && IsBytes(b) && HexEncode(a) == HexEncode(b)
    ensures a == b
  {
    HexRoundTrip(a);
    HexRoundTrip(b);
  }

  /** The signature has a fixed length, so payload and signature are told apart in what is hashed. */
  lemma SealFixesPayload(c: Crypto, p: string, a: Seal, q: string, b: Seal)
    requires Lawful(c)
    requires CheckSeal(c, p, a).Ok? && CheckSeal(c, q, b).Ok?
    requires !Collide(c, SealedBytes(p, a), SealedBytes(q, b))
    requires a.agentId == b.agentId
    ensures p == q && HexDecode(a.signature) == HexDecode(b.signature)
  {
    var s, t := HexDecode(a.signature).value, HexDecode(b.signature).value;
    HexInjective(c.hash(p + s), c.hash(q + t));
    assert p + s == q + t;
    assert |p| == |q|;
    assert p == (p + s)[..|p|] && q == (q + t)[..|q|];
    assert s == (p + s)[|p|..] && t == (q + t)[|q|..];
  }

  /** Ids determine commits: of two verified nodes with one id every signed field agrees, and so does the signature.
      */
  lemma IdFixesCommit(c: Crypto, a: AgentNode, b: AgentNode)
    requires Lawful(c)
    requires VerifyNode(c, a).Ok? && VerifyNode(c, b).Ok?
    requires !Collide(c, Hashed(a), Hashed(b))
    requires a.agentId == b.agentId
    ensures SameCommit(a.body, b.body)
    ensures HexDecode(a.signature) == HexDecode(b.signature)
  {
    SealFixesPayload(c, SigningPayload(a.body), SealOf(a), SigningPayload(b.body), SealOf(b));
    PayloadExact(a.body, b.body);
  }

  lemma OtherPayloadFails(c: Crypto, p: string, q: string, seal: Seal)
    requires Lawful(c)
    requires CheckSeal(c, p, seal).Ok?
    requires !Collide(c, SealedBytes(p, seal), SealedBytes(q, seal))
    ensures CheckSeal(c, q, seal) == if p == q then Ok(()) else Err(HashMismatch)
  {
    var s := HexDecode(seal.signature).value;
    if AgentIdOf(c, q, s) == seal.agentId {
      HexInjective(c.hash(p + s), c.hash(q + s));
      assert p + s == q + s;
      assert p == (p + s)[..|p|] && q == (q + s)[..|q|];
    }
  }

  /** Tamper evidence: keep a verified node's id, key and signature and change a signed field, and verification
      reports a hash mismatch; change only what the payload does not show, and it still accepts. */
  lemma TamperingShows(c: Crypto, node: AgentNode, tampered: AgentNode)
    requires Lawful(c)
    requires VerifyNode(c, node).Ok?
    requires SealOf(tampered) == SealOf(node)
    requires !Collide(c, Hashed(node), Hashed(tampered))
    ensures VerifyNode(c, tampered) ==
            if SameCommit(node.body, tampered.body) then Ok(()) else Err(HashMismatch)
  {
    PayloadExact(node.body, tampered.body);
    OtherPayloadFails(c, SigningPayload(node.body), SigningPayload(tampered.body), SealOf(node));
  }

  // ---------------------------------------------------------------- the same id means the same history

  /** A ledger, as far as history goes: nodes under their ids, all verified, every parent present. */
  ghost predicate Closed(c: Crypto, ledger: map<string, AgentNode>) {
    && (forall id :: id in ledger ==> ledger[id].agentId == id && VerifyNode(c, ledger[id]).Ok?)
    && (forall id :: id in ledger && ledger[id].body.parentId.Some? ==> ledger[id].body.parentId.value in ledger)
  }

  /** No byte string hashed in one ledger collides with one hashed in the other. */
  ghost predicate NoCollision(c: Crypto, a: map<string, AgentNode>, b: map<string, AgentNode>) {
    forall i, j :: i in a && j in b ==> !Collide(c, Hashed(a[i]), Hashed(b[j]))
  }

  /** One signed record, stored twice. */
  ghost predicate SameRecord(x: AgentNode, y: AgentNode) {
    && x.agentId == y.agentId
    && SameCommit(x.body, y.body)
    && HexDecode(x.signature) == HexDecode(y.signature)
  }

  /** The `n`-th ancestor of `id`; none past a root. */
  function Ancestor(ledger: map<string, AgentNode>, id: string, n: nat): Option<AgentNode>
    decreases n
  {
    if id !in ledger then None
    else if n == 0 then Some(ledger[id])
    else match ledger[id].body.parentId
      case None => None
      case Some(parent) => Ancestor(ledger, parent, n - 1)
  }

  /** The same parent, if any, present in both. */
  ghost predicate SameParent(a: map<string, AgentNode>, b: map<string, AgentNode>, id: string)
    requires id in a && id in b
  {
    && a[id].body.parentId == b[id].body.parentId
    && (a[id].body.parentId.Some? ==> a[id].body.parentId.value in a && a[id].body.parentId.value in b)
  }

  lemma SameIdSameRecord(c: Crypto, a: map<string, AgentNode>, b: map<string, AgentNode>, id: string)
    requires Lawful(c) && Closed(c, a) && Closed(c, b) && NoCollision(c, a, b)
    requires id in a && id in b
    ensures SameRecord(a[id], b[id]) && SameParent(a, b, id)
  {
    IdFixesCommit(c, a[id], b[id]);
  }

  lemma {:induction false} AncestorsMatch(a: map<string, AgentNode>, b: map<string, AgentNode>, id: string, n: nat)
    requires forall i :: i in a && i in b ==> SameParent(a, b, i)
    requires id in a && id in b
    ensures Ancestor(a, id, n).Some? <==> Ancestor(b, id, n).Some?
    ensures Ancestor(a, id, n).Some? ==>
              exists i :: i in a && i in b && Ancestor(a, id, n) == Some(a[i]) && Ancestor(b, id, n) == Some(b[i])
    decreases n
  {
    if n > 0 && a[id].body.parentId.Some? {
      AncestorsMatch(a, b, a[id].body.parentId.value, n - 1);
    }
  }

  /** Two ledgers that share an id share its whole ancestry, generation by generation to the root. */
  lemma SameIdSameHistory(c: Crypto, a: map<string, AgentNode>, b: map<string, AgentNode>, id: string, n: nat)
    requires Lawful(c) && Closed(c, a) && Closed(c, b) && NoCollision(c, a, b)
    requires id in a && id in b
    ensures Ancestor(a, id, n).Some? <==> Ancestor(b, id, n).Some?
    ensures Ancestor(a, id, n).Some? ==> SameRecord(Ancestor(a, id, n).value, Ancestor(b, id, n).value)
  {
    forall i | i in a && i in b ensures SameParent(a, b, i) {
      SameIdSameRecord(c, a, b, i);
    }
    AncestorsMatch(a, b, id, n);
    if Ancestor(a, id, n).Some? {
      var i :| i in a && i in b && Ancestor(a, id, n) == Some(a[i]) && Ancestor(b, id, n) == Some(b[i]);
      SameIdSameRecord(c, a, b, i);
    }
  }

  // ---------------------------------------------------------------- the hasher

  /** `Sha256`: absorbs bytes piece by piece. */
  class Hasher {
    var absorbed: string

    constructor ()
      ensures absorbed == ""
    {
      absorbed := "";
    }

    method Update(bytes: string)
      modifies this
      ensures absorbed == old(absorbed) + bytes
    {
      absorbed := absorbed + bytes;
    }

    method Finalize(c: Crypto) returns (digest: string)
      ensures digest == c.hash(absorbed)
    {
      digest := c.hash(absorbed);
    }
  }

  /** `compute_agent_id`, step by step. */
  method ComputeAgentId(c: Crypto, payload: string, signature: string) returns (id: string)
    ensures id == AgentIdOf(c, payload, signature)
  {
    var hasher := new Hasher();
    hasher.Update(payload);
    hasher.Update(signature);
    var digest := hasher.Finalize(c);
    assert hasher.absorbed == "" + payload + signature == payload + signature;
    id := HexEncode(digest);
  }
}
