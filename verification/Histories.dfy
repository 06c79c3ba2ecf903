/** The parts put together: runs of the crate's own signer, and the histories their ids commit to. */
module Histories {
  import opened Wrappers
  import opened Node
  import opened Ledger
  import opened Graph
  import opened Protocol
  import opened Invariant
  import opened Calls
  import opened Text
  import opened Parents
  import opened Lineages
  import opened Identity
  import opened Payload

  function CrateConfig(c: Crypto, key: string, strict: bool): Config {
    Config(CrateSigner(c), key, strict)
  }

  /** A log as a map from ids to nodes. */
  function AsMap(log: seq<AgentNode>): (m: map<string, AgentNode>)
    ensures forall id :: id in m <==> Stored(log, id)
    ensures forall id :: id in m ==> Find(log, id) == Some(m[id])
  {
    var ids := set n | n in log :: n.agentId;
    assert forall id :: id in ids <==> Stored(log, id) by {
      forall id ensures id in ids <==> Stored(log, id) {
        if id in ids {
          var n :| n in log && n.agentId == id;
          var i :| 0 <= i < |log| && log[i] == n;
          assert log[i].agentId == id;
        }
      }
    }
    map id | id in ids :: Find(log, id).value
  }

  /** Whatever the interleaving, every node the crate stores passes `verify_node`, whoever approved it. */
  lemma StoredNodesVerify(c: Crypto, key: string, strict: bool, run: seq<Event>)
    requires Lawful(c)
    ensures forall n :: n in Run(CrateConfig(c, key, strict), run).ledger.log ==> VerifyNode(c, n) == Ok(())
  {
    CrateSignerGenuine(c);
    var v := CrateConfig(c, key, strict);
    LedgerInvariant(v, run);
    forall n | n in Run(v, run).ledger.log ensures VerifyNode(c, n) == Ok(()) {
      assert v.signer.verify(n) == Ok(());
    }
  }

  /** The node's own signature checks under the node's own key, over the node's own payload, and its id is the hash of
      the two. */
  ghost predicate SignatureChecks(c: Crypto, node: AgentNode) {
    exists key, signature ::
      && HexDecode(node.signerPublicKey) == Some(key) && |key| == 32 && c.isPublicKey(key)
      && HexDecode(node.signature) == Some(signature) && |signature| == 64
      && c.check(key, SigningPayload(node.body), signature)
      && node.agentId == HexEncode(c.hash(SigningPayload(node.body) + signature))
  }

  /** Whatever the interleaving, the Ed25519 signature of every stored node checks. */
  lemma StoredSignaturesCheck(c: Crypto, key: string, strict: bool, run: seq<Event>)
    requires Lawful(c)
    ensures forall n :: n in Run(CrateConfig(c, key, strict), run).ledger.log ==> SignatureChecks(c, n)
  {
    StoredNodesVerify(c, key, strict, run);
    forall n | n in Run(CrateConfig(c, key, strict), run).ledger.log ensures SignatureChecks(c, n) {
      AcceptedChecks(c, n);
    }
  }

  lemma AcceptedChecks(c: Crypto, node: AgentNode)
    requires VerifyNode(c, node) == Ok(())
    ensures SignatureChecks(c, node)
  {
    VerifyExact(c, node);
    var key, signature := KeyBytes(c, node).value, SignatureBytes(node).value;
    assert HexDecode(node.signerPublicKey) == Some(key) && HexDecode(node.signature) == Some(signature);
  }

  /** The public key in a node is the one this key belongs to. */
  predicate ShowsKey(c: Crypto, node: AgentNode, key: string) {
    node.signerPublicKey == HexEncode(c.publicKey(key))
  }

  /** The audit trail names the authority: in every run a stored node shows the runner's public key, but for an
      approved node, which shows that of the approving key in the very call that resumed its pause. */
  lemma SignerIsRecorded(c: Crypto, key: string, strict: bool, run: seq<Event>, i: nat)
    requires Lawful(c)
    requires i < |Run(CrateConfig(c, key, strict), run).made| == |Run(CrateConfig(c, key, strict), run).ledger.log|
    ensures var v := CrateConfig(c, key, strict);
            var node := Run(v, run).ledger.log[i];
            match Run(v, run).made[i]
            case FromApproval(t, p, _, _) =>
              exists at: nat, approval :: ResumedAt(v, run, at, t, p, approval) && ShowsKey(c, node, approval)
            case _ => ShowsKey(c, node, key)
  {
    var v := CrateConfig(c, key, strict);
    CrateSignerGenuine(c);
    SignedBy(v, run, i);
    var node, origin := Run(v, run).ledger.log[i], Run(v, run).made[i];
    if origin.FromApproval? {
      var at: nat, approval :|
        ResumedAt(v, run, at, origin.task, origin.pause, approval) && node == v.signer.sign(node.body, approval);
      CrateShowsKey(c, node.body, approval);
    } else {
      CrateShowsKey(c, node.body, key);
    }
  }

  lemma CrateShowsKey(c: Crypto, inputs: CommitInputs, key: string)
    ensures ShowsKey(c, CrateSigner(c).sign(inputs, key), key)
  {}

  lemma ParentsPresent(v: Config, w: World)
    requires LogOk(v, w) && ParentsKnown(w)
    ensures var m := AsMap(w.ledger.log);
            forall id :: id in m && m[id].body.parentId.Some? ==> m[id].body.parentId.value in m
  {
    var log := w.ledger.log;
    var m := AsMap(log);
    forall id | id in m && m[id].body.parentId.Some? ensures m[id].body.parentId.value in m {
      var i :| 0 <= i < |log| && log[i] == m[id];
      ParentsAreEarlier(v, w, i);
      assert Find(log, log[i].body.parentId.value).Some?;
    }
  }

  /** The log of a disciplined run is a closed history: verified throughout, no parent missing. */
  lemma RunsAreClosed(c: Crypto, key: string, strict: bool, run: seq<Event>)
    requires Lawful(c) && Disciplined(CrateConfig(c, key, strict), run)
    ensures Closed(c, AsMap(Run(CrateConfig(c, key, strict), run).ledger.log))
  {
    var v := CrateConfig(c, key, strict);
    CrateSignerGenuine(c);
    StoredNodesVerify(c, key, strict, run);
    RunKnown(v, run);
    ParentsPresent(v, Run(v, run));
    var m := AsMap(Run(v, run).ledger.log);
    forall id | id in m ensures m[id].agentId == id && VerifyNode(c, m[id]).Ok? {
      assert Find(Run(v, run).ledger.log, id) == Some(m[id]);
    }
  }

  /** Two runs, of different keys and rules, that ever store the same id have stored the same history above it,
      signed field by signed field, all the way to a root: unless two different byte strings that were hashed
      collide. */
  lemma SharedIdSharedHistory(c: Crypto, key: string, strict: bool, run: seq<Event>,
                              key': string, strict': bool, run': seq<Event>, id: string, n: nat)
    requires Lawful(c)
    requires Disciplined(CrateConfig(c, key, strict), run) && Disciplined(CrateConfig(c, key', strict'), run')
    requires NoCollision(c, AsMap(Run(CrateConfig(c, key, strict), run).ledger.log),
                         AsMap(Run(CrateConfig(c, key', strict'), run').ledger.log))
    requires Stored(Run(CrateConfig(c, key, strict), run).ledger.log, id)
    requires Stored(Run(CrateConfig(c, key', strict'), run').ledger.log, id)
    ensures var a := AsMap(Run(CrateConfig(c, key, strict), run).ledger.log);
            var b := AsMap(Run(CrateConfig(c, key', strict'), run').ledger.log);
            && (Ancestor(a, id, n).Some? <==> Ancestor(b, id, n).Some?)
            && (Ancestor(a, id, n).Some? ==> SameRecord(Ancestor(a, id, n).value, Ancestor(b, id, n).value))
  {
    RunsAreClosed(c, key, strict, run);
    RunsAreClosed(c, key', strict', run');
    SameIdSameHistory(c, AsMap(Run(CrateConfig(c, key, strict), run).ledger.log),
                      AsMap(Run(CrateConfig(c, key', strict'), run').ledger.log), id, n);
  }
}
