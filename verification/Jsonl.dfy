/** The file-backed lineage store (src/ledger.rs): one JSON line for each node, replayed on opening. */
module Jsonl {
  import opened Wrappers
  import opened Text
  import opened Json
  import opened Node
  import opened Payload
  import opened Spelling
  import opened Codec
  import Identity
  import opened Ledger

  const LF: char := '\n'
  const CR: char := '\r'

  /** How a node becomes a line, and how a line is read. */
  datatype Format = Format(write: AgentNode -> string, read: string -> Option<AgentNode>)

  /** All the store needs of its format: one non-blank line without control characters for each node, and the node
      back but for what JSON loses. */
  ghost predicate Sound(f: Format) {
    forall n :: NoControl(f.write(n)) && !IsBlank(f.write(n)) && f.read(f.write(n)) == Some(Reloaded(n))
  }

  // ---------------------------------------------------------------- reading lines

  /** Where the first line feed is, or the length. */
  function LineEnd(s: string): (n: nat)
    ensures n <= |s| && (n < |s| ==> s[n] == LF) && LF !in s[..n]
  {
    if s == [] || s[0] == LF then 0
    else
      var n := 1 + LineEnd(s[1..]);
      assert s[..n] == [s[0]] + s[1..][..n - 1];
      n
  }

  /** A line loses its line feed and, before it, one carriage return. */
  function TrimCr(line: string): string {
    if line != [] && line[|line| - 1] == CR then line[..|line| - 1] else line
  }

  /** `BufRead::lines`: the last line may lack its line feed, and then keeps what it has. */
  function Lines(s: string): seq<string>
    decreases |s|
  {
    var n := LineEnd(s);
    if s == [] then []
    else if n == |s| then [s]
    else [TrimCr(s[..n])] + Lines(s[n + 1..])
  }

  predicate IsSpace(c: char) {
    c as int == 32 || 9 <= c as int <= 13
  }

  predicate IsBlank(line: string) {
    forall c :: c in line ==> IsSpace(c)
  }

  /** A line is blank exactly when `trim` leaves nothing of it: character by character it is white space, as far as
      that is ASCII. */
  lemma BlankExact(line: string, c: char)
    ensures IsBlank("")
    ensures IsBlank(line + [c]) <==> IsBlank(line) && c as int in {9, 10, 11, 12, 13, 32}
  {
    var longer := line + [c];
    if IsBlank(longer) {
      assert longer[|line|] == c && c in longer;
      assert forall x :: x in line ==> x in longer;
    }
  }

  /** A line is what comes before a line feed, less one carriage return at its end; what follows the last line feed
      is a line as it stands, unless it is empty. */
  lemma LinesExact(line: string, rest: string)
    requires LF !in line
    ensures Lines(line + [LF] + rest) == [TrimCr(line)] + Lines(rest)
    ensures Lines(line) == if line == "" then [] else [line]
    ensures TrimCr(line + [CR]) == line
    ensures line == "" || line[|line| - 1] != CR ==> TrimCr(line) == line
  {
    var s := line + [LF] + rest;
    NoFeedNoEnd(line, rest);
    assert s[..|line|] == line && s[|line| + 1..] == rest;
  }

  // ---------------------------------------------------------------- replaying

  /** The fields `open` fills. */
  datatype Inner = Inner(nodes: map<string, AgentNode>, order: seq<string>, head: Option<string>)

  const FRESH: Inner := Inner(map[], [], None)

  /** `open` does not check for repeated ids: the order then lists the id twice, the map keeps the last node. */
  function Absorb(s: Inner, n: AgentNode): Inner {
    Inner(
      s.nodes[n.agentId := n],
      s.order + [n.agentId],
      if n.body.status == Promoted then Some(n.agentId) else s.head)
  }

  /** Replaying lines one by one; none when a line does not parse. */
  function ReplayFrom(f: Format, s: Inner, lines: seq<string>): Option<Inner>
    decreases |lines|
  {
    if lines == [] then Some(s)
    else if IsBlank(lines[0]) then ReplayFrom(f, s, lines[1..])
    else match f.read(lines[0])
      case None => None
      case Some(n) => ReplayFrom(f, Absorb(s, n), lines[1..])
  }

  function Replay(f: Format, file: string): Option<Inner> {
    ReplayFrom(f, FRESH, Lines(file))
  }

  /** The nodes that lines parse to, blank lines apart; none when a line does not parse. */
  function NodesOf(f: Format, lines: seq<string>): Option<seq<AgentNode>>
    decreases |lines|
  {
    if lines == [] then Some([])
    else if IsBlank(lines[0]) then NodesOf(f, lines[1..])
    else
      match f.read(lines[0])
      case None => None
      case Some(n) =>
        match NodesOf(f, lines[1..])
        case None => None
        case Some(rest) => Some([n] + rest)
  }

  /** A blank line anywhere in a file changes nothing. */
  lemma {:induction false} BlankLinesSkipped(f: Format, before: seq<string>, blank: string, after: seq<string>)
    requires IsBlank(blank)
    ensures NodesOf(f, before + [blank] + after) == NodesOf(f, before + after)
    decreases |before|
  {
    var lines := before + [blank] + after;
    if before == [] {
      assert lines[1..] == after && before + after == after;
    } else {
      BlankLinesSkipped(f, before[1..], blank, after);
      assert lines[0] == before[0] && lines[1..] == before[1..] + [blank] + after;
      assert (before + after)[0] == before[0] && (before + after)[1..] == before[1..] + after;
    }
  }

  /** A line that is not blank and does not parse stops the replay, wherever it stands. */
  lemma {:induction false} BadLineStops(f: Format, before: seq<string>, bad: string, after: seq<string>)
    requires !IsBlank(bad) && f.read(bad) == None
    ensures NodesOf(f, before + [bad] + after) == None
    decreases |before|
  {
    var lines := before + [bad] + after;
    if before == [] {
      assert lines[0] == bad;
    } else {
      BadLineStops(f, before[1..], bad, after);
      assert lines[0] == before[0] && lines[1..] == before[1..] + [bad] + after;
    }
  }

  function AbsorbAll(s: Inner, nodes: seq<AgentNode>): Inner {
    if nodes == [] then s else Absorb(AbsorbAll(s, nodes[..|nodes| - 1]), nodes[|nodes| - 1])
  }

  lemma {:induction false} AbsorbAllFirst(s: Inner, nodes: seq<AgentNode>)
    requires nodes != []
    ensures AbsorbAll(s, nodes) == AbsorbAll(Absorb(s, nodes[0]), nodes[1..])
  {
    var last := |nodes| - 1;
    if last == 0 {
      assert nodes[..last] == [] && nodes[1..] == [];
    } else {
      AbsorbAllFirst(s, nodes[..last]);
      assert nodes[..last][1..] == nodes[1..][..last - 1];
    }
  }

  /** Replaying absorbs the nodes of the lines, in their order. */
  lemma {:induction false} ReplayAbsorbs(f: Format, s: Inner, lines: seq<string>)
    ensures ReplayFrom(f, s, lines) ==
            match NodesOf(f, lines) case None => None case Some(nodes) => Some(AbsorbAll(s, nodes))
    decreases |lines|
  {
    if lines == [] {
    } else if IsBlank(lines[0]) {
      ReplayAbsorbs(f, s, lines[1..]);
    } else if f.read(lines[0]).Some? {
      var n := f.read(lines[0]).value;
      ReplayAbsorbs(f, Absorb(s, n), lines[1..]);
      if NodesOf(f, lines[1..]).Some? {
        AbsorbAllFirst(s, [n] + NodesOf(f, lines[1..]).value);
      }
    }
  }

  function Ids(log: seq<AgentNode>): (ids: seq<string>)
    ensures |ids| == |log| && forall i :: 0 <= i < |log| ==> ids[i] == log[i].agentId
  {
    seq(|log|, i requires 0 <= i < |log| => log[i].agentId)
  }

  /** The id of the last Promoted node, else `head`. */
  function LastPromoted(log: seq<AgentNode>, head: Option<string>): Option<string> {
    if log == [] then head
    else if log[|log| - 1].body.status == Promoted then Some(log[|log| - 1].agentId)
    else LastPromoted(log[..|log| - 1], head)
  }

  /** No later node has the id of node `i`. */
  ghost predicate LastOfId(nodes: seq<AgentNode>, i: nat)
    requires i < |nodes|
  {
    forall j :: i < j < |nodes| ==> nodes[j].agentId != nodes[i].agentId
  }

  /** What a store holds that was opened on a file of these nodes. */
  ghost predicate Opened(r: Inner, nodes: seq<AgentNode>) {
    && r.order == Ids(nodes)
    && Matching(r.nodes, r.order, r.head)
    && r.head == LastPromoted(nodes, None)
    && forall i :: 0 <= i < |nodes| && LastOfId(nodes, i) ==>
         nodes[i].agentId in r.nodes && r.nodes[nodes[i].agentId] == nodes[i]
  }

  lemma LastOfIdBefore(nodes: seq<AgentNode>, n: AgentNode, i: nat)
    requires i < |nodes| && LastOfId(nodes + [n], i)
    ensures n.agentId != nodes[i].agentId && LastOfId(nodes, i)
  {
    var longer := nodes + [n];
    assert longer[|nodes|].agentId != longer[i].agentId;
    assert forall j :: i < j < |nodes| ==> longer[j] == nodes[j];
  }

  lemma AbsorbedNodes(r: Inner, nodes: seq<AgentNode>, n: AgentNode, i: nat)
    requires Opened(r, nodes)
    requires i <= |nodes| && LastOfId(nodes + [n], i)
    ensures var m := (nodes + [n])[i];
            m.agentId in Absorb(r, n).nodes && Absorb(r, n).nodes[m.agentId] == m
  {
    if i < |nodes| {
      LastOfIdBefore(nodes, n, i);
    }
  }

  lemma AbsorbedOrder(r: Inner, nodes: seq<AgentNode>, n: AgentNode)
    requires Opened(r, nodes)
    ensures var r' := Absorb(r, n); r'.order == Ids(nodes + [n]) && Matching(r'.nodes, r'.order, r'.head)
    ensures Absorb(r, n).head == LastPromoted(nodes + [n], None)
  {
    assert Ids(nodes + [n]) == Ids(nodes) + [n.agentId];
    assert (nodes + [n])[..|nodes|] == nodes;
  }

  lemma AbsorbOne(r: Inner, nodes: seq<AgentNode>, n: AgentNode)
    requires Opened(r, nodes)
    ensures Opened(Absorb(r, n), nodes + [n])
  {
    AbsorbedOrder(r, nodes, n);
    forall i | 0 <= i < |nodes + [n]| && LastOfId(nodes + [n], i)
      ensures var m := (nodes + [n])[i]; m.agentId in Absorb(r, n).nodes && Absorb(r, n).nodes[m.agentId] == m
    {
      AbsorbedNodes(r, nodes, n, i);
    }
  }

  lemma FrontAndLast(nodes: seq<AgentNode>)
    requires nodes != []
    ensures nodes[..|nodes| - 1] + [nodes[|nodes| - 1]] == nodes
  {}

  lemma {:induction false} AbsorbedExact(nodes: seq<AgentNode>)
    ensures Opened(AbsorbAll(FRESH, nodes), nodes)
  {
    if nodes == [] {
    } else {
      var front, last := nodes[..|nodes| - 1], nodes[|nodes| - 1];
      AbsorbedExact(front);
      AbsorbOne(AbsorbAll(FRESH, front), front, last);
      FrontAndLast(nodes);
    }
  }

  /** Lines with one id hold one node. */
  ghost predicate OneNodePerId(nodes: seq<AgentNode>) {
    forall i, j :: 0 <= i < j < |nodes| && nodes[i].agentId == nodes[j].agentId ==> nodes[i] == nodes[j]
  }

  lemma {:induction false} LastOfIdFrom(nodes: seq<AgentNode>, i: nat) returns (j: nat)
    requires i < |nodes|
    ensures i <= j < |nodes| && nodes[j].agentId == nodes[i].agentId && LastOfId(nodes, j)
    decreases |nodes| - i
  {
    if LastOfId(nodes, i) {
      j := i;
    } else {
      var k: nat :| i < k < |nodes| && nodes[k].agentId == nodes[i].agentId;
      j := LastOfIdFrom(nodes, k);
    }
  }

  lemma OpenedAgrees(r: Inner, nodes: seq<AgentNode>, i: nat)
    requires Opened(r, nodes) && OneNodePerId(nodes) && i < |nodes|
    ensures InOrder(r.nodes, r.order)[i] == nodes[i]
  {
    var j := LastOfIdFrom(nodes, i);
    assert nodes[i] == nodes[j];
  }

  lemma OpenedInOrder(r: Inner, nodes: seq<AgentNode>)
    requires Opened(r, nodes)
    ensures InOrder(r.nodes, r.order) == nodes <==> OneNodePerId(nodes)
  {
    var log := InOrder(r.nodes, r.order);
    if OneNodePerId(nodes) {
      forall i | 0 <= i < |nodes| ensures log[i] == nodes[i] {
        OpenedAgrees(r, nodes, i);
      }
    } else {
      var i, j :| 0 <= i < j < |nodes| && nodes[i].agentId == nodes[j].agentId && nodes[i] != nodes[j];
      OpenedRepeats(r, nodes, i, j);
    }
  }

  lemma OpenedRepeats(r: Inner, nodes: seq<AgentNode>, i: nat, j: nat)
    requires Opened(r, nodes) && i < |nodes| && j < |nodes| && nodes[i].agentId == nodes[j].agentId
    ensures InOrder(r.nodes, r.order)[i] == InOrder(r.nodes, r.order)[j]
  {}

  /** What `open` makes of any file: it fails exactly when a line does not parse. Otherwise the order lists the id
      of every line, the map holds the last line of each id, the head is the last promotion. Ids are listed once
      exactly when no id is repeated, and the store shows every line's node exactly when repeated ids repeat the
      node. */
  lemma OpenExact(f: Format, file: string)
    ensures match NodesOf(f, Lines(file))
            case None => Replay(f, file) == None
            case Some(nodes) =>
              && Replay(f, file).Some?
              && var r := Replay(f, file).value;
                 && Opened(r, nodes)
                 && (Distinct(r.order) <==> UniqueIds(nodes))
                 && (InOrder(r.nodes, r.order) == nodes <==> OneNodePerId(nodes))
  {
    ReplayAbsorbs(f, FRESH, Lines(file));
    if NodesOf(f, Lines(file)).Some? {
      var nodes := NodesOf(f, Lines(file)).value;
      AbsorbedExact(nodes);
      OpenedInOrder(AbsorbAll(FRESH, nodes), nodes);
    }
  }

  // ---------------------------------------------------------------- written lines are read as they were

  lemma {:induction false} NoFeedNoEnd(line: string, rest: string)
    requires LF !in line
    ensures LineEnd(line + [LF] + rest) == |line|
  {
    var s := line + [LF] + rest;
    if line == [] {
      assert s[0] == LF;
    } else {
      NoFeedNoEnd(line[1..], rest);
      assert s[1..] == line[1..] + [LF] + rest;
      assert s[0] == line[0] && line[0] in line;
    }
  }

  /** A line without control characters that is written with a line feed is read as that line. */
  lemma LinesHead(line: string, rest: string)
    requires NoControl(line)
    ensures Lines(line + [LF] + rest) == [line] + Lines(rest)
  {
    var s := line + [LF] + rest;
    NoFeedNoEnd(line, rest);
    assert s[..|line|] == line && s[|line| + 1..] == rest;
    if line != [] {
      assert line[|line| - 1] in line;
    }
  }

  /** A file of whole lines. */
  function FileText(lines: seq<string>): string {
    if lines == [] then "" else lines[0] + [LF] + FileText(lines[1..])
  }

  lemma Regroup(a: string, b: string, c: string, d: string)
    ensures a + b + (c + d + b) == (a + b + c) + d + b
  {}

  lemma {:induction false} FileTextGrows(lines: seq<string>, line: string)
    ensures FileText(lines + [line]) == FileText(lines) + line + [LF]
  {
    if lines == [] {
      assert lines + [line] == [line];
      assert FileText([line][1..]) == "";
    } else {
      FileTextGrows(lines[1..], line);
      Regroup(lines[0], [LF], FileText(lines[1..]), line);
      assert (lines + [line])[1..] == lines[1..] + [line];
    }
  }

  lemma {:induction false} LinesOfText(lines: seq<string>)
    requires forall l :: l in lines ==> NoControl(l)
    ensures Lines(FileText(lines)) == lines
  {
    if lines == [] {
    } else {
      LinesHead(lines[0], FileText(lines[1..]));
      LinesOfText(lines[1..]);
    }
  }

  function Written(f: Format, log: seq<AgentNode>): (lines: seq<string>)
    ensures |lines| == |log| && forall i :: 0 <= i < |log| ==> lines[i] == f.write(log[i])
  {
    seq(|log|, i requires 0 <= i < |log| => f.write(log[i]))
  }

  // ---------------------------------------------------------------- what replaying a written file gives

  function ReloadedAll(log: seq<AgentNode>): (nodes: seq<AgentNode>)
    ensures |nodes| == |log| && forall i :: 0 <= i < |log| ==> nodes[i] == Reloaded(log[i])
  {
    seq(|log|, i requires 0 <= i < |log| => Reloaded(log[i]))
  }

  lemma {:induction false} WrittenParses(f: Format, log: seq<AgentNode>)
    requires Sound(f)
    ensures NodesOf(f, Written(f, log)) == Some(ReloadedAll(log))
    decreases |log|
  {
    if log == [] {
    } else {
      assert Written(f, log)[1..] == Written(f, log[1..]);
      WrittenParses(f, log[1..]);
      assert ReloadedAll(log) == [Reloaded(log[0])] + ReloadedAll(log[1..]);
    }
  }

  lemma WrittenLines(f: Format, log: seq<AgentNode>)
    requires Sound(f)
    ensures NodesOf(f, Lines(FileText(Written(f, log)))) == Some(ReloadedAll(log))
  {
    LinesOfText(Written(f, log));
    WrittenParses(f, log);
  }

  lemma OpenedTwice(f: Format, file: string, nodes: seq<AgentNode>)
    requires |nodes| == 2 && nodes[0].agentId == nodes[1].agentId && NodesOf(f, Lines(file)) == Some(nodes)
    ensures var r := Replay(f, file);
            && r.Some?
            && r.value.order == [nodes[0].agentId, nodes[0].agentId] && !Distinct(r.value.order)
            && nodes[0].agentId in r.value.nodes
            && InOrder(r.value.nodes, r.value.order) == [nodes[1], nodes[1]]
  {
    OpenExact(f, file);
    assert LastOfId(nodes, 1);
    assert !UniqueIds(nodes);
  }

  /** A file with one id on two lines opens: the order lists the id twice, and the later node stands in both places.
      */
  lemma RepeatedIdOpens(f: Format, log: seq<AgentNode>)
    requires Sound(f) && |log| == 2 && log[0].agentId == log[1].agentId
    ensures var r := Replay(f, FileText(Written(f, log)));
            && r.Some?
            && r.value.order == [log[0].agentId, log[0].agentId] && !Distinct(r.value.order)
            && log[0].agentId in r.value.nodes
            && InOrder(r.value.nodes, r.value.order) == [Reloaded(log[1]), Reloaded(log[1])]
  {
    WrittenLines(f, log);
    OpenedTwice(f, FileText(Written(f, log)), ReloadedAll(log));
  }

  /** `r` is what replaying `log` should give. */
  ghost predicate Rebuilt(r: Inner, log: seq<AgentNode>) {
    && r.order == Ids(log)
    && (forall id :: id in r.nodes <==> id in Ids(log))
    && (forall i :: 0 <= i < |log| ==> log[i].agentId in r.nodes && r.nodes[log[i].agentId] == Reloaded(log[i]))
    && r.head == LastPromoted(log, None)
  }

  lemma {:induction false} LastPromotedReloaded(log: seq<AgentNode>)
    ensures LastPromoted(ReloadedAll(log), None) == LastPromoted(log, None)
  {
    if log == [] {
    } else {
      var last := |log| - 1;
      assert ReloadedAll(log)[..last] == ReloadedAll(log[..last]);
      LastPromotedReloaded(log[..last]);
    }
  }

  lemma OpenedRebuilt(r: Inner, log: seq<AgentNode>)
    requires UniqueIds(log) && Opened(r, ReloadedAll(log))
    ensures Rebuilt(r, log)
  {
    var nodes := ReloadedAll(log);
    assert Ids(nodes) == Ids(log);
    LastPromotedReloaded(log);
    forall i | 0 <= i < |log| ensures log[i].agentId in r.nodes && r.nodes[log[i].agentId] == Reloaded(log[i]) {
      assert LastOfId(nodes, i);
    }
  }

  // ---------------------------------------------------------------- a store over its whole life

  datatype Op = Append(node: AgentNode) | SetHead(id: string)

  /** One call; a call that fails changes nothing. */
  function Call(s: Lineage, op: Op): Lineage {
    match op
    case Append(node) => (match AppendNode(s, node) case Ok(t) => t case Err(_) => s)
    case SetHead(id) => (match MoveHead(s, id) case Ok(t) => t case Err(_) => s)
  }

  /** The store after `ops`, from an empty one. */
  function Life(ops: seq<Op>): Lineage {
    if ops == [] then EMPTY else Call(Life(ops[..|ops| - 1]), ops[|ops| - 1])
  }

  /** The file after `ops`, from an empty one: an append that succeeds writes a line, a head move writes nothing. */
  function FileAfter(f: Format, ops: seq<Op>): string {
    if ops == [] then ""
    else
      var before, file := Life(ops[..|ops| - 1]), FileAfter(f, ops[..|ops| - 1]);
      match ops[|ops| - 1]
      case Append(node) => if AppendNode(before, node).Ok? then file + f.write(node) + [LF] else file
      case SetHead(_) => file
  }

  /** Where head moves since the last successful append of a Promoted node have left the head, if there were any. */
  function MovedSince(ops: seq<Op>): Option<string> {
    if ops == [] then None
    else
      var before, earlier := Life(ops[..|ops| - 1]), MovedSince(ops[..|ops| - 1]);
      match ops[|ops| - 1]
      case Append(node) => if AppendNode(before, node).Ok? && node.body.status == Promoted then None else earlier
      case SetHead(id) => if MoveHead(before, id).Ok? then Some(id) else earlier
  }

  lemma {:induction false} LifeKeepsIds(ops: seq<Op>)
    ensures UniqueIds(Life(ops).log)
  {
    if ops == [] {
    } else {
      LifeKeepsIds(ops[..|ops| - 1]);
    }
  }

  lemma {:induction false} LifeKeepsFile(f: Format, ops: seq<Op>)
    ensures FileAfter(f, ops) == FileText(Written(f, Life(ops).log))
  {
    if ops == [] {
    } else {
      LifeKeepsFile(f, ops[..|ops| - 1]);
      var before := Life(ops[..|ops| - 1]);
      match ops[|ops| - 1]
      case Append(node) =>
        if AppendNode(before, node).Ok? {
          FileTextGrows(Written(f, before.log), f.write(node));
          assert Written(f, before.log + [node]) == Written(f, before.log) + [f.write(node)];
        }
      case SetHead(_) =>
    }
  }

  /** The live head: the last head move since the last promotion, or that promotion. */
  lemma {:induction false} LiveHead(ops: seq<Op>)
    ensures Life(ops).head == if MovedSince(ops).Some? then MovedSince(ops) else LastPromoted(Life(ops).log, None)
  {
    if ops == [] {
    } else {
      LiveHead(ops[..|ops| - 1]);
      var before := Life(ops[..|ops| - 1]);
      match ops[|ops| - 1]
      case Append(node) =>
        assert (before.log + [node])[..|before.log|] == before.log;
      case SetHead(_) =>
    }
  }

  /** Opening the file of any life rebuilds the insertion order and, up to what JSON loses, every node; the head it
      finds is the last promotion, which is the live head exactly unless a later head move left it elsewhere. */
  lemma ReplayRebuilds(f: Format, ops: seq<Op>)
    requires Sound(f)
    ensures Replay(f, FileAfter(f, ops)).Some?
    ensures var r, live := Replay(f, FileAfter(f, ops)).value, Life(ops);
            && Rebuilt(r, live.log)
            && Matching(r.nodes, r.order, r.head) && Distinct(r.order)
            && (r.head == live.head <==> MovedSince(ops).None? || MovedSince(ops) == r.head)
  {
    LifeKeepsIds(ops);
    LifeKeepsFile(f, ops);
    LiveHead(ops);
    WrittenLines(f, Life(ops).log);
    OpenExact(f, FileAfter(f, ops));
    OpenedRebuilt(Replay(f, FileAfter(f, ops)).value, Life(ops).log);
  }

  /** A store of storable nodes is rebuilt exactly. */
  lemma ReplayExact(f: Format, ops: seq<Op>)
    requires Sound(f)
    requires forall n :: n in Life(ops).log ==> Storable(n)
    ensures Replay(f, FileAfter(f, ops)).Some?
    ensures var r := Replay(f, FileAfter(f, ops)).value;
            Matching(r.nodes, r.order, r.head) && InOrder(r.nodes, r.order) == Life(ops).log
  {
    ReplayRebuilds(f, ops);
    var r, log := Replay(f, FileAfter(f, ops)).value, Life(ops).log;
    forall i | 0 <= i < |log| ensures InOrder(r.nodes, r.order)[i] == log[i] {
      ReloadedExact(log[i]);
    }
  }

  // ---------------------------------------------------------------- JSON lines

  /** `serde_json::to_string`. */
  function Line(n: AgentNode): string {
    Print(NodeToJson(n))
  }

  /** `serde_json::from_str::<AgentNode>`, on the compact text `serde_json` writes. */
  function ReadLine(line: string): Option<AgentNode> {
    match ParseValue(line)
    case None => None
    case Some(p) => if p.rest != "" || !UniqueKeys(p.value) then None else NodeFromJson(p.value)
  }

  const JSON_LINES: Format := Format(Line, ReadLine)

  /** A printed object is read as a node exactly when its keys are unique and its fields are a node's; any text
      behind it makes the line fail. */
  lemma ReadLinePrinted(v: Raw, extra: string)
    requires Delimited(extra)
    ensures extra == "" ==> ReadLine(Print(v) + extra) == if UniqueKeys(v) then NodeFromJson(v) else None
    ensures extra != "" ==> ReadLine(Print(v) + extra) == None
  {
    ParsePrint(v, extra);
  }

  /** A line that reads as a node is the text of a JSON object with unique keys whose fields are that node's. Any
      other line makes `open` fail. */
  lemma LineIsJson(line: string) returns (v: Value)
    requires ReadLine(line).Some?
    ensures Spells(line, v) && NodeFromJson(v) == ReadLine(line)
  {
    var t := ValueSpelled(line);
    v := ParseValue(line).value.value;
    assert line == t;
  }

  lemma LineShape(n: AgentNode)
    ensures NoControl(Line(n)) && !IsBlank(Line(n))
  {
    PrintNoControl(NodeToJson(n));
    assert Line(n)[0] == '{' && Line(n)[0] in Line(n);
  }

  lemma LineReads(n: AgentNode)
    ensures ReadLine(Line(n)) == Some(Reloaded(n))
  {
    ParsePrint(NodeToJson(n), "");
    assert Line(n) + "" == Line(n);
    NodeRoundTrip(n);
  }

  /** Every node, whatever its strings hold, is one line, and reads back. */
  lemma JsonLinesSound()
    ensures Sound(JSON_LINES)
  {
    forall n: AgentNode
      ensures NoControl(JSON_LINES.write(n)) && !IsBlank(JSON_LINES.write(n))
      ensures JSON_LINES.read(JSON_LINES.write(n)) == Some(Reloaded(n))
    {
      LineShape(n);
      LineReads(n);
    }
  }

  /** What reloading loses, no signature covers: a node verifies after reloading just when it did before. */
  lemma ReloadedVerifies(c: Identity.Crypto, n: AgentNode)
    ensures Identity.VerifyNode(c, Reloaded(n)) == Identity.VerifyNode(c, n)
  {
    ReloadedSameCommit(n);
    PayloadExact(n.body, Reloaded(n).body);
  }

  // ---------------------------------------------------------------- the store itself

  /** `JsonlLineage`, its file as the bytes it holds. */
  class JsonlLineage {
    const format: Format
    var file: string
    var nodes: map<string, AgentNode>
    var insertionOrder: seq<string>
    var head: Option<string>

    ghost predicate Valid()
      reads this
    {
      Matching(nodes, insertionOrder, head)
    }

    ghost function State(): Lineage
      reads this
      requires Valid()
    {
      Lineage(InOrder(nodes, insertionOrder), head)
    }

    constructor (format: Format, file: string, inner: Inner)
      requires Matching(inner.nodes, inner.order, inner.head)
      ensures this.format == format && this.file == file
      ensures nodes == inner.nodes && insertionOrder == inner.order && head == inner.head
    {
      this.format := format;
      this.file := file;
      nodes, insertionOrder, head := inner.nodes, inner.order, inner.head;
    }

    /** `open` on existing contents: replays them line by line and gives up at the first line that does not parse. */
    static method Open(format: Format, file: string) returns (r: Result<JsonlLineage>)
      ensures match Replay(format, file)
              case None => r == Err(Error.Json)
              case Some(inner) =>
                && r.Ok? && fresh(r.value) && r.value.Valid()
                && r.value.format == format && r.value.file == file && r.value.nodes == inner.nodes
                && r.value.insertionOrder == inner.order && r.value.head == inner.head
    {
      var nodes: map<string, AgentNode>, order: seq<string>, head: Option<string> := map[], [], None;
      var lines := Lines(file);
      for i := 0 to |lines|
        invariant Matching(nodes, order, head)
        invariant Replay(format, file) == ReplayFrom(format, Inner(nodes, order, head), lines[i..])
      {
        var line := lines[i];
        assert lines[i..][1..] == lines[i + 1..];
        if IsBlank(line) {
          continue;
        }
        var parsed := format.read(line);
        if parsed == None {
          return Err(Error.Json);
        }
        var node := parsed.value;
        order := order + [node.agentId];
        if node.body.status == Promoted {
          head := Some(node.agentId);
        }
        nodes := nodes[node.agentId := node];
      }
      var store := new JsonlLineage(format, file, Inner(nodes, order, head));
      r := Ok(store);
    }

    method Append(node: AgentNode) returns (r: Result<()>)
      requires Valid()
      modifies this
      ensures Valid()
      ensures match AppendNode(old(State()), node)
              case Ok(s) => r == Ok(()) && State() == s && file == old(file) + format.write(node) + [LF]
              case Err(e) => r == Err(e) && unchanged(this)
    {
      var serialised := format.write(node);
      var id := node.agentId;
      FindInMap(nodes, insertionOrder, head, id);
      if id in nodes {
        return Err(LedgerError);
      }
      Extended(nodes, insertionOrder, head, node);
      file := file + serialised + [LF];
      insertionOrder := insertionOrder + [id];
      nodes := nodes[id := node];
      if node.body.status == Promoted {
        head := Some(id);
      }
      r := Ok(());
    }

    method SetHead(id: string) returns (r: Result<()>)
      requires Valid()
      modifies this`head
      ensures Valid() && file == old(file)
      ensures match MoveHead(old(State()), id)
              case Ok(s) => r == Ok(()) && State() == s
              case Err(e) => r == Err(e) && unchanged(this)
    {
      FindInMap(nodes, insertionOrder, head, id);
      if id !in nodes {
        return Err(NotFound(id));
      }
      head := Some(id);
      r := Ok(());
    }
  }
}
