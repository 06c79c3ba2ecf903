/** No call is lost and none counts twice: how cycles, pauses and resumptions end, over every interleaving. */
module Conservation {
  import opened Wrappers
  import opened Node
  import opened Ledger
  import opened Graph
  import opened Selector
  import opened Protocol
  import opened Invariant

  // ---------------------------------------------------------------- which steps change what

  /** Only appends change the log, by one node at the end; only appends and head moves change the head. */
  lemma QuietSteps(v: Config, w: World, e: Event)
    ensures var s, s' := w.ledger, Step(v, w, e).ledger;
            && (!e.DoAppend? ==> s'.log == s.log)
            && (!e.DoAppend? && !e.DoMove? ==> s'.head == s.head)
            && (e.DoAppend? ==> s' == s || exists n :: s'.log == s.log + [n])
  {
    if e.DoAppend? && At(w, e.task) && w.tasks[e.task].Committing? {
      var n := w.tasks[e.task].node;
      assert AppendNode(w.ledger, n).Ok? ==> AppendNode(w.ledger, n).value.log == w.ledger.log + [n];
    }
  }

  /** Call `u` is where it was. */
  ghost predicate Untouched(w: World, w': World, u: nat) {
    && (u in w'.tasks <==> u in w.tasks) && (u in w.tasks ==> w'.tasks[u] == w.tasks[u])
    && (u in w'.done <==> u in w.done) && (u in w.done ==> w'.done[u] == w.done[u])
  }

  lemma CallsAreLocal(v: Config, w: World, e: Event, u: nat)
    requires u != e.task
    requires e.CallRoot? || e.CallCycle? || e.CallResume?
    ensures Untouched(w, Act(v, w, e), u)
  {}

  lemma GuardedCallsAreLocal(v: Config, w: World, e: Event, u: nat)
    requires u != e.task
    requires e.CallRollback? || e.CallMove? || e.CallGeneration?
    ensures Untouched(w, Act(v, w, e), u)
  {}

  lemma GateIsLocal(v: Config, w: World, t: nat, task: Task, diff: string, eval: Option<EvalResult>, u: nat)
    requires u != t && task.Cycling?
    ensures Untouched(w, Evaluated(v, w, t, task, diff, eval), u)
  {}

  lemma ReadsAreLocal(v: Config, w: World, e: Event, u: nat)
    requires u != e.task
    requires e.ReadHead? || e.ReadParent? || e.ReadSelected?
    ensures Untouched(w, Act(v, w, e), u)
  {}

  lemma ChangesAreLocal(v: Config, w: World, e: Event, u: nat)
    requires u != e.task
    requires e.DoAppend? || e.DoMove?
    ensures Untouched(w, Act(v, w, e), u)
  {}

  /** A step of one call leaves every other call as it was. */
  lemma StepsAreLocal(v: Config, w: World, e: Event, u: nat)
    requires u != e.task
    ensures Untouched(w, Act(v, w, e), u)
  {
    match e
    case Gate(t, diff, eval) =>
      if At(w, t) && w.tasks[t].Cycling? {
        GateIsLocal(v, w, t, w.tasks[t], diff, eval, u);
      }
    case DoAppend(_) => ChangesAreLocal(v, w, e, u);
    case DoMove(_) => ChangesAreLocal(v, w, e, u);
    case ReadHead(_) => ReadsAreLocal(v, w, e, u);
    case ReadParent(_) => ReadsAreLocal(v, w, e, u);
    case ReadSelected(_, _, _, _, _) => ReadsAreLocal(v, w, e, u);
    case CallRollback(_, _, _) => GuardedCallsAreLocal(v, w, e, u);
    case CallMove(_, _) => GuardedCallsAreLocal(v, w, e, u);
    case CallGeneration(_, _) => GuardedCallsAreLocal(v, w, e, u);
    case _ => CallsAreLocal(v, w, e, u);
  }

  // ---------------------------------------------------------------- cycles

  /** What a gate step brings: the diff and, unless it failed, the evaluation. */
  datatype Answer = Answer(diff: string, eval: Option<EvalResult>)

  /** In `w`, event `e` is the gate step that cycle `t` is waiting for. */
  predicate Answers(w: World, e: Event, t: nat) {
    e.Gate? && e.task == t && At(w, t) && w.tasks[t].Cycling?
  }

  function NextAnswer(answer: Option<Answer>, w: World, e: Event, t: nat): Option<Answer> {
    if Answers(w, e, t) then Some(Answer(e.diff, e.eval)) else answer
  }

  /** What the gate step of cycle `t` brought, once it was taken. */
  function GateAnswer(v: Config, run: seq<Event>, t: nat): Option<Answer> {
    if run == [] then None
    else
      var before := run[..|run| - 1];
      NextAnswer(GateAnswer(v, before, t), Run(v, before), run[|run| - 1], t)
  }

  /** The answer is that of one event of the run, taken while the cycle was waiting for it. */
  lemma {:induction false} AnswerIsEvent(v: Config, run: seq<Event>, t: nat) returns (k: nat)
    requires GateAnswer(v, run, t).Some?
    ensures k < |run| && Answers(Run(v, run[..k]), run[k], t)
    ensures var answer := GateAnswer(v, run, t).value; run[k] == Gate(t, answer.diff, answer.eval)
  {
    var before := run[..|run| - 1];
    if Answers(Run(v, before), run[|run| - 1], t) {
      k := |run| - 1;
    } else {
      k := AnswerIsEvent(v, before, t);
      assert before[..k] == run[..k];
    }
  }

  /** The node a verdict signs; none for a pause. */
  function SignedNode(v: Config, verdict: Verdict): Option<AgentNode> {
    match verdict
    case Promoting(commit) => Some(v.signer.sign(commit, v.key))
    case Rejecting(commit) => Some(v.signer.sign(commit, v.key))
    case Pausing(_) => None
  }

  /** The answer came with an evaluation. */
  predicate Evaluation(answer: Option<Answer>) {
    answer.Some? && answer.value.eval.Some?
  }

  function VerdictOn(v: Config, inputs: CycleInputs, answer: Option<Answer>): Verdict
    requires Evaluation(answer)
  {
    Judge(v, inputs, answer.value.diff, answer.value.eval.value)
  }

  /** The evaluator failed, or the node its answer led to was refused for an id already stored. */
  ghost predicate Failure(v: Config, log: seq<AgentNode>, inputs: CycleInputs, answer: Option<Answer>) {
    && answer.Some?
    && (Evaluation(answer) ==>
          var node := SignedNode(v, VerdictOn(v, inputs, answer)); node.Some? && Stored(log, node.value.agentId))
  }

  /** Call `t`, a cycle with these inputs, is under way, or ended in exactly one way: one append of the very node
      that the gate step's answer led to; one pause, as that answer led to; or an error for a reason, with nothing
      in the log. */
  ghost predicate CycleState(v: Config, w: World, t: nat, inputs: CycleInputs, answer: Option<Answer>) {
    || (&& t in w.tasks && t !in w.done
        && match w.tasks[t]
           case Cycling(asked, _) => asked == inputs && answer == None
           case Committing(node, origin) =>
             && origin.FromCycle? && origin.task == t
             && Evaluation(answer) && SignedNode(v, VerdictOn(v, inputs, answer)) == Some(node)
           case _ => false)
    || (&& t !in w.tasks && t in w.done
        && match w.done[t]
           case Appended(at) =>
             && at < |w.made| == |w.ledger.log| && w.made[at].FromCycle? && w.made[at].task == t
             && Evaluation(answer) && SignedNode(v, VerdictOn(v, inputs, answer)) == Some(w.ledger.log[at])
           case Paused =>
             t in w.paused && Evaluation(answer) && VerdictOn(v, inputs, answer) == Pausing(w.paused[t].pending)
           case Failed => Failure(v, w.ledger.log, inputs, answer)
           case Moved => false)
  }

  /** How many nodes of the log call `t` made, and which. */
  ghost predicate MadeOnly(w: World, t: nat, at: Option<nat>) {
    forall i :: 0 <= i < |w.made| ==> (w.made[i].task == t <==> at == Some(i))
  }

  lemma JudgedKeepsCycle(v: Config, w: World, t: nat, inputs: CycleInputs, answer: Answer)
    requires CycleState(v, w, t, inputs, None) && t in w.tasks && w.tasks[t].Cycling?
    ensures CycleState(v, Evaluated(v, w, t, w.tasks[t], answer.diff, answer.eval), t, inputs, Some(answer))
  {}

  lemma AppendKeepsCycle(v: Config, w: World, t: nat, inputs: CycleInputs, answer: Option<Answer>)
    requires CycleState(v, w, t, inputs, answer) && t in w.tasks && w.tasks[t].Committing?
    requires |w.made| == |w.ledger.log|
    ensures CycleState(v, Append(w, t, w.tasks[t].node, w.tasks[t].origin), t, inputs, answer)
  {}

  lemma OtherEventsStay(v: Config, w: World, e: Event)
    requires (At(w, e.task) && (w.tasks[e.task].Cycling? || w.tasks[e.task].Committing?)) || e.task in w.done
    requires e.task in w.done ==> !At(w, e.task)
    requires !e.Gate? && !e.DoAppend?
    ensures Act(v, w, e) == w
  {}

  lemma OwnStepKeepsCycle(v: Config, w: World, e: Event, inputs: CycleInputs, answer: Option<Answer>)
    requires CycleState(v, w, e.task, inputs, answer) && |w.made| == |w.ledger.log|
    ensures CycleState(v, Act(v, w, e), e.task, inputs, NextAnswer(answer, w, e, e.task))
  {
    var t := e.task;
    match e
    case Gate(_, diff, eval) =>
      GateActs(v, w, t, diff, eval);
      if At(w, t) && w.tasks[t].Cycling? {
        JudgedKeepsCycle(v, w, t, inputs, Answer(diff, eval));
      }
    case DoAppend(_) =>
      DoAppendActs(v, w, t);
      if At(w, t) && w.tasks[t].Committing? {
        AppendKeepsCycle(v, w, t, inputs, answer);
      }
    case _ => OtherEventsStay(v, w, e);
  }

  lemma CycleGrows(v: Config, w: World, w': World, t: nat, inputs: CycleInputs, answer: Option<Answer>)
    requires Grows(w, w') && CycleState(v, w, t, inputs, answer) && |w'.made| == |w'.ledger.log|
    requires Untouched(w, w', t)
    ensures CycleState(v, w', t, inputs, answer)
  {
    if t in w.done && w.done[t].Failed? && Evaluation(answer) {
      StoredGrows(w.ledger.log, w'.ledger.log, SignedNode(v, VerdictOn(v, inputs, answer)).value.agentId);
    }
  }

  lemma StoredGrows(log: seq<AgentNode>, log': seq<AgentNode>, id: string)
    requires log <= log' && Stored(log, id)
    ensures Stored(log', id)
  {
    var i :| 0 <= i < |log| && log[i].agentId == id;
    assert log'[i] == log[i];
  }

  lemma OtherStepKeepsCycle(v: Config, w: World, e: Event, t: nat, inputs: CycleInputs, answer: Option<Answer>)
    requires Genuine(v.signer) && Inv(v, w) && CycleState(v, w, t, inputs, answer) && e.task != t
    requires |w.heads| > 0 && w.heads[Now(w)] == w.ledger.head
    ensures CycleState(v, Act(v, w, e), t, inputs, answer)
  {
    ActKeeps(v, w, e);
    StepsAreLocal(v, w, e, t);
    CycleGrows(v, w, Act(v, w, e), t, inputs, answer);
  }

  lemma CycleTicks(v: Config, w: World, e: Event, t: nat, inputs: CycleInputs, answer: Option<Answer>)
    requires CycleState(v, w, t, inputs, answer)
    ensures var w' := Ticked(w);
            CycleState(v, w', t, inputs, answer) && NextAnswer(answer, w', e, t) == NextAnswer(answer, w, e, t)
  {}

  lemma StepKeepsCycle(v: Config, w: World, e: Event, t: nat, inputs: CycleInputs, answer: Option<Answer>)
    requires Genuine(v.signer) && Inv(v, w) && CycleState(v, w, t, inputs, answer)
    ensures CycleState(v, Step(v, w, e), t, inputs, NextAnswer(answer, w, e, t))
  {
    var w' := Ticked(w);
    CycleTicks(v, w, e, t, inputs, answer);
    if e.task == t {
      OwnStepKeepsCycle(v, w', e, inputs, answer);
    } else {
      TickKeeps(v, w);
      OtherStepKeepsCycle(v, w', e, t, inputs, answer);
    }
  }

  lemma {:induction false} CycleStays(v: Config, run: seq<Event>, n: nat, t: nat, inputs: CycleInputs)
    requires Genuine(v.signer) && n <= |run|
    requires CycleState(v, Run(v, run[..n]), t, inputs, GateAnswer(v, run[..n], t))
    ensures CycleState(v, Run(v, run), t, inputs, GateAnswer(v, run, t))
  {
    if n == |run| {
      assert run[..n] == run;
    } else {
      var before := run[..|run| - 1];
      assert before[..n] == run[..n];
      CycleStays(v, before, n, t, inputs);
      RunKeeps(v, before);
      StepKeepsCycle(v, Run(v, before), run[|run| - 1], t, inputs, GateAnswer(v, before, t));
    }
  }

  // ---------------------------------------------------------------- one answer to a cycle

  /** Call `t` will not wait for a gate step again. */
  ghost predicate BeyondGate(w: World, t: nat) {
    (t in w.done && t !in w.tasks) || (t in w.tasks && w.tasks[t].Committing?)
  }

  lemma OwnStepStaysBeyond(v: Config, w: World, e: Event)
    requires BeyondGate(w, e.task) || Answers(w, e, e.task)
    ensures BeyondGate(Act(v, w, e), e.task)
  {}

  lemma StepStaysBeyond(v: Config, w: World, e: Event, t: nat)
    requires BeyondGate(w, t) || Answers(w, e, t)
    ensures BeyondGate(Step(v, w, e), t)
  {
    var w' := Ticked(w);
    if e.task == t {
      OwnStepStaysBeyond(v, w', e);
    } else {
      StepsAreLocal(v, w', e, t);
    }
  }

  /** A cycle waiting for its gate step has had no answer: there is never a second one. */
  lemma {:induction false} AnsweredOnce(v: Config, run: seq<Event>, t: nat)
    ensures GateAnswer(v, run, t).Some? ==> BeyondGate(Run(v, run), t)
  {
    if run == [] {
    } else {
      var before := run[..|run| - 1];
      AnsweredOnce(v, before, t);
      if GateAnswer(v, run, t).Some? {
        StepStaysBeyond(v, Run(v, before), run[|run| - 1], t);
      }
    }
  }

  // ---------------------------------------------------------------- conservation

  /** Conservation of cycles: a cycle begun at some point of a run is, at its end, still under way, or ended in
      exactly one of the four ways, as its own gate step's answer decided; the log holds the one node it appended,
      or none of its own. */
  lemma CycleConservation(v: Config, run: seq<Event>, n: nat, t: nat)
    requires Genuine(v.signer) && n <= |run|
    requires t in Run(v, run[..n]).tasks && Run(v, run[..n]).tasks[t].Cycling?
    ensures var w, inputs := Run(v, run), Run(v, run[..n]).tasks[t].inputs;
            && CycleState(v, w, t, inputs, GateAnswer(v, run, t))
            && MadeOnly(w, t, if t in w.done && w.done[t].Appended? then Some(w.done[t].at) else None)
  {
    RunKeeps(v, run[..n]);
    RunKeeps(v, run);
    AnsweredOnce(v, run[..n], t);
    CycleStays(v, run, n, t, Run(v, run[..n]).tasks[t].inputs);
    CountedOnce(Run(v, run), t);
  }

  /** The node a cycle appended, in any run: it records the evaluation that its gate step brought, of what was
      asked; it is promoted exactly when that was not refused and the gate had nothing to ask, rejected exactly when
      it was refused. */
  lemma CycleNodeJudged(v: Config, run: seq<Event>, n: nat, t: nat)
    requires Genuine(v.signer) && n <= |run|
    requires t in Run(v, run[..n]).tasks && Run(v, run[..n]).tasks[t].Cycling?
    requires t in Run(v, run).done && Run(v, run).done[t].Appended?
    ensures var w, inputs, at := Run(v, run), Run(v, run[..n]).tasks[t].inputs, Run(v, run).done[t].at;
            var answer := GateAnswer(v, run, t);
            && at < |w.ledger.log| && Evaluation(answer)
            && var body, eval := w.ledger.log[at].body, answer.value.eval.value;
               && Records(body, inputs, answer.value.diff, eval)
               && (body.status == Promoted <==> !Refused(v, inputs, eval) && Clear(v, inputs))
               && (body.status == Rejected <==> Refused(v, inputs, eval))
  {
    CycleConservation(v, run, n, t);
    SignedExact(v, Run(v, run[..n]).tasks[t].inputs, GateAnswer(v, run, t));
  }

  lemma SignedExact(v: Config, inputs: CycleInputs, answer: Option<Answer>)
    requires Genuine(v.signer) && Evaluation(answer) && SignedNode(v, VerdictOn(v, inputs, answer)).Some?
    ensures var body, eval := SignedNode(v, VerdictOn(v, inputs, answer)).value.body, answer.value.eval.value;
            && Records(body, inputs, answer.value.diff, eval)
            && (body.status == Promoted <==> !Refused(v, inputs, eval) && Clear(v, inputs))
            && (body.status == Rejected <==> Refused(v, inputs, eval))
  {
    JudgeExact(v, inputs, answer.value.diff, answer.value.eval.value);
  }

  lemma CountedOnce(w: World, t: nat)
    requires BooksOk(w)
    ensures MadeOnly(w, t, if t in w.done && w.done[t].Appended? then Some(w.done[t].at) else None)
  {}

  // ---------------------------------------------------------------- pauses

  /** Node `i` came of pause `p`. */
  ghost predicate CameOf(w: World, p: nat, i: nat) {
    i < |w.made| == |w.ledger.log| && w.made[i].FromApproval? && w.made[i].pause == p
  }

  lemma ResumedAsCaptured(v: Config, w: World, p: nat, i: nat)
    requires LogOk(v, w) && BooksOk(w) && CameOf(w, p, i)
    ensures p in w.paused && p in w.resumed && w.resumed[p] in w.done && w.done[w.resumed[p]] == Appended(i)
    ensures w.ledger.log[i].body == ResumeCommit(w.paused[p].pending)
    ensures w.ledger.log[i].body.parentId == Some(w.paused[p].parent.agentId)
    ensures w.ledger.log[i].body.generation == NextGeneration(w.paused[p].parent.body.generation)
  {
    assert MadeAs(v, w, w.ledger.log[i], w.made[i], i);
  }

  /** A pause outlives everything: whatever node comes of it later is what was captured, parent and generation
      included, however the head moved meanwhile; and no second node ever does. */
  lemma PauseConservation(v: Config, run: seq<Event>, n: nat, p: nat, i: nat, j: nat)
    requires Genuine(v.signer) && n <= |run| && p in Run(v, run[..n]).paused
    requires CameOf(Run(v, run), p, i) && CameOf(Run(v, run), p, j)
    ensures var node, pause := Run(v, run).ledger.log[i], Run(v, run[..n]).paused[p];
            && node.body == ResumeCommit(pause.pending)
            && node.body.parentId == Some(pause.parent.agentId)
            && node.body.generation == NextGeneration(pause.parent.body.generation)
    ensures i == j
  {
    RunKeeps(v, run);
    RunGrows(v, run, n);
    ResumedAsCaptured(v, Run(v, run), p, i);
    ResumedAsCaptured(v, Run(v, run), p, j);
  }

  lemma CallsResumeNothing(v: Config, w: World, e: Event)
    requires e.CallRoot? || e.CallCycle? || e.CallRollback? || e.CallMove? || e.CallGeneration?
    ensures Act(v, w, e).resumed == w.resumed
  {}

  lemma StepsResumeNothing(v: Config, w: World, e: Event)
    requires e.Gate? || e.DoAppend? || e.ReadHead? || e.ReadParent? || e.DoMove? || e.ReadSelected?
    ensures Act(v, w, e).resumed == w.resumed
  {}

  lemma ActResumes(v: Config, w: World, e: Event)
    ensures Act(v, w, e).resumed ==
            if e.CallResume? && Unused(w, e.task) && e.pause in w.paused && e.pause !in w.resumed
            then w.resumed[e.pause := e.task] else w.resumed
  {
    if e.CallRoot? || e.CallCycle? || e.CallRollback? || e.CallMove? || e.CallGeneration? {
      CallsResumeNothing(v, w, e);
    } else if !e.CallResume? {
      StepsResumeNothing(v, w, e);
    }
  }

  ghost predicate OnePauseEach(resumed: map<nat, nat>) {
    forall p, q :: p in resumed && q in resumed && resumed[p] == resumed[q] ==> p == q
  }

  /** No call resumes two pauses. */
  lemma {:induction false} CallsResumeOnce(v: Config, run: seq<Event>)
    requires Genuine(v.signer)
    ensures OnePauseEach(Run(v, run).resumed)
  {
    if run == [] {
    } else {
      var before := run[..|run| - 1];
      CallsResumeOnce(v, before);
      RunKeeps(v, before);
      ActResumes(v, Ticked(Run(v, before)), run[|run| - 1]);
    }
  }

  // ---------------------------------------------------------------- counting

  lemma {:induction false} DistinctTasks(made: seq<Origin>, n: nat)
    requires n <= |made|
    requires forall i, j :: 0 <= i < j < |made| ==> made[i].task != made[j].task
    ensures |set i | 0 <= i < n :: made[i].task| == n
  {
    if n == 0 {
    } else {
      DistinctTasks(made, n - 1);
      var s := set i | 0 <= i < n - 1 :: made[i].task;
      assert (set i | 0 <= i < n :: made[i].task) == s + {made[n - 1].task};
      assert made[n - 1].task !in s;
    }
  }

  /** The log is as long as the number of calls that ended in an append. */
  lemma AppendsCounted(v: Config, run: seq<Event>)
    requires Genuine(v.signer)
    ensures var w := Run(v, run); |w.ledger.log| == |set t | t in w.done && w.done[t].Appended?|
  {
    RunKeeps(v, run);
    BooksCount(Run(v, run));
  }

  lemma BooksCount(w: World)
    requires BooksOk(w)
    ensures |w.made| == |set t | t in w.done && w.done[t].Appended?|
  {
    forall i, j | 0 <= i < j < |w.made| ensures w.made[i].task != w.made[j].task {
      assert w.done[w.made[i].task] == Appended(i) && w.done[w.made[j].task] == Appended(j);
    }
    DistinctTasks(w.made, |w.made|);
    var made := set i | 0 <= i < |w.made| :: w.made[i].task;
    var ended := set t | t in w.done && w.done[t].Appended?;
    forall t ensures t in ended <==> t in made {
      if t in ended {
        assert w.made[w.done[t].at].task == t;
      }
    }
    assert made == ended;
  }
}
