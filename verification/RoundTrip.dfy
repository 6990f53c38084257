/**
 One prompt over both directions of the ACP wire: the client's requests travel to the
 server through a pipe of their own, in which ours queues behind those of other
 coroutines; the server's `serve` loop takes them out one by one.
 */
module RoundTrip {
  import opened Json
  import opened AcpEvents
  import S = AcpServer
  import C = AcpClient
  import T = ClientTurn
  import E = EndToEnd

  /** A request on its way, with what the backend will do if it starts a turn. */
  datatype Request = Request(msg: Object, script: seq<RuntimeEvent>, end: S.TurnEnd)

  /** Where our prompt is: not sent, in the pipe behind `k` others, or a task of the server. */
  datatype Stage = Unsent | InPipe(k: nat) | Accepted

  /** `prompt` is our request; `net.t` is our server task once it exists. */
  datatype Joint = Joint(net: E.Net, prompt: Request, requests: seq<Request>, stage: Stage)

  function Id(j: Joint): int { E.RequestId(j.net) }

  function TaskOf(q: Request): S.Task { S.Task(Get(q.msg, "id"), S.Ready(q.msg, q.script, q.end)) }

  /** A request of another coroutine: another id, and nothing about our session. */
  predicate Stranger(q: Request, sid: string, id: int) { E.Foreign(TaskOf(q), sid, id) }

  /**
   `Send` writes the prompt to the pipe; the client's `drain` returns by the consumer's
   own step at any time after that, even after the answer.
   */
  datatype Step =
    | Send
    | OtherRequest(q: Request)
    | Serve
    | Within(step: E.NetStep)

  /** Requests reach the server through the pipe only, and the send does not return before the prompt is written. */
  predicate Inner(step: E.NetStep, stage: Stage) {
    !(step.Server? && step.st.Accept?) && (stage.Unsent? ==> !(step.Consumer? && step.ts.Sent?))
  }

  ghost predicate Enabled(j: Joint, step: Step) {
    match step
    case Send => j.stage.Unsent?
    case OtherRequest(q) => Stranger(q, j.net.sid, Id(j))
    case Serve => j.requests != []
    case Within(st) => Inner(st, j.stage) && E.NetEnabled(j.net, st)
  }

  function Apply(j: Joint, step: Step): Joint
    requires Enabled(j, step)
  {
    match step
    case Send => j.(requests := j.requests + [j.prompt], stage := InPipe(|j.requests|))
    case OtherRequest(q) => j.(requests := j.requests + [q])
    case Serve =>
      var q := j.requests[0];
      var server := S.Apply(j.net.server, S.Accept(q.msg, q.script, q.end));
      var rest := j.(requests := j.requests[1..]);
      if j.stage == InPipe(0) then
        rest.(net := j.net.(server := server, t := |j.net.server.tasks|), stage := Accepted)
      else
        rest.(net := j.net.(server := server), stage := if j.stage.InPipe? then InPipe(j.stage.k - 1) else j.stage)
    case Within(st) => j.(net := E.NetApply(j.net, st))
  }

  ghost predicate Executes(j: Joint, steps: seq<Step>, j': Joint)
    decreases |steps|
  {
    if steps == [] then j == j' else Enabled(j, steps[0]) && Executes(Apply(j, steps[0]), steps[1..], j')
  }

  // ---- the invariant -------------------------------------------------------

  ghost predicate AllStrangers(requests: seq<Request>, sid: string, id: int) {
    forall i :: 0 <= i < |requests| ==> Stranger(requests[i], sid, id)
  }

  ghost predicate TasksForeign(tasks: seq<S.Task>, sid: string, id: int) {
    forall u :: 0 <= u < |tasks| ==> E.Foreign(tasks[u], sid, id)
  }

  ghost predicate PipeOk(requests: seq<Request>, stage: Stage, prompt: Request, sid: string, id: int) {
    match stage
    case InPipe(k) =>
      && k < |requests| && requests[k] == prompt
      && forall i :: 0 <= i < |requests| && i != k ==> Stranger(requests[i], sid, id)
    case _ => AllStrangers(requests, sid, id)
  }

  /** Before our request is accepted the server has only tasks of others. */
  ghost predicate Idle(server: S.Server, sid: string, id: int) {
    S.Inv(server) && E.NotCancelled(server, sid) && TasksForeign(server.tasks, sid, id)
  }

  /** Our task exists and has not run yet. */
  ghost predicate Waiting(server: S.Server, t: nat, prompt: Request, sid: string, id: int) {
    && S.Inv(server) && E.NotCancelled(server, sid) && t < |server.tasks|
    && server.tasks[t] == TaskOf(prompt) && E.AllForeign(server.tasks, t, sid, id)
  }

  ghost predicate ServerStage(
    server: S.Server, t: nat, stage: Stage, prompt: Request, sid: string, id: int, full: seq<S.Wire>, written: seq<S.Wire>)
  {
    if !stage.Accepted? then Idle(server, sid, id) && written == []
    else (Waiting(server, t, prompt, sid, id) && written == []) || E.ServerOk(server, t, sid, id, full, written)
  }

  ghost predicate Promised(prompt: Request, sid: string, id: int) {
    exists text :: prompt.msg == E.PromptEnvelope(id, sid, text)
  }

  ghost predicate PromptOk(prompt: Request, sid: string, id: int, full: seq<S.Wire>) {
    full == S.Uncancelled(Num(id), sid, prompt.script, prompt.end) && Promised(prompt, sid, id)
  }

  /** Everything but the client and the pipe back to it. */
  ghost predicate Requesting(
    server: S.Server, t: nat, sid: string, id: int, written: seq<S.Wire>, sending: bool,
    prompt: Request, requests: seq<Request>, stage: Stage, full: seq<S.Wire>)
  {
    && PromptOk(prompt, sid, id, full)
    && (stage.Unsent? ==> sending)
    && PipeOk(requests, stage, prompt, sid, id)
    && ServerStage(server, t, stage, prompt, sid, id, full, written)
  }

  ghost predicate ServerSide(j: Joint, full: seq<S.Wire>) {
    Requesting(j.net.server, j.net.t, j.net.sid, Id(j), j.net.written, j.net.sys.turn.pc.Sending?,
               j.prompt, j.requests, j.stage, full)
  }

  ghost predicate Inv(j: Joint, full: seq<S.Wire>) { E.ClientHalf(j.net, full) && ServerSide(j, full) }

  // ---- steps ---------------------------------------------------------------

  lemma AcceptAppends(server: S.Server, q: Request)
    ensures S.Apply(server, S.Accept(q.msg, q.script, q.end)) == server.(tasks := server.tasks + [TaskOf(q)])
  {
  }

  lemma IdleAccepts(server: S.Server, q: Request, sid: string, id: int)
    requires Idle(server, sid, id)
    ensures var s' := S.Apply(server, S.Accept(q.msg, q.script, q.end));
            && (Stranger(q, sid, id) ==> Idle(s', sid, id))
            && Waiting(s', |server.tasks|, q, sid, id)
  {
    S.AcceptKeepsInv(server, q.msg, q.script, q.end);
    AcceptAppends(server, q);
  }

  lemma WaitingAccepts(server: S.Server, t: nat, prompt: Request, q: Request, sid: string, id: int)
    requires Waiting(server, t, prompt, sid, id) && Stranger(q, sid, id)
    ensures Waiting(S.Apply(server, S.Accept(q.msg, q.script, q.end)), t, prompt, sid, id)
  {
    S.AcceptKeepsInv(server, q.msg, q.script, q.end);
    AcceptAppends(server, q);
  }

  /** A step of somebody else's task leaves our session alone and writes nothing of ours. */
  lemma ForeignTaskStep(server: S.Server, st: S.Step, sid: string, id: int)
    requires S.TasksOk(server) && E.NotCancelled(server, sid) && S.Enabled(server, st) && !st.Accept?
    requires E.Foreign(server.tasks[st.t], sid, id)
    ensures var s' := S.Apply(server, st);
            && E.NotCancelled(s', sid)
            && |s'.tasks| == |server.tasks| && E.Foreign(s'.tasks[st.t], sid, id)
            && E.Own(E.Output(server, st), sid, id) == []
  {
    assert S.TaskOk(server.tasks[st.t]);
    if st.Start? {
      E.ForeignBegin(server, server.tasks[st.t], sid, id);
    } else {
      E.ForeignOther(server, st, sid, id);
    }
  }

  lemma IdleStep(server: S.Server, st: S.Step, sid: string, id: int)
    requires Idle(server, sid, id) && S.Enabled(server, st) && !st.Accept?
    ensures Idle(S.Apply(server, st), sid, id) && E.Own(E.Output(server, st), sid, id) == []
  {
    S.StepKeepsInv(server, st);
    ForeignTaskStep(server, st, sid, id);
    var s' := S.Apply(server, st);
    forall u | 0 <= u < |s'.tasks| ensures E.Foreign(s'.tasks[u], sid, id) {
      if u != st.t { E.OthersUntouched(server, st, u); }
    }
  }

  lemma WaitingStep(server: S.Server, st: S.Step, t: nat, prompt: Request, sid: string, id: int)
    requires Waiting(server, t, prompt, sid, id) && S.Enabled(server, st) && !st.Accept? && st.t != t
    ensures Waiting(S.Apply(server, st), t, prompt, sid, id) && E.Own(E.Output(server, st), sid, id) == []
  {
    S.StepKeepsInv(server, st);
    ForeignTaskStep(server, st, sid, id);
    var s' := S.Apply(server, st);
    forall u | 0 <= u < |s'.tasks| && u != t ensures E.Foreign(s'.tasks[u], sid, id) {
      if u != st.t { E.OthersUntouched(server, st, u); }
    }
    E.OthersUntouched(server, st, t);
  }

  /** Our task's first step starts the turn. */
  lemma TurnBegins(server: S.Server, t: nat, prompt: Request, sid: string, id: int)
    requires Waiting(server, t, prompt, sid, id) && Promised(prompt, sid, id)
    ensures S.Enabled(server, S.Start(t))
    ensures var s' := S.Apply(server, S.Start(t));
            && s'.tasks == server.tasks[t := S.Task(Num(id), S.Turn(sid, prompt.script, prompt.end))]
            && E.NotCancelled(s', sid)
  {
    var text :| prompt.msg == E.PromptEnvelope(id, sid, text);
    E.WireKeys();
    E.PromptStartsTurn(server, id, sid, text, prompt.script, prompt.end);
  }

  lemma PromptBegins(server: S.Server, st: S.Step, t: nat, prompt: Request, sid: string, id: int, full: seq<S.Wire>)
    requires Waiting(server, t, prompt, sid, id) && PromptOk(prompt, sid, id, full)
    requires S.Enabled(server, st) && !st.Accept? && st.t == t
    ensures E.Output(server, st) == [] && E.ServerOk(S.Apply(server, st), t, sid, id, full, [])
  {
    assert st == S.Start(t);
    S.StartKeepsInv(server, t);
    TurnBegins(server, t, prompt, sid, id);
    assert [] + full == full;
  }

  lemma Prefix(written: seq<S.Wire>, rest: seq<S.Wire>, full: seq<S.Wire>)
    requires written + rest == full
    ensures written <= full
  {
  }

  /** Any step of the server's tasks moves our request along, or leaves it where it is. */
  lemma AnyStage(
    server: S.Server, st: S.Step, t: nat, stage: Stage, prompt: Request, sid: string, id: int,
    full: seq<S.Wire>, written: seq<S.Wire>)
    requires ServerStage(server, t, stage, prompt, sid, id, full, written) && PromptOk(prompt, sid, id, full)
    requires S.Enabled(server, st) && !st.Accept?
    ensures var more := written + E.Own(E.Output(server, st), sid, id);
            ServerStage(S.Apply(server, st), t, stage, prompt, sid, id, full, more) && more <= full
  {
    var s' := S.Apply(server, st);
    if !stage.Accepted? {
      IdleStep(server, st, sid, id);
      assert written + [] == [];
    } else if E.ServerOk(server, t, sid, id, full, written) {
      var more := written + E.Own(E.Output(server, st), sid, id);
      E.AnyServerStep(server, st, t, sid, id, full, written);
      Prefix(more, S.Remaining(Num(id), s'.tasks[t].pc), full);
    } else if st.t == t {
      PromptBegins(server, st, t, prompt, sid, id, full);
      assert E.Own([], sid, id) == [] && written + [] == [];
    } else {
      WaitingStep(server, st, t, prompt, sid, id);
      assert written + [] == [];
    }
  }

  /** Taking a stranger's request in changes nothing for ours. */
  lemma AcceptStranger(
    server: S.Server, q: Request, t: nat, stage: Stage, prompt: Request, sid: string, id: int,
    full: seq<S.Wire>, written: seq<S.Wire>)
    requires ServerStage(server, t, stage, prompt, sid, id, full, written) && Stranger(q, sid, id)
    ensures ServerStage(S.Apply(server, S.Accept(q.msg, q.script, q.end)), t, stage, prompt, sid, id, full, written)
  {
    if !stage.Accepted? {
      IdleAccepts(server, q, sid, id);
    } else if E.ServerOk(server, t, sid, id, full, written) {
      E.AnyServerStep(server, S.Accept(q.msg, q.script, q.end), t, sid, id, full, written);
      assert written + [] == written;
    } else {
      WaitingAccepts(server, t, prompt, q, sid, id);
    }
  }

  /** Which stage before acceptance it is does not matter to the server. */
  lemma StageFrame(j: Joint, j': Joint, full: seq<S.Wire>, t: nat, stage: Stage, server: S.Server, written: seq<S.Wire>)
    requires j'.prompt == j.prompt && (j'.stage.Accepted? <==> stage.Accepted?)
    requires j'.net.server == server && j'.net.written == written
    requires j'.net.t == t && j'.net.sid == j.net.sid && j'.net.sys == j.net.sys
    ensures ServerStage(server, t, stage, j.prompt, j.net.sid, Id(j), full, written) <==>
            ServerStage(j'.net.server, j'.net.t, j'.stage, j'.prompt, j'.net.sid, Id(j'), full, j'.net.written)
  {
  }

  lemma StillRequesting(j: Joint, j': Joint, full: seq<S.Wire>)
    requires PromptOk(j.prompt, j.net.sid, Id(j), full)
    requires j.stage.Unsent? ==> j.net.sys.turn.pc.Sending?
    requires PipeOk(j'.requests, j'.stage, j.prompt, j.net.sid, Id(j))
    requires j'.prompt == j.prompt && (j'.stage.Unsent? ==> j.stage.Unsent?)
    requires j'.net.sid == j.net.sid && j'.net.sys == j.net.sys
    ensures ServerSide(j', full) <==>
            ServerStage(j'.net.server, j'.net.t, j'.stage, j'.prompt, j'.net.sid, Id(j'), full, j'.net.written)
  {
  }

  lemma ServerStepFrame(n: E.Net, st: S.Step)
    requires E.NetEnabled(n, E.Server(st))
    ensures var n' := E.NetApply(n, E.Server(st));
            && n'.server == S.Apply(n.server, st)
            && n'.written == n.written + E.Own(E.Output(n.server, st), n.sid, E.RequestId(n))
            && n'.t == n.t && n'.sid == n.sid && n'.sys == n.sys
  {
  }

  lemma ServerMoves(j: Joint, full: seq<S.Wire>, st: S.Step)
    requires ServerSide(j, full) && Enabled(j, Within(E.Server(st)))
    ensures ServerSide(Apply(j, Within(E.Server(st))), full) && E.NetApply(j.net, E.Server(st)).written <= full
  {
    var n := j.net;
    ServerStepFrame(n, st);
    AnyStage(n.server, st, n.t, j.stage, j.prompt, n.sid, Id(j), full, n.written);
    var j' := Apply(j, Within(E.Server(st)));
    StageFrame(j, j', full, n.t, j.stage, S.Apply(n.server, st), n.written + E.Own(E.Output(n.server, st), n.sid, Id(j)));
    StillRequesting(j, j', full);
  }

  lemma WithinServer(j: Joint, full: seq<S.Wire>, st: S.Step)
    requires Inv(j, full) && Enabled(j, Within(E.Server(st)))
    ensures Inv(Apply(j, Within(E.Server(st))), full)
  {
    ServerMoves(j, full, st);
    E.ServerStepClient(j.net, full, st);
  }

  /** Reader, consumer and the rest of the client touch neither the server nor our request. */
  lemma ClientStepFrame(n: E.Net, st: E.NetStep)
    requires E.NetEnabled(n, st) && !st.Server?
    ensures var n' := E.NetApply(n, st);
            && n'.server == n.server && n'.t == n.t && n'.sid == n.sid && n'.written == n.written
            && E.RequestId(n') == E.RequestId(n)
            && (n'.sys.turn.pc.Sending? <==> n.sys.turn.pc.Sending? && st != E.Consumer(T.Sent))
  {
  }

  lemma ClientStepKeeps(n: E.Net, full: seq<S.Wire>, st: E.NetStep)
    requires E.ClientHalf(n, full) && E.NetEnabled(n, st) && !st.Server?
    ensures E.ClientHalf(E.NetApply(n, st), full)
  {
    match st
    case Read => E.ReadKeepsClient(n, full);
    case Consumer(ts) => E.ConsumerKeepsClient(n, full, ts);
    case Client(c) => E.RestKeepsClient(n, full, c);
  }

  lemma WithinOther(j: Joint, full: seq<S.Wire>, st: E.NetStep)
    requires Inv(j, full) && Enabled(j, Within(st)) && !st.Server?
    ensures Inv(Apply(j, Within(st)), full)
  {
    ClientStepKeeps(j.net, full, st);
    ClientStepFrame(j.net, st);
  }

  lemma SentPipe(requests: seq<Request>, prompt: Request, sid: string, id: int)
    requires AllStrangers(requests, sid, id)
    ensures PipeOk(requests + [prompt], InPipe(|requests|), prompt, sid, id)
  {
  }

  lemma SendKeepsInv(j: Joint, full: seq<S.Wire>)
    requires Inv(j, full) && Enabled(j, Send)
    ensures Inv(Apply(j, Send), full)
  {
    SentPipe(j.requests, j.prompt, j.net.sid, Id(j));
  }

  function Advanced(stage: Stage): Stage {
    if stage == InPipe(0) then Accepted else if stage.InPipe? then InPipe(stage.k - 1) else stage
  }

  lemma ServedPipe(requests: seq<Request>, stage: Stage, prompt: Request, sid: string, id: int)
    requires PipeOk(requests, stage, prompt, sid, id) && requests != []
    ensures PipeOk(requests[1..], Advanced(stage), prompt, sid, id)
    ensures if stage == InPipe(0) then requests[0] == prompt else Stranger(requests[0], sid, id)
  {
    forall i | 0 <= i < |requests[1..]| ensures requests[1..][i] == requests[i + 1] { }
  }

  /** The client half does not look at the server. */
  lemma ClientHalfFrame(n: E.Net, server: S.Server, t: nat, full: seq<S.Wire>)
    requires E.ClientHalf(n, full)
    ensures E.ClientHalf(n.(server := server, t := t), full)
  {
  }

  lemma OursAccepted(server: S.Server, q: Request, sid: string, id: int, full: seq<S.Wire>)
    requires Idle(server, sid, id)
    ensures ServerStage(S.Apply(server, S.Accept(q.msg, q.script, q.end)), |server.tasks|, Accepted, q, sid, id, full, [])
  {
    IdleAccepts(server, q, sid, id);
  }

  lemma ServeFrame(j: Joint)
    requires Enabled(j, Serve)
    ensures var j' := Apply(j, Serve); var q := j.requests[0];
            && j'.prompt == j.prompt && j'.requests == j.requests[1..] && j'.stage == Advanced(j.stage)
            && j'.net.server == S.Apply(j.net.server, S.Accept(q.msg, q.script, q.end))
            && j'.net.written == j.net.written && j'.net.sid == j.net.sid && j'.net.sys == j.net.sys
            && j'.net.t == if j.stage == InPipe(0) then |j.net.server.tasks| else j.net.t
  {
  }

  lemma ServeStage(j: Joint, full: seq<S.Wire>)
    requires ServerSide(j, full) && Enabled(j, Serve)
    ensures var j' := Apply(j, Serve);
            ServerStage(j'.net.server, j'.net.t, j'.stage, j'.prompt, j'.net.sid, Id(j'), full, j'.net.written)
  {
    var q, j' := j.requests[0], Apply(j, Serve);
    ServeFrame(j);
    ServedPipe(j.requests, j.stage, j.prompt, j.net.sid, Id(j));
    if j.stage == InPipe(0) {
      OursAccepted(j.net.server, q, j.net.sid, Id(j), full);
      StageFrame(j, j', full, j'.net.t, Accepted, j'.net.server, j'.net.written);
    } else {
      AcceptStranger(j.net.server, q, j.net.t, j.stage, j.prompt, j.net.sid, Id(j), full, j.net.written);
      StageFrame(j, j', full, j.net.t, j.stage, j'.net.server, j'.net.written);
    }
  }

  lemma ServeMoves(j: Joint, full: seq<S.Wire>)
    requires ServerSide(j, full) && Enabled(j, Serve)
    ensures ServerSide(Apply(j, Serve), full)
  {
    ServeStage(j, full);
    ServedPipe(j.requests, j.stage, j.prompt, j.net.sid, Id(j));
    StillRequesting(j, Apply(j, Serve), full);
  }

  lemma ServeClient(j: Joint, full: seq<S.Wire>)
    requires E.ClientHalf(j.net, full) && Enabled(j, Serve)
    ensures E.ClientHalf(Apply(j, Serve).net, full)
  {
    var n' := Apply(j, Serve).net;
    ClientHalfFrame(j.net, n'.server, n'.t, full);
    assert n' == j.net.(server := n'.server, t := n'.t);
  }

  lemma ServeKeepsInv(j: Joint, full: seq<S.Wire>)
    requires Inv(j, full) && Enabled(j, Serve)
    ensures Inv(Apply(j, Serve), full)
  {
    ServeMoves(j, full);
    ServeClient(j, full);
  }

  lemma OtherPipe(requests: seq<Request>, q: Request, stage: Stage, prompt: Request, sid: string, id: int)
    requires PipeOk(requests, stage, prompt, sid, id) && Stranger(q, sid, id)
    ensures PipeOk(requests + [q], stage, prompt, sid, id)
  {
  }

  lemma OtherMoves(j: Joint, full: seq<S.Wire>, q: Request)
    requires ServerSide(j, full) && Enabled(j, OtherRequest(q))
    ensures ServerSide(j.(requests := j.requests + [q]), full)
  {
    OtherPipe(j.requests, q, j.stage, j.prompt, j.net.sid, Id(j));
  }

  lemma OtherKeepsInv(j: Joint, full: seq<S.Wire>, q: Request)
    requires Inv(j, full) && Enabled(j, OtherRequest(q))
    ensures Inv(Apply(j, OtherRequest(q)), full)
  {
    OtherMoves(j, full, q);
  }

  lemma StepKeepsInv(j: Joint, full: seq<S.Wire>, step: Step)
    requires Inv(j, full) && Enabled(j, step)
    ensures Inv(Apply(j, step), full)
  {
    match step
    case Send => SendKeepsInv(j, full);
    case OtherRequest(q) => OtherKeepsInv(j, full, q);
    case Serve => ServeKeepsInv(j, full);
    case Within(st) =>
      if st.Server? { WithinServer(j, full, st.st); } else { WithinOther(j, full, st); }
  }

  lemma {:induction false} RunKeepsInv(j: Joint, full: seq<S.Wire>, steps: seq<Step>, j': Joint)
    requires Inv(j, full) && Executes(j, steps, j')
    ensures Inv(j', full)
    decreases |steps|
  {
    if steps != [] {
      StepKeepsInv(j, full, steps[0]);
      RunKeepsInv(Apply(j, steps[0]), full, steps[1..], j');
    }
  }

  // ---- theorems ------------------------------------------------------------

  /**
   The client has just called the turn: nothing of it has left the client, and the
   server knows the session but has no task of ours.
   */
  ghost predicate Starts(j: Joint) {
    && E.FreshTurn(j.net.sys, j.net.sid)
    && Promised(j.prompt, j.net.sid, Id(j))
    && j.stage == Unsent && AllStrangers(j.requests, j.net.sid, Id(j))
    && Idle(j.net.server, j.net.sid, Id(j))
    && E.Own(j.net.pipe, j.net.sid, Id(j)) == []
    && j.net.written == [] && j.net.received == []
  }

  lemma StartKeepsInv(j: Joint)
    requires Starts(j)
    ensures Inv(j, S.Uncancelled(Num(Id(j)), j.net.sid, j.prompt.script, j.prompt.end))
  {
    var full := S.Uncancelled(Num(Id(j)), j.net.sid, j.prompt.script, j.prompt.end);
    E.UncancelledShape(Num(Id(j)), j.net.sid, j.prompt.script, j.prompt.end);
    var c: C.Client :| E.BeginsOn(c, j.net.sys, j.net.sid);
    E.FreshClientOk(c, j.net.sys, j.net.sid, full);
  }

  /**
   From the call on, through both pipes and every interleaving of other requests, the
   serve loop, server tasks, reader, consumer and the rest of the client: the consumer
   sees a prefix of what the backend's events stand for, and a finished turn all of it.
   */
  lemma Transparency(j: Joint, steps: seq<Step>, j': Joint)
    requires Starts(j) && Executes(j, steps, j')
    ensures var expected := E.Expected(j.prompt.script, j.prompt.end);
            && j'.net.sys.turn.yielded <= expected
            && (j'.net.sys.turn.pc.Over? <==> j'.net.sys.turn.yielded == expected)
  {
    var full := S.Uncancelled(Num(Id(j)), j.net.sid, j.prompt.script, j.prompt.end);
    StartKeepsInv(j);
    RunKeepsInv(j, full, steps, j');
    E.OutputMeaning(Num(Id(j)), j.net.sid, j.prompt.script, j.prompt.end);
    E.StreamSoFar(j'.net.sys, j'.net.sid, full, j'.net.received, E.Expected(j.prompt.script, j.prompt.end));
  }

  // ---- progress ------------------------------------------------------------

  function Weight(q: Request): nat { 16 * (2 * |q.script| + 4) + 1 }

  function PipeWeight(requests: seq<Request>): nat {
    if requests == [] then 0 else Weight(requests[0]) + PipeWeight(requests[1..])
  }

  /** Bounds the steps left when no other coroutine sends anything and the rest of the client is quiet. */
  function Rank(j: Joint): nat
    requires j.net.sys.turn.s < |j.net.sys.c.sessions|
  {
    E.Rank(j.net) + PipeWeight(j.requests) + (if j.stage.Unsent? then Weight(j.prompt) + 1 else 0)
  }

  predicate Working(step: Step) { step.Send? || step.Serve? || (step.Within? && E.Working(step.step)) }

  lemma {:induction false} PipeWeightSnoc(requests: seq<Request>, q: Request)
    ensures PipeWeight(requests + [q]) == PipeWeight(requests) + Weight(q)
  {
    if requests == [] {
      assert [q][1..] == [] && [] + [q] == [q];
    } else {
      assert (requests + [q])[1..] == requests[1..] + [q];
      PipeWeightSnoc(requests[1..], q);
    }
  }

  lemma AcceptRaisesRank(server: S.Server, q: Request)
    ensures S.Rank(S.Apply(server, S.Accept(q.msg, q.script, q.end)).tasks) == S.Rank(server.tasks) + 2 * |q.script| + 4
  {
    AcceptAppends(server, q);
    assert (server.tasks + [TaskOf(q)])[..|server.tasks|] == server.tasks;
  }

  lemma SendLowersRank(j: Joint)
    requires Enabled(j, Send) && j.net.sys.turn.s < |j.net.sys.c.sessions|
    ensures var j' := Apply(j, Send); j'.net.sys.turn.s < |j'.net.sys.c.sessions| && Rank(j') < Rank(j)
  {
    PipeWeightSnoc(j.requests, j.prompt);
  }

  lemma ServeLowersRank(j: Joint)
    requires Enabled(j, Serve) && j.net.sys.turn.s < |j.net.sys.c.sessions|
    ensures var j' := Apply(j, Serve); j'.net.sys.turn.s < |j'.net.sys.c.sessions| && Rank(j') < Rank(j)
  {
    AcceptRaisesRank(j.net.server, j.requests[0]);
  }

  lemma WorkLowersRank(j: Joint, step: Step)
    requires S.Inv(j.net.server) && j.net.sys.turn.s < |j.net.sys.c.sessions|
    requires Enabled(j, step) && Working(step)
    ensures var j' := Apply(j, step); j'.net.sys.turn.s < |j'.net.sys.c.sessions| && Rank(j') < Rank(j)
  {
    match step
    case Send => SendLowersRank(j);
    case Serve => ServeLowersRank(j);
    case Within(st) => E.WorkLowersRank(j.net, st);
  }

  lemma NoDeadlock(j: Joint, full: seq<S.Wire>)
    requires Inv(j, full) && !j.net.sys.turn.pc.Over?
    ensures exists step :: Enabled(j, step) && Working(step)
  {
    if j.stage.Unsent? {
      assert Enabled(j, Send) && Working(Send);
    } else if j.stage.InPipe? {
      assert Enabled(j, Serve) && Working(Serve);
    } else if E.ServerHalf(j.net, full) {
      InnerNoDeadlock(j, full);
    } else {
      assert Enabled(j, Within(E.Server(S.Start(j.net.t)))) && Working(Within(E.Server(S.Start(j.net.t))));
    }
  }

  lemma InnerNoDeadlock(j: Joint, full: seq<S.Wire>)
    requires E.NetInv(j.net, full) && !j.net.sys.turn.pc.Over? && !j.stage.Unsent?
    ensures exists step :: Enabled(j, step) && Working(step)
  {
    var st := E.NoDeadlock(j.net, full);
    assert Enabled(j, Within(st)) && Working(Within(st));
  }

  lemma InvServer(j: Joint, full: seq<S.Wire>)
    requires Inv(j, full)
    ensures S.Inv(j.net.server) && j.net.sys.turn.s < |j.net.sys.c.sessions|
  {
  }

  ghost predicate AllWorking(steps: seq<Step>) { forall i :: 0 <= i < |steps| ==> Working(steps[i]) }

  lemma WorkingTail(steps: seq<Step>)
    requires AllWorking(steps) && steps != []
    ensures Working(steps[0]) && AllWorking(steps[1..])
  {
  }

  lemma WorkStep(j: Joint, full: seq<S.Wire>, step: Step)
    requires Inv(j, full) && Enabled(j, step) && Working(step) && j.net.sys.turn.s < |j.net.sys.c.sessions|
    ensures var j' := Apply(j, step);
            Inv(j', full) && j'.net.sys.turn.s < |j'.net.sys.c.sessions| && Rank(j') < Rank(j)
  {
    InvServer(j, full);
    StepKeepsInv(j, full, step);
    WorkLowersRank(j, step);
  }

  lemma {:induction false} WorkEnds(j: Joint, full: seq<S.Wire>, steps: seq<Step>, j': Joint)
    requires Inv(j, full) && Executes(j, steps, j') && j.net.sys.turn.s < |j.net.sys.c.sessions|
    requires AllWorking(steps)
    ensures j'.net.sys.turn.s < |j'.net.sys.c.sessions| && |steps| + Rank(j') <= Rank(j)
    decreases |steps|
  {
    if steps != [] {
      WorkingTail(steps);
      WorkStep(j, full, steps[0]);
      WorkEnds(Apply(j, steps[0]), full, steps[1..], j');
    }
  }

  /**
   The prompt is always served: from any state of such a run at most `Rank` working
   steps are possible, and when none is left the consumer has seen the whole stream.
   */
  lemma PromptIsServed(j: Joint, before: seq<Step>, m: Joint, steps: seq<Step>, j': Joint)
    requires Starts(j) && Executes(j, before, m) && Executes(m, steps, j')
    requires AllWorking(steps)
    requires forall step :: Working(step) ==> !Enabled(j', step)
    ensures j'.net.sys.turn.yielded == E.Expected(j.prompt.script, j.prompt.end)
    ensures m.net.sys.turn.s < |m.net.sys.c.sessions| && |steps| <= Rank(m)
  {
    var full := S.Uncancelled(Num(Id(j)), j.net.sid, j.prompt.script, j.prompt.end);
    StartKeepsInv(j);
    RunKeepsInv(j, full, before, m);
    InvServer(m, full);
    WorkEnds(m, full, steps, j');
    RunKeepsInv(m, full, steps, j');
    if !j'.net.sys.turn.pc.Over? { NoDeadlock(j', full); }
    E.OutputMeaning(Num(Id(j)), j.net.sid, j.prompt.script, j.prompt.end);
    E.StreamSoFar(j'.net.sys, j'.net.sid, full, j'.net.received, E.Expected(j.prompt.script, j.prompt.end));
  }

  /** A handshake and a new session on both ends lead to such a start, for every prompt. */
  lemma StartIsReachable(ints: C.IntParser, text: string, script: seq<RuntimeEvent>, end: S.TurnEnd) returns (j: Joint)
    ensures Starts(j) && Id(j) == 3 && j.prompt.script == script && j.prompt.end == end
  {
    var sid := S.SessionId(2);
    var server := E.ServerWithSession();
    var c := E.ClientWithSession(ints, sid);
    var net := E.Net(server, 0, sid, [], T.Begin(c, 0), [], []);
    j := Joint(net, Request(E.PromptEnvelope(3, sid, text), script, end), [], Unsent);
    assert E.BeginsOn(c, net.sys, sid);
  }
}
