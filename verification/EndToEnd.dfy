/**
 One prompt across the whole ACP wire: the server task that runs the turn, the
 pipe, the client's reader and the consumer of the turn, with every other task
 of the server and every other coroutine of the client interleaved.
 */
module EndToEnd {
  import opened Wrappers
  import opened Json
  import opened AcpEvents
  import Seqs
  import S = AcpServer
  import C = AcpClient
  import T = ClientTurn
  import F = Framing

  /**
   `t` is the server task of the prompt on session `sid`; `written` and `received`
   are this prompt's own messages that the server wrote and the client's reader took.
   */
  datatype Net = Net(
    server: S.Server,
    t: nat,
    sid: string,
    pipe: seq<S.Wire>,
    sys: T.System,
    written: seq<S.Wire>,
    received: seq<S.Wire>
  )

  function RequestId(n: Net): int { n.sys.turn.r + 1 }

  predicate SameId(j: Json, id: int) { IsInt(j) && AsInt(j) == id }

  /** The message is an update of our session or the reply to our request. */
  predicate Ours(w: S.Wire, sid: string, id: int) {
    if w.Update? then w.sid == sid else SameId(w.id, id)
  }

  function Own(ws: seq<S.Wire>, sid: string, id: int): seq<S.Wire> {
    if ws == [] then [] else (if Ours(ws[0], sid, id) then [ws[0]] else []) + Own(ws[1..], sid, id)
  }

  function OptSeq(o: Option<ClientEvent>): seq<ClientEvent> { if o.Some? then [o.value] else [] }

  /** What a message puts on its session's queue. */
  function Incoming(w: S.Wire): seq<ClientEvent> { if w.Update? then OptSeq(ProjectUpdate(w.update)) else [] }

  function Updates(ws: seq<S.Wire>): seq<ClientEvent> {
    if ws == [] then [] else Incoming(ws[0]) + Updates(ws[1..])
  }

  function VerdictOf(w: S.Wire): C.FutureState {
    match w
    case Reply(_, result) => C.Resolved(result)
    case ErrorReply(_, code, message) => C.Rejected(code, Lit(message))
    case Update(_, _) => C.Open
  }

  // ---- what the consumer should see ----------------------------------------

  function EndEvent(end: S.TurnEnd): ClientEvent {
    match end
    case Ends => Finished(Str("stop"))
    case Breaks(message) => Failed(Lit("run_turn failed: " + message), StrOf(Num(S.INTERNAL_ERROR)))
  }

  /**
   The backend's events up to its first terminal one, each relayed or dropped, then
   the matching terminal event.
   */
  function Expected(script: seq<RuntimeEvent>, end: S.TurnEnd): seq<ClientEvent> {
    if script == [] then [EndEvent(end)]
    else
      match script[0]
      case Done(reason) => [Finished(Str(TagOr(reason, "stop")))]
      case Error(message) => [Failed(Lit(message), StrOf(Num(S.INTERNAL_ERROR)))]
      case _ => OptSeq(Relay(script[0])) + Expected(script[1..], end)
  }

  /** A prompt's messages are updates of its session and one last reply to its request. */
  ghost predicate PromptShaped(ws: seq<S.Wire>, id: Json, sid: string) {
    && ws != []
    && (forall i :: 0 <= i < |ws| - 1 ==> ws[i].Update? && ws[i].sid == sid)
    && ws[|ws| - 1].IsReply() && ws[|ws| - 1].id == id
  }

  lemma ShapeMore(head: seq<S.Wire>, tail: seq<S.Wire>, id: Json, sid: string)
    requires PromptShaped(tail, id, sid) && forall i :: 0 <= i < |head| ==> head[i].Update? && head[i].sid == sid
    ensures PromptShaped(head + tail, id, sid)
  {
  }

  lemma {:induction false} UncancelledShape(id: Json, sid: string, script: seq<RuntimeEvent>, end: S.TurnEnd)
    ensures PromptShaped(S.Uncancelled(id, sid, script, end), id, sid)
    decreases |script|
  {
    if script != [] {
      var stop := S.StopWith(id, script[0], false);
      if stop == [] {
        UncancelledShape(id, sid, script[1..], end);
        ShapeMore(S.Sent(sid, script[0]), S.Uncancelled(id, sid, script[1..], end), id, sid);
      } else {
        ShapeMore(S.Sent(sid, script[0]), stop, id, sid);
      }
    }
  }

  lemma {:induction false} UpdatesConcat(a: seq<S.Wire>, b: seq<S.Wire>)
    ensures Updates(a + b) == Updates(a) + Updates(b)
  {
    if a == [] {
      assert a + b == b;
    } else {
      Seqs.Uncons(a, b);
      UpdatesConcat(a[1..], b);
      Seqs.Regroup(Incoming(a[0]), Updates(a[1..]), Updates(b));
    }
  }

  ghost predicate Means(ws: seq<S.Wire>, events: seq<ClientEvent>)
    requires ws != []
  {
    events == Updates(ws) + [T.Verdictive(VerdictOf(ws[|ws| - 1]))]
  }

  /** What the wire carries for a prompt stands for exactly `Expected`. */
  lemma {:induction false} OutputMeaning(id: Json, sid: string, script: seq<RuntimeEvent>, end: S.TurnEnd)
    ensures PromptShaped(S.Uncancelled(id, sid, script, end), id, sid)
    ensures Means(S.Uncancelled(id, sid, script, end), Expected(script, end))
    decreases |script|
  {
    UncancelledShape(id, sid, script, end);
    if script == [] {
      EndMeaning(id, end);
    } else if script[0].Terminal() {
      StopMeaning(id, sid, script[0]);
    } else {
      OutputMeaning(id, sid, script[1..], end);
      SentMeaning(sid, script[0]);
      MeansMore(S.Sent(sid, script[0]), S.Uncancelled(id, sid, script[1..], end), Expected(script[1..], end));
    }
  }

  lemma EndMeaning(id: Json, end: S.TurnEnd)
    ensures Means([S.EndReply(id, end)], [EndEvent(end)])
  {
    assert [S.EndReply(id, end)][1..] == [];
    assert Updates([S.EndReply(id, end)]) == [];
  }

  lemma MeansMore(head: seq<S.Wire>, tail: seq<S.Wire>, events: seq<ClientEvent>)
    requires tail != [] && Means(tail, events)
    ensures Means(head + tail, Updates(head) + events)
  {
    UpdatesConcat(head, tail);
    assert (head + tail)[|head + tail| - 1] == tail[|tail| - 1];
    Seqs.Regroup(Updates(head), Updates(tail), [T.Verdictive(VerdictOf(tail[|tail| - 1]))]);
  }

  lemma SentMeaning(sid: string, ev: RuntimeEvent)
    ensures Updates(S.Sent(sid, ev)) == OptSeq(Relay(ev))
  {
    var ws := S.Sent(sid, ev);
    if ws != [] {
      assert ws[1..] == [];
    }
  }

  lemma StopMeaning(id: Json, sid: string, ev: RuntimeEvent)
    requires ev.Terminal()
    ensures S.Sent(sid, ev) == [] && |S.StopWith(id, ev, false)| == 1
    ensures Means(S.StopWith(id, ev, false), Expected([ev], S.Ends))
  {
    var ws := S.StopWith(id, ev, false);
    assert ws[1..] == [];
    assert Updates(ws) == [];
  }

  // ---- steps ---------------------------------------------------------------

  /** The message names our session. */
  predicate Touches(msg: Object, sid: string) {
    var params := Or(Get(msg, "params"), Obj(map[]));
    params.Obj? && Get(params.fields, "sessionId") == Str(sid)
  }

  /** A task of another request that has nothing to do with our session. */
  predicate Foreign(task: S.Task, sid: string, id: int) {
    && !SameId(task.id, id)
    && match task.pc
       case Ready(msg, _, _) => !Touches(msg, sid)
       case Turn(other, _, _) => other != sid
       case Writing(w, next) => !Ours(w, sid, id) && (next.Check? ==> next.sid != sid)
       case Ensuring => true
       case Over => true
  }

  datatype NetStep = Server(st: S.Step) | Read | Consumer(ts: T.TurnStep) | Client(step: C.Step)

  /** The rest of the client leaves our session, our request and the pipe alone. */
  ghost predicate Harmless(n: Net, step: C.Step) {
    && T.Around(n.sys.turn, step) && C.Enabled(n.sys.c, step)
    && match step
       case DoRegister(_, sid) => sid != n.sid
       case DoClose(key) =>
         key in n.sys.c.byKey && n.sys.c.byKey[key] < |n.sys.c.sessions| ==>
           && n.sys.c.byKey[key] != n.sys.turn.s
           && n.sys.c.sessions[n.sys.c.byKey[key]].sid != n.sid
       case Message(_) => false
       case DoStdoutClosed => false
       case DoAclose => false
       case _ => true
  }

  ghost predicate NetEnabled(n: Net, step: NetStep) {
    && C.Inv(n.sys.c) && n.sys.turn.s < |n.sys.c.sessions| && n.sys.turn.r < |n.sys.c.futures|
    && match step
       case Server(st) =>
         && S.Enabled(n.server, st)
         && (st.Accept? ==> Foreign(S.Task(Get(st.msg, "id"), S.Ready(st.msg, st.script, st.end)), n.sid, RequestId(n)))
       case Read => n.pipe != []
       case Consumer(ts) => !ts.SendFails? && T.TurnEnabled(n.sys, ts)
       case Client(st) => Harmless(n, st)
  }

  /** What a server step puts into the pipe. */
  function Output(server: S.Server, st: S.Step): seq<S.Wire>
    requires S.Enabled(server, st)
  {
    if st.Write? then [server.tasks[st.t].pc.w] else []
  }

  function NetApply(n: Net, step: NetStep): Net
    requires NetEnabled(n, step)
  {
    match step
    case Server(st) =>
      var out := Output(n.server, st);
      n.(server := S.Apply(n.server, st), pipe := n.pipe + out, written := n.written + Own(out, n.sid, RequestId(n)))
    case Read =>
      n.(pipe := n.pipe[1..],
         sys := T.ClientApply(n.sys, C.Message(S.ToObject(n.pipe[0]))),
         received := n.received + Own([n.pipe[0]], n.sid, RequestId(n)))
    case Consumer(ts) => n.(sys := T.TurnApply(n.sys, ts))
    case Client(st) => n.(sys := T.ClientApply(n.sys, st))
  }

  ghost predicate Executes(n: Net, steps: seq<NetStep>, n': Net)
    decreases |steps|
  {
    if steps == [] then n == n'
    else NetEnabled(n, steps[0]) && Executes(NetApply(n, steps[0]), steps[1..], n')
  }

  // ---- the invariant -------------------------------------------------------

  /** The task is in the prompt loop of session `sid`, or past it. */
  predicate OnSession(pc: S.Pc, sid: string) {
    && !pc.Ready? && !pc.Ensuring?
    && (pc.Turn? ==> pc.sid == sid)
    && (pc.Writing? && pc.next.Check? ==> pc.next.sid == sid)
  }

  /** Our task still owes the rest of `full`. */
  ghost predicate OwnTaskOk(task: S.Task, sid: string, id: int, full: seq<S.Wire>, written: seq<S.Wire>) {
    && task.id == Num(id) && S.TaskOk(task) && OnSession(task.pc, sid)
    && written + S.Remaining(Num(id), task.pc) == full
  }

  ghost predicate AllForeign(tasks: seq<S.Task>, t: nat, sid: string, id: int) {
    forall u :: 0 <= u < |tasks| && u != t ==> Foreign(tasks[u], sid, id)
  }

  predicate NotCancelled(server: S.Server, sid: string) { sid in server.cancelled && !server.cancelled[sid] }

  /** The server side; nobody cancels our session. */
  ghost predicate ServerOk(server: S.Server, t: nat, sid: string, id: int, full: seq<S.Wire>, written: seq<S.Wire>) {
    && S.Inv(server) && t < |server.tasks|
    && OwnTaskOk(server.tasks[t], sid, id, full, written)
    && NotCancelled(server, sid)
    && AllForeign(server.tasks, t, sid, id)
  }

  /** Session `s` is registered under `sid` and under no other id. */
  ghost predicate Named(byId: map<string, nat>, s: nat, sid: string) {
    forall k :: k in byId && byId[k] == s <==> k == sid
  }

  ghost predicate NoSentinel(q: seq<C.QueueItem>) { C.Sentinel !in q }

  /** Our future is open and pending until the last of `full` arrives. */
  ghost predicate AnswerOk(answer: C.FutureState, pending: map<int, nat>, r: nat, full: seq<S.Wire>, received: seq<S.Wire>) {
    && received <= full && full != []
    && if |received| == |full| then answer == VerdictOf(full[|full| - 1])
       else answer == C.Open && r + 1 in pending && pending[r + 1] == r
  }

  ghost predicate PcOk(turn: T.Turn, full: seq<S.Wire>)
    requires full != []
  {
    && (turn.pc.Holding? ==> turn.pc.item.Event?)
    && (turn.pc.Over? ==>
          && turn.pc.byResponse
          && turn.yielded == Updates(full) + [T.Verdictive(VerdictOf(full[|full| - 1]))])
  }

  /** The client side. */
  ghost predicate ClientOk(sys: T.System, sid: string, full: seq<S.Wire>, received: seq<S.Wire>) {
    && T.SystemInv(sys)
    && Named(sys.c.byId, sys.turn.s, sid)
    && NoSentinel(T.Queue(sys))
    && AnswerOk(T.Answer(sys), sys.c.pending, sys.turn.r, full, received)
    && PcOk(sys.turn, full)
    && sys.enqueued == Updates(received)
  }

  ghost predicate ServerHalf(n: Net, full: seq<S.Wire>) {
    ServerOk(n.server, n.t, n.sid, RequestId(n), full, n.written)
  }

  /** The client and the pipe: what was written is received or still under way. */
  ghost predicate ClientHalf(n: Net, full: seq<S.Wire>) {
    && PromptShaped(full, Num(RequestId(n)), n.sid)
    && ClientOk(n.sys, n.sid, full, n.received)
    && n.received + Own(n.pipe, n.sid, RequestId(n)) == n.written
    && n.written <= full
  }

  ghost predicate NetInv(n: Net, full: seq<S.Wire>) { ServerHalf(n, full) && ClientHalf(n, full) }

  lemma {:induction false} OwnConcat(a: seq<S.Wire>, b: seq<S.Wire>, sid: string, id: int)
    ensures Own(a + b, sid, id) == Own(a, sid, id) + Own(b, sid, id)
  {
    if a == [] {
      assert a + b == b;
    } else {
      Seqs.Uncons(a, b);
      OwnConcat(a[1..], b, sid, id);
      Seqs.Regroup(if Ours(a[0], sid, id) then [a[0]] else [], Own(a[1..], sid, id), Own(b, sid, id));
    }
  }

  lemma OwnOne(w: S.Wire, sid: string, id: int)
    ensures Own([w], sid, id) == if Ours(w, sid, id) then [w] else []
  {
    assert [w][1..] == [];
  }

  // ---- the pipe as bytes ---------------------------------------------------

  function Objects(ws: seq<S.Wire>): seq<Object> {
    if ws == [] then [] else [S.ToObject(ws[0])] + Objects(ws[1..])
  }

  /**
   The pipe of messages stands for a stream of bytes: framing any run of server
   messages and reading it back gives the same messages if and only if each is
   within the reader's two limits.
   */
  lemma PipeOverBytes(c: F.Codec, lim: F.Limits, ws: seq<S.Wire>)
    requires F.AllDumped(c, Objects(ws))
    ensures F.Read(c, lim, F.EncodeAll(c, Objects(ws))) == F.Outcome(Objects(ws), F.Eof) <==> F.Fits(c, lim, Objects(ws))
  {
    F.ReadsBackExactly(c, lim, Objects(ws));
  }

  // ---- server steps --------------------------------------------------------

  lemma ForeignReply(code: int, message: string, result: Object, sid: string, task: Json, id: int)
    requires !SameId(task, id)
    ensures Foreign(S.Task(task, S.Fail(task, code, message)), sid, id)
    ensures Foreign(S.Task(task, S.Respond(task, result)), sid, id)
  {
  }

  lemma ForeignPrompt(server: S.Server, task: Json, params: Json, script: seq<RuntimeEvent>, end: S.TurnEnd, sid: string, id: int)
    requires NotCancelled(server, sid) && !SameId(task, id)
    requires !(params.Obj? && Get(params.fields, "sessionId") == Str(sid))
    ensures var (s1, pc) := S.HandlePrompt(server, task, params, script, end);
            Foreign(S.Task(task, pc), sid, id) && NotCancelled(s1, sid)
  {
  }

  lemma ForeignCancel(server: S.Server, task: Json, params: Json, sid: string, id: int)
    requires NotCancelled(server, sid) && !SameId(task, id)
    requires !(params.Obj? && Get(params.fields, "sessionId") == Str(sid))
    ensures var (s1, pc) := S.HandleCancel(server, task, params);
            Foreign(S.Task(task, pc), sid, id) && NotCancelled(s1, sid)
  {
  }

  lemma ForeignOthers(server: S.Server, task: Json, params: Json, sid: string, id: int)
    requires NotCancelled(server, sid) && !SameId(task, id)
    ensures var (s1, pc) := S.HandleInitialize(server, task, params);
            Foreign(S.Task(task, pc), sid, id) && NotCancelled(s1, sid)
    ensures var (s1, pc) := S.HandleNewSession(server, task, params);
            Foreign(S.Task(task, pc), sid, id) && NotCancelled(s1, sid)
  {
  }

  lemma ForeignBegin(server: S.Server, task: S.Task, sid: string, id: int)
    requires S.TaskOk(task) && task.pc.Ready? && Foreign(task, sid, id) && NotCancelled(server, sid)
    ensures var (s1, pc) := S.Begin(server, task.id, task.pc.msg, task.pc.script, task.pc.end);
            Foreign(task.(pc := pc), sid, id) && NotCancelled(s1, sid)
  {
    var params := Or(Get(task.pc.msg, "params"), Obj(map[]));
    ForeignReply(S.INVALID_REQUEST, "missing method", map[], sid, task.id, id);
    ForeignReply(S.METHOD_NOT_FOUND, "unknown method", map[], sid, task.id, id);
    ForeignOthers(server, task.id, params, sid, id);
    ForeignPrompt(server, task.id, params, task.pc.script, task.pc.end, sid, id);
    ForeignCancel(server, task.id, params, sid, id);
  }

  lemma ForeignOther(server: S.Server, st: S.Step, sid: string, id: int)
    requires S.TasksOk(server) && S.Enabled(server, st) && !st.Accept? && !st.Start?
    requires Foreign(server.tasks[st.t], sid, id)
    requires sid in server.cancelled && !server.cancelled[sid]
    ensures var s' := S.Apply(server, st);
            && Foreign(s'.tasks[st.t], sid, id)
            && sid in s'.cancelled && !s'.cancelled[sid]
    ensures Own(Output(server, st), sid, id) == []
  {
    var task := server.tasks[st.t];
    assert S.TaskOk(task);
    if st.Write? {
      OwnOne(task.pc.w, sid, id);
    }
  }

  lemma OthersUntouched(server: S.Server, st: S.Step, u: nat)
    requires S.Enabled(server, st) && u < |server.tasks| && (st.Accept? || st.t != u)
    ensures u < |S.Apply(server, st).tasks| && S.Apply(server, st).tasks[u] == server.tasks[u]
  {
  }

  lemma StaysOnSession(server: S.Server, task: S.Task, sid: string)
    requires OnSession(task.pc, sid)
    ensures task.pc.Turn? ==> OnSession(S.Pull(task.id, sid, task.pc.rest, task.pc.end, S.IsCancelled(server, sid)), sid)
    ensures task.pc.Writing? ==> OnSession(S.AfterWrite(server, task), sid)
  {
  }

  /** Our own task's step writes exactly the next message it owes. */
  lemma OwnTaskStep(server: S.Server, st: S.Step, t: nat, sid: string, id: int, full: seq<S.Wire>, written: seq<S.Wire>)
    requires t < |server.tasks| && OwnTaskOk(server.tasks[t], sid, id, full, written) && NotCancelled(server, sid)
    requires S.Enabled(server, st) && !st.Accept? && st.t == t
    ensures var s' := S.Apply(server, st);
            && t < |s'.tasks| && OwnTaskOk(s'.tasks[t], sid, id, full, written + Output(server, st))
            && s'.cancelled == server.cancelled
  {
    var task, s' := server.tasks[t], S.Apply(server, st);
    S.PromptStep(server, st, t);
    StaysOnSession(server, task, sid);
    if st.Write? {
      S.AfterWriteOk(server, task);
    } else {
      S.PullOk(task.id, sid, task.pc.rest, task.pc.end, false);
    }
    assert S.TaskOk(s'.tasks[t]) && OnSession(s'.tasks[t].pc, sid);
    Seqs.Regroup(written, Output(server, st), S.Remaining(Num(id), s'.tasks[t].pc));
  }

  /** What our task writes is ours. */
  lemma OwnOutput(task: S.Task, sid: string, id: int, full: seq<S.Wire>, written: seq<S.Wire>)
    requires OwnTaskOk(task, sid, id, full, written) && task.pc.Writing?
    ensures Ours(task.pc.w, sid, id)
  {
  }

  lemma OwnStep(server: S.Server, st: S.Step, t: nat, sid: string, id: int, full: seq<S.Wire>, written: seq<S.Wire>)
    requires ServerOk(server, t, sid, id, full, written)
    requires S.Enabled(server, st) && !st.Accept? && st.t == t
    ensures ServerOk(S.Apply(server, st), t, sid, id, full, written + Own(Output(server, st), sid, id))
  {
    S.StepKeepsInv(server, st);
    OwnTaskStep(server, st, t, sid, id, full, written);
    if st.Write? {
      OwnOutput(server.tasks[t], sid, id, full, written);
      OwnOne(server.tasks[t].pc.w, sid, id);
    }
    assert Own(Output(server, st), sid, id) == Output(server, st);
    OwnLeavesOthers(server, st, t, sid, id);
  }

  lemma OwnLeavesOthers(server: S.Server, st: S.Step, t: nat, sid: string, id: int)
    requires S.Enabled(server, st) && !st.Accept? && st.t == t && AllForeign(server.tasks, t, sid, id)
    ensures AllForeign(S.Apply(server, st).tasks, t, sid, id)
  {
    var s' := S.Apply(server, st);
    forall u | 0 <= u < |s'.tasks| && u != t ensures Foreign(s'.tasks[u], sid, id) {
      OthersUntouched(server, st, u);
    }
  }

  lemma StaysForeign(server: S.Server, st: S.Step, t: nat, sid: string, id: int)
    requires S.TasksOk(server) && t < |server.tasks| && AllForeign(server.tasks, t, sid, id)
    requires sid in server.cancelled && !server.cancelled[sid]
    requires S.Enabled(server, st) && !st.Accept? && st.t != t
    ensures var s' := S.Apply(server, st);
            && AllForeign(s'.tasks, t, sid, id)
            && sid in s'.cancelled && !s'.cancelled[sid]
    ensures Own(Output(server, st), sid, id) == []
  {
    var s' := S.Apply(server, st);
    assert S.TaskOk(server.tasks[st.t]);
    if st.Start? {
      ForeignBegin(server, server.tasks[st.t], sid, id);
    } else {
      ForeignOther(server, st, sid, id);
    }
    forall u | 0 <= u < |s'.tasks| && u != t ensures Foreign(s'.tasks[u], sid, id) {
      if u != st.t { OthersUntouched(server, st, u); }
    }
  }

  lemma OtherStep(server: S.Server, st: S.Step, t: nat, sid: string, id: int, full: seq<S.Wire>, written: seq<S.Wire>)
    requires ServerOk(server, t, sid, id, full, written)
    requires S.Enabled(server, st) && (st.Accept? || st.t != t)
    requires st.Accept? ==> Foreign(S.Task(Get(st.msg, "id"), S.Ready(st.msg, st.script, st.end)), sid, id)
    ensures ServerOk(S.Apply(server, st), t, sid, id, full, written)
    ensures Own(Output(server, st), sid, id) == []
  {
    S.StepKeepsInv(server, st);
    OthersUntouched(server, st, t);
    if !st.Accept? {
      StaysForeign(server, st, t, sid, id);
    }
  }

  lemma AnyServerStep(server: S.Server, st: S.Step, t: nat, sid: string, id: int, full: seq<S.Wire>, written: seq<S.Wire>)
    requires ServerOk(server, t, sid, id, full, written) && S.Enabled(server, st)
    requires st.Accept? ==> Foreign(S.Task(Get(st.msg, "id"), S.Ready(st.msg, st.script, st.end)), sid, id)
    ensures ServerOk(S.Apply(server, st), t, sid, id, full, written + Own(Output(server, st), sid, id))
  {
    if !st.Accept? && st.t == t {
      OwnStep(server, st, t, sid, id, full, written);
    } else {
      OtherStep(server, st, t, sid, id, full, written);
      assert written + [] == written;
    }
  }

  /** Writing to the pipe adds to what is under way exactly what is ours. */
  lemma PipeTail(pipe: seq<S.Wire>, out: seq<S.Wire>, sid: string, id: int, received: seq<S.Wire>)
    ensures received + Own(pipe + out, sid, id) == (received + Own(pipe, sid, id)) + Own(out, sid, id)
  {
    OwnConcat(pipe, out, sid, id);
    Seqs.Regroup(received, Own(pipe, sid, id), Own(out, sid, id));
  }

  lemma ServerStepServer(n: Net, full: seq<S.Wire>, st: S.Step)
    requires ServerHalf(n, full) && NetEnabled(n, Server(st))
    ensures ServerHalf(NetApply(n, Server(st)), full)
    ensures NetApply(n, Server(st)).written <= full
  {
    AnyServerStep(n.server, st, n.t, n.sid, RequestId(n), full, n.written);
  }

  lemma ServerStepClient(n: Net, full: seq<S.Wire>, st: S.Step)
    requires ClientHalf(n, full) && NetEnabled(n, Server(st)) && NetApply(n, Server(st)).written <= full
    ensures ClientHalf(NetApply(n, Server(st)), full)
  {
    PipeTail(n.pipe, Output(n.server, st), n.sid, RequestId(n), n.received);
  }

  /** Only server steps touch the server. */
  lemma OtherStepServer(n: Net, full: seq<S.Wire>, step: NetStep)
    requires ServerHalf(n, full) && NetEnabled(n, step) && !step.Server?
    ensures ServerHalf(NetApply(n, step), full)
  {
  }

  // ---- reader steps --------------------------------------------------------

  lemma WireKeys()
    ensures "id" != "error" && "id" != "result" && "result" != "error" && "id" != "jsonrpc" && "result" != "jsonrpc"
    ensures "error" != "jsonrpc" && "method" != "id" && "method" != "jsonrpc" && "params" != "jsonrpc"
    ensures "method" != "params" && "method" != "result" && "method" != "error" && "params" != "id"
    ensures "result" != "params" && "error" != "params" && "sessionId" != "update" && "code" != "message"
  {
    assert |"id"| == 2 && |"error"| == 5 && |"jsonrpc"| == 7 && |"sessionId"| == 9 && |"code"| == 4 && |"message"| == 7;
    assert |"result"| == |"method"| == |"params"| == |"update"| == 6;
    assert "method"[0] == 'm' && "params"[0] == 'p' && "result"[0] == 'r';
  }

  lemma DispatchUpdateWire(c: C.Client, w: S.Wire)
    requires C.Inv(c) && w.Update?
    ensures C.Dispatch(c, S.ToObject(w)) == C.Outcome(
              if w.sid in c.byId && ProjectUpdate(w.update).Some?
              then C.Push(c, c.byId[w.sid], C.Event(ProjectUpdate(w.update).value)) else c, false)
  {
    WireKeys();
    var msg := S.ToObject(w);
    assert !C.IsResponse(msg);
    var params := Get(msg, "params");
    assert Truthy(params) by { assert "update" in params.fields; }
    assert Or(Get(params.fields, "update"), Obj(map[])) == Obj(w.update);
  }

  lemma DispatchReplyWire(c: C.Client, w: S.Wire)
    requires C.Inv(c) && w.IsReply()
    ensures C.IsResponse(S.ToObject(w)) && Get(S.ToObject(w), "id") == w.id
    ensures C.Verdict(c.ints, S.ToObject(w)) == Some(VerdictOf(w))
    ensures !C.Dispatch(c, S.ToObject(w)).crashed
  {
    WireKeys();
    var msg := S.ToObject(w);
    if w.ErrorReply? {
      var err := Get(msg, "error");
      assert "code" in err.fields && "message" in err.fields;
      assert Truthy(err);
    } else {
      assert Get(msg, "error") == Null;
    }
  }

  /** A message for somebody else leaves our session, future and request as they are. */
  ghost predicate Undisturbed(c: C.Client, c': C.Client, s: nat, r: nat, sid: string)
    requires s < |c.sessions| && r < |c.futures|
  {
    && s < |c'.sessions| && c'.sessions[s] == c.sessions[s]
    && r < |c'.futures| && c'.futures[r] == c.futures[r]
    && (r + 1 in c.pending ==> r + 1 in c'.pending && c'.pending[r + 1] == c.pending[r + 1])
    && (Named(c.byId, s, sid) ==> Named(c'.byId, s, sid))
  }

  lemma ForeignUpdate(c: C.Client, w: S.Wire, s: nat, r: nat, sid: string)
    requires C.Inv(c) && s < |c.sessions| && r < |c.futures| && Named(c.byId, s, sid)
    requires w.Update? && w.sid != sid
    ensures Undisturbed(c, C.Apply(c, C.Message(S.ToObject(w))), s, r, sid)
  {
    DispatchUpdateWire(c, w);
  }

  lemma ForeignResponse(c: C.Client, w: S.Wire, s: nat, r: nat, sid: string)
    requires C.Inv(c) && s < |c.sessions| && r < |c.futures|
    requires w.IsReply() && !SameId(w.id, r + 1)
    ensures Undisturbed(c, C.Apply(c, C.Message(S.ToObject(w))), s, r, sid)
  {
    DispatchReplyWire(c, w);
  }

  lemma ForeignMessage(c: C.Client, w: S.Wire, s: nat, r: nat, sid: string)
    requires C.Inv(c) && s < |c.sessions| && r < |c.futures| && Named(c.byId, s, sid)
    requires !Ours(w, sid, r + 1)
    ensures Undisturbed(c, C.Apply(c, C.Message(S.ToObject(w))), s, r, sid)
  {
    if w.Update? { ForeignUpdate(c, w, s, r, sid); } else { ForeignResponse(c, w, s, r, sid); }
  }

  lemma UndisturbedApply(sys: T.System, step: C.Step, sid: string)
    requires T.SystemInv(sys) && T.SystemEnabled(sys, T.OfClient(step))
    requires Undisturbed(sys.c, C.Apply(sys.c, step), sys.turn.s, sys.turn.r, sid)
    ensures var sys' := T.ClientApply(sys, step);
            && sys'.enqueued == sys.enqueued && T.Queue(sys') == T.Queue(sys) && T.Answer(sys') == T.Answer(sys)
  {
    var sys' := T.ClientApply(sys, step);
    assert T.Queue(sys')[|T.Queue(sys)|..] == [];
    assert sys.enqueued + [] == sys.enqueued;
  }

  lemma UndisturbedKeepsClientOk(sys: T.System, step: C.Step, sid: string, full: seq<S.Wire>, received: seq<S.Wire>)
    requires ClientOk(sys, sid, full, received) && T.SystemEnabled(sys, T.OfClient(step))
    requires Undisturbed(sys.c, C.Apply(sys.c, step), sys.turn.s, sys.turn.r, sid)
    ensures ClientOk(T.ClientApply(sys, step), sid, full, received)
  {
    UndisturbedApply(sys, step, sid);
    T.ClientStepKeepsInv(sys, step);
  }

  lemma UpdatesMore(received: seq<S.Wire>, w: S.Wire)
    ensures Updates(received + [w]) == Updates(received) + Incoming(w)
  {
    UpdatesConcat(received, [w]);
    assert [w][1..] == [];
    assert Updates([w]) == Incoming(w) + [];
  }

  /** What the client puts on the queue for an update. */
  function Arrival(w: S.Wire): seq<C.QueueItem>
    requires w.Update?
  {
    if ProjectUpdate(w.update).Some? then [C.Event(ProjectUpdate(w.update).value)] else []
  }

  lemma ArrivalEvents(w: S.Wire)
    requires w.Update?
    ensures T.Events(Arrival(w)) == Incoming(w)
  {
    if Arrival(w) != [] { T.EventsCons(Arrival(w)); }
    assert Arrival(w) != [] ==> Arrival(w)[1..] == [];
  }

  /** Our update in the client's state. */
  lemma OwnUpdateClient(c: C.Client, w: S.Wire, s: nat, sid: string)
    requires C.Inv(c) && s < |c.sessions| && Named(c.byId, s, sid) && w.Update? && w.sid == sid
    ensures var c' := C.Apply(c, C.Message(S.ToObject(w)));
            && |c'.sessions| == |c.sessions| && c'.sessions[s].queue == c.sessions[s].queue + Arrival(w)
            && c'.futures == c.futures && c'.pending == c.pending && c'.byId == c.byId
  {
    DispatchUpdateWire(c, w);
    assert sid in c.byId && c.byId[sid] == s;
  }

  /** Our update reaches the end of our queue, and nothing else changes for us. */
  lemma OwnUpdateEffect(sys: T.System, w: S.Wire, sid: string)
    requires C.Inv(sys.c) && sys.turn.s < |sys.c.sessions| && sys.turn.r < |sys.c.futures|
    requires Named(sys.c.byId, sys.turn.s, sid) && w.Update? && w.sid == sid
    ensures var sys' := T.ClientApply(sys, C.Message(S.ToObject(w)));
            && sys'.turn == sys.turn && |sys'.c.sessions| == |sys.c.sessions|
            && sys'.c.futures == sys.c.futures && sys'.c.pending == sys.c.pending && sys'.c.byId == sys.c.byId
            && sys'.enqueued == sys.enqueued + Incoming(w)
            && T.Queue(sys') == T.Queue(sys) + Arrival(w)
  {
    OwnUpdateClient(sys.c, w, sys.turn.s, sid);
    ArrivalEvents(w);
    var q := T.Queue(sys);
    assert (q + Arrival(w))[|q|..] == Arrival(w);
  }

  lemma AnswerLater(answer: C.FutureState, pending: map<int, nat>, r: nat, full: seq<S.Wire>, received: seq<S.Wire>, w: S.Wire)
    requires AnswerOk(answer, pending, r, full, received) && |received| + 1 < |full| && full[|received|] == w
    ensures AnswerOk(answer, pending, r, full, received + [w])
  {
  }

  lemma AnswerNow(answer: C.FutureState, pending: map<int, nat>, r: nat, full: seq<S.Wire>, received: seq<S.Wire>, w: S.Wire)
    requires received <= full && |received| + 1 == |full| && full[|received|] == w && answer == VerdictOf(w)
    ensures AnswerOk(answer, pending, r, full, received + [w])
  {
    assert received + [w] == full;
  }

  lemma OwnUpdate(sys: T.System, w: S.Wire, sid: string, full: seq<S.Wire>, received: seq<S.Wire>)
    requires ClientOk(sys, sid, full, received)
    requires w.Update? && w.sid == sid && |received| + 1 < |full| && full[|received|] == w
    ensures ClientOk(T.ClientApply(sys, C.Message(S.ToObject(w))), sid, full, received + [w])
  {
    T.ClientStepKeepsInv(sys, C.Message(S.ToObject(w)));
    OwnUpdateEffect(sys, w, sid);
    UpdatesMore(received, w);
    AnswerLater(T.Answer(sys), sys.c.pending, sys.turn.r, full, received, w);
  }

  /** Our reply in the client's state. */
  lemma OwnReplyClient(c: C.Client, w: S.Wire, s: nat, r: nat)
    requires C.Inv(c) && s < |c.sessions| && r < |c.futures| && w.IsReply() && SameId(w.id, r + 1)
    requires c.futures[r].st == C.Open && r + 1 in c.pending && c.pending[r + 1] == r
    ensures var c' := C.Apply(c, C.Message(S.ToObject(w)));
            && c'.sessions == c.sessions && c'.byId == c.byId && |c'.futures| == |c.futures|
            && c'.futures[r].st == VerdictOf(w)
  {
    DispatchReplyWire(c, w);
  }

  /** Our reply completes our future and leaves our queue alone. */
  lemma OwnReplyEffect(sys: T.System, w: S.Wire)
    requires C.Inv(sys.c) && sys.turn.s < |sys.c.sessions| && sys.turn.r < |sys.c.futures|
    requires w.IsReply() && SameId(w.id, sys.turn.r + 1)
    requires T.Answer(sys) == C.Open && sys.turn.r + 1 in sys.c.pending && sys.c.pending[sys.turn.r + 1] == sys.turn.r
    ensures var sys' := T.ClientApply(sys, C.Message(S.ToObject(w)));
            && sys'.turn == sys.turn && sys'.c.sessions == sys.c.sessions && |sys'.c.futures| == |sys.c.futures|
            && sys'.c.byId == sys.c.byId && sys'.enqueued == sys.enqueued && T.Answer(sys') == VerdictOf(w)
  {
    OwnReplyClient(sys.c, w, sys.turn.s, sys.turn.r);
    assert T.Queue(sys)[|T.Queue(sys)|..] == [];
    assert sys.enqueued + [] == sys.enqueued;
  }

  lemma ReplyLands(sys: T.System, sys': T.System, w: S.Wire, sid: string, full: seq<S.Wire>, received: seq<S.Wire>)
    requires ClientOk(sys, sid, full, received) && T.SystemInv(sys') && sys'.turn == sys.turn
    requires sys'.c.sessions == sys.c.sessions && sys'.c.byId == sys.c.byId && sys'.enqueued == sys.enqueued
    requires w.IsReply() && |received| + 1 == |full| && full[|received|] == w && T.Answer(sys') == VerdictOf(w)
    ensures ClientOk(sys', sid, full, received + [w])
  {
    UpdatesMore(received, w);
    Seqs.AppendNothing(Updates(received));
    AnswerNow(VerdictOf(w), sys'.c.pending, sys.turn.r, full, received, w);
  }

  lemma OwnReply(sys: T.System, w: S.Wire, sid: string, full: seq<S.Wire>, received: seq<S.Wire>)
    requires ClientOk(sys, sid, full, received)
    requires w.IsReply() && SameId(w.id, sys.turn.r + 1) && |received| + 1 == |full| && full[|received|] == w
    ensures ClientOk(T.ClientApply(sys, C.Message(S.ToObject(w))), sid, full, received + [w])
  {
    T.ClientStepKeepsInv(sys, C.Message(S.ToObject(w)));
    OwnReplyEffect(sys, w);
    ReplyLands(sys, T.ClientApply(sys, C.Message(S.ToObject(w))), w, sid, full, received);
  }

  /** The next message of ours to arrive is the next one of the prompt's output. */
  lemma NextIsOurs(
    received: seq<S.Wire>, later: seq<S.Wire>, written: seq<S.Wire>, full: seq<S.Wire>, w: S.Wire, id: int, sid: string)
    requires written <= full && PromptShaped(full, Num(id), sid)
    requires (received + [w]) + later == written
    ensures |received| < |full| && full[|received|] == w
    ensures w.Update? ==> |received| + 1 < |full|
    ensures !w.Update? ==> |received| + 1 == |full|
  {
    assert written[|received|] == w;
  }

  lemma OwnArrives(
    sys: T.System, w: S.Wire, sid: string, full: seq<S.Wire>, received: seq<S.Wire>, later: seq<S.Wire>, written: seq<S.Wire>)
    requires ClientOk(sys, sid, full, received) && PromptShaped(full, Num(sys.turn.r + 1), sid)
    requires Ours(w, sid, sys.turn.r + 1) && written <= full && (received + [w]) + later == written
    ensures ClientOk(T.ClientApply(sys, C.Message(S.ToObject(w))), sid, full, received + [w])
  {
    NextIsOurs(received, later, written, full, w, sys.turn.r + 1, sid);
    if w.Update? {
      OwnUpdate(sys, w, sid, full, received);
    } else {
      OwnReply(sys, w, sid, full, received);
    }
  }

  lemma ForeignArrives(sys: T.System, w: S.Wire, sid: string, full: seq<S.Wire>, received: seq<S.Wire>)
    requires ClientOk(sys, sid, full, received) && !Ours(w, sid, sys.turn.r + 1)
    ensures ClientOk(T.ClientApply(sys, C.Message(S.ToObject(w))), sid, full, received)
  {
    ForeignMessage(sys.c, w, sys.turn.s, sys.turn.r, sid);
    UndisturbedKeepsClientOk(sys, C.Message(S.ToObject(w)), sid, full, received);
  }

  /** Taking a message off the pipe moves it, if it is ours, from the pipe to what was received. */
  lemma PipeHead(pipe: seq<S.Wire>, sid: string, id: int, received: seq<S.Wire>)
    requires pipe != []
    ensures Own([pipe[0]], sid, id) == if Ours(pipe[0], sid, id) then [pipe[0]] else []
    ensures received + Own(pipe, sid, id) == (received + Own([pipe[0]], sid, id)) + Own(pipe[1..], sid, id)
    ensures received + [] == received
  {
    OwnConcat([pipe[0]], pipe[1..], sid, id);
    OwnOne(pipe[0], sid, id);
    assert [pipe[0]] + pipe[1..] == pipe;
    Seqs.Regroup(received, Own([pipe[0]], sid, id), Own(pipe[1..], sid, id));
  }

  lemma ReadFrame(n: Net)
    requires NetEnabled(n, Read)
    ensures var n' := NetApply(n, Read);
            && n'.sys == T.ClientApply(n.sys, C.Message(S.ToObject(n.pipe[0]))) && n'.sys.turn == n.sys.turn
            && n'.pipe == n.pipe[1..] && n'.received == n.received + Own([n.pipe[0]], n.sid, RequestId(n))
            && n'.server == n.server && n'.t == n.t && n'.written == n.written && n'.sid == n.sid
  {
  }

  /** The head of the pipe arrives at the client. */
  lemma HeadArrives(
    sys: T.System, pipe: seq<S.Wire>, sid: string, full: seq<S.Wire>, received: seq<S.Wire>, written: seq<S.Wire>)
    requires pipe != [] && ClientOk(sys, sid, full, received) && PromptShaped(full, Num(sys.turn.r + 1), sid)
    requires received + Own(pipe, sid, sys.turn.r + 1) == written && written <= full
    ensures var more := received + Own([pipe[0]], sid, sys.turn.r + 1);
            && ClientOk(T.ClientApply(sys, C.Message(S.ToObject(pipe[0]))), sid, full, more)
            && more + Own(pipe[1..], sid, sys.turn.r + 1) == written
  {
    var w, id := pipe[0], sys.turn.r + 1;
    PipeHead(pipe, sid, id, received);
    if Ours(w, sid, id) {
      OwnArrives(sys, w, sid, full, received, Own(pipe[1..], sid, id), written);
    } else {
      ForeignArrives(sys, w, sid, full, received);
    }
  }

  lemma ReadKeepsClient(n: Net, full: seq<S.Wire>)
    requires ClientHalf(n, full) && NetEnabled(n, Read)
    ensures ClientHalf(NetApply(n, Read), full)
  {
    ReadFrame(n);
    HeadArrives(n.sys, n.pipe, n.sid, full, n.received, n.written);
  }

  // ---- consumer steps ------------------------------------------------------

  lemma ConsumerFinish(sys: T.System, sid: string, full: seq<S.Wire>, received: seq<S.Wire>)
    requires ClientOk(sys, sid, full, received) && T.TurnEnabled(sys, T.Finish)
    ensures ClientOk(T.TurnApply(sys, T.Finish), sid, full, received)
  {
    T.TurnStepKeepsInv(sys, T.Finish);
    assert |received| == |full| && received == full;
    T.NothingHeld(sys.turn, T.Queue(sys));
    assert sys.turn.yielded + [] == sys.turn.yielded;
    assert sys.turn.yielded == Updates(full);
  }

  lemma NoSentinelTail(q: seq<C.QueueItem>)
    requires NoSentinel(q) && q != []
    ensures q[0].Event? && NoSentinel(q[1..])
  {
    assert q[0] in q;
  }

  lemma ConsumerPops(sys: T.System, ts: T.TurnStep, sid: string, full: seq<S.Wire>, received: seq<S.Wire>)
    requires ClientOk(sys, sid, full, received) && T.TurnEnabled(sys, ts) && (ts.ReadQueue? || ts.DrainOne?)
    ensures ClientOk(T.TurnApply(sys, ts), sid, full, received)
  {
    T.TurnStepKeepsInv(sys, ts);
    var sys' := T.TurnApply(sys, ts);
    NoSentinelTail(T.Queue(sys));
    assert T.Queue(sys') == T.Queue(sys)[1..];
    assert sys'.c.byId == sys.c.byId && sys'.c.futures == sys.c.futures && sys'.c.pending == sys.c.pending;
  }

  lemma ConsumerKeepsOk(sys: T.System, ts: T.TurnStep, sid: string, full: seq<S.Wire>, received: seq<S.Wire>)
    requires ClientOk(sys, sid, full, received) && T.TurnEnabled(sys, ts) && !ts.SendFails?
    ensures ClientOk(T.TurnApply(sys, ts), sid, full, received)
    ensures T.TurnApply(sys, ts).turn.r == sys.turn.r
  {
    match ts
    case Finish => ConsumerFinish(sys, sid, full, received);
    case ReadQueue => ConsumerPops(sys, ts, sid, full, received);
    case DrainOne => ConsumerPops(sys, ts, sid, full, received);
    case _ => T.TurnStepKeepsInv(sys, ts);
  }

  // ---- the rest of the client ----------------------------------------------

  lemma HarmlessUndisturbed(n: Net, step: C.Step)
    requires C.Inv(n.sys.c) && n.sys.turn.s < |n.sys.c.sessions| && n.sys.turn.r < |n.sys.c.futures|
    requires Named(n.sys.c.byId, n.sys.turn.s, n.sid) && Harmless(n, step)
    ensures Undisturbed(n.sys.c, C.Apply(n.sys.c, step), n.sys.turn.s, n.sys.turn.r, n.sid)
  {
  }

  /** A step of the client alone. */
  lemma ClientHalfKept(n: Net, sys: T.System, full: seq<S.Wire>)
    requires ClientHalf(n, full) && ClientOk(sys, n.sid, full, n.received) && sys.turn.r == n.sys.turn.r
    ensures ClientHalf(n.(sys := sys), full)
  {
  }

  lemma ConsumerKeepsClient(n: Net, full: seq<S.Wire>, ts: T.TurnStep)
    requires ClientHalf(n, full) && NetEnabled(n, Consumer(ts))
    ensures ClientHalf(NetApply(n, Consumer(ts)), full)
  {
    ConsumerKeepsOk(n.sys, ts, n.sid, full, n.received);
    ClientHalfKept(n, T.TurnApply(n.sys, ts), full);
  }

  lemma RestKeepsClient(n: Net, full: seq<S.Wire>, st: C.Step)
    requires ClientHalf(n, full) && NetEnabled(n, Client(st))
    ensures ClientHalf(NetApply(n, Client(st)), full)
  {
    HarmlessUndisturbed(n, st);
    UndisturbedKeepsClientOk(n.sys, st, n.sid, full, n.received);
    ClientHalfKept(n, T.ClientApply(n.sys, st), full);
  }

  lemma StepKeepsInv(n: Net, full: seq<S.Wire>, step: NetStep)
    requires NetInv(n, full) && NetEnabled(n, step)
    ensures NetInv(NetApply(n, step), full)
  {
    if step.Server? {
      ServerStepServer(n, full, step.st);
    } else {
      OtherStepServer(n, full, step);
    }
    match step
    case Server(st) => ServerStepClient(n, full, st);
    case Read => ReadKeepsClient(n, full);
    case Consumer(ts) => ConsumerKeepsClient(n, full, ts);
    case Client(st) => RestKeepsClient(n, full, st);
  }

  lemma {:induction false} RunKeepsInv(n: Net, full: seq<S.Wire>, steps: seq<NetStep>, n': Net)
    requires NetInv(n, full) && Executes(n, steps, n')
    ensures NetInv(n', full)
    decreases |steps|
  {
    if steps != [] {
      StepKeepsInv(n, full, steps[0]);
      RunKeepsInv(NetApply(n, steps[0]), full, steps[1..], n');
    }
  }

  // ---- transparency --------------------------------------------------------

  /** `request_envelope` of the prompt `_run_turn` sends. */
  function PromptEnvelope(id: int, sid: string, text: string): Object {
    map["jsonrpc" := Str("2.0"), "id" := Num(id), "method" := Str("session/prompt"),
        "params" := Obj(map["sessionId" := Str(sid),
                            "prompt" := Arr([Obj(map["type" := Str("text"), "text" := Str(text)])])])]
  }

  /** The server task that takes the client's prompt in starts a turn on its session. */
  lemma PromptStartsTurn(
    server: S.Server, id: int, sid: string, text: string, script: seq<RuntimeEvent>, end: S.TurnEnd)
    requires sid in server.cancelled
    ensures S.Begin(server, Get(PromptEnvelope(id, sid, text), "id"), PromptEnvelope(id, sid, text), script, end) ==
            (server.(cancelled := server.cancelled[sid := false]), S.Turn(sid, script, end))
  {
    WireKeys();
    var msg := PromptEnvelope(id, sid, text);
    var params := Get(msg, "params");
    assert |"sessionId"| == 9 && |"prompt"| == 6 && |"session/prompt"| == 14 && |"session/new"| == 11 && |"initialize"| == 10;
    assert "sessionId" in params.fields && Truthy(params);
    var block := params.fields["prompt"].items[0];
    assert "type"[1] == 'y' && "text"[1] == 'e';
    assert block.fields.Keys == {"type", "text"} && S.ValidBlock(block);
    assert params.fields.Keys == {"sessionId", "prompt"};
    assert S.ValidPrompt(params);
  }

  /** The turn has just been started on the session registered under `sid`. */
  ghost predicate FreshTurn(sys: T.System, sid: string) {
    exists c: C.Client :: BeginsOn(c, sys, sid)
  }

  ghost predicate BeginsOn(c: C.Client, sys: T.System, sid: string) {
    C.Inv(c) && sys.turn.s < |c.sessions| && Named(c.byId, sys.turn.s, sid) && sys == T.Begin(c, sys.turn.s)
  }

  /**
   The server has taken the prompt in and started its turn, the client is sending
   it, and nothing of ours is in the pipe yet.
   */
  ghost predicate Starts(n: Net, script: seq<RuntimeEvent>, end: S.TurnEnd) {
    && S.Inv(n.server) && n.t < |n.server.tasks|
    && n.server.tasks[n.t] == S.Task(Num(RequestId(n)), S.Turn(n.sid, script, end))
    && NotCancelled(n.server, n.sid)
    && AllForeign(n.server.tasks, n.t, n.sid, RequestId(n))
    && Own(n.pipe, n.sid, RequestId(n)) == []
    && FreshTurn(n.sys, n.sid)
    && n.written == [] && n.received == []
  }

  // ---- the start is reachable ----------------------------------------------

  /** A `session/new` request with the least parameters. */
  function NewSessionEnvelope(id: int): Object {
    map["jsonrpc" := Str("2.0"), "id" := Num(id), "method" := Str("session/new"), "params" := Obj(map["cwd" := Str("/")])]
  }

  lemma NewSessionBegins(server: S.Server, id: int)
    ensures S.Begin(server, Num(id), NewSessionEnvelope(id), [], S.Ends) ==
            (server.(counter := server.counter + 1), S.Ensuring)
  {
    WireKeys();
    var msg := NewSessionEnvelope(id);
    var params := Get(msg, "params");
    assert |"cwd"| == 3 && |"session/new"| == 11 && |"initialize"| == 10 && |"_meta"| == 5;
    assert "cwd" in params.fields && Truthy(params);
    assert params.fields.Keys == {"cwd"} && S.ValidNewSession(params);
    assert Get(params.fields, "_meta") == Null && S.GivenKey(params) == Null;
  }

  /** The server once the first session exists and the client's second request is answered. */
  lemma ServerWithSession() returns (server: S.Server)
    ensures S.Inv(server) && server.tasks == [S.Task(Num(2), S.Over)]
    ensures NotCancelled(server, S.SessionId(2))
  {
    var s0 := S.Init();
    var s1 := S.Apply(s0, S.Accept(NewSessionEnvelope(2), [], S.Ends));
    S.StepKeepsInv(s0, S.Accept(NewSessionEnvelope(2), [], S.Ends));
    WireKeys();
    NewSessionBegins(s1, 2);
    var s2 := S.Apply(s1, S.Start(0));
    S.StepKeepsInv(s1, S.Start(0));
    assert s2.tasks[0] == S.Task(Num(2), S.Ensuring);
    var s3 := S.Apply(s2, S.EnsureDone(0, true));
    S.StepKeepsInv(s2, S.EnsureDone(0, true));
    server := S.Apply(s3, S.Write(0));
    S.StepKeepsInv(s3, S.Write(0));
    assert server.tasks == [S.Task(Num(2), S.Over)];
  }

  /** The client after `initialize`, `session/new` and the registration of the session. */
  lemma ClientWithSession(ints: C.IntParser, sid: string) returns (c: C.Client)
    ensures C.Inv(c) && |c.sessions| == 1 && |c.futures| == 2 && Named(c.byId, 0, sid)
  {
    var c1 := C.Allocate(C.Allocate(C.Init(ints)));
    C.AllocateKeepsInv(C.Init(ints));
    C.AllocateKeepsInv(C.Allocate(C.Init(ints)));
    C.StepKeepsInv(c1, C.DoRegister("key", sid));
    c := C.Register(c1, "key", sid);
  }

  /** The server once it has taken the prompt in. */
  lemma ServerInTurn(text: string, script: seq<RuntimeEvent>, end: S.TurnEnd) returns (server: S.Server)
    ensures S.Inv(server) && NotCancelled(server, S.SessionId(2))
    ensures server.tasks == [S.Task(Num(2), S.Over), S.Task(Num(3), S.Turn(S.SessionId(2), script, end))]
  {
    var sid := S.SessionId(2);
    var s1 := ServerWithSession();
    var msg := PromptEnvelope(3, sid, text);
    WireKeys();
    assert Get(msg, "id") == Num(3);
    var s2 := S.Apply(s1, S.Accept(msg, script, end));
    S.AcceptKeepsInv(s1, msg, script, end);
    assert s2.tasks[1] == S.Task(Num(3), S.Ready(msg, script, end));
    PromptStartsTurn(s2, 3, sid, text, script, end);
    server := S.Apply(s2, S.Start(1));
    S.StartKeepsInv(s2, 1);
    assert server.tasks == [S.Task(Num(2), S.Over), S.Task(Num(3), S.Turn(sid, script, end))];
  }

  /**
   A handshake, a new session and a prompt lead both ends to a state in which the
   turn starts, for any text and whatever the backend is going to do.
   */
  lemma StartIsReachable(ints: C.IntParser, text: string, script: seq<RuntimeEvent>, end: S.TurnEnd) returns (n: Net)
    ensures Starts(n, script, end) && RequestId(n) == 3
  {
    var sid := S.SessionId(2);
    var server := ServerInTurn(text, script, end);
    var c := ClientWithSession(ints, sid);
    n := Net(server, 1, sid, [], T.Begin(c, 0), [], []);
    assert BeginsOn(c, n.sys, sid);
    assert AllForeign(server.tasks, 1, sid, 3);
  }

  lemma FreshClientOk(c: C.Client, sys: T.System, sid: string, full: seq<S.Wire>)
    requires BeginsOn(c, sys, sid) && full != []
    ensures ClientOk(sys, sid, full, [])
  {
    T.BeginInv(c, sys.turn.s);
  }

  lemma StartKeepsInv(n: Net, script: seq<RuntimeEvent>, end: S.TurnEnd)
    requires Starts(n, script, end)
    ensures NetInv(n, S.Uncancelled(Num(RequestId(n)), n.sid, script, end))
  {
    var full := S.Uncancelled(Num(RequestId(n)), n.sid, script, end);
    UncancelledShape(Num(RequestId(n)), n.sid, script, end);
    var c: C.Client :| BeginsOn(c, n.sys, n.sid);
    FreshClientOk(c, n.sys, n.sid, full);
    assert [] + full == full;
  }

  lemma UpdatesPrefix(a: seq<S.Wire>, b: seq<S.Wire>)
    requires a <= b
    ensures Updates(a) <= Updates(b)
  {
    UpdatesConcat(a, b[|a|..]);
    assert a + b[|a|..] == b;
  }

  lemma StreamSoFar(sys: T.System, sid: string, full: seq<S.Wire>, received: seq<S.Wire>, expected: seq<ClientEvent>)
    requires ClientOk(sys, sid, full, received) && Means(full, expected)
    ensures sys.turn.yielded <= expected
    ensures sys.turn.pc.Over? <==> sys.turn.yielded == expected
  {
    if !sys.turn.pc.Over? {
      UpdatesPrefix(received, full);
      assert sys.turn.yielded <= sys.enqueued;
    }
  }

  /**
   With one prompt in flight on a session, an intact pipe and no cancel, every
   interleaving of server tasks, pipe, reader, consumer and the rest of the client
   shows the consumer a prefix of `Expected`, and a finished turn exactly `Expected`.
   */
  lemma Transparency(n: Net, script: seq<RuntimeEvent>, end: S.TurnEnd, steps: seq<NetStep>, n': Net)
    requires Starts(n, script, end) && Executes(n, steps, n')
    ensures n'.sys.turn.yielded <= Expected(script, end)
    ensures n'.sys.turn.pc.Over? <==> n'.sys.turn.yielded == Expected(script, end)
  {
    var full := S.Uncancelled(Num(RequestId(n)), n.sid, script, end);
    StartKeepsInv(n, script, end);
    RunKeepsInv(n, full, steps, n');
    OutputMeaning(Num(RequestId(n)), n.sid, script, end);
    StreamSoFar(n'.sys, n'.sid, full, n'.received, Expected(script, end));
  }

  // ---- progress ------------------------------------------------------------

  function PcWeight(pc: T.Pc): nat {
    match pc
    case Sending => 3
    case Waiting => 2
    case Holding(_) => 4
    case Yielded => 3
    case Draining => 1
    case Over(_) => 0
  }

  /** Bounds the steps left when the server accepts nothing new and the rest of the client is quiet. */
  function Rank(n: Net): nat
    requires n.sys.turn.s < |n.sys.c.sessions|
  {
    16 * S.Rank(n.server.tasks) + 8 * |n.pipe| + 4 * |T.Queue(n.sys)| + PcWeight(n.sys.turn.pc)
  }

  predicate Working(step: NetStep) { !step.Client? && (step.Server? ==> !step.st.Accept?) }

  lemma MessageQueue(c: C.Client, w: S.Wire, s: nat)
    requires C.Inv(c) && s < |c.sessions|
    ensures var c' := C.Apply(c, C.Message(S.ToObject(w)));
            s < |c'.sessions| && |c'.sessions[s].queue| <= |c.sessions[s].queue| + 1
  {
    if w.Update? {
      DispatchUpdateWire(c, w);
    } else {
      DispatchReplyWire(c, w);
    }
  }

  lemma ReadQueueGrows(sys: T.System, w: S.Wire)
    requires T.SystemEnabled(sys, T.OfClient(C.Message(S.ToObject(w))))
    ensures var sys' := T.ClientApply(sys, C.Message(S.ToObject(w)));
            && sys'.turn == sys.turn && sys'.turn.s < |sys'.c.sessions|
            && |T.Queue(sys')| <= |T.Queue(sys)| + 1
  {
    MessageQueue(sys.c, w, sys.turn.s);
  }

  lemma ReadLowersRank(n: Net)
    requires NetEnabled(n, Read)
    ensures var n' := NetApply(n, Read); n'.sys.turn.s < |n'.sys.c.sessions| && Rank(n') < Rank(n)
  {
    ReadQueueGrows(n.sys, n.pipe[0]);
  }

  /** A consumer step either takes one item off the queue, or moves on without touching it. */
  lemma ConsumerLowersWork(sys: T.System, ts: T.TurnStep)
    requires C.Inv(sys.c) && sys.turn.s < |sys.c.sessions| && sys.turn.r < |sys.c.futures| && T.TurnEnabled(sys, ts)
    ensures var sys' := T.TurnApply(sys, ts);
            && sys'.turn.s == sys.turn.s && |sys'.c.sessions| == |sys.c.sessions|
            && 4 * |T.Queue(sys')| + PcWeight(sys'.turn.pc) < 4 * |T.Queue(sys)| + PcWeight(sys.turn.pc)
  {
    if ts.ReadQueue? || ts.DrainOne? {
      assert T.Queue(T.TurnApply(sys, ts)) == T.Queue(sys)[1..];
    } else {
      assert T.Queue(T.TurnApply(sys, ts)) == T.Queue(sys);
    }
  }

  lemma ConsumerLowersRank(n: Net, ts: T.TurnStep)
    requires NetEnabled(n, Consumer(ts))
    ensures var n' := NetApply(n, Consumer(ts)); n'.sys.turn.s < |n'.sys.c.sessions| && Rank(n') < Rank(n)
  {
    ConsumerLowersWork(n.sys, ts);
  }

  lemma WorkLowersRank(n: Net, step: NetStep)
    requires S.Inv(n.server) && NetEnabled(n, step) && Working(step)
    ensures var n' := NetApply(n, step); n'.sys.turn.s < |n'.sys.c.sessions| && Rank(n') < Rank(n)
  {
    match step
    case Server(st) => S.StepLowersRank(n.server, st);
    case Read => ReadLowersRank(n);
    case Consumer(ts) => ConsumerLowersRank(n, ts);
  }

  lemma TaskCanMove(server: S.Server, t: nat, sid: string) returns (st: S.Step)
    requires t < |server.tasks| && OnSession(server.tasks[t].pc, sid) && !server.tasks[t].pc.Over?
    ensures S.Enabled(server, st) && !st.Accept?
  {
    st := if server.tasks[t].pc.Turn? then S.NextEvent(t) else S.Write(t);
  }

  lemma ServerCanMove(n: Net, full: seq<S.Wire>) returns (step: NetStep)
    requires NetInv(n, full) && !n.server.tasks[n.t].pc.Over?
    ensures NetEnabled(n, step) && Working(step)
  {
    var st := TaskCanMove(n.server, n.t, n.sid);
    step := Server(st);
  }

  lemma ConsumerCanMove(n: Net, full: seq<S.Wire>) returns (step: NetStep)
    requires ClientHalf(n, full) && !n.sys.turn.pc.Over? && T.Answer(n.sys) != C.Open
    ensures NetEnabled(n, step) && Working(step)
  {
    var pc := n.sys.turn.pc;
    step := Consumer(
      if pc.Sending? then T.Sent else if pc.Yielded? then T.Resume
      else if pc.Draining? then (if T.Queue(n.sys) != [] then T.DrainOne else T.Finish) else T.Wake);
  }

  lemma ReaderCanMove(n: Net, full: seq<S.Wire>)
    requires ClientHalf(n, full) && n.pipe != []
    ensures NetEnabled(n, Read) && Working(Read)
  {
  }

  /** While the turn is not over, the server, the reader or the consumer can move. */
  lemma NoDeadlock(n: Net, full: seq<S.Wire>) returns (step: NetStep)
    requires NetInv(n, full) && !n.sys.turn.pc.Over?
    ensures NetEnabled(n, step) && Working(step)
  {
    if n.pipe != [] {
      ReaderCanMove(n, full);
      step := Read;
    } else if !n.server.tasks[n.t].pc.Over? {
      step := ServerCanMove(n, full);
    } else {
      AllArrived(n, full);
      step := ConsumerCanMove(n, full);
    }
  }

  lemma AllArrived(n: Net, full: seq<S.Wire>)
    requires NetInv(n, full) && n.pipe == [] && n.server.tasks[n.t].pc.Over?
    ensures T.Answer(n.sys) != C.Open
  {
    assert n.written + [] == full && n.received + [] == n.written;
  }

  ghost predicate AllWorking(steps: seq<NetStep>) { forall i :: 0 <= i < |steps| ==> Working(steps[i]) }

  lemma WorkingTail(steps: seq<NetStep>)
    requires AllWorking(steps) && steps != []
    ensures Working(steps[0]) && AllWorking(steps[1..])
  {
  }

  lemma WorkStep(n: Net, full: seq<S.Wire>, step: NetStep)
    requires NetInv(n, full) && NetEnabled(n, step) && Working(step)
    ensures var n' := NetApply(n, step);
            NetInv(n', full) && n'.sys.turn.s < |n'.sys.c.sessions| && Rank(n') < Rank(n)
  {
    StepKeepsInv(n, full, step);
    WorkLowersRank(n, step);
  }

  /** At most `Rank` working steps can follow one another. */
  lemma {:induction false} WorkEnds(n: Net, full: seq<S.Wire>, steps: seq<NetStep>, n': Net)
    requires NetInv(n, full) && Executes(n, steps, n') && AllWorking(steps)
    requires n.sys.turn.s < |n.sys.c.sessions|
    ensures n'.sys.turn.s < |n'.sys.c.sessions| && |steps| + Rank(n') <= Rank(n)
    decreases |steps|
  {
    if steps != [] {
      WorkingTail(steps);
      WorkStep(n, full, steps[0]);
      WorkEnds(NetApply(n, steps[0]), full, steps[1..], n');
    }
  }

  lemma InBounds(n: Net, full: seq<S.Wire>)
    requires NetInv(n, full)
    ensures n.sys.turn.s < |n.sys.c.sessions|
  {
  }

  /**
   The prompt always finishes: from any state of the run at most `Rank` working
   steps are possible, and when none is left the consumer has seen all of `Expected`.
   */
  lemma PromptFinishes(
    n: Net, script: seq<RuntimeEvent>, end: S.TurnEnd, before: seq<NetStep>, m: Net, steps: seq<NetStep>, n': Net)
    requires Starts(n, script, end) && Executes(n, before, m) && Executes(m, steps, n')
    requires AllWorking(steps)
    requires forall step :: Working(step) ==> !NetEnabled(n', step)
    ensures n'.sys.turn.yielded == Expected(script, end)
    ensures m.sys.turn.s < |m.sys.c.sessions| && |steps| <= Rank(m)
  {
    var full := S.Uncancelled(Num(RequestId(n)), n.sid, script, end);
    StartKeepsInv(n, script, end);
    RunKeepsInv(n, full, before, m);
    InBounds(m, full);
    WorkEnds(m, full, steps, n');
    RunKeepsInv(m, full, steps, n');
    if !n'.sys.turn.pc.Over? { var _ := NoDeadlock(n', full); }
    OutputMeaning(Num(RequestId(n)), n.sid, script, end);
    StreamSoFar(n'.sys, n'.sid, full, n'.received, Expected(script, end));
  }
}
