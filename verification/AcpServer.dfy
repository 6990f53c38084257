/**
 The agent-side ACP server (oxenclaw/acp/server.py).

 Every inbound message is handled by its own task over one shared sink.  A
 task's code between two awaits is one step; the write lock makes each written
 message one step as well.  What the backend does is a parameter of the step
 that consults it.
 */
module AcpServer {
  import opened Wrappers
  import opened Json
  import opened AcpEvents
  import Seqs

  const INVALID_REQUEST := -32600
  const METHOD_NOT_FOUND := -32601
  const INVALID_PARAMS := -32602
  const INTERNAL_ERROR := -32603

  /** A message the server writes: `_send_result`, `_send_error` or a `session/update`. */
  datatype Wire =
    | Reply(id: Json, result: Json)
    | ErrorReply(id: Json, code: int, message: string)
    | Update(sid: string, update: Object)
  {
    predicate IsReply() { Reply? || ErrorReply? }
  }

  function ToObject(w: Wire): Object {
    match w
    case Reply(id, result) => map["jsonrpc" := Str("2.0"), "id" := id, "result" := result]
    case ErrorReply(id, code, message) =>
      map["jsonrpc" := Str("2.0"), "id" := id,
          "error" := Obj(map["code" := Num(code), "message" := Str(message)])]
    case Update(sid, update) =>
      map["jsonrpc" := Str("2.0"), "method" := Str("session/update"),
          "params" := Obj(map["sessionId" := Str(sid), "update" := Obj(update)])]
  }

  // ---- parameter models (oxenclaw/acp/protocol.py) -------------------------

  predicate NullOr(d: Object, k: string, ok: Json -> bool) { Get(d, k) == Null || ok(Get(d, k)) }

  predicate ValidInitialize(p: Json) {
    && p.Obj? && p.fields.Keys <= {"protocolVersion", "clientInfo", "capabilities"}
    && Get(p.fields, "protocolVersion").Str?
    && NullOr(p.fields, "clientInfo", (j: Json) => j.Obj?)
    && NullOr(p.fields, "capabilities", (j: Json) => j.Obj?)
  }

  predicate ValidNewSession(p: Json) {
    && p.Obj? && p.fields.Keys <= {"cwd", "mcpServers", "_meta"}
    && NullOr(p.fields, "cwd", (j: Json) => j.Str?)
    && NullOr(p.fields, "mcpServers", (j: Json) => j.Arr? && forall i :: 0 <= i < |j.items| ==> j.items[i].Obj?)
    && NullOr(p.fields, "_meta", (j: Json) => j.Obj?)
  }

  predicate ValidBlock(j: Json) {
    j.Obj? && match Get(j.fields, "type")
              case Str(t) =>
                || (t == "text" && j.fields.Keys == {"type", "text"} && Get(j.fields, "text").Str?)
                || (t == "image" && j.fields.Keys == {"type", "mimeType", "data"}
                    && Get(j.fields, "mimeType").Str? && Get(j.fields, "data").Str?)
                || (t == "resource" && j.fields.Keys == {"type", "resource"} && Get(j.fields, "resource").Obj?)
              case _ => false
  }

  predicate ValidPrompt(p: Json) {
    && p.Obj? && p.fields.Keys == {"sessionId", "prompt"}
    && p.fields["sessionId"].Str?
    && p.fields["prompt"].Arr?
    && forall i :: 0 <= i < |p.fields["prompt"].items| ==> ValidBlock(p.fields["prompt"].items[i])
  }

  // ---- minted names --------------------------------------------------------

  function Digit(n: nat): char
    requires n < 10
  {
    ['0', '1', '2', '3', '4', '5', '6', '7', '8', '9'][n]
  }

  function Decimal(n: nat): string { if n < 10 then [Digit(n)] else Decimal(n / 10) + [Digit(n % 10)] }

  function Pad(s: string): string
    decreases 4 - |s|
  {
    if |s| < 4 then Pad("0" + s) else s
  }

  /** `f"{n:04d}"` */
  function Format04(n: nat): string { Pad(Decimal(n)) }

  function SessionId(n: nat): string { "oxenclaw-" + Format04(n) }

  function DigitValue(c: char): nat { if '0' <= c <= '9' then (c - '0') as nat else 0 }

  function Value(s: string): nat {
    if s == "" then 0 else 10 * Value(s[..|s| - 1]) + DigitValue(s[|s| - 1])
  }

  lemma {:induction false} ValueOfZeros(s: string)
    ensures Value("0" + s) == Value(s)
  {
    if s == "" {
      assert ("0" + s)[..0] == "";
    } else {
      assert ("0" + s)[..|s|] == "0" + s[..|s| - 1];
      ValueOfZeros(s[..|s| - 1]);
    }
  }

  lemma {:induction false} ValueOfPad(s: string)
    ensures Value(Pad(s)) == Value(s)
    decreases 4 - |s|
  {
    if |s| < 4 {
      ValueOfPad("0" + s);
      ValueOfZeros(s);
    }
  }

  lemma {:induction false} ValueOfDecimal(n: nat)
    ensures Value(Decimal(n)) == n
  {
    if n < 10 {
      assert Decimal(n)[..0] == "";
    } else {
      var d := Decimal(n / 10);
      assert (d + [Digit(n % 10)])[..|d|] == d;
      ValueOfDecimal(n / 10);
    }
  }

  lemma MintedIdsDiffer(m: nat, n: nat)
    requires m != n
    ensures SessionId(m) != SessionId(n)
  {
    if SessionId(m) == SessionId(n) {
      assert SessionId(m)[9..] == Format04(m) && SessionId(n)[9..] == Format04(n);
      ValueOfPad(Decimal(m));
      ValueOfPad(Decimal(n));
      ValueOfDecimal(m);
      ValueOfDecimal(n);
    }
  }

  // ---- the state -----------------------------------------------------------

  /** How the backend's event stream stops when it yields no terminal event: it ends or raises. */
  datatype TurnEnd = Ends | Breaks(message: string)

  /** What a task does once its message is written. */
  datatype Next =
    | Return
    | Check(sid: string, ev: RuntimeEvent, rest: seq<RuntimeEvent>, end: TurnEnd)

  /** `script` and `end` are what the backend will yield if the message starts a turn. */
  datatype Pc =
    | Ready(msg: Object, script: seq<RuntimeEvent>, end: TurnEnd)
    | Ensuring
    | Turn(sid: string, rest: seq<RuntimeEvent>, end: TurnEnd)
    | Writing(w: Wire, next: Next)
    | Over

  datatype Task = Task(id: Json, pc: Pc)

  datatype Entry = Entry(task: nat, w: Wire)

  /**
   `cancelled[sid]` is the session's `cancel_event`; `mintedAt` the counter values
   that became session ids; `log` every message written to the sink.
   */
  datatype Server = Server(
    cancelled: map<string, bool>,
    counter: nat,
    mintedAt: seq<nat>,
    tasks: seq<Task>,
    log: seq<Entry>
  )

  function Init(): Server { Server(map[], 0, [], [], []) }

  predicate IsCancelled(s: Server, sid: string) { sid in s.cancelled && s.cancelled[sid] }

  // ---- handlers ------------------------------------------------------------

  /** An error reply if the message had an id, silence otherwise. */
  function Fail(id: Json, code: int, message: string): Pc {
    if id == Null then Over else Writing(ErrorReply(id, code, message), Return)
  }

  function Respond(id: Json, result: Object): Pc { Writing(Reply(id, Obj(result)), Return) }

  function StopReply(id: Json, reason: string): Pc { Respond(id, map["stopReason" := Str(reason)]) }

  /** `meta.get("sessionKey")` of a validated `session/new`. */
  function GivenKey(params: Json): Json
    requires ValidNewSession(params)
  {
    var meta := Get(params.fields, "_meta");
    if meta.Obj? then Get(meta.fields, "sessionKey") else Null
  }

  function HandleInitialize(s: Server, id: Json, params: Json): (Server, Pc) {
    if id == Null then (s, Over)
    else if !ValidInitialize(params) then (s, Fail(id, INVALID_PARAMS, "invalid params"))
    else (s, Respond(id, map["protocolVersion" := Str("0.19.0"), "agentInfo" := Obj(map[])]))
  }

  /** A missing session key is minted before the backend is asked. */
  function HandleNewSession(s: Server, id: Json, params: Json): (Server, Pc) {
    if id == Null then (s, Over)
    else if !ValidNewSession(params) then (s, Fail(id, INVALID_PARAMS, "invalid params"))
    else (if Truthy(GivenKey(params)) then s else s.(counter := s.counter + 1), Ensuring)
  }

  function HandlePrompt(s: Server, id: Json, params: Json, script: seq<RuntimeEvent>, end: TurnEnd): (Server, Pc) {
    if id == Null then (s, Over)
    else if !ValidPrompt(params) then (s, Fail(id, INVALID_PARAMS, "invalid params"))
    else
      var sid := params.fields["sessionId"].s;
      if sid !in s.cancelled then (s, Fail(id, INVALID_PARAMS, "unknown sessionId"))
      else (s.(cancelled := s.cancelled[sid := false]), Turn(sid, script, end))
  }

  function HandleCancel(s: Server, id: Json, params: Json): (Server, Pc) {
    if !params.Obj? then (s, Fail(id, INTERNAL_ERROR, "internal error"))
    else
      var sid := Get(params.fields, "sessionId");
      if !sid.Str? then (s, Fail(id, INVALID_PARAMS, "sessionId required"))
      else if sid.s !in s.cancelled then (s, Fail(id, INVALID_PARAMS, "unknown sessionId"))
      else (s.(cancelled := s.cancelled[sid.s := true]), if id == Null then Over else Respond(id, map[]))
  }

  /** The first step of a task: `_dispatch` and its handler up to the first await. */
  function Begin(s: Server, id: Json, msg: Object, script: seq<RuntimeEvent>, end: TurnEnd): (Server, Pc) {
    var verb := Get(msg, "method");
    var params := Or(Get(msg, "params"), Obj(map[]));
    if !verb.Str? then (s, Fail(id, INVALID_REQUEST, "missing method"))
    else if verb.s == "initialize" then HandleInitialize(s, id, params)
    else if verb.s == "session/new" then HandleNewSession(s, id, params)
    else if verb.s == "session/prompt" then HandlePrompt(s, id, params, script, end)
    else if verb.s == "session/cancel" then HandleCancel(s, id, params)
    else (s, Fail(id, METHOD_NOT_FOUND, "unknown method"))
  }

  /** `ensure_session` has returned or raised. */
  function Ensured(s: Server, id: Json, ok: bool): (Server, Pc) {
    if ok then
      var n := s.counter + 1;
      (s.(counter := n, mintedAt := s.mintedAt + [n], cancelled := s.cancelled[SessionId(n) := false]),
       Respond(id, map["sessionId" := Str(SessionId(n))]))
    else
      (s, Fail(id, INTERNAL_ERROR, "ensure_session failed"))
  }

  /** The checks at the bottom of the prompt loop. */
  function AfterEvent(id: Json, sid: string, ev: RuntimeEvent, rest: seq<RuntimeEvent>, end: TurnEnd, cancelled: bool): Pc {
    match ev
    case Done(reason) => StopReply(id, TagOr(reason, "stop"))
    case Error(message) => Writing(ErrorReply(id, INTERNAL_ERROR, message), Return)
    case _ => if cancelled then StopReply(id, "cancel") else Turn(sid, rest, end)
  }

  /** The next round of the prompt loop: an event, the end of the stream, or an exception. */
  function Pull(id: Json, sid: string, rest: seq<RuntimeEvent>, end: TurnEnd, cancelled: bool): Pc {
    if rest == [] then
      if end.Ends? then StopReply(id, "stop")
      else Writing(ErrorReply(id, INTERNAL_ERROR, "run_turn failed: " + end.message), Return)
    else
      match ProjectEvent(rest[0])
      case Some(update) => Writing(Update(sid, update), Check(sid, rest[0], rest[1..], end))
      case None => AfterEvent(id, sid, rest[0], rest[1..], end, cancelled)
  }

  // ---- steps ---------------------------------------------------------------

  datatype Step =
    | Accept(msg: Object, script: seq<RuntimeEvent>, end: TurnEnd)
    | Start(t: nat)
    | EnsureDone(t: nat, ok: bool)
    | NextEvent(t: nat)
    | Write(t: nat)

  predicate Enabled(s: Server, step: Step) {
    match step
    case Accept(_, _, _) => true
    case Start(t) => t < |s.tasks| && s.tasks[t].pc.Ready?
    case EnsureDone(t, _) => t < |s.tasks| && s.tasks[t].pc.Ensuring?
    case NextEvent(t) => t < |s.tasks| && s.tasks[t].pc.Turn?
    case Write(t) => t < |s.tasks| && s.tasks[t].pc.Writing?
  }

  function Move(s: Server, t: nat, pc: Pc): Server
    requires t < |s.tasks|
  {
    s.(tasks := s.tasks[t := s.tasks[t].(pc := pc)])
  }

  function AfterWrite(s: Server, task: Task): Pc
    requires task.pc.Writing?
  {
    match task.pc.next
    case Return => Over
    case Check(sid, ev, rest, end) => AfterEvent(task.id, sid, ev, rest, end, IsCancelled(s, sid))
  }

  function Apply(s: Server, step: Step): (s': Server)
    requires Enabled(s, step)
  {
    match step
    case Accept(msg, script, end) => s.(tasks := s.tasks + [Task(Get(msg, "id"), Ready(msg, script, end))])
    case Start(t) =>
      var task := s.tasks[t];
      var (s1, pc) := Begin(s, task.id, task.pc.msg, task.pc.script, task.pc.end);
      Move(s1, t, pc)
    case EnsureDone(t, ok) =>
      var (s1, pc) := Ensured(s, s.tasks[t].id, ok);
      Move(s1, t, pc)
    case NextEvent(t) =>
      var task := s.tasks[t];
      Move(s, t, Pull(task.id, task.pc.sid, task.pc.rest, task.pc.end, IsCancelled(s, task.pc.sid)))
    case Write(t) =>
      Move(s.(log := s.log + [Entry(t, s.tasks[t].pc.w)]), t, AfterWrite(s, s.tasks[t]))
  }

  ghost predicate Executes(s: Server, steps: seq<Step>, s': Server)
    decreases |steps|
  {
    if steps == [] then s == s'
    else Enabled(s, steps[0]) && Executes(Apply(s, steps[0]), steps[1..], s')
  }

  // ---- the invariant -------------------------------------------------------

  /** A task without an id never gets to write; a reply carries its own task's id. */
  predicate TaskOk(task: Task) {
    match task.pc
    case Ready(msg, _, _) => task.id == Get(msg, "id")
    case Ensuring => task.id != Null
    case Turn(_, _, _) => task.id != Null
    case Writing(w, Return) => task.id != Null && w.IsReply() && w.id == task.id
    case Writing(w, Check(sid, _, _, _)) => task.id != Null && w.Update? && w.sid == sid
    case Over => true
  }

  ghost predicate TasksOk(s: Server) { forall t :: 0 <= t < |s.tasks| ==> TaskOk(s.tasks[t]) }

  /** Everything written belongs to a task with an id; a reply is its task's last word. */
  ghost predicate LogOk(s: Server) {
    && (forall i :: 0 <= i < |s.log| ==>
          && s.log[i].task < |s.tasks|
          && s.tasks[s.log[i].task].id != Null
          && (s.log[i].w.IsReply() ==>
                s.log[i].w.id == s.tasks[s.log[i].task].id && s.tasks[s.log[i].task].pc == Over))
    && (forall i, j :: 0 <= i < j < |s.log| && s.log[i].task == s.log[j].task ==> !s.log[i].w.IsReply())
  }

  /** The number of replies that carry the id. */
  function Replies(log: seq<Entry>, id: Json): nat {
    if log == [] then 0
    else Replies(log[..|log| - 1], id) + (if log[|log| - 1].w.IsReply() && log[|log| - 1].w.id == id then 1 else 0)
  }

  /** The task was dispatched with this id. */
  predicate Carries(task: Task, id: Json) { task.id == id && id != Null }

  function AnsweredFirst(tasks: seq<Task>, n: nat, id: Json): nat
    requires n <= |tasks|
  {
    if n == 0 then 0
    else AnsweredFirst(tasks, n - 1, id) + (if tasks[n - 1].pc == Over && Carries(tasks[n - 1], id) then 1 else 0)
  }

  /** The number of finished tasks with this id. */
  function Answered(tasks: seq<Task>, id: Json): nat { AnsweredFirst(tasks, |tasks|, id) }

  function DispatchedFirst(tasks: seq<Task>, n: nat, id: Json): nat
    requires n <= |tasks|
  {
    if n == 0 then 0 else DispatchedFirst(tasks, n - 1, id) + (if Carries(tasks[n - 1], id) then 1 else 0)
  }

  /** The number of messages dispatched with this id, if it is not null. */
  function Dispatched(tasks: seq<Task>, id: Json): nat { DispatchedFirst(tasks, |tasks|, id) }

  /** Every id has as many replies as messages were dispatched with it; null has none. */
  ghost predicate AllReplied(s: Server) { forall id :: Replies(s.log, id) == Dispatched(s.tasks, id) }

  ghost predicate CountsAgree(s: Server) { forall id :: Replies(s.log, id) == Answered(s.tasks, id) }

  function MintedIds(mintedAt: seq<nat>): set<string> {
    set i | 0 <= i < |mintedAt| :: SessionId(mintedAt[i])
  }

  /** Session ids come from strictly increasing counter values, and name the sessions. */
  ghost predicate MintOk(s: Server) {
    && (forall i :: 0 <= i < |s.mintedAt| ==> s.mintedAt[i] <= s.counter)
    && (forall i, j :: 0 <= i < j < |s.mintedAt| ==> s.mintedAt[i] < s.mintedAt[j])
    && s.cancelled.Keys == MintedIds(s.mintedAt)
  }

  ghost predicate Inv(s: Server) {
    TasksOk(s) && LogOk(s) && MintOk(s) && CountsAgree(s)
  }

  lemma {:induction false} AnsweredFirstChange(tasks: seq<Task>, t: nat, task: Task, n: nat, id: Json)
    requires t < |tasks| && tasks[t].pc != Over && n <= |tasks|
    ensures AnsweredFirst(tasks[t := task], n, id) ==
            AnsweredFirst(tasks, n, id) + (if t < n && task.pc == Over && Carries(task, id) then 1 else 0)
  {
    if n > 0 { AnsweredFirstChange(tasks, t, task, n - 1, id); }
  }

  /** A task that is changed counts as one answer more if it finishes now. */
  lemma AnsweredChange(tasks: seq<Task>, t: nat, task: Task, id: Json)
    requires t < |tasks| && tasks[t].pc != Over
    ensures Answered(tasks[t := task], id) ==
            Answered(tasks, id) + (if task.pc == Over && Carries(task, id) then 1 else 0)
  {
    AnsweredFirstChange(tasks, t, task, |tasks|, id);
  }

  lemma {:induction false} AnsweredFirstAppend(tasks: seq<Task>, task: Task, n: nat, id: Json)
    requires n <= |tasks|
    ensures AnsweredFirst(tasks + [task], n, id) == AnsweredFirst(tasks, n, id)
  {
    if n > 0 { AnsweredFirstAppend(tasks, task, n - 1, id); }
  }

  lemma AnsweredAppend(tasks: seq<Task>, task: Task, id: Json)
    requires task.pc != Over
    ensures Answered(tasks + [task], id) == Answered(tasks, id)
  {
    AnsweredFirstAppend(tasks, task, |tasks|, id);
  }

  /** What a handler's first step may do to the server and to its own task. */
  ghost predicate HandlerOk(s: Server, id: Json, r: (Server, Pc)) {
    && TaskOk(Task(id, r.1)) && (r.1 == Over ==> id == Null) && !r.1.Ready?
    && r.0.tasks == s.tasks && r.0.log == s.log && r.0.mintedAt == s.mintedAt
    && r.0.cancelled.Keys == s.cancelled.Keys && r.0.counter >= s.counter
  }

  lemma InitializeOk(s: Server, id: Json, params: Json)
    ensures HandlerOk(s, id, HandleInitialize(s, id, params)) && Weight(HandleInitialize(s, id, params).1) <= 2
  {
  }

  lemma NewSessionOk(s: Server, id: Json, params: Json)
    ensures HandlerOk(s, id, HandleNewSession(s, id, params)) && Weight(HandleNewSession(s, id, params).1) <= 2
  {
  }

  lemma CancelOk(s: Server, id: Json, params: Json)
    ensures HandlerOk(s, id, HandleCancel(s, id, params)) && Weight(HandleCancel(s, id, params).1) <= 2
  {
  }

  lemma HandlePromptOk(s: Server, id: Json, params: Json, script: seq<RuntimeEvent>, end: TurnEnd)
    ensures HandlerOk(s, id, HandlePrompt(s, id, params, script, end))
    ensures Weight(HandlePrompt(s, id, params, script, end).1) <= 2 * |script| + 2
  {
  }

  lemma FailOk(s: Server, id: Json, code: int, message: string)
    ensures HandlerOk(s, id, (s, Fail(id, code, message))) && Weight(Fail(id, code, message)) <= 1
  {
  }

  lemma BeginOk(s: Server, id: Json, msg: Object, script: seq<RuntimeEvent>, end: TurnEnd)
    ensures HandlerOk(s, id, Begin(s, id, msg, script, end))
    ensures Weight(Begin(s, id, msg, script, end).1) <= 2 * |script| + 2
  {
    var verb := Get(msg, "method");
    var params := Or(Get(msg, "params"), Obj(map[]));
    if !verb.Str? { FailOk(s, id, INVALID_REQUEST, "missing method"); }
    else if verb.s == "initialize" { InitializeOk(s, id, params); }
    else if verb.s == "session/new" { NewSessionOk(s, id, params); }
    else if verb.s == "session/prompt" { HandlePromptOk(s, id, params, script, end); }
    else if verb.s == "session/cancel" { CancelOk(s, id, params); }
    else { FailOk(s, id, METHOD_NOT_FOUND, "unknown method"); }
  }

  lemma EnsuredOk(s: Server, id: Json, ok: bool)
    requires MintOk(s) && id != Null
    ensures var (s', pc) := Ensured(s, id, ok);
            && TaskOk(Task(id, pc)) && MintOk(s') && pc.Writing? && pc.next.Return?
            && s'.tasks == s.tasks && s'.log == s.log
  {
    if ok {
      var s' := Ensured(s, id, ok).0;
      var n := |s.mintedAt|;
      assert s'.mintedAt[n] == s.counter + 1;
      assert s'.mintedAt[..n] == s.mintedAt;
      MintedMore(s.mintedAt, s.counter + 1);
    }
  }

  lemma MintedMore(mintedAt: seq<nat>, n: nat)
    ensures MintedIds(mintedAt + [n]) == MintedIds(mintedAt) + {SessionId(n)}
  {
    var more := mintedAt + [n];
    forall sid | sid in MintedIds(mintedAt) ensures sid in MintedIds(more) {
      var i :| 0 <= i < |mintedAt| && SessionId(mintedAt[i]) == sid;
      assert more[i] == mintedAt[i];
    }
    assert more[|mintedAt|] == n;
  }

  lemma PullOk(id: Json, sid: string, rest: seq<RuntimeEvent>, end: TurnEnd, cancelled: bool)
    requires id != Null
    ensures var pc := Pull(id, sid, rest, end, cancelled);
            && TaskOk(Task(id, pc)) && pc != Over && Weight(pc) < 2 * |rest| + 2
  {
  }

  lemma MoveKeepsInv(s: Server, t: nat, pc: Pc)
    requires Inv(s) && t < |s.tasks| && s.tasks[t].pc != Over
    requires TaskOk(Task(s.tasks[t].id, pc)) && (pc == Over ==> s.tasks[t].id == Null)
    ensures Inv(Move(s, t, pc))
  {
    forall id ensures Answered(Move(s, t, pc).tasks, id) == Answered(s.tasks, id) {
      AnsweredChange(s.tasks, t, s.tasks[t].(pc := pc), id);
    }
  }

  lemma WriteLogOk(s: Server, t: nat)
    requires TasksOk(s) && LogOk(s) && Enabled(s, Write(t))
    ensures LogOk(Apply(s, Write(t)))
  {
    var s', task := Apply(s, Write(t)), s.tasks[t];
    assert TaskOk(task);
    assert forall i :: 0 <= i < |s.log| ==> s'.log[i] == s.log[i];
  }

  lemma AfterWriteOk(s: Server, task: Task)
    requires TaskOk(task) && task.pc.Writing?
    ensures var pc := AfterWrite(s, task);
            && TaskOk(task.(pc := pc)) && Weight(pc) < Weight(task.pc)
            && (pc == Over <==> task.pc.w.IsReply())
            && (task.pc.w.IsReply() ==> task.pc.w.id == task.id && task.id != Null)
  {
  }

  lemma WriteCounts(s: Server, t: nat, id: Json)
    requires Inv(s) && Enabled(s, Write(t))
    ensures Replies(Apply(s, Write(t)).log, id) == Answered(Apply(s, Write(t)).tasks, id)
  {
    var s', task := Apply(s, Write(t)), s.tasks[t];
    AfterWriteOk(s, task);
    assert s'.log[..|s.log|] == s.log;
    AnsweredChange(s.tasks, t, s'.tasks[t], id);
  }

  lemma WriteKeepsInv(s: Server, t: nat)
    requires Inv(s) && Enabled(s, Write(t))
    ensures Inv(Apply(s, Write(t)))
  {
    AfterWriteOk(s, s.tasks[t]);
    WriteLogOk(s, t);
    forall id ensures Replies(Apply(s, Write(t)).log, id) == Answered(Apply(s, Write(t)).tasks, id) {
      WriteCounts(s, t, id);
    }
  }

  lemma AcceptKeepsInv(s: Server, msg: Object, script: seq<RuntimeEvent>, end: TurnEnd)
    requires Inv(s)
    ensures Inv(Apply(s, Accept(msg, script, end)))
  {
    var s' := Apply(s, Accept(msg, script, end));
    forall id ensures Answered(s'.tasks, id) == Answered(s.tasks, id) {
      AnsweredAppend(s.tasks, Task(Get(msg, "id"), Ready(msg, script, end)), id);
    }
  }

  lemma StartKeepsInv(s: Server, t: nat)
    requires Inv(s) && Enabled(s, Start(t))
    ensures Inv(Apply(s, Start(t)))
  {
    var task := s.tasks[t];
    BeginOk(s, task.id, task.pc.msg, task.pc.script, task.pc.end);
    var (s1, pc) := Begin(s, task.id, task.pc.msg, task.pc.script, task.pc.end);
    MoveKeepsInv(s1, t, pc);
  }

  lemma EnsuredKeepsInv(s: Server, t: nat, ok: bool)
    requires Inv(s) && Enabled(s, EnsureDone(t, ok))
    ensures Inv(Apply(s, EnsureDone(t, ok)))
  {
    assert TaskOk(s.tasks[t]);
    EnsuredOk(s, s.tasks[t].id, ok);
    var (s1, pc) := Ensured(s, s.tasks[t].id, ok);
    MoveKeepsInv(s1, t, pc);
  }

  lemma NextKeepsInv(s: Server, t: nat)
    requires Inv(s) && Enabled(s, NextEvent(t))
    ensures Inv(Apply(s, NextEvent(t)))
  {
    var task := s.tasks[t];
    assert TaskOk(task);
    PullOk(task.id, task.pc.sid, task.pc.rest, task.pc.end, IsCancelled(s, task.pc.sid));
    MoveKeepsInv(s, t, Pull(task.id, task.pc.sid, task.pc.rest, task.pc.end, IsCancelled(s, task.pc.sid)));
  }

  lemma StepKeepsInv(s: Server, step: Step)
    requires Inv(s) && Enabled(s, step)
    ensures Inv(Apply(s, step))
  {
    match step
    case Accept(msg, script, end) => AcceptKeepsInv(s, msg, script, end);
    case Start(t) => StartKeepsInv(s, t);
    case EnsureDone(t, ok) => EnsuredKeepsInv(s, t, ok);
    case NextEvent(t) => NextKeepsInv(s, t);
    case Write(t) => WriteKeepsInv(s, t);
  }

  lemma {:induction false} RunKeepsInv(s: Server, steps: seq<Step>, s': Server)
    requires Inv(s) && Executes(s, steps, s')
    ensures Inv(s')
    decreases |steps|
  {
    if steps != [] {
      StepKeepsInv(s, steps[0]);
      RunKeepsInv(Apply(s, steps[0]), steps[1..], s');
    }
  }

  lemma {:induction false} AllAnswered(tasks: seq<Task>, n: nat, id: Json)
    requires n <= |tasks| && forall t :: 0 <= t < n ==> tasks[t].pc == Over
    ensures AnsweredFirst(tasks, n, id) == DispatchedFirst(tasks, n, id)
  {
    if n > 0 { AllAnswered(tasks, n - 1, id); }
  }

  lemma FinishedIsReplied(s: Server)
    requires Inv(s) && forall t :: 0 <= t < |s.tasks| ==> s.tasks[t].pc == Over
    ensures AllReplied(s)
  {
    forall id ensures Replies(s.log, id) == Dispatched(s.tasks, id) { AllAnswered(s.tasks, |s.tasks|, id); }
  }

  /**
   When `serve` returns, every in-flight task is finished, and each id has exactly as
   many replies as messages were dispatched with it.  In every run, finished or not,
   a message without an id gets nothing, and a task writes nothing after its reply.
   */
  lemma RepliesMatchRequests(steps: seq<Step>, s: Server)
    requires Executes(Init(), steps, s)
    ensures (forall t :: 0 <= t < |s.tasks| ==> s.tasks[t].pc == Over) ==> AllReplied(s)
    ensures forall i :: 0 <= i < |s.log| ==> s.log[i].task < |s.tasks| && s.tasks[s.log[i].task].id != Null
    ensures forall i, j :: 0 <= i < j < |s.log| && s.log[i].task == s.log[j].task ==> s.log[i].w.Update?
    ensures forall i :: 0 <= i < |s.log| && s.log[i].w.IsReply() ==> s.log[i].w.id == s.tasks[s.log[i].task].id
  {
    RunKeepsInv(Init(), steps, s);
    if forall t :: 0 <= t < |s.tasks| ==> s.tasks[t].pc == Over {
      FinishedIsReplied(s);
    }
  }

  /** Session ids are pairwise distinct although session keys are minted from the same counter. */
  lemma SessionIdsDistinct(steps: seq<Step>, s: Server, i: nat, j: nat)
    requires Executes(Init(), steps, s)
    requires i < j < |s.mintedAt|
    ensures SessionId(s.mintedAt[i]) != SessionId(s.mintedAt[j])
    ensures SessionId(s.mintedAt[i]) in s.cancelled
  {
    RunKeepsInv(Init(), steps, s);
    MintedIdsDiffer(s.mintedAt[i], s.mintedAt[j]);
  }

  // ---- draining ------------------------------------------------------------

  function Weight(pc: Pc): nat {
    match pc
    case Ready(_, script, _) => 2 * |script| + 4
    case Ensuring => 2
    case Turn(_, rest, _) => 2 * |rest| + 2
    case Writing(_, Check(_, _, rest, _)) => 2 * |rest| + 3
    case Writing(_, Return) => 1
    case Over => 0
  }

  function Rank(tasks: seq<Task>): nat {
    if tasks == [] then 0 else Rank(tasks[..|tasks| - 1]) + Weight(tasks[|tasks| - 1].pc)
  }

  lemma {:induction false} RankChange(tasks: seq<Task>, t: nat, task: Task)
    requires t < |tasks|
    ensures Rank(tasks[t := task]) == Rank(tasks) - Weight(tasks[t].pc) + Weight(task.pc)
  {
    var n := |tasks| - 1;
    if t == n {
      assert tasks[t := task][..n] == tasks[..n];
    } else {
      assert tasks[t := task][..n] == tasks[..n][t := task];
      RankChange(tasks[..n], t, task);
    }
  }

  lemma StepLowersWeight(s: Server, step: Step)
    requires Inv(s) && Enabled(s, step) && !step.Accept?
    ensures |Apply(s, step).tasks| == |s.tasks|
    ensures Apply(s, step).tasks == s.tasks[step.t := Apply(s, step).tasks[step.t]]
    ensures Weight(Apply(s, step).tasks[step.t].pc) < Weight(s.tasks[step.t].pc)
  {
    var t := step.t;
    var task := s.tasks[t];
    assert TaskOk(task);
    match step
    case Start(_) => BeginOk(s, task.id, task.pc.msg, task.pc.script, task.pc.end);
    case EnsureDone(_, ok) => EnsuredOk(s, task.id, ok);
    case NextEvent(_) => PullOk(task.id, task.pc.sid, task.pc.rest, task.pc.end, IsCancelled(s, task.pc.sid));
    case Write(_) => AfterWriteOk(s, task);
  }

  lemma StepLowersRank(s: Server, step: Step)
    requires Inv(s) && Enabled(s, step) && !step.Accept?
    ensures Rank(Apply(s, step).tasks) < Rank(s.tasks)
  {
    StepLowersWeight(s, step);
    RankChange(s.tasks, step.t, Apply(s, step).tasks[step.t]);
  }

  /** Nothing can happen but the arrival of another message. */
  ghost predicate Quiet(s: Server) { forall step :: Enabled(s, step) ==> step.Accept? }

  lemma QuietIsFinished(s: Server)
    requires Inv(s) && Quiet(s)
    ensures AllReplied(s)
  {
    forall t | 0 <= t < |s.tasks| ensures s.tasks[t].pc == Over {
      assert !Enabled(s, Start(t)) && !Enabled(s, EnsureDone(t, true));
      assert !Enabled(s, NextEvent(t)) && !Enabled(s, Write(t));
    }
    FinishedIsReplied(s);
  }

  ghost predicate NoAccepts(steps: seq<Step>) { forall i :: 0 <= i < |steps| ==> !steps[i].Accept? }

  lemma NoAcceptsTail(steps: seq<Step>)
    requires NoAccepts(steps) && steps != []
    ensures !steps[0].Accept? && NoAccepts(steps[1..])
  {
  }

  lemma WorkStep(s: Server, step: Step)
    requires Inv(s) && Enabled(s, step) && !step.Accept?
    ensures Inv(Apply(s, step)) && Rank(Apply(s, step).tasks) < Rank(s.tasks)
  {
    StepKeepsInv(s, step);
    StepLowersRank(s, step);
  }

  lemma {:induction false} WorkBound(s: Server, steps: seq<Step>, s': Server)
    requires Inv(s) && Executes(s, steps, s') && NoAccepts(steps)
    ensures Inv(s') && |steps| + Rank(s'.tasks) <= Rank(s.tasks)
    decreases |steps|
  {
    if steps != [] {
      NoAcceptsTail(steps);
      WorkStep(s, steps[0]);
      WorkBound(Apply(s, steps[0]), steps[1..], s');
    }
  }

  /**
   Once the input has ended, `serve` returns: at most `Rank` further steps are
   possible, and when none is, every task has finished and been answered.
   */
  lemma ServeReturns(s: Server, steps: seq<Step>, s': Server)
    requires Inv(s) && Executes(s, steps, s') && NoAccepts(steps)
    ensures |steps| + Rank(s'.tasks) <= Rank(s.tasks)
    ensures Quiet(s') ==> AllReplied(s')
  {
    WorkBound(s, steps, s');
    if Quiet(s') { QuietIsFinished(s'); }
  }

  // ---- what one prompt writes ----------------------------------------------

  function Sent(sid: string, ev: RuntimeEvent): seq<Wire> {
    match ProjectEvent(ev)
    case Some(update) => [Update(sid, update)]
    case None => []
  }

  /** The reply that ends the turn after `ev`, if it ends there. */
  function StopWith(id: Json, ev: RuntimeEvent, cancelled: bool): seq<Wire> {
    var pc := AfterEvent(id, "", ev, [], Ends, cancelled);
    if pc.Writing? then [pc.w] else []
  }

  function EndReply(id: Json, end: TurnEnd): Wire { Pull(id, "", [], end, false).w }

  /**
   The messages of a prompt from its `i`th event on; its `cancel_event` is set from
   the `cancelAt`th check on.
   */
  function PromptOutput(id: Json, sid: string, script: seq<RuntimeEvent>, i: nat, end: TurnEnd, cancelAt: nat): seq<Wire>
    requires i <= |script|
    decreases |script| - i
  {
    if i == |script| then
      [EndReply(id, end)]
    else
      var stop := StopWith(id, script[i], i >= cancelAt);
      Sent(sid, script[i]) + (if stop != [] then stop else PromptOutput(id, sid, script, i + 1, end, cancelAt))
  }

  /** The messages of a prompt that is not cancelled. */
  function Uncancelled(id: Json, sid: string, rest: seq<RuntimeEvent>, end: TurnEnd): seq<Wire> {
    if rest == [] then
      [EndReply(id, end)]
    else
      var stop := StopWith(id, rest[0], false);
      Sent(sid, rest[0]) + (if stop != [] then stop else Uncancelled(id, sid, rest[1..], end))
  }

  lemma {:induction false} NeverCancelled(
    id: Json, sid: string, script: seq<RuntimeEvent>, i: nat, end: TurnEnd, cancelAt: nat)
    requires i <= |script| <= cancelAt
    ensures PromptOutput(id, sid, script, i, end, cancelAt) == Uncancelled(id, sid, script[i..], end)
    decreases |script| - i
  {
    if i < |script| {
      assert script[i..][1..] == script[i + 1..];
      NeverCancelled(id, sid, script, i + 1, end, cancelAt);
    }
  }

  /** What a task past its first step still writes if its session is not cancelled. */
  function Remaining(id: Json, pc: Pc): seq<Wire> {
    match pc
    case Turn(sid, rest, end) => Uncancelled(id, sid, rest, end)
    case Writing(w, Return) => [w]
    case Writing(w, Check(sid, ev, rest, end)) =>
      [w] + (if StopWith(id, ev, false) != [] then StopWith(id, ev, false) else Uncancelled(id, sid, rest, end))
    case _ => []
  }

  lemma RemainingAfterCheck(id: Json, sid: string, ev: RuntimeEvent, rest: seq<RuntimeEvent>, end: TurnEnd)
    ensures Remaining(id, AfterEvent(id, sid, ev, rest, end, false)) ==
            if StopWith(id, ev, false) != [] then StopWith(id, ev, false) else Uncancelled(id, sid, rest, end)
  {
  }

  /** One step of an uncancelled prompt writes exactly the next message it owes. */
  lemma PromptStep(s: Server, step: Step, t: nat)
    requires Enabled(s, step) && (step == NextEvent(t) || step == Write(t))
    requires s.tasks[t].pc.Turn? ==> !IsCancelled(s, s.tasks[t].pc.sid)
    requires s.tasks[t].pc.Writing? && s.tasks[t].pc.next.Check? ==> !IsCancelled(s, s.tasks[t].pc.next.sid)
    ensures var s' := Apply(s, step);
            Remaining(s.tasks[t].id, s.tasks[t].pc) ==
            (if step.Write? then [s.tasks[t].pc.w] else []) + Remaining(s'.tasks[t].id, s'.tasks[t].pc)
  {
    var task := s.tasks[t];
    match task.pc
    case Turn(sid, rest, end) =>
      if rest != [] {
        RemainingAfterCheck(task.id, sid, rest[0], rest[1..], end);
      }
    case Writing(w, Check(sid, ev, rest, end)) => RemainingAfterCheck(task.id, sid, ev, rest, end);
    case Writing(w, Return) =>
  }

  /** The server object as one handler sees it when no other task runs. */
  class AcpServer {
    var cancelled: map<string, bool>
    var counter: nat
    var sink: seq<Wire>

    constructor ()
      ensures cancelled == map[] && counter == 0 && sink == []
    {
      cancelled, counter, sink := map[], 0, [];
    }

    method Send(w: Wire)
      modifies this`sink
      ensures sink == old(sink) + [w]
    {
      sink := sink + [w];
    }

    method MintSessionId() returns (sid: string)
      modifies this`counter
      ensures counter == old(counter) + 1 && sid == SessionId(counter)
    {
      counter := counter + 1;
      sid := "oxenclaw-" + Format04(counter);
    }

    /** One round of the prompt loop: the notification, then the checks. */
    method HandleEvent(id: Json, sid: string, ev: RuntimeEvent, cancelled: bool) returns (stop: bool)
      modifies this`sink
      ensures stop <==> StopWith(id, ev, cancelled) != []
      ensures sink == old(sink) + (if stop then Sent(sid, ev) + StopWith(id, ev, cancelled) else Sent(sid, ev))
    {
      var update := ProjectEvent(ev);
      if update.Some? {
        Send(Update(sid, update.value));
      }
      stop := true;
      match ev {
        case Done(reason) => Send(StopReply(id, TagOr(reason, "stop")).w);
        case Error(message) => Send(ErrorReply(id, INTERNAL_ERROR, message));
        case _ =>
          if cancelled {
            Send(StopReply(id, "cancel").w);
          } else {
            stop := false;
          }
      }
    }

    /** The `async for` of `_handle_prompt`: the turn's messages, then its one reply. */
    method StreamTurn(id: Json, sid: string, script: seq<RuntimeEvent>, end: TurnEnd, cancelAt: nat)
      modifies this`sink
      ensures sink == old(sink) + PromptOutput(id, sid, script, 0, end, cancelAt)
    {
      var i := 0;
      while i < |script|
        invariant 0 <= i <= |script|
        invariant sink + PromptOutput(id, sid, script, i, end, cancelAt) ==
                  old(sink) + PromptOutput(id, sid, script, 0, end, cancelAt)
      {
        ghost var before := sink;
        var stop := HandleEvent(id, sid, script[i], i >= cancelAt);
        if stop {
          return;
        }
        Seqs.Regroup(before, Sent(sid, script[i]), PromptOutput(id, sid, script, i + 1, end, cancelAt));
        i := i + 1;
      }
      FinishTurn(id, end);
    }

    method FinishTurn(id: Json, end: TurnEnd)
      modifies this`sink
      ensures sink == old(sink) + [EndReply(id, end)]
    {
      if end.Breaks? {
        Send(ErrorReply(id, INTERNAL_ERROR, "run_turn failed: " + end.message));
      } else {
        Send(StopReply(id, "stop").w);
      }
    }

    /** `_handle_prompt`; the other tasks' only influence is when the cancel event is set. */
    method HandlePrompt(id: Json, params: Json, script: seq<RuntimeEvent>, end: TurnEnd, cancelAt: nat)
      requires id != Null
      modifies this
      ensures counter == old(counter) && cancelled.Keys == old(cancelled.Keys)
      ensures !ValidPrompt(params) || params.fields["sessionId"].s !in old(cancelled) ==>
                cancelled == old(cancelled) && exists message :: sink == old(sink) + [ErrorReply(id, INVALID_PARAMS, message)]
      ensures ValidPrompt(params) && params.fields["sessionId"].s in old(cancelled) ==>
                var sid := params.fields["sessionId"].s;
                && cancelled == old(cancelled)[sid := false]
                && sink == old(sink) + PromptOutput(id, sid, script, 0, end, cancelAt)
    {
      if !ValidPrompt(params) {
        Send(ErrorReply(id, INVALID_PARAMS, "invalid params"));
        return;
      }
      var sid := params.fields["sessionId"].s;
      if sid !in cancelled {
        Send(ErrorReply(id, INVALID_PARAMS, "unknown sessionId"));
        return;
      }
      cancelled := cancelled[sid := false];
      StreamTurn(id, sid, script, end, cancelAt);
    }

    /** `_handle_new_session` once its parameters are valid. */
    method HandleNewSession(id: Json, params: Json, ensured: bool) returns (sid: Option<string>)
      requires id != Null && ValidNewSession(params)
      modifies this
      ensures sid.Some? <==> ensured
      ensures counter == old(counter) + (if Truthy(GivenKey(params)) then 0 else 1) + (if ensured then 1 else 0)
      ensures ensured ==>
                && sid == Some(SessionId(counter))
                && cancelled == old(cancelled)[sid.value := false]
                && sink == old(sink) + [Reply(id, Obj(map["sessionId" := Str(sid.value)]))]
      ensures !ensured ==>
                cancelled == old(cancelled) && sink == old(sink) + [ErrorReply(id, INTERNAL_ERROR, "ensure_session failed")]
    {
      if !Truthy(GivenKey(params)) {
        counter := counter + 1;
      }
      if !ensured {
        Send(ErrorReply(id, INTERNAL_ERROR, "ensure_session failed"));
        return None;
      }
      var minted := MintSessionId();
      cancelled := cancelled[minted := false];
      Send(Reply(id, Obj(map["sessionId" := Str(minted)])));
      sid := Some(minted);
    }
  }
}
