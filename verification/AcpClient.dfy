/**
 The client end of the ACP wire (oxenclaw/acp/subprocess_runtime.py): request
 ids, pending futures, per-session queues and the reader that feeds both.

 Futures and session states are objects in the source; here they live in two
 sequences and the dictionaries hold indices into them.
 */
module AcpClient {
  import opened Wrappers
  import opened Json
  import opened AcpEvents

  const CLOSED := -32001
  const DEFAULT_CODE := -32603

  datatype FutureState =
    | Open
    | Resolved(result: Json)
    | Rejected(errorCode: int, errorMessage: Text)
    | Cancelled

  datatype Future = Future(id: int, st: FutureState)

  /** `None` on a session queue says that the child or the session is closed. */
  datatype QueueItem = Event(ev: ClientEvent) | Sentinel

  datatype Session = Session(sid: string, queue: seq<QueueItem>)

  /** `ints` stands for Python's `int` on strings and never changes. */
  datatype Client = Client(
    ints: IntParser,
    nextId: nat,
    pending: map<int, nat>,
    futures: seq<Future>,
    sessions: seq<Session>,
    byKey: map<string, nat>,
    byId: map<string, nat>,
    closed: bool
  )

  function Init(ints: IntParser): Client { Client(ints, 0, map[], [], [], map[], map[], false) }

  // ---- requests ------------------------------------------------------------

  /** `_allocate_id` and the registration of the request's future. */
  function Allocate(c: Client): Client {
    var id := c.nextId + 1;
    c.(nextId := id, pending := c.pending[id := |c.futures|], futures := c.futures + [Future(id, Open)])
  }

  /** `self._pending.pop(id, None)` */
  function Forget(c: Client, id: int): Client { c.(pending := c.pending - {id}) }

  function SetFuture(c: Client, r: nat, st: FutureState): Client
    requires r < |c.futures|
  {
    c.(futures := c.futures[r := c.futures[r].(st := st)])
  }

  // ---- responses -----------------------------------------------------------

  /** What Python's `int` makes of a string; no value when it raises. */
  type IntParser = string -> Option<int>

  /** `int(j)`; no value when Python raises, as it does on infinities and on what is not a number. */
  function IntOf(ints: IntParser, j: Json): Option<int> {
    match j
    case Num(n) => Some(n)
    case Bool(b) => Some(if b then 1 else 0)
    case Float(r) => Some(if r >= 0.0 then r.Floor else -((-r).Floor))
    case Str(s) => ints(s)
    case _ => None
  }

  predicate IsResponse(msg: Object) { "id" in msg && ("result" in msg || "error" in msg) }

  /**
   What a response makes of its future; no value when reading the error raises,
   which ends the reader.
   */
  function Verdict(ints: IntParser, msg: Object): Option<FutureState> {
    var err := Get(msg, "error");
    if !Truthy(err) then Some(Resolved(Get(msg, "result")))
    else if !err.Obj? then None
    else
      var code := if "code" in err.fields then IntOf(ints, err.fields["code"]) else Some(DEFAULT_CODE);
      var message := if "message" in err.fields then PyStr(err.fields["message"]) else Lit("wire error");
      if code.None? then None else Some(Rejected(code.value, message))
  }

  /** A new client state, and whether an exception escaped into the reader loop. */
  datatype Outcome = Outcome(c: Client, crashed: bool)

  function DispatchResponse(c: Client, msg: Object): Outcome
    requires WellFormed(c)
  {
    var mid := Get(msg, "id");
    if !IsInt(mid) then Outcome(c, false)
    else if AsInt(mid) !in c.pending then Outcome(c, false)
    else
      var r := c.pending[AsInt(mid)];
      var c1 := Forget(c, AsInt(mid));
      if c.futures[r].st != Open then Outcome(c1, false)
      else match Verdict(c.ints, msg)
           case None => Outcome(c1, true)
           case Some(st) => Outcome(SetFuture(c1, r, st), false)
  }

  function Push(c: Client, i: nat, item: QueueItem): Client
    requires i < |c.sessions|
  {
    c.(sessions := c.sessions[i := c.sessions[i].(queue := c.sessions[i].queue + [item])])
  }

  /** `_handle_session_update` */
  function DispatchUpdate(c: Client, msg: Object): Outcome
    requires WellFormed(c)
  {
    var params := Or(Get(msg, "params"), Obj(map[]));
    if !params.Obj? then Outcome(c, true)
    else
      var sid := Get(params.fields, "sessionId");
      var update := Or(Get(params.fields, "update"), Obj(map[]));
      if !sid.Str? || !update.Obj? || sid.s !in c.byId then Outcome(c, false)
      else match ProjectUpdate(update.fields)
           case None => Outcome(c, false)
           case Some(ev) => Outcome(Push(c, c.byId[sid.s], Event(ev)), false)
  }

  /** `_dispatch` */
  function Dispatch(c: Client, msg: Object): Outcome
    requires WellFormed(c)
  {
    if IsResponse(msg) then DispatchResponse(c, msg)
    else if Get(msg, "method") == Str("session/update") then DispatchUpdate(c, msg)
    else Outcome(c, false)
  }

  // ---- closing -------------------------------------------------------------

  function Fail(f: Future, message: string): Future {
    if f.st == Open then f.(st := Rejected(CLOSED, Lit(message))) else f
  }

  /** Every pending future that is still open is completed with an error. */
  function FailPending(c: Client, message: string): Client {
    c.(futures := seq(|c.futures|, r requires 0 <= r < |c.futures| =>
         if r in c.pending.Values then Fail(c.futures[r], message) else c.futures[r]))
  }

  /** A sentinel for every session reachable by key. */
  function SignalSessions(c: Client): Client {
    c.(sessions := seq(|c.sessions|, i requires 0 <= i < |c.sessions| =>
         if i in c.byKey.Values then c.sessions[i].(queue := c.sessions[i].queue + [Sentinel]) else c.sessions[i]))
  }

  /** The `finally` of `_reader_loop`. */
  function StdoutClosed(c: Client): Client { SignalSessions(FailPending(c, "child stdout closed")) }

  /** `aclose`, up to stopping the tasks and the process. */
  function Aclose(c: Client): Client {
    if c.closed then c
    else SignalSessions(FailPending(c.(closed := true), "backend closed before response").(pending := map[]))
  }

  /** `close` */
  function CloseSession(c: Client, key: string): Client
    requires WellFormed(c)
  {
    if key !in c.byKey then c
    else
      var i := c.byKey[key];
      Push(c.(byKey := c.byKey - {key}, byId := c.byId - {c.sessions[i].sid}), i, Sentinel)
  }

  /** `ensure_session` once `session/new` has answered with a session id. */
  function Register(c: Client, key: string, sid: string): Client {
    c.(sessions := c.sessions + [Session(sid, [])],
       byKey := c.byKey[key := |c.sessions|],
       byId := c.byId[sid := |c.sessions|])
  }

  function SetQueue(c: Client, i: nat, queue: seq<QueueItem>): Client
    requires i < |c.sessions|
  {
    c.(sessions := c.sessions[i := c.sessions[i].(queue := queue)])
  }

  // ---- the invariant -------------------------------------------------------

  /** Dictionary entries name existing objects. */
  ghost predicate WellFormed(c: Client) {
    && (forall id :: id in c.pending ==> c.pending[id] < |c.futures|)
    && (forall k :: k in c.byKey ==> c.byKey[k] < |c.sessions|)
    && (forall sid :: sid in c.byId ==> c.byId[sid] < |c.sessions|)
  }

  /** The `r`th future was made for request id `r + 1`, and is pending under that id only; a session state has one key. */
  ghost predicate Inv(c: Client) {
    && WellFormed(c)
    && |c.futures| == c.nextId
    && (forall r :: 0 <= r < |c.futures| ==> c.futures[r].id == r + 1)
    && (forall id :: id in c.pending ==> id == c.pending[id] + 1)
    && (forall k, l :: k in c.byKey && l in c.byKey && c.byKey[k] == c.byKey[l] ==> k == l)
  }

  // ---- steps ---------------------------------------------------------------

  datatype Step =
    | DoAllocate
    | DoForget(id: int)
    | Abandon(r: nat)
    | Message(msg: Object)
    | DoStdoutClosed
    | DoAclose
    | DoClose(key: string)
    | DoRegister(key: string, sid: string)
    | Take(i: nat)
    | Drain(i: nat)

  ghost predicate Enabled(c: Client, step: Step) {
    match step
    case Abandon(r) => r < |c.futures|
    case Take(i) => i < |c.sessions| && c.sessions[i].queue != []
    case Drain(i) => i < |c.sessions|
    case _ => true
  }

  /** A reader that crashed ends like one whose child closed stdout. */
  function Apply(c: Client, step: Step): Client
    requires Inv(c) && Enabled(c, step)
  {
    match step
    case DoAllocate => Allocate(c)
    case DoForget(id) => Forget(c, id)
    case Abandon(r) => if c.futures[r].st == Open then SetFuture(c, r, Cancelled) else c
    case Message(msg) =>
      var out := Dispatch(c, msg);
      if out.crashed then StdoutClosed(out.c) else out.c
    case DoStdoutClosed => StdoutClosed(c)
    case DoAclose => Aclose(c)
    case DoClose(key) => CloseSession(c, key)
    case DoRegister(key, sid) => Register(c, key, sid)
    case Take(i) => SetQueue(c, i, c.sessions[i].queue[1..])
    case Drain(i) => SetQueue(c, i, [])
  }

  ghost predicate Executes(c: Client, steps: seq<Step>, c': Client)
    decreases |steps|
  {
    if steps == [] then c == c'
    else Inv(c) && Enabled(c, steps[0]) && Executes(Apply(c, steps[0]), steps[1..], c')
  }

  /**
   How a step may treat the futures made before it: a completed one is frozen, and an
   id that has left `pending` does not come back.  Session states stay too.
   */
  ghost predicate FuturesKept(c: Client, c': Client) {
    && c'.ints == c.ints && |c.futures| <= |c'.futures| && |c.sessions| <= |c'.sessions|
    && (forall r :: 0 <= r < |c.futures| ==>
          c'.futures[r].id == c.futures[r].id && (c.futures[r].st != Open ==> c'.futures[r] == c.futures[r]))
    && (forall id :: 1 <= id <= |c.futures| && id !in c.pending ==> id !in c'.pending)
  }

  lemma FailKeepsInv(c: Client, message: string)
    requires Inv(c)
    ensures Inv(FailPending(c, message)) && FuturesKept(c, FailPending(c, message))
  {
  }

  lemma SignalKeepsInv(c: Client)
    requires Inv(c)
    ensures Inv(SignalSessions(c)) && FuturesKept(c, SignalSessions(c))
  {
  }

  lemma StdoutClosedKeepsInv(c: Client)
    requires Inv(c)
    ensures Inv(StdoutClosed(c)) && FuturesKept(c, StdoutClosed(c))
  {
    var c1 := FailPending(c, "child stdout closed");
    FailKeepsInv(c, "child stdout closed");
    SignalKeepsInv(c1);
    KeptTransitive(c, c1, StdoutClosed(c));
  }

  lemma EmptiedKeepsInv(c: Client)
    requires Inv(c)
    ensures Inv(c.(pending := map[])) && FuturesKept(c, c.(pending := map[]))
  {
  }

  lemma AcloseKeepsInv(c: Client)
    requires Inv(c)
    ensures Inv(Aclose(c)) && FuturesKept(c, Aclose(c))
  {
    if !c.closed {
      var c0 := c.(closed := true);
      var c1 := FailPending(c0, "backend closed before response");
      var c2 := c1.(pending := map[]);
      FailKeepsInv(c0, "backend closed before response");
      EmptiedKeepsInv(c1);
      SignalKeepsInv(c2);
      KeptTransitive(c, c1, c2);
      KeptTransitive(c, c2, Aclose(c));
    }
  }

  lemma CloseKeepsInv(c: Client, key: string)
    requires Inv(c)
    ensures Inv(CloseSession(c, key)) && FuturesKept(c, CloseSession(c, key))
  {
  }

  lemma ResponseKeepsInv(c: Client, msg: Object)
    requires Inv(c)
    ensures Inv(DispatchResponse(c, msg).c) && FuturesKept(c, DispatchResponse(c, msg).c)
  {
  }

  lemma UpdateKeepsInv(c: Client, msg: Object)
    requires Inv(c)
    ensures Inv(DispatchUpdate(c, msg).c) && FuturesKept(c, DispatchUpdate(c, msg).c)
  {
  }

  lemma KeptTransitive(a: Client, b: Client, c: Client)
    requires Inv(a) && Inv(b) && Inv(c) && FuturesKept(a, b) && FuturesKept(b, c)
    ensures FuturesKept(a, c)
  {
  }

  lemma DispatchKeepsInv(c: Client, msg: Object)
    requires Inv(c)
    ensures Inv(Dispatch(c, msg).c) && FuturesKept(c, Dispatch(c, msg).c)
  {
    if IsResponse(msg) {
      ResponseKeepsInv(c, msg);
    } else if Get(msg, "method") == Str("session/update") {
      UpdateKeepsInv(c, msg);
    }
  }

  lemma MessageKeepsInv(c: Client, msg: Object)
    requires Inv(c)
    ensures Inv(Apply(c, Message(msg))) && FuturesKept(c, Apply(c, Message(msg)))
  {
    var c1 := Dispatch(c, msg).c;
    DispatchKeepsInv(c, msg);
    StdoutClosedKeepsInv(c1);
    KeptTransitive(c, c1, StdoutClosed(c1));
  }

  lemma AllocateKeepsInv(c: Client)
    requires Inv(c)
    ensures Inv(Allocate(c)) && FuturesKept(c, Allocate(c))
  {
  }

  lemma ForgetKeepsInv(c: Client, id: int)
    requires Inv(c)
    ensures Inv(Forget(c, id)) && FuturesKept(c, Forget(c, id))
  {
  }

  lemma AbandonKeepsInv(c: Client, r: nat)
    requires Inv(c) && r < |c.futures|
    ensures Inv(Apply(c, Abandon(r))) && FuturesKept(c, Apply(c, Abandon(r)))
  {
  }

  lemma RegisterKeepsInv(c: Client, key: string, sid: string)
    requires Inv(c)
    ensures Inv(Register(c, key, sid)) && FuturesKept(c, Register(c, key, sid))
  {
  }

  lemma QueueKeepsInv(c: Client, i: nat, queue: seq<QueueItem>)
    requires Inv(c) && i < |c.sessions|
    ensures Inv(SetQueue(c, i, queue)) && FuturesKept(c, SetQueue(c, i, queue))
  {
  }

  lemma StepKeepsInv(c: Client, step: Step)
    requires Inv(c) && Enabled(c, step)
    ensures Inv(Apply(c, step)) && FuturesKept(c, Apply(c, step))
  {
    match step
    case DoAllocate => AllocateKeepsInv(c);
    case DoForget(id) => ForgetKeepsInv(c, id);
    case Abandon(r) => AbandonKeepsInv(c, r);
    case Message(msg) => MessageKeepsInv(c, msg);
    case DoStdoutClosed => StdoutClosedKeepsInv(c);
    case DoAclose => AcloseKeepsInv(c);
    case DoClose(key) => CloseKeepsInv(c, key);
    case DoRegister(key, sid) => RegisterKeepsInv(c, key, sid);
    case Take(i) => QueueKeepsInv(c, i, c.sessions[i].queue[1..]);
    case Drain(i) => QueueKeepsInv(c, i, []);
  }

  lemma {:induction false} RunKeepsFutures(c: Client, steps: seq<Step>, c': Client)
    requires Inv(c) && Executes(c, steps, c')
    ensures Inv(c') && FuturesKept(c, c')
    decreases |steps|
  {
    if steps != [] {
      var c1 := Apply(c, steps[0]);
      StepKeepsInv(c, steps[0]);
      RunKeepsFutures(c1, steps[1..], c');
      KeptTransitive(c, c1, c');
    }
  }

  // ---- response correlation ------------------------------------------------

  /** Request ids are never reused, whatever restarts or closes happen in between. */
  lemma IdsNeverReused(ints: IntParser, steps: seq<Step>, c: Client, r: nat, q: nat)
    requires Executes(Init(ints), steps, c)
    requires r < q < |c.futures|
    ensures c.futures[r].id != c.futures[q].id
    ensures Allocate(c).futures[|c.futures|].id > c.futures[q].id
  {
    RunKeepsFutures(Init(ints), steps, c);
  }

  /**
   A step changes an existing future only by completing it while it is open; and if
   the step is a message, the future is the one allocated for the response's id (or
   the reader crashed and every open pending future got the closed error).
   */
  lemma OnlyItsResponseCompletes(c: Client, step: Step, r: nat)
    requires Inv(c) && Enabled(c, step) && r < |c.futures|
    requires Apply(c, step).futures[r] != c.futures[r]
    ensures c.futures[r].st == Open && Apply(c, step).futures[r].st != Open
    ensures step.Message? && !Dispatch(c, step.msg).crashed ==>
              && IsResponse(step.msg) && IsInt(Get(step.msg, "id"))
              && AsInt(Get(step.msg, "id")) == c.futures[r].id
              && Verdict(c.ints, step.msg) == Some(Apply(c, step).futures[r].st)
    ensures step.Message? && Dispatch(c, step.msg).crashed ==>
              Apply(c, step).futures[r].st == Rejected(CLOSED, Lit("child stdout closed"))
    ensures step.Message? || step.DoStdoutClosed? || step.DoAclose? || step == Abandon(r)
  {
    match step
    case Message(msg) => MessageCompletes(c, msg, r);
    case _ =>
  }

  lemma DispatchCompletes(c: Client, msg: Object, r: nat)
    requires Inv(c) && r < |c.futures|
    ensures Dispatch(c, msg).crashed ==> Dispatch(c, msg).c.futures == c.futures
    ensures |Dispatch(c, msg).c.futures| == |c.futures|
    ensures Dispatch(c, msg).c.futures[r] != c.futures[r] ==>
              && c.futures[r].st == Open && Dispatch(c, msg).c.futures[r].st != Open
              && IsResponse(msg) && IsInt(Get(msg, "id")) && AsInt(Get(msg, "id")) == c.futures[r].id
              && Verdict(c.ints, msg) == Some(Dispatch(c, msg).c.futures[r].st)
  {
  }

  lemma MessageCompletes(c: Client, msg: Object, r: nat)
    requires Inv(c) && r < |c.futures|
    requires Apply(c, Message(msg)).futures[r] != c.futures[r]
    ensures c.futures[r].st == Open && Apply(c, Message(msg)).futures[r].st != Open
    ensures !Dispatch(c, msg).crashed ==>
              && IsResponse(msg) && IsInt(Get(msg, "id")) && AsInt(Get(msg, "id")) == c.futures[r].id
              && Verdict(c.ints, msg) == Some(Apply(c, Message(msg)).futures[r].st)
    ensures Dispatch(c, msg).crashed ==>
              Apply(c, Message(msg)).futures[r].st == Rejected(CLOSED, Lit("child stdout closed"))
  {
    DispatchCompletes(c, msg, r);
  }

  /** A response to an id that is not pending changes nothing at all. */
  lemma UnknownResponseIgnored(c: Client, msg: Object)
    requires Inv(c) && IsResponse(msg)
    requires IsInt(Get(msg, "id")) ==> AsInt(Get(msg, "id")) !in c.pending
    ensures Apply(c, Message(msg)) == c
  {
  }

  lemma ResponseTakesId(c: Client, msg: Object)
    requires Inv(c) && IsResponse(msg) && IsInt(Get(msg, "id"))
    ensures Inv(Apply(c, Message(msg))) && FuturesKept(c, Apply(c, Message(msg)))
    ensures AsInt(Get(msg, "id")) !in Apply(c, Message(msg)).pending
  {
    MessageKeepsInv(c, msg);
  }

  /** Once an id has been answered, any later response with that id changes nothing. */
  lemma RepeatedResponseIgnored(c: Client, msg: Object, steps: seq<Step>, c': Client, again: Object)
    requires Inv(c) && IsResponse(msg) && IsInt(Get(msg, "id"))
    requires 1 <= AsInt(Get(msg, "id")) <= c.nextId
    requires Executes(Apply(c, Message(msg)), steps, c')
    requires IsResponse(again) && IsInt(Get(again, "id")) && AsInt(Get(again, "id")) == AsInt(Get(msg, "id"))
    ensures Inv(c') && Apply(c', Message(again)) == c'
  {
    var c1 := Apply(c, Message(msg));
    ResponseTakesId(c, msg);
    RunKeepsFutures(c1, steps, c');
    UnknownResponseIgnored(c', again);
  }

  /** The response's error is truthy but not an object, or has a `code` that Python cannot turn into an int. */
  predicate UnreadableError(ints: IntParser, msg: Object) {
    var err := Get(msg, "error");
    Truthy(err) && (!err.Obj? || ("code" in err.fields && IntOf(ints, err.fields["code"]).None?))
  }

  /**
   A response to an open pending request takes its id out of `pending`, and completes
   its future if and only if its error is readable.
   */
  lemma ResponseCompletesExactly(c: Client, msg: Object, r: nat)
    requires Inv(c) && IsResponse(msg) && IsInt(Get(msg, "id"))
    requires AsInt(Get(msg, "id")) in c.pending && c.pending[AsInt(Get(msg, "id"))] == r
    requires c.futures[r].st == Open
    ensures Inv(Apply(c, Message(msg))) && |Apply(c, Message(msg)).futures| == |c.futures|
    ensures r + 1 !in Apply(c, Message(msg)).pending && Apply(c, Message(msg)).futures[r].id == r + 1
    ensures Apply(c, Message(msg)).futures[r].st != Open <==> !UnreadableError(c.ints, msg)
    ensures !UnreadableError(c.ints, msg) ==> Verdict(c.ints, msg) == Some(Apply(c, Message(msg)).futures[r].st)
  {
    MessageKeepsInv(c, msg);
    var out := Dispatch(c, msg);
    assert AsInt(Get(msg, "id")) == r + 1;
    assert Verdict(c.ints, msg).None? <==> UnreadableError(c.ints, msg);
    if out.crashed {
      DispatchKeepsInv(c, msg);
      NotPending(out.c, r);
    }
  }

  /**
   An unreadable error leaves the waiter of its request waiting for ever: the reader
   crashes with the future already out of `pending`, and no later run completes it
   unless the waiter itself is cancelled.  A readable response never does that.
   */
  lemma OrphanedExactly(c: Client, msg: Object, r: nat, steps: seq<Step>, c': Client)
    requires Inv(c) && IsResponse(msg) && IsInt(Get(msg, "id"))
    requires AsInt(Get(msg, "id")) in c.pending && c.pending[AsInt(Get(msg, "id"))] == r
    requires c.futures[r].st == Open
    requires Executes(Apply(c, Message(msg)), steps, c') && Abandon(r) !in steps
    ensures r < |c'.futures| && (c'.futures[r].st == Open <==> UnreadableError(c.ints, msg))
  {
    var c1 := Apply(c, Message(msg));
    ResponseCompletesExactly(c, msg, r);
    if UnreadableError(c.ints, msg) {
      OrphanStaysOpen(c1, r, steps, c');
    } else {
      RunKeepsFutures(c1, steps, c');
    }
  }

  /** Not even EOF and `aclose` complete an orphaned future. */
  lemma OrphanSurvivesClosing(c: Client, msg: Object, r: nat)
    requires Inv(c) && IsResponse(msg) && IsInt(Get(msg, "id"))
    requires AsInt(Get(msg, "id")) in c.pending && c.pending[AsInt(Get(msg, "id"))] == r
    requires c.futures[r].st == Open && UnreadableError(c.ints, msg)
    ensures var c1 := Apply(c, Message(msg));
            && |c1.futures| == |c.futures| == |Aclose(StdoutClosed(c1)).futures|
            && Aclose(StdoutClosed(c1)).futures[r] == c1.futures[r] == c.futures[r]
  {
    ResponseCompletesExactly(c, msg, r);
    ClosingSkips(Apply(c, Message(msg)), r);
  }

  const BOOM: Object := map["id" := Num(1), "error" := Str("boom")]

  /** `{"id":1,"error":{"code":1e400}}`: Python reads the code as an infinity, and `int` of it raises. */
  const OVERFLOW: Object := map["id" := Num(1), "error" := Obj(map["code" := NonFinite])]

  lemma ExamplesAreUnreadable(ints: IntParser, msg: Object)
    requires msg == BOOM || msg == OVERFLOW
    ensures IsResponse(msg) && Get(msg, "id") == Num(1) && UnreadableError(ints, msg)
  {
    assert |"id"| == 2 && |"error"| == 5;
    assert "code" in OVERFLOW["error"].fields;
  }

  /** One request, answered with an error that is a plain string or has an overflowing code. */
  lemma OrphanExample(ints: IntParser, msg: Object)
    requires msg == BOOM || msg == OVERFLOW
    ensures var c := Apply(Allocate(Init(ints)), Message(msg));
            |c.futures| == 1 == |Aclose(StdoutClosed(c)).futures| && Aclose(StdoutClosed(c)).futures[0] == Future(1, Open)
  {
    AllocateKeepsInv(Init(ints));
    ExamplesAreUnreadable(ints, msg);
    OrphanSurvivesClosing(Allocate(Init(ints)), msg, 0);
  }

  /** Closing completes pending futures only. */
  lemma ClosingSkips(c: Client, r: nat)
    requires Inv(c) && r < |c.futures| && r + 1 !in c.pending
    ensures |Aclose(StdoutClosed(c)).futures| == |c.futures| && Aclose(StdoutClosed(c)).futures[r] == c.futures[r]
  {
    StdoutClosedKeepsInv(c);
    NotPending(c, r);
    AcloseSkips(StdoutClosed(c), r);
  }

  lemma AcloseSkips(c: Client, r: nat)
    requires Inv(c) && r < |c.futures| && r + 1 !in c.pending
    ensures |Aclose(c).futures| == |c.futures| && Aclose(c).futures[r] == c.futures[r]
  {
    NotPending(c, r);
  }

  /** An orphaned future stays open in every later run in which its waiter is not cancelled. */
  lemma {:induction false} OrphanStaysOpen(c: Client, r: nat, steps: seq<Step>, c': Client)
    requires Inv(c) && r < |c.futures| && c.futures[r].st == Open && r + 1 !in c.pending
    requires Executes(c, steps, c') && Abandon(r) !in steps
    ensures r < |c'.futures| && c'.futures[r].st == Open
    decreases |steps|
  {
    if steps != [] {
      var c1 := Apply(c, steps[0]);
      StepKeepsInv(c, steps[0]);
      assert steps[0] in steps;
      OrphanStep(c, steps[0], r);
      OrphanStaysOpen(c1, r, steps[1..], c');
    }
  }

  lemma NotPending(c: Client, r: nat)
    requires Inv(c) && r + 1 !in c.pending
    ensures r !in c.pending.Values
  {
    forall id | id in c.pending ensures c.pending[id] != r { assert id == c.pending[id] + 1; }
  }

  lemma OrphanResponse(c: Client, msg: Object, r: nat)
    requires Inv(c) && r < |c.futures| && r + 1 !in c.pending
    ensures DispatchResponse(c, msg).c.futures[r] == c.futures[r]
    ensures r + 1 !in DispatchResponse(c, msg).c.pending
  {
    NotPending(c, r);
  }

  lemma OrphanDispatch(c: Client, msg: Object, r: nat)
    requires Inv(c) && r < |c.futures| && r + 1 !in c.pending
    ensures Inv(Dispatch(c, msg).c)
    ensures |Dispatch(c, msg).c.futures| == |c.futures| && Dispatch(c, msg).c.futures[r] == c.futures[r]
    ensures r + 1 !in Dispatch(c, msg).c.pending
  {
    DispatchKeepsInv(c, msg);
    OrphanResponse(c, msg, r);
  }

  lemma OrphanMessage(c: Client, msg: Object, r: nat)
    requires Inv(c) && r < |c.futures| && r + 1 !in c.pending
    ensures r < |Apply(c, Message(msg)).futures| && Apply(c, Message(msg)).futures[r] == c.futures[r]
  {
    OrphanDispatch(c, msg, r);
    NotPending(Dispatch(c, msg).c, r);
  }

  lemma OrphanStep(c: Client, step: Step, r: nat)
    requires Inv(c) && Enabled(c, step) && r < |c.futures| && c.futures[r].st == Open && r + 1 !in c.pending
    requires step != Abandon(r)
    ensures r < |Apply(c, step).futures| && Apply(c, step).futures[r] == c.futures[r]
  {
    NotPending(c, r);
    match step
    case Message(msg) => OrphanMessage(c, msg, r);
    case _ =>
  }

  /** The `r`th future once the pending ids below `id` have been visited. */
  function FailedBelow(c: Client, r: nat, id: nat, message: string): Future
    requires r < |c.futures|
  {
    if r + 1 in c.pending && r + 1 < id then Fail(c.futures[r], message) else c.futures[r]
  }

  lemma FailPendingMeaning(c: Client, futures: seq<Future>, message: string)
    requires Inv(c) && |futures| == |c.futures|
    requires forall r :: 0 <= r < |futures| ==> futures[r] == FailedBelow(c, r, c.nextId + 1, message)
    ensures futures == FailPending(c, message).futures
  {
    forall r | 0 <= r < |futures| ensures futures[r] == FailPending(c, message).futures[r] {
      if r + 1 in c.pending {
        assert c.pending[r + 1] == r;
      } else {
        NotPending(c, r);
      }
    }
  }

  // ---- the runtime object --------------------------------------------------

  class SubprocessAcpRuntime {
    const ints: IntParser
    var nextId: nat
    var pending: map<int, nat>
    var futures: seq<Future>
    var sessions: seq<Session>
    var byKey: map<string, nat>
    var byId: map<string, nat>
    var closed: bool

    ghost function View(): Client
      reads this
    {
      Client(ints, nextId, pending, futures, sessions, byKey, byId, closed)
    }

    ghost predicate Valid()
      reads this
    {
      Inv(View())
    }

    constructor (ints: IntParser)
      ensures Valid() && View() == Init(ints)
    {
      this.ints := ints;
      nextId, pending, futures, sessions, byKey, byId, closed := 0, map[], [], [], map[], map[], false;
    }

    /** `_allocate_id`, then the future registered under the new id. */
    method NewRequest() returns (id: int)
      requires Valid()
      modifies this
      ensures Valid() && View() == Allocate(old(View())) && id == nextId
      ensures forall r :: 0 <= r < |old(futures)| ==> old(futures)[r].id != id
    {
      AllocateKeepsInv(View());
      nextId := nextId + 1;
      id := nextId;
      pending := pending[id := |futures|];
      futures := futures + [Future(id, Open)];
    }

    /** The error body of a response; `crashed` when Python raises while reading it. */
    method ReadVerdict(msg: Object) returns (st: FutureState, crashed: bool)
      ensures if crashed then Verdict(ints, msg).None? else Verdict(ints, msg) == Some(st)
    {
      var err := Get(msg, "error");
      if !Truthy(err) {
        return Resolved(Get(msg, "result")), false;
      }
      if !err.Obj? {
        return Open, true;
      }
      var code := if "code" in err.fields then IntOf(ints, err.fields["code"]) else Some(DEFAULT_CODE);
      if code.None? {
        return Open, true;
      }
      var message := if "message" in err.fields then PyStr(err.fields["message"]) else Lit("wire error");
      return Rejected(code.value, message), false;
    }

    method OnResponse(msg: Object) returns (crashed: bool)
      requires Valid()
      modifies this`pending, this`futures
      ensures Valid() && Outcome(View(), crashed) == DispatchResponse(old(View()), msg)
    {
      ResponseKeepsInv(View(), msg);
      var mid := Get(msg, "id");
      if !IsInt(mid) {
        return false;
      }
      var id := AsInt(mid);
      if id !in pending {
        return false;
      }
      var r := pending[id];
      pending := pending - {id};
      if futures[r].st != Open {
        return false;
      }
      var st;
      st, crashed := ReadVerdict(msg);
      if !crashed {
        futures := futures[r := futures[r].(st := st)];
      }
    }

    method OnUpdate(msg: Object) returns (crashed: bool)
      requires Valid()
      modifies this`sessions
      ensures Valid() && Outcome(View(), crashed) == DispatchUpdate(old(View()), msg)
    {
      UpdateKeepsInv(View(), msg);
      var params := Or(Get(msg, "params"), Obj(map[]));
      if !params.Obj? {
        return true;
      }
      var sid := Get(params.fields, "sessionId");
      var update := Or(Get(params.fields, "update"), Obj(map[]));
      if !sid.Str? || !update.Obj? {
        return false;
      }
      if sid.s !in byId {
        return false;
      }
      var event := ProjectUpdate(update.fields);
      if event.None? {
        return false;
      }
      var i := byId[sid.s];
      sessions := sessions[i := sessions[i].(queue := sessions[i].queue + [Event(event.value)])];
      return false;
    }

    /** `_dispatch` */
    method OnMessage(msg: Object) returns (crashed: bool)
      requires Valid()
      modifies this
      ensures Valid() && Outcome(View(), crashed) == Dispatch(old(View()), msg)
    {
      if "id" in msg && ("result" in msg || "error" in msg) {
        crashed := OnResponse(msg);
      } else if Get(msg, "method") == Str("session/update") {
        crashed := OnUpdate(msg);
      } else {
        crashed := false;
      }
    }

    /** One pass over the pending futures, oldest first; completed ones are left alone. */
    method FailAll(message: string)
      requires Valid()
      modifies this`futures
      ensures View() == FailPending(old(View()), message)
    {
      for id := 1 to nextId + 1
        invariant |futures| == nextId
        invariant forall r :: 0 <= r < |futures| ==> futures[r] == FailedBelow(old(View()), r, id, message)
      {
        if id in pending {
          var r := pending[id];
          assert r == id - 1;
          if futures[r].st == Open {
            futures := futures[r := futures[r].(st := Rejected(CLOSED, Lit(message)))];
          }
        }
      }
      FailPendingMeaning(old(View()), futures, message);
    }

    /** One sentinel for each session still registered under a key. */
    method SignalAll()
      requires Valid()
      modifies this`sessions
      ensures View() == SignalSessions(old(View()))
    {
      var keys := byKey.Keys;
      ghost var done: set<nat> := {};
      while keys != {}
        invariant keys <= byKey.Keys && |sessions| == |old(sessions)|
        invariant done == set k | k in byKey && k !in keys :: byKey[k]
        invariant forall i :: 0 <= i < |sessions| ==>
                    sessions[i] == if i in done then old(sessions)[i].(queue := old(sessions)[i].queue + [Sentinel])
                                   else old(sessions)[i]
        decreases keys
      {
        var k :| k in keys;
        var i := byKey[k];
        assert i !in done;
        sessions := sessions[i := sessions[i].(queue := sessions[i].queue + [Sentinel])];
        keys := keys - {k};
        done := done + {i};
      }
      assert done == byKey.Values;
    }

    method OnStdoutClosed()
      requires Valid()
      modifies this
      ensures Valid() && View() == StdoutClosed(old(View()))
    {
      StdoutClosedKeepsInv(View());
      FailAll("child stdout closed");
      SignalAll();
    }

    method FailEverything()
      requires Valid()
      modifies this`closed, this`futures, this`pending
      ensures Valid()
      ensures View() == FailPending(old(View()).(closed := true), "backend closed before response").(pending := map[])
    {
      closed := true;
      FailAll("backend closed before response");
      pending := map[];
    }

    method AcloseBackend()
      requires Valid()
      modifies this
      ensures Valid() && View() == Aclose(old(View()))
    {
      if closed {
        return;
      }
      FailEverything();
      ghost var c := View();
      SignalKeepsInv(c);
      SignalAll();
    }

    method Close(key: string)
      requires Valid()
      modifies this
      ensures Valid() && View() == CloseSession(old(View()), key)
    {
      CloseKeepsInv(View(), key);
      if key !in byKey {
        return;
      }
      var i := byKey[key];
      byKey := byKey - {key};
      byId := byId - {sessions[i].sid};
      sessions := sessions[i := sessions[i].(queue := sessions[i].queue + [Sentinel])];
    }

    /** `_drain_queue` */
    method DrainQueue(i: nat)
      requires Valid() && i < |sessions|
      modifies this`sessions
      ensures Valid() && View() == SetQueue(old(View()), i, [])
    {
      while sessions[i].queue != []
        invariant i < |sessions| && View() == SetQueue(old(View()), i, sessions[i].queue)
        decreases |sessions[i].queue|
      {
        sessions := sessions[i := sessions[i].(queue := sessions[i].queue[1..])];
      }
    }
  }
}
