/**
 One client turn (`_run_turn` in oxenclaw/acp/subprocess_runtime.py): it drains
 the session's queue, sends the prompt, and merges the queue with the response
 into one event stream while everything else on the client goes on around it.
 */
module ClientTurn {
  import opened Wrappers
  import opened Json
  import opened AcpEvents
  import opened AcpClient
  import Seqs

  /**
   Where the generator is suspended: in the send, in `asyncio.wait`, in
   `asyncio.wait` with the queue read already done, at a `yield` of the main loop,
   or in the drain that follows the response.  `Over` remembers whether the
   response ended the turn.
   */
  datatype Pc = Sending | Waiting | Holding(item: QueueItem) | Yielded | Draining | Over(byResponse: bool)

  /** The turn on session `s` whose prompt request owns future `r`. */
  datatype Turn = Turn(s: nat, r: nat, pc: Pc, yielded: seq<ClientEvent>)

  /**
   `enqueued` are the updates put on the session's queue since the initial drain,
   in wire order; `answeredAt` is how many there were when the future completed.
   */
  datatype System = System(c: Client, turn: Turn, enqueued: seq<ClientEvent>, answeredAt: Option<nat>)

  function Queue(sys: System): seq<QueueItem>
    requires sys.turn.s < |sys.c.sessions|
  {
    sys.c.sessions[sys.turn.s].queue
  }

  function Answer(sys: System): FutureState
    requires sys.turn.r < |sys.c.futures|
  {
    sys.c.futures[sys.turn.r].st
  }

  function Events(q: seq<QueueItem>): seq<ClientEvent> {
    if q == [] then [] else (if q[0].Event? then [q[0].ev] else []) + Events(q[1..])
  }

  /** The turn up to its first suspension. */
  function Begin(c: Client, s: nat): System
    requires s < |c.sessions|
  {
    var c1 := Allocate(SetQueue(c, s, []));
    System(c1, Turn(s, |c.futures|, Sending, []), [], None)
  }

  /** The terminal event a completed future stands for. */
  function Verdictive(st: FutureState): ClientEvent {
    match st
    case Rejected(code, message) => Failed(message, StrOf(Num(code)))
    case Resolved(result) =>
      Finished(Or(if result.Obj? then Get(result.fields, "stopReason") else Null, Str("stop")))
    case _ => Finished(Str("stop"))
  }

  const CHILD_CLOSED := Failed(Lit("child closed before stopReason arrived"), Lit("child_closed"))

  datatype TurnStep =
    | Sent
    | SendFails(reason: string)
    | ReadQueue
    | Wake
    | Resume
    | DrainOne
    | Finish

  predicate TurnEnabled(sys: System, ts: TurnStep)
    requires sys.turn.s < |sys.c.sessions| && sys.turn.r < |sys.c.futures|
  {
    match ts
    case Sent => sys.turn.pc.Sending?
    case SendFails(_) => sys.turn.pc.Sending?
    case ReadQueue => sys.turn.pc.Waiting? && Queue(sys) != []
    case Wake => sys.turn.pc.Holding? || (sys.turn.pc.Waiting? && Answer(sys) != Open)
    case Resume => sys.turn.pc.Yielded?
    case DrainOne => sys.turn.pc.Draining? && Queue(sys) != []
    case Finish => sys.turn.pc.Draining? && Queue(sys) == []
  }

  function At(sys: System, pc: Pc): System { sys.(turn := sys.turn.(pc := pc)) }

  function Yield(sys: System, ev: ClientEvent, pc: Pc): System {
    sys.(turn := sys.turn.(pc := pc, yielded := sys.turn.yielded + [ev]))
  }

  /** A terminal event and the generator's `finally`. */
  function Terminate(sys: System, ev: ClientEvent, byResponse: bool): System {
    Yield(sys.(c := Forget(sys.c, sys.turn.r + 1)), ev, Over(byResponse))
  }

  function Pop(sys: System): System
    requires sys.turn.s < |sys.c.sessions| && Queue(sys) != []
  {
    sys.(c := SetQueue(sys.c, sys.turn.s, Queue(sys)[1..]))
  }

  function TurnApply(sys: System, ts: TurnStep): System
    requires sys.turn.s < |sys.c.sessions| && sys.turn.r < |sys.c.futures| && TurnEnabled(sys, ts)
  {
    match ts
    case Sent => At(sys, Waiting)
    case SendFails(reason) => Terminate(sys, Failed(Lit(reason), Lit("wire_send_failed")), false)
    case ReadQueue => At(Pop(sys), Holding(Queue(sys)[0]))
    case Wake =>
      if sys.turn.pc.Waiting? then At(sys, Draining)
      else if sys.turn.pc.item.Sentinel? then Terminate(sys, CHILD_CLOSED, false)
      else Yield(sys, sys.turn.pc.item.ev, Yielded)
    case Resume => At(sys, if Answer(sys) != Open then Draining else Waiting)
    case DrainOne =>
      var item := Queue(sys)[0];
      if item.Sentinel? then Pop(sys) else Yield(Pop(sys), item.ev, Draining)
    case Finish => Terminate(sys, Verdictive(Answer(sys)), true)
  }

  lemma {:induction false} EventsConcat(a: seq<QueueItem>, b: seq<QueueItem>)
    ensures Events(a + b) == Events(a) + Events(b)
  {
    if a == [] {
      assert a + b == b;
    } else {
      Seqs.Uncons(a, b);
      EventsConcat(a[1..], b);
      Seqs.Regroup(if a[0].Event? then [a[0].ev] else [], Events(a[1..]), Events(b));
    }
  }

  lemma EventsCons(q: seq<QueueItem>)
    requires q != []
    ensures Events(q) == Events([q[0]]) + Events(q[1..])
    ensures Events([q[0]]) == if q[0].Event? then [q[0].ev] else []
  {
    EventsConcat([q[0]], q[1..]);
    assert [q[0]] + q[1..] == q;
  }

  // ---- everything else on the client ---------------------------------------

  /** Other coroutines do not read this session's queue, and only the turn drops its own request. */
  predicate Around(turn: Turn, step: Step) {
    match step
    case DoForget(id) => id != turn.r + 1
    case Abandon(r) => r != turn.r
    case Take(i) => i != turn.s
    case Drain(i) => i != turn.s
    case _ => true
  }

  lemma ProjectedNotTerminal(update: Object)
    ensures ProjectUpdate(update).Some? ==> !ProjectUpdate(update).value.Terminal()
  {
  }

  ghost predicate NoTerminal(evs: seq<ClientEvent>) { forall i :: 0 <= i < |evs| ==> !evs[i].Terminal() }

  /** `c'` is `c` with zero or more items appended to queue `s`, none of them a terminal event. */
  ghost predicate QueueGrows(c: Client, c': Client, s: nat)
    requires s < |c.sessions|
  {
    && s < |c'.sessions|
    && c.sessions[s].queue <= c'.sessions[s].queue
    && NoTerminal(Events(c'.sessions[s].queue[|c.sessions[s].queue|..]))
  }

  lemma SentinelGrows(c: Client, s: nat)
    requires s < |c.sessions|
    ensures QueueGrows(c, SignalSessions(c), s)
  {
    var q, q' := c.sessions[s].queue, SignalSessions(c).sessions[s].queue;
    assert q'[|q|..] == if s in c.byKey.Values then [Sentinel] else [];
  }

  lemma GrowsTwice(a: Client, b: Client, c: Client, s: nat)
    requires s < |a.sessions| && QueueGrows(a, b, s) && QueueGrows(b, c, s)
    ensures QueueGrows(a, c, s)
  {
    var p, q, r := a.sessions[s].queue, b.sessions[s].queue, c.sessions[s].queue;
    assert r[|p|..] == q[|p|..] + r[|q|..];
    EventsConcat(q[|p|..], r[|q|..]);
  }

  lemma SameQueueGrows(c: Client, c': Client, s: nat)
    requires s < |c.sessions| && s < |c'.sessions| && c.sessions[s].queue == c'.sessions[s].queue
    ensures QueueGrows(c, c', s)
  {
    assert c'.sessions[s].queue[|c.sessions[s].queue|..] == [];
  }

  lemma PushGrows(c: Client, s: nat, i: nat, item: QueueItem)
    requires s < |c.sessions| && i < |c.sessions|
    requires item.Event? ==> !item.ev.Terminal()
    ensures QueueGrows(c, Push(c, i, item), s)
  {
    var q, q' := c.sessions[s].queue, Push(c, i, item).sessions[s].queue;
    assert q'[|q|..] == if i == s then [item] else [];
    if i == s { EventsCons([item]); }
  }

  lemma MessageGrows(c: Client, s: nat, msg: Object)
    requires Inv(c) && s < |c.sessions|
    ensures QueueGrows(c, Dispatch(c, msg).c, s)
  {
    var out := Dispatch(c, msg);
    var params := Or(Get(msg, "params"), Obj(map[]));
    if !IsResponse(msg) && out.c != c {
      var sid := Get(params.fields, "sessionId");
      var update := Or(Get(params.fields, "update"), Obj(map[]));
      ProjectedNotTerminal(update.fields);
      PushGrows(c, s, c.byId[sid.s], Event(ProjectUpdate(update.fields).value));
    } else {
      SameQueueGrows(c, out.c, s);
    }
  }

  lemma AroundGrows(turn: Turn, c: Client, step: Step)
    requires Inv(c) && Enabled(c, step) && Around(turn, step) && turn.s < |c.sessions|
    ensures QueueGrows(c, Apply(c, step), turn.s)
  {
    var s := turn.s;
    match step
    case Message(msg) =>
      var out := Dispatch(c, msg);
      MessageGrows(c, s, msg);
      if out.crashed {
        CrashGrows(c, out.c, s);
      }
    case DoStdoutClosed => SentinelGrows(FailPending(c, "child stdout closed"), s);
    case DoAclose => AcloseGrows(c, s);
    case DoClose(key) =>
      if key in c.byKey {
        PushGrows(c.(byKey := c.byKey - {key}, byId := c.byId - {c.sessions[c.byKey[key]].sid}), s, c.byKey[key], Sentinel);
      } else {
        SameQueueGrows(c, c, s);
      }
    case _ => SameQueueGrows(c, Apply(c, step), s);
  }

  lemma CrashGrows(c: Client, c1: Client, s: nat)
    requires s < |c.sessions| && QueueGrows(c, c1, s)
    ensures QueueGrows(c, StdoutClosed(c1), s)
  {
    var c2 := FailPending(c1, "child stdout closed");
    SentinelGrows(c2, s);
    SameQueueGrows(c1, c2, s);
    GrowsTwice(c, c1, c2, s);
    GrowsTwice(c, c2, StdoutClosed(c1), s);
  }

  lemma AcloseGrows(c: Client, s: nat)
    requires s < |c.sessions|
    ensures QueueGrows(c, Aclose(c), s)
  {
    if c.closed {
      SameQueueGrows(c, c, s);
    } else {
      SentinelGrows(FailPending(c.(closed := true), "backend closed before response").(pending := map[]), s);
    }
  }

  function ClientApply(sys: System, step: Step): System
    requires Inv(sys.c) && Enabled(sys.c, step) && Around(sys.turn, step)
    requires sys.turn.s < |sys.c.sessions| && sys.turn.r < |sys.c.futures|
  {
    var c' := Apply(sys.c, step);
    AroundGrows(sys.turn, sys.c, step);
    StepKeepsInv(sys.c, step);
    var enqueued := sys.enqueued + Events(c'.sessions[sys.turn.s].queue[|Queue(sys)|..]);
    System(c', sys.turn, enqueued,
           if sys.answeredAt.None? && c'.futures[sys.turn.r].st != Open then Some(|enqueued|) else sys.answeredAt)
  }

  datatype SystemStep = OfTurn(ts: TurnStep) | OfClient(step: Step)

  ghost predicate SystemEnabled(sys: System, st: SystemStep) {
    && Inv(sys.c) && sys.turn.s < |sys.c.sessions| && sys.turn.r < |sys.c.futures|
    && match st
       case OfTurn(ts) => TurnEnabled(sys, ts)
       case OfClient(step) => Around(sys.turn, step) && Enabled(sys.c, step)
  }

  function SystemApply(sys: System, st: SystemStep): System
    requires SystemEnabled(sys, st)
  {
    match st
    case OfTurn(ts) => TurnApply(sys, ts)
    case OfClient(step) => ClientApply(sys, step)
  }

  ghost predicate Executes(sys: System, steps: seq<SystemStep>, sys': System)
    decreases |steps|
  {
    if steps == [] then sys == sys'
    else SystemEnabled(sys, steps[0]) && Executes(SystemApply(sys, steps[0]), steps[1..], sys')
  }

  // ---- the invariant -------------------------------------------------------

  /** The event the generator has taken off the queue but not yet yielded. */
  function Held(pc: Pc): seq<ClientEvent> { if pc.Holding? && pc.item.Event? then [pc.item.ev] else [] }

  ghost predicate StreamOk(turn: Turn, queue: seq<QueueItem>, enqueued: seq<ClientEvent>, answeredAt: Option<nat>) {
    if turn.pc.Over? then
      var n := |turn.yielded| - 1;
      && n >= 0 && turn.yielded[n].Terminal()
      && turn.yielded[..n] <= enqueued
      && (turn.pc.byResponse ==> answeredAt.Some? && answeredAt.value <= n)
      && (turn.yielded[n].Finished? ==> turn.pc.byResponse)
    else
      turn.yielded + Held(turn.pc) + Events(queue) == enqueued
  }

  ghost predicate SystemInv(sys: System) {
    && Inv(sys.c) && sys.turn.s < |sys.c.sessions| && sys.turn.r < |sys.c.futures|
    && NoTerminal(sys.enqueued)
    && (sys.answeredAt.Some? <==> Answer(sys) != Open)
    && (sys.answeredAt.Some? ==> sys.answeredAt.value <= |sys.enqueued|)
    && (sys.turn.pc.Draining? ==> Answer(sys) != Open)
    && StreamOk(sys.turn, Queue(sys), sys.enqueued, sys.answeredAt)
  }

  lemma BeginInv(c: Client, s: nat)
    requires Inv(c) && s < |c.sessions|
    ensures SystemInv(Begin(c, s))
  {
    AllocateKeepsInv(SetQueue(c, s, []));
  }

  lemma ClientStepKeepsInv(sys: System, step: Step)
    requires SystemInv(sys) && SystemEnabled(sys, OfClient(step))
    ensures SystemInv(ClientApply(sys, step))
  {
    var sys' := ClientApply(sys, step);
    AroundGrows(sys.turn, sys.c, step);
    StepKeepsInv(sys.c, step);
    var q, q' := Queue(sys), Queue(sys');
    assert q' == q + q'[|q|..];
    EventsConcat(q, q'[|q|..]);
    var arrived := Events(q'[|q|..]);
    assert sys'.enqueued == sys.enqueued + arrived;
    assert NoTerminal(sys'.enqueued);
    StreamGrows(sys.turn, q, q', sys.enqueued, arrived, sys.answeredAt, sys'.answeredAt);
  }

  lemma StreamGrows(
    turn: Turn, q: seq<QueueItem>, q': seq<QueueItem>, enqueued: seq<ClientEvent>, arrived: seq<ClientEvent>,
    at: Option<nat>, at': Option<nat>)
    requires StreamOk(turn, q, enqueued, at) && Events(q') == Events(q) + arrived
    requires at.Some? ==> at' == at
    ensures StreamOk(turn, q', enqueued + arrived, at')
  {
    if !turn.pc.Over? {
      assert turn.yielded + Held(turn.pc) + (Events(q) + arrived) == (turn.yielded + Held(turn.pc) + Events(q)) + arrived;
    }
  }

  /** Moving the head of the queue to the generator or to the consumer keeps the stream. */
  lemma StreamPops(yielded: seq<ClientEvent>, q: seq<QueueItem>, enqueued: seq<ClientEvent>)
    requires q != [] && yielded + Events(q) == enqueued
    ensures q[0].Event? ==> yielded + [q[0].ev] + Events(q[1..]) == enqueued
    ensures !q[0].Event? ==> yielded + Events(q[1..]) == enqueued
  {
    EventsCons(q);
    assert yielded + (Events([q[0]]) + Events(q[1..])) == yielded + Events([q[0]]) + Events(q[1..]);
    assert yielded + [] == yielded;
  }

  lemma NothingHeld(turn: Turn, queue: seq<QueueItem>)
    ensures !turn.pc.Holding? ==> turn.yielded + Held(turn.pc) + Events(queue) == turn.yielded + Events(queue)
  {
    assert turn.yielded + [] == turn.yielded;
  }

  lemma HoldHead(yielded: seq<ClientEvent>, q: seq<QueueItem>, enqueued: seq<ClientEvent>)
    requires q != [] && yielded + Events(q) == enqueued
    ensures yielded + Held(Holding(q[0])) + Events(q[1..]) == enqueued
  {
    StreamPops(yielded, q, enqueued);
    assert yielded + [] == yielded;
  }

  lemma ReadKeepsInv(sys: System)
    requires SystemInv(sys) && TurnEnabled(sys, ReadQueue)
    ensures SystemInv(TurnApply(sys, ReadQueue))
  {
    var q, sys' := Queue(sys), TurnApply(sys, ReadQueue);
    NothingHeld(sys.turn, q);
    HoldHead(sys.turn.yielded, q, sys.enqueued);
    assert Queue(sys') == q[1..];
    StepKeepsInv(sys.c, Take(sys.turn.s));
  }

  lemma DrainKeepsInv(sys: System)
    requires SystemInv(sys) && TurnEnabled(sys, DrainOne)
    ensures SystemInv(TurnApply(sys, DrainOne))
  {
    var q, sys' := Queue(sys), TurnApply(sys, DrainOne);
    NothingHeld(sys.turn, q);
    StreamPops(sys.turn.yielded, q, sys.enqueued);
    assert Queue(sys') == q[1..];
    NothingHeld(sys'.turn, q[1..]);
  }

  lemma TerminateKeepsInv(sys: System, ev: ClientEvent, byResponse: bool)
    requires SystemInv(sys) && !sys.turn.pc.Over? && ev.Terminal()
    requires byResponse ==> sys.turn.pc.Draining? && Queue(sys) == []
    requires ev.Finished? ==> byResponse
    ensures SystemInv(Terminate(sys, ev, byResponse))
  {
    var turn' := Terminate(sys, ev, byResponse).turn;
    assert turn'.yielded[..|sys.turn.yielded|] == sys.turn.yielded;
    assert sys.turn.yielded <= sys.enqueued;
    StepKeepsInv(sys.c, DoForget(sys.turn.r + 1));
  }

  /** The generator moves on without touching queue or stream. */
  lemma AtKeepsInv(sys: System, pc: Pc)
    requires SystemInv(sys) && !sys.turn.pc.Over? && !sys.turn.pc.Holding? && !pc.Over? && !pc.Holding?
    requires pc.Draining? ==> Answer(sys) != Open
    ensures SystemInv(At(sys, pc))
  {
  }

  /** The generator yields the event it holds. */
  lemma YieldKeepsInv(sys: System)
    requires SystemInv(sys) && sys.turn.pc.Holding? && sys.turn.pc.item.Event?
    ensures SystemInv(Yield(sys, sys.turn.pc.item.ev, Yielded))
  {
    Seqs.AppendNothing(sys.turn.yielded + [sys.turn.pc.item.ev]);
  }

  lemma WakeKeepsInv(sys: System)
    requires SystemInv(sys) && TurnEnabled(sys, Wake)
    ensures SystemInv(TurnApply(sys, Wake))
  {
    if sys.turn.pc.Waiting? {
      AtKeepsInv(sys, Draining);
    } else if sys.turn.pc.item.Sentinel? {
      TerminateKeepsInv(sys, CHILD_CLOSED, false);
    } else {
      YieldKeepsInv(sys);
    }
  }

  lemma TurnStepKeepsInv(sys: System, ts: TurnStep)
    requires SystemInv(sys) && SystemEnabled(sys, OfTurn(ts))
    ensures SystemInv(TurnApply(sys, ts))
  {
    match ts
    case Sent => AtKeepsInv(sys, Waiting);
    case SendFails(reason) => TerminateKeepsInv(sys, Failed(Lit(reason), Lit("wire_send_failed")), false);
    case ReadQueue => ReadKeepsInv(sys);
    case Wake => WakeKeepsInv(sys);
    case Resume => AtKeepsInv(sys, if Answer(sys) != Open then Draining else Waiting);
    case DrainOne => DrainKeepsInv(sys);
    case Finish => TerminateKeepsInv(sys, Verdictive(Answer(sys)), true);
  }

  lemma {:induction false} RunKeepsInv(sys: System, steps: seq<SystemStep>, sys': System)
    requires SystemInv(sys) && Executes(sys, steps, sys')
    ensures SystemInv(sys')
    decreases |steps|
  {
    if steps != [] {
      match steps[0] {
        case OfTurn(ts) => TurnStepKeepsInv(sys, ts);
        case OfClient(step) => ClientStepKeepsInv(sys, step);
      }
      RunKeepsInv(SystemApply(sys, steps[0]), steps[1..], sys');
    }
  }

  /** What a turn in progress has yielded. */
  lemma GoingStream(sys: System)
    requires SystemInv(sys) && !sys.turn.pc.Over?
    ensures sys.turn.yielded <= sys.enqueued && NoTerminal(sys.turn.yielded)
  {
    var yielded := sys.turn.yielded;
    assert yielded <= sys.enqueued;
    forall i | 0 <= i < |yielded| ensures !yielded[i].Terminal() { assert yielded[i] == sys.enqueued[i]; }
  }

  lemma PrefixAt<E>(a: seq<E>, b: seq<E>, n: nat)
    requires a <= b && n <= |a|
    ensures b[..n] <= a
  {
  }

  /** What a finished turn has yielded. */
  lemma OverStream(sys: System)
    requires SystemInv(sys) && sys.turn.pc.Over?
    ensures var n := |sys.turn.yielded| - 1;
            && n >= 0 && sys.turn.yielded[n].Terminal()
            && sys.turn.yielded[..n] <= sys.enqueued && NoTerminal(sys.turn.yielded[..n])
            && (sys.turn.yielded[n].Finished? ==> sys.turn.pc.byResponse)
            && (sys.turn.pc.byResponse ==>
                  sys.answeredAt.Some? && sys.answeredAt.value <= |sys.enqueued| && sys.enqueued[..sys.answeredAt.value] <= sys.turn.yielded[..n])
  {
    var n := |sys.turn.yielded| - 1;
    var before := sys.turn.yielded[..n];
    forall i | 0 <= i < n ensures !before[i].Terminal() { assert before[i] == sys.enqueued[i]; }
    if sys.turn.pc.byResponse { PrefixAt(before, sys.enqueued, sys.answeredAt.value); }
  }

  /**
   Under every interleaving of updates, responses, EOF, `close`, `aclose`, reader
   crashes and other requests, a turn yields updates in wire order, each at most
   once, and at most one terminal event, which is its last.  If the response ended
   it (as it must have when the terminal event is Done), every update enqueued
   before the response was yielded.
   */
  lemma TurnIsFaithful(c: Client, s: nat, steps: seq<SystemStep>, sys: System)
    requires Inv(c) && s < |c.sessions| && Executes(Begin(c, s), steps, sys)
    ensures !sys.turn.pc.Over? ==> sys.turn.yielded <= sys.enqueued && NoTerminal(sys.turn.yielded)
    ensures sys.turn.pc.Over? ==>
              var n := |sys.turn.yielded| - 1;
              && n >= 0 && sys.turn.yielded[n].Terminal()
              && sys.turn.yielded[..n] <= sys.enqueued && NoTerminal(sys.turn.yielded[..n])
              && (sys.turn.yielded[n].Finished? ==> sys.turn.pc.byResponse)
              && (sys.turn.pc.byResponse ==>
                    sys.answeredAt.Some? && sys.answeredAt.value <= |sys.enqueued| && sys.enqueued[..sys.answeredAt.value] <= sys.turn.yielded[..n])
  {
    BeginInv(c, s);
    RunKeepsInv(Begin(c, s), steps, sys);
    if sys.turn.pc.Over? { OverStream(sys); } else { GoingStream(sys); }
  }
}
