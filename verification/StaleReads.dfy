/**
 What a cancelled consumer does to the next turn of its session.

 `_run_turn` (oxenclaw/acp/subprocess_runtime.py) reads the session's queue through a
 task of its own.  A consumer that is cancelled while the turn waits drops the request
 but not that task, which stays first in line for the queue.
 */
module StaleReads {
  import opened Wrappers
  import opened Json
  import opened AcpEvents
  import Seqs
  import S = AcpServer
  import C = AcpClient
  import T = ClientTurn
  import E = EndToEnd

  /**
   A turn with `readers` queue reads left over from earlier turns.  `arrived` are the
   updates put on the queue since the turn began; `sys.enqueued` those of them that
   no stale read has taken.
   */
  datatype Turn = Turn(sys: T.System, readers: nat, arrived: seq<ClientEvent>)

  /**
   The client once the consumer is cancelled: the generator's `finally` drops the
   request, unless the turn is still sending it and has not reached the `try`.
   */
  function CancelConsumer(sys: T.System): C.Client {
    if sys.turn.pc.Sending? then sys.c else C.Forget(sys.c, sys.turn.r + 1)
  }

  /** A read that is under way outlives the cancellation. */
  function ReadsLeft(pc: T.Pc): nat { if pc.Waiting? then 1 else 0 }

  function Begin(c: C.Client, s: nat, readers: nat): Turn
    requires s < |c.sessions|
  {
    Turn(T.Begin(c, s), readers, [])
  }

  datatype Step = Usual(st: T.SystemStep) | StaleTake

  ghost predicate Enabled(t: Turn, step: Step) {
    match step
    case Usual(st) => T.SystemEnabled(t.sys, st)
    case StaleTake =>
      && C.Inv(t.sys.c) && t.sys.turn.s < |t.sys.c.sessions| && t.sys.turn.r < |t.sys.c.futures|
      && t.readers > 0 && T.Queue(t.sys) != []
  }

  /** What the turn has taken off the queue. */
  function Taken(turn: T.Turn): seq<ClientEvent> { turn.yielded + T.Held(turn.pc) }

  /** The turn's share of the updates once the head of the queue is gone. */
  function Lose(sys: T.System): T.System
    requires sys.turn.s < |sys.c.sessions| && T.Queue(sys) != []
  {
    var rest := T.Pop(sys);
    if sys.turn.pc.Over? || T.Queue(sys)[0].Sentinel? then rest
    else
      var n := |Taken(sys.turn)|;
      rest.(enqueued := Taken(sys.turn) + T.Events(T.Queue(sys)[1..]),
            answeredAt := if sys.answeredAt.Some? && sys.answeredAt.value > n then Some(sys.answeredAt.value - 1)
                          else sys.answeredAt)
  }

  function Apply(t: Turn, step: Step): Turn
    requires Enabled(t, step)
  {
    match step
    case Usual(st) =>
      var sys := T.SystemApply(t.sys, st);
      Turn(sys, t.readers,
           t.arrived + (if |t.sys.enqueued| <= |sys.enqueued| then sys.enqueued[|t.sys.enqueued|..] else []))
    case StaleTake => Turn(Lose(t.sys), t.readers - 1, t.arrived)
  }

  ghost predicate Executes(t: Turn, steps: seq<Step>, t': Turn)
    decreases |steps|
  {
    if steps == [] then t == t' else Enabled(t, steps[0]) && Executes(Apply(t, steps[0]), steps[1..], t')
  }

  // ---- subsequences --------------------------------------------------------

  ghost predicate Sub(a: seq<ClientEvent>, b: seq<ClientEvent>) {
    a == [] || (b != [] && ((a[0] == b[0] && Sub(a[1..], b[1..])) || Sub(a, b[1..])))
  }

  lemma {:induction false} SubRefl(a: seq<ClientEvent>)
    ensures Sub(a, a)
  {
    if a != [] { SubRefl(a[1..]); }
  }

  lemma {:induction false} SubAppend(a: seq<ClientEvent>, b: seq<ClientEvent>, x: seq<ClientEvent>)
    requires Sub(a, b)
    ensures Sub(a + x, b + x)
    decreases |b|
  {
    if b == [] {
      assert a + x == x && b + x == x;
      SubRefl(x);
    } else {
      Seqs.Uncons(b, x);
      if a == [] {
        assert a + x == x;
        SubAppend([], b[1..], x);
        assert Sub(x, b[1..] + x);
      } else {
        Seqs.Uncons(a, x);
        if a[0] == b[0] && Sub(a[1..], b[1..]) {
          SubAppend(a[1..], b[1..], x);
        } else {
          SubAppend(a, b[1..], x);
        }
      }
    }
  }

  lemma {:induction false} SubDrop(a: seq<ClientEvent>, e: ClientEvent, rest: seq<ClientEvent>, b: seq<ClientEvent>)
    requires Sub(a + [e] + rest, b)
    ensures Sub(a + rest, b)
    decreases |b|
  {
    var whole := a + [e] + rest;
    if whole[0] == b[0] && Sub(whole[1..], b[1..]) {
      if a == [] {
        assert whole[1..] == rest && a + rest == rest;
      } else {
        assert whole[1..] == a[1..] + [e] + rest;
        SubDrop(a[1..], e, rest, b[1..]);
        Seqs.Uncons(a, rest);
      }
    } else {
      SubDrop(a, e, rest, b[1..]);
    }
  }

  lemma {:induction false} SubLength(a: seq<ClientEvent>, b: seq<ClientEvent>)
    requires Sub(a, b)
    ensures |a| <= |b| && (|a| == |b| ==> a == b)
    decreases |b|
  {
    if a != [] {
      if a[0] == b[0] && Sub(a[1..], b[1..]) {
        SubLength(a[1..], b[1..]);
        assert a == [a[0]] + a[1..] && b == [b[0]] + b[1..];
      } else {
        SubLength(a, b[1..]);
      }
    }
  }

  // ---- the invariant -------------------------------------------------------

  /** At most as many updates are missing as stale reads have been used up. */
  ghost predicate Inv(t: Turn, g: nat) {
    && T.SystemInv(t.sys)
    && t.readers <= g && Sub(t.sys.enqueued, t.arrived)
    && |t.arrived| + t.readers <= |t.sys.enqueued| + g
  }

  lemma EnqueuedGrows(sys: T.System, st: T.SystemStep)
    requires T.SystemInv(sys) && T.SystemEnabled(sys, st)
    ensures T.SystemInv(T.SystemApply(sys, st)) && sys.enqueued <= T.SystemApply(sys, st).enqueued
  {
    match st
    case OfTurn(ts) => T.TurnStepKeepsInv(sys, ts);
    case OfClient(step) => T.ClientStepKeepsInv(sys, step);
  }

  lemma UsualKeepsInv(t: Turn, g: nat, st: T.SystemStep)
    requires Inv(t, g) && Enabled(t, Usual(st))
    ensures Inv(Apply(t, Usual(st)), g)
  {
    EnqueuedGrows(t.sys, st);
    var before, after := t.sys.enqueued, T.SystemApply(t.sys, st).enqueued;
    var more := after[|before|..];
    assert after == before + more;
    SubAppend(before, t.arrived, more);
  }

  lemma SameStream(turn: T.Turn, q: seq<C.QueueItem>, q': seq<C.QueueItem>, enqueued: seq<ClientEvent>, at: Option<nat>)
    requires T.StreamOk(turn, q, enqueued, at) && (turn.pc.Over? || T.Events(q') == T.Events(q))
    ensures T.StreamOk(turn, q', enqueued, at)
  {
  }

  lemma LoseSentinel(sys: T.System)
    requires T.SystemInv(sys) && T.Queue(sys) != [] && (sys.turn.pc.Over? || T.Queue(sys)[0].Sentinel?)
    ensures T.SystemInv(Lose(sys)) && Lose(sys).enqueued == sys.enqueued
  {
    var q := T.Queue(sys);
    C.StepKeepsInv(sys.c, C.Take(sys.turn.s));
    T.EventsCons(q);
    assert T.Queue(Lose(sys)) == q[1..];
    if !sys.turn.pc.Over? { assert [] + T.Events(q[1..]) == T.Events(q[1..]); }
    SameStream(sys.turn, q, q[1..], sys.enqueued, sys.answeredAt);
  }

  lemma LoseUpdate(sys: T.System)
    requires T.SystemInv(sys) && T.Queue(sys) != [] && !sys.turn.pc.Over? && T.Queue(sys)[0].Event?
    ensures T.SystemInv(Lose(sys))
    ensures sys.enqueued == Taken(sys.turn) + [T.Queue(sys)[0].ev] + T.Events(T.Queue(sys)[1..])
    ensures |Lose(sys).enqueued| + 1 == |sys.enqueued|
  {
    var q, taken := T.Queue(sys), Taken(sys.turn);
    C.StepKeepsInv(sys.c, C.Take(sys.turn.s));
    T.EventsCons(q);
    Seqs.Regroup(taken, [q[0].ev], T.Events(q[1..]));
    var sys' := Lose(sys);
    assert T.Queue(sys') == q[1..];
    forall i | 0 <= i < |sys'.enqueued| ensures !sys'.enqueued[i].Terminal() {
      assert sys'.enqueued[i] == if i < |taken| then sys.enqueued[i] else sys.enqueued[i + 1];
    }
  }

  lemma StaleTakeKeepsInv(t: Turn, g: nat)
    requires Inv(t, g) && Enabled(t, StaleTake)
    ensures Inv(Apply(t, StaleTake), g)
  {
    if t.sys.turn.pc.Over? || T.Queue(t.sys)[0].Sentinel? {
      LoseSentinel(t.sys);
    } else {
      LoseUpdate(t.sys);
      SubDrop(Taken(t.sys.turn), T.Queue(t.sys)[0].ev, T.Events(T.Queue(t.sys)[1..]), t.arrived);
    }
  }

  lemma {:induction false} RunKeepsInv(t: Turn, g: nat, steps: seq<Step>, t': Turn)
    requires Inv(t, g) && Executes(t, steps, t')
    ensures Inv(t', g)
    decreases |steps|
  {
    if steps != [] {
      match steps[0] {
        case Usual(st) => UsualKeepsInv(t, g, st);
        case StaleTake => StaleTakeKeepsInv(t, g);
      }
      RunKeepsInv(Apply(t, steps[0]), g, steps[1..], t');
    }
  }

  /**
   A turn begun with `g` stale reads on its queue loses at most `g` of the updates that
   arrive for it, under every interleaving; the others are yielded as always: in wire
   order, before at most one terminal event, which is last.
   */
  lemma LosesAtMost(c: C.Client, s: nat, g: nat, steps: seq<Step>, t: Turn)
    requires C.Inv(c) && s < |c.sessions| && Executes(Begin(c, s, g), steps, t)
    ensures var left := t.sys.enqueued; var yielded := t.sys.turn.yielded;
            && Sub(left, t.arrived) && |t.arrived| <= |left| + g
            && (g == 0 ==> left == t.arrived)
            && (!t.sys.turn.pc.Over? ==> yielded <= left)
            && (t.sys.turn.pc.Over? ==>
                  && yielded != [] && yielded[|yielded| - 1].Terminal()
                  && yielded[..|yielded| - 1] <= left && T.NoTerminal(yielded[..|yielded| - 1]))
  {
    T.BeginInv(c, s);
    RunKeepsInv(Begin(c, s, g), g, steps, t);
    SubLength(t.sys.enqueued, t.arrived);
    if !t.sys.turn.pc.Over? {
      assert t.sys.turn.yielded <= t.sys.enqueued;
    }
  }

  // ---- a turn that loses its first update ----------------------------------

  lemma {:induction false} ExecutesSnoc(t: Turn, steps: seq<Step>, mid: Turn, step: Step)
    requires Executes(t, steps, mid) && Enabled(mid, step)
    ensures Executes(t, steps + [step], Apply(mid, step))
    decreases |steps|
  {
    var more := steps + [step];
    if steps == [] {
      assert more[1..] == [];
    } else {
      assert more[0] == steps[0] && more[1..] == steps[1..] + [step];
      ExecutesSnoc(Apply(t, steps[0]), steps[1..], mid, step);
    }
  }

  /** A snapshot of the run: the request is open until `answer` says otherwise. */
  ghost predicate At(
    t: Turn, sid: string, pc: T.Pc, queue: seq<C.QueueItem>, enqueued: seq<ClientEvent>, answer: C.FutureState,
    arrived: seq<ClientEvent>, readers: nat)
  {
    && T.SystemInv(t.sys) && E.Named(t.sys.c.byId, t.sys.turn.s, sid)
    && t.sys.turn.pc == pc && t.sys.turn.yielded == []
    && T.Queue(t.sys) == queue && t.sys.enqueued == enqueued && T.Answer(t.sys) == answer
    && (answer == C.Open ==> t.sys.turn.r + 1 in t.sys.c.pending && t.sys.c.pending[t.sys.turn.r + 1] == t.sys.turn.r)
    && t.arrived == arrived && t.readers == readers
  }

  lemma Beginning(c: C.Client, s: nat, g: nat, sid: string)
    requires C.Inv(c) && s < |c.sessions| && E.Named(c.byId, s, sid)
    ensures At(Begin(c, s, g), sid, T.Sending, [], [], C.Open, [], g)
  {
    T.BeginInv(c, s);
  }

  lemma AfterSending(t: Turn, sid: string, g: nat)
    requires At(t, sid, T.Sending, [], [], C.Open, [], g)
    ensures Enabled(t, Usual(T.OfTurn(T.Sent)))
    ensures At(Apply(t, Usual(T.OfTurn(T.Sent))), sid, T.Waiting, [], [], C.Open, [], g)
  {
    T.TurnStepKeepsInv(t.sys, T.Sent);
    assert t.arrived + [] == t.arrived;
  }

  lemma AfterUpdate(t: Turn, sid: string, g: nat, update: Object)
    requires At(t, sid, T.Waiting, [], [], C.Open, [], g) && ProjectUpdate(update).Some?
    ensures var step := Usual(T.OfClient(C.Message(S.ToObject(S.Update(sid, update)))));
            var ev := ProjectUpdate(update).value;
            Enabled(t, step) && At(Apply(t, step), sid, T.Waiting, [C.Event(ev)], [ev], C.Open, [ev], g)
  {
    var w := S.Update(sid, update);
    var msg := C.Message(S.ToObject(w));
    var ev := ProjectUpdate(update).value;
    E.OwnUpdateEffect(t.sys, w, sid);
    T.ClientStepKeepsInv(t.sys, msg);
    assert [] + [ev] == [ev] && [] + [C.Event(ev)] == [C.Event(ev)];
    assert [ev][0..] == [ev];
  }

  lemma AfterStaleTake(t: Turn, sid: string, g: nat, ev: ClientEvent)
    requires At(t, sid, T.Waiting, [C.Event(ev)], [ev], C.Open, [ev], g) && g > 0
    ensures Enabled(t, StaleTake) && At(Apply(t, StaleTake), sid, T.Waiting, [], [], C.Open, [ev], g - 1)
  {
    LoseUpdate(t.sys);
    assert [C.Event(ev)][1..] == [];
    assert Taken(t.sys.turn) + [] == [];
  }

  lemma AfterReply(t: Turn, sid: string, g: nat, ev: ClientEvent, result: Json)
    requires At(t, sid, T.Waiting, [], [], C.Open, [ev], g)
    ensures var step := Usual(T.OfClient(C.Message(S.ToObject(S.Reply(Num(t.sys.turn.r + 1), result)))));
            Enabled(t, step) && At(Apply(t, step), sid, T.Waiting, [], [], C.Resolved(result), [ev], g)
  {
    var w := S.Reply(Num(t.sys.turn.r + 1), result);
    var msg := C.Message(S.ToObject(w));
    E.DispatchReplyWire(t.sys.c, w);
    T.ClientStepKeepsInv(t.sys, msg);
    var sys' := T.ClientApply(t.sys, msg);
    assert T.Queue(sys')[0..] == [];
    assert t.arrived + [] == t.arrived;
  }

  lemma AfterWake(t: Turn, sid: string, g: nat, ev: ClientEvent, result: Json)
    requires At(t, sid, T.Waiting, [], [], C.Resolved(result), [ev], g)
    ensures Enabled(t, Usual(T.OfTurn(T.Wake)))
    ensures At(Apply(t, Usual(T.OfTurn(T.Wake))), sid, T.Draining, [], [], C.Resolved(result), [ev], g)
  {
    T.TurnStepKeepsInv(t.sys, T.Wake);
    assert t.arrived + [] == t.arrived;
  }

  lemma AfterFinish(t: Turn, sid: string, g: nat, ev: ClientEvent, result: Json)
    requires At(t, sid, T.Draining, [], [], C.Resolved(result), [ev], g)
    ensures var step := Usual(T.OfTurn(T.Finish));
            && Enabled(t, step) && Apply(t, step).arrived == [ev]
            && Apply(t, step).sys.turn.pc == T.Over(true)
            && Apply(t, step).sys.turn.yielded == [T.Verdictive(C.Resolved(result))]
            && Apply(t, step).sys.enqueued == []
  {
    assert t.arrived + [] == t.arrived;
    assert [] + [T.Verdictive(C.Resolved(result))] == [T.Verdictive(C.Resolved(result))];
  }

  lemma LosingRun(c: C.Client, s: nat, g: nat, sid: string, update: Object) returns (steps: seq<Step>, t: Turn)
    requires C.Inv(c) && s < |c.sessions| && E.Named(c.byId, s, sid) && g > 0 && ProjectUpdate(update).Some?
    ensures Executes(Begin(c, s, g), steps, t)
    ensures At(t, sid, T.Waiting, [], [], C.Open, [ProjectUpdate(update).value], g - 1)
  {
    var t0 := Begin(c, s, g);
    Beginning(c, s, g, sid);
    AfterSending(t0, sid, g);
    var e1 := Usual(T.OfTurn(T.Sent));
    var t1 := Apply(t0, e1);
    AfterUpdate(t1, sid, g, update);
    var e2 := Usual(T.OfClient(C.Message(S.ToObject(S.Update(sid, update)))));
    var t2 := Apply(t1, e2);
    AfterStaleTake(t2, sid, g, ProjectUpdate(update).value);
    ExecutesSnoc(t0, [], t0, e1);
    ExecutesSnoc(t0, [] + [e1], t1, e2);
    ExecutesSnoc(t0, [] + [e1] + [e2], t2, StaleTake);
    steps := [] + [e1] + [e2] + [StaleTake];
    t := Apply(t2, StaleTake);
  }

  lemma EndingRun(t0: Turn, before: seq<Step>, t3: Turn, sid: string, g: nat, ev: ClientEvent, result: Json)
    returns (steps: seq<Step>, t: Turn)
    requires Executes(t0, before, t3) && At(t3, sid, T.Waiting, [], [], C.Open, [ev], g)
    ensures Executes(t0, steps, t) && t.arrived == [ev] && t.sys.turn.pc == T.Over(true)
    ensures t.sys.turn.yielded == [T.Verdictive(C.Resolved(result))] && t.sys.enqueued == []
  {
    AfterReply(t3, sid, g, ev, result);
    var e4 := Usual(T.OfClient(C.Message(S.ToObject(S.Reply(Num(t3.sys.turn.r + 1), result)))));
    var t4 := Apply(t3, e4);
    AfterWake(t4, sid, g, ev, result);
    var e5 := Usual(T.OfTurn(T.Wake));
    var t5 := Apply(t4, e5);
    AfterFinish(t5, sid, g, ev, result);
    var e6 := Usual(T.OfTurn(T.Finish));
    ExecutesSnoc(t0, before, t3, e4);
    ExecutesSnoc(t0, before + [e4], t4, e5);
    ExecutesSnoc(t0, before + [e4] + [e5], t5, e6);
    steps := before + [e4] + [e5] + [e6];
    t := Apply(t5, e6);
  }

  /**
   A single stale read is enough: for every client, session, update and result there is
   a run in which the turn ends normally without ever having yielded the one update
   that arrived for it.
   */
  lemma StaleReadLosesUpdate(c: C.Client, s: nat, g: nat, sid: string, update: Object, result: Json)
    returns (steps: seq<Step>, t: Turn)
    requires C.Inv(c) && s < |c.sessions| && E.Named(c.byId, s, sid) && g > 0 && ProjectUpdate(update).Some?
    ensures Executes(Begin(c, s, g), steps, t)
    ensures t.arrived == [ProjectUpdate(update).value] && t.sys.turn.pc == T.Over(true)
    ensures t.sys.turn.yielded == [T.Verdictive(C.Resolved(result))] && t.sys.enqueued == []
  {
    var before, t3 := LosingRun(c, s, g, sid, update);
    steps, t := EndingRun(Begin(c, s, g), before, t3, sid, g - 1, ProjectUpdate(update).value, result);
  }

  /** Some update that arrived is not among those left to the turn. */
  ghost predicate Loses(t: Turn) { t.sys.enqueued != t.arrived }

  ghost predicate NoLoss(c: C.Client, s: nat, g: nat)
    requires s < |c.sessions|
  {
    forall steps, t :: Executes(Begin(c, s, g), steps, t) ==> !Loses(t)
  }

  /** A turn is safe from losses if and only if no stale read waits on its queue. */
  lemma SafeExactly(c: C.Client, s: nat, g: nat, sid: string)
    requires C.Inv(c) && s < |c.sessions| && E.Named(c.byId, s, sid)
    ensures NoLoss(c, s, g) <==> g == 0
  {
    if g > 0 {
      var update: Object := map["sessionUpdate" := Str("plan")];
      assert ProjectUpdate(update).Some?;
      var steps, t := StaleReadLosesUpdate(c, s, g, sid, update, Null);
      assert Loses(t);
    } else {
      forall steps, t | Executes(Begin(c, s, g), steps, t) ensures !Loses(t) {
        LosesAtMost(c, s, g, steps, t);
      }
    }
  }

  lemma CancelKeepsInv(sys: T.System)
    requires T.SystemInv(sys)
    ensures C.Inv(CancelConsumer(sys)) && sys.turn.s < |CancelConsumer(sys).sessions|
    ensures CancelConsumer(sys).byId == sys.c.byId
  {
    C.StepKeepsInv(sys.c, C.DoForget(sys.turn.r + 1));
  }

  /** The turn after a cancelled consumer is safe from losses if and only if the cancellation found no read under way. */
  lemma NextTurnSafeExactly(sys: T.System, sid: string)
    requires T.SystemInv(sys) && E.Named(sys.c.byId, sys.turn.s, sid)
    ensures var c := CancelConsumer(sys);
            && C.Inv(c) && sys.turn.s < |c.sessions|
            && (NoLoss(c, sys.turn.s, ReadsLeft(sys.turn.pc)) <==> !sys.turn.pc.Waiting?)
  {
    CancelKeepsInv(sys);
    SafeExactly(CancelConsumer(sys), sys.turn.s, ReadsLeft(sys.turn.pc), sid);
  }

  // ---- whole sessions ------------------------------------------------------

  /** A session between two turns, and in one. */
  datatype Phase = Idle(c: C.Client, readers: nat) | Running(t: Turn)

  /**
   Any number of turns on session `s`, one after the other.  `waits` counts the
   cancellations that found a read under way, `takes` the items such reads took, and
   `lost` the updates that the turns before this one did not get.
   */
  datatype Session = Session(s: nat, phase: Phase, waits: nat, takes: nat, lost: int)

  datatype SessionStep =
    | NextTurn
    | InTurn(step: Step)
    | TurnEnds
    | Cancel
    | Meanwhile(other: C.Step)
    | IdleTake

  function Missing(t: Turn): int { |t.arrived| - |t.sys.enqueued| }

  ghost predicate SessionEnabled(x: Session, step: SessionStep) {
    match x.phase
    case Idle(c, readers) =>
      && C.Inv(c) && x.s < |c.sessions|
      && (match step
          case NextTurn => true
          case Meanwhile(st) => C.Enabled(c, st) && st != C.Take(x.s) && st != C.Drain(x.s)
          case IdleTake => readers > 0 && c.sessions[x.s].queue != []
          case _ => false)
    case Running(t) =>
      match step
      case InTurn(st) => Enabled(t, st)
      case TurnEnds => t.sys.turn.pc.Over?
      case Cancel => !t.sys.turn.pc.Over?
      case _ => false
  }

  function SessionApply(x: Session, step: SessionStep): Session
    requires SessionEnabled(x, step)
  {
    match step
    case NextTurn => x.(phase := Running(Begin(x.phase.c, x.s, x.phase.readers)))
    case InTurn(st) =>
      x.(phase := Running(Apply(x.phase.t, st)), takes := x.takes + (if st.StaleTake? then 1 else 0))
    case TurnEnds =>
      var t := x.phase.t;
      x.(phase := Idle(t.sys.c, t.readers), lost := x.lost + Missing(t))
    case Cancel =>
      var t := x.phase.t;
      var left := ReadsLeft(t.sys.turn.pc);
      x.(phase := Idle(CancelConsumer(t.sys), t.readers + left), waits := x.waits + left, lost := x.lost + Missing(t))
    case Meanwhile(st) => x.(phase := Idle(C.Apply(x.phase.c, st), x.phase.readers))
    case IdleTake =>
      var c := x.phase.c;
      x.(phase := Idle(C.SetQueue(c, x.s, c.sessions[x.s].queue[1..]), x.phase.readers - 1), takes := x.takes + 1)
  }

  ghost predicate SessionExecutes(x: Session, steps: seq<SessionStep>, x': Session)
    decreases |steps|
  {
    if steps == [] then x == x'
    else SessionEnabled(x, steps[0]) && SessionExecutes(SessionApply(x, steps[0]), steps[1..], x')
  }

  function Readers(x: Session): nat { if x.phase.Idle? then x.phase.readers else x.phase.t.readers }

  /** The updates lost so far, those of the turn in progress included. */
  function Lost(x: Session): int { x.lost + (if x.phase.Running? then Missing(x.phase.t) else 0) }

  /** The turn has its usual invariant, with the losses it has had so far. */
  ghost predicate TurnOk(t: Turn, s: nat) {
    Missing(t) >= 0 && Inv(t, t.readers + Missing(t)) && t.sys.turn.s == s
  }

  /** Reads left over are those of cancellations minus those used up, and each loses at most one update. */
  ghost predicate SessionInv(x: Session) {
    && (match x.phase
        case Idle(c, _) => C.Inv(c) && x.s < |c.sessions|
        case Running(t) => TurnOk(t, x.s))
    && Readers(x) + x.takes == x.waits
    && 0 <= x.lost && Lost(x) <= x.takes
  }

  lemma BeginOk(c: C.Client, s: nat, readers: nat)
    requires C.Inv(c) && s < |c.sessions|
    ensures TurnOk(Begin(c, s, readers), s) && Missing(Begin(c, s, readers)) == 0
  {
    T.BeginInv(c, s);
  }

  lemma SameSession(t: Turn, step: Step)
    requires T.SystemInv(t.sys) && Enabled(t, step)
    ensures Apply(t, step).sys.turn.s == t.sys.turn.s
  {
  }

  lemma TurnStepOk(t: Turn, s: nat, step: Step)
    requires TurnOk(t, s) && Enabled(t, step)
    ensures var t' := Apply(t, step); var taken := if step.StaleTake? then 1 else 0;
            TurnOk(t', s) && t'.readers + taken == t.readers && Missing(t') <= Missing(t) + taken
  {
    var g := t.readers + Missing(t);
    SameSession(t, step);
    match step
    case Usual(st) => UsualKeepsInv(t, g, st);
    case StaleTake => StaleTakeKeepsInv(t, g);
    SubLength(Apply(t, step).sys.enqueued, Apply(t, step).arrived);
  }

  lemma IdleStepKeepsInv(x: Session, step: SessionStep)
    requires SessionInv(x) && SessionEnabled(x, step) && x.phase.Idle?
    ensures SessionInv(SessionApply(x, step))
  {
    var c := x.phase.c;
    match step
    case NextTurn => BeginOk(c, x.s, x.phase.readers);
    case Meanwhile(st) => C.StepKeepsInv(c, st);
    case IdleTake => C.StepKeepsInv(c, C.Take(x.s));
  }

  lemma RunningStepKeepsInv(x: Session, step: SessionStep)
    requires SessionInv(x) && SessionEnabled(x, step) && x.phase.Running?
    ensures SessionInv(SessionApply(x, step))
  {
    match step
    case InTurn(st) => TurnStepOk(x.phase.t, x.s, st);
    case Cancel => CancelKeepsInv(x.phase.t.sys);
    case TurnEnds =>
  }

  lemma {:induction false} SessionRunKeepsInv(x: Session, steps: seq<SessionStep>, x': Session)
    requires SessionInv(x) && SessionExecutes(x, steps, x')
    ensures SessionInv(x') && x'.s == x.s
    decreases |steps|
  {
    if steps != [] {
      if x.phase.Idle? { IdleStepKeepsInv(x, steps[0]); } else { RunningStepKeepsInv(x, steps[0]); }
      SessionRunKeepsInv(SessionApply(x, steps[0]), steps[1..], x');
    }
  }

  /**
   A session of any number of turns, each ended or cancelled anywhere: the reads left
   over are the cancellations that found one under way minus the items such reads took;
   all turns together lose at most one update for each of those items, and what a turn
   gets is in the order in which it arrived.  Nothing is lost while no cancellation
   has found a read under way.
   */
  lemma SessionLosesAtMost(c: C.Client, s: nat, steps: seq<SessionStep>, x: Session)
    requires C.Inv(c) && s < |c.sessions| && SessionExecutes(Session(s, Idle(c, 0), 0, 0, 0), steps, x)
    ensures Readers(x) == x.waits - x.takes
    ensures 0 <= x.lost <= Lost(x) <= x.takes <= x.waits
    ensures x.phase.Running? ==>
              var t := x.phase.t;
              Sub(t.sys.enqueued, t.arrived) && (x.waits == 0 ==> t.sys.enqueued == t.arrived)
  {
    SessionRunKeepsInv(Session(s, Idle(c, 0), 0, 0, 0), steps, x);
    if x.phase.Running? { SubLength(x.phase.t.sys.enqueued, x.phase.t.arrived); }
  }

  /** Whatever a session has been through, its next turn is safe if and only if every read left over has been used up. */
  lemma SessionSafeExactly(c: C.Client, s: nat, steps: seq<SessionStep>, x: Session, sid: string)
    requires C.Inv(c) && s < |c.sessions| && SessionExecutes(Session(s, Idle(c, 0), 0, 0, 0), steps, x)
    requires x.phase.Idle? && E.Named(x.phase.c.byId, s, sid)
    ensures s < |x.phase.c.sessions| && (NoLoss(x.phase.c, s, x.phase.readers) <==> x.waits == x.takes)
  {
    SessionRunKeepsInv(Session(s, Idle(c, 0), 0, 0, 0), steps, x);
    SafeExactly(x.phase.c, s, x.phase.readers, sid);
  }
}
