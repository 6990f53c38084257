/**
 The canvas event bus (oxenclaw/canvas/events.py): bounded fan-out queues and the
 futures of pending evaluations.
 */
module CanvasBus {
  import opened Wrappers
  import Seqs

  datatype CanvasEvent = CanvasEvent(kind: string, agentId: string, payload: string, requestId: Option<string>)

  /** An event published while a queue was subscribed, and whether the queue was full then. */
  datatype Offered = Offered(ev: CanvasEvent, full: bool)

  /**
   A subscriber's queue.  `joined` counts the events published before it subscribed;
   `consumed` and `offered` are its history.
   */
  datatype Sub = Sub(joined: nat, active: bool, queue: seq<CanvasEvent>, consumed: seq<CanvasEvent>, offered: seq<Offered>)

  datatype Future = Open | Result(value: string) | Failure(error: string) | Abandoned

  datatype Bus = Bus(
    size: int,
    subs: seq<Sub>,
    published: seq<CanvasEvent>,
    waiters: map<string, nat>,
    futures: seq<Future>
  )

  function Init(size: int): Bus { Bus(size, [], [], map[], []) }

  /** `asyncio.Queue.full`: a size of zero or less means no bound. */
  predicate Full(size: int, queue: seq<CanvasEvent>) { size > 0 && |queue| >= size }

  /** `put_nowait` on one queue. */
  function Offer(size: int, sub: Sub, ev: CanvasEvent): Sub {
    if !sub.active then sub
    else if Full(size, sub.queue) then sub.(offered := sub.offered + [Offered(ev, true)])
    else sub.(queue := sub.queue + [ev], offered := sub.offered + [Offered(ev, false)])
  }

  function Take(sub: Sub): Sub {
    if sub.queue == [] then sub else sub.(queue := sub.queue[1..], consumed := sub.consumed + [sub.queue[0]])
  }

  function OfferAll(size: int, subs: seq<Sub>, ev: CanvasEvent): seq<Sub> {
    if subs == [] then [] else OfferAll(size, subs[..|subs| - 1], ev) + [Offer(size, subs[|subs| - 1], ev)]
  }

  function Delivered(size: int, subs: seq<Sub>): nat {
    if subs == [] then 0
    else
      var s := subs[|subs| - 1];
      Delivered(size, subs[..|subs| - 1]) + (if s.active && !Full(size, s.queue) then 1 else 0)
  }

  /** `resolve_eval` and `reject_eval`: take the waiter out, complete it if it is still open. */
  function Settle(b: Bus, id: string, st: Future): (Bus, bool) {
    if id !in b.waiters then (b, false)
    else
      var f := b.waiters[id];
      var b1 := b.(waiters := b.waiters - {id});
      if f < |b.futures| && b.futures[f] == Open then (b1.(futures := b.futures[f := st]), true) else (b1, false)
  }

  datatype Step =
    | Subscribe
    | Unsubscribe(i: nat)
    | Publish(ev: CanvasEvent)
    | Get(i: nat)
    | Register(id: string)
    | Complete(id: string, st: Future)
    | Abandon(f: nat)

  predicate Enabled(b: Bus, step: Step) {
    match step
    case Unsubscribe(i) => i < |b.subs|
    case Get(i) => i < |b.subs| && b.subs[i].queue != []
    case Complete(_, st) => st.Result? || st.Failure?
    case Abandon(f) => f < |b.futures|
    case _ => true
  }

  function Apply(b: Bus, step: Step): Bus
    requires Enabled(b, step)
  {
    match step
    case Subscribe => b.(subs := b.subs + [Sub(|b.published|, true, [], [], [])])
    case Unsubscribe(i) => b.(subs := b.subs[i := b.subs[i].(active := false)])
    case Publish(ev) => b.(subs := OfferAll(b.size, b.subs, ev), published := b.published + [ev])
    case Get(i) => b.(subs := b.subs[i := Take(b.subs[i])])
    case Register(id) => b.(waiters := b.waiters[id := |b.futures|], futures := b.futures + [Open])
    case Complete(id, st) => Settle(b, id, st).0
    case Abandon(f) => if b.futures[f] == Open then b.(futures := b.futures[f := Abandoned]) else b
  }

  ghost predicate Executes(b: Bus, steps: seq<Step>, b': Bus)
    decreases |steps|
  {
    if steps == [] then b == b' else Enabled(b, steps[0]) && Executes(Apply(b, steps[0]), steps[1..], b')
  }

  // ---- what a subscriber sees ----------------------------------------------

  function Events(offered: seq<Offered>): seq<CanvasEvent> {
    if offered == [] then [] else Events(offered[..|offered| - 1]) + [offered[|offered| - 1].ev]
  }

  /** The events offered while the queue had room. */
  function Accepted(offered: seq<Offered>): seq<CanvasEvent> {
    if offered == [] then []
    else
      var o := offered[|offered| - 1];
      Accepted(offered[..|offered| - 1]) + (if o.full then [] else [o.ev])
  }

  ghost predicate SubOk(size: int, published: seq<CanvasEvent>, sub: Sub) {
    && sub.consumed + sub.queue == Accepted(sub.offered)
    && sub.joined + |sub.offered| <= |published|
    && Events(sub.offered) == published[sub.joined..sub.joined + |sub.offered|]
    && (sub.active ==> sub.joined + |sub.offered| == |published|)
    && (size > 0 ==> |sub.queue| <= size)
  }

  ghost predicate Inv(b: Bus) { forall i :: 0 <= i < |b.subs| ==> SubOk(b.size, b.published, b.subs[i]) }

  lemma {:induction false} OfferAllAt(size: int, subs: seq<Sub>, ev: CanvasEvent)
    ensures |OfferAll(size, subs, ev)| == |subs|
    ensures forall i :: 0 <= i < |subs| ==> OfferAll(size, subs, ev)[i] == Offer(size, subs[i], ev)
  {
    if subs != [] { OfferAllAt(size, subs[..|subs| - 1], ev); }
  }

  lemma OfferedMore(offered: seq<Offered>, o: Offered)
    ensures Events(offered + [o]) == Events(offered) + [o.ev]
    ensures Accepted(offered + [o]) == if o.full then Accepted(offered) else Accepted(offered) + [o.ev]
  {
    assert (offered + [o])[..|offered|] == offered;
    Seqs.AppendNothing(Accepted(offered));
  }

  lemma OfferKeepsSub(size: int, published: seq<CanvasEvent>, sub: Sub, ev: CanvasEvent)
    requires SubOk(size, published, sub)
    ensures SubOk(size, published + [ev], Offer(size, sub, ev))
  {
    Seqs.SnocSlice(published, ev, sub.joined, sub.joined + |sub.offered|);
    if sub.active {
      OfferedMore(sub.offered, Offered(ev, Full(size, sub.queue)));
      Seqs.Regroup(sub.consumed, sub.queue, [ev]);
    }
  }

  lemma TakeKeepsSub(size: int, published: seq<CanvasEvent>, sub: Sub)
    requires SubOk(size, published, sub)
    ensures SubOk(size, published, Take(sub))
  {
    if sub.queue != [] {
      assert sub.queue == [sub.queue[0]] + sub.queue[1..];
      Seqs.Regroup(sub.consumed, [sub.queue[0]], sub.queue[1..]);
    }
  }

  lemma FreshSub(size: int, published: seq<CanvasEvent>)
    ensures SubOk(size, published, Sub(|published|, true, [], [], []))
  {
    assert published[|published|..|published|] == [];
  }

  lemma StepKeepsInv(b: Bus, step: Step)
    requires Inv(b) && Enabled(b, step)
    ensures Inv(Apply(b, step))
  {
    match step
    case Subscribe => FreshSub(b.size, b.published);
    case Publish(ev) =>
      OfferAllAt(b.size, b.subs, ev);
      forall i | 0 <= i < |b.subs| ensures SubOk(b.size, b.published + [ev], Offer(b.size, b.subs[i], ev)) {
        OfferKeepsSub(b.size, b.published, b.subs[i], ev);
      }
    case Get(i) => TakeKeepsSub(b.size, b.published, b.subs[i]);
    case _ =>
  }

  lemma {:induction false} RunKeepsInv(b: Bus, steps: seq<Step>, b': Bus)
    requires Inv(b) && Executes(b, steps, b')
    ensures Inv(b') && b'.size == b.size
    decreases |steps|
  {
    if steps != [] {
      StepKeepsInv(b, steps[0]);
      RunKeepsInv(Apply(b, steps[0]), steps[1..], b');
    }
  }

  /**
   Each subscriber's consumed and queued events are, in order, the events published
   since it subscribed (until it left) minus exactly those published while its queue
   was full; and a bounded queue never exceeds its bound.
   */
  lemma SubscriberSees(size: int, steps: seq<Step>, b: Bus, i: nat)
    requires Executes(Init(size), steps, b) && i < |b.subs|
    ensures var s := b.subs[i];
            && s.consumed + s.queue == Accepted(s.offered)
            && s.joined + |s.offered| <= |b.published|
            && Events(s.offered) == b.published[s.joined..s.joined + |s.offered|]
            && (s.active ==> Events(s.offered) == b.published[s.joined..])
            && (size > 0 ==> |s.queue| <= size)
  {
    RunKeepsInv(Init(size), steps, b);
  }

  // ---- independence --------------------------------------------------------

  /** What happens to one queue. */
  datatype Op = Offers(ev: CanvasEvent) | Takes | Leaves

  function One(size: int, sub: Sub, op: Op): Sub {
    match op
    case Offers(ev) => Offer(size, sub, ev)
    case Takes => Take(sub)
    case Leaves => sub.(active := false)
  }

  /** A single queue with no other subscriber around. */
  function Alone(size: int, sub: Sub, ops: seq<Op>): Sub
    decreases |ops|
  {
    if ops == [] then sub else Alone(size, One(size, sub, ops[0]), ops[1..])
  }

  function OpOf(step: Step, i: nat): seq<Op> {
    match step
    case Publish(ev) => [Offers(ev)]
    case Get(j) => if j == i then [Takes] else []
    case Unsubscribe(j) => if j == i then [Leaves] else []
    case _ => []
  }

  /** The publications, and subscriber `i`'s own operations. */
  function Project(steps: seq<Step>, i: nat): seq<Op>
    decreases |steps|
  {
    if steps == [] then [] else OpOf(steps[0], i) + Project(steps[1..], i)
  }

  lemma OneStepAlone(b: Bus, step: Step, i: nat)
    requires Enabled(b, step) && i < |b.subs|
    ensures |Apply(b, step).subs| >= |b.subs| && Apply(b, step).size == b.size
    ensures Apply(b, step).subs[i] == Alone(b.size, b.subs[i], OpOf(step, i))
  {
    if step.Publish? { OfferAllAt(b.size, b.subs, step.ev); }
    var ops := OpOf(step, i);
    assert ops != [] ==> ops[1..] == [];
  }

  lemma {:induction false} AloneConcat(size: int, sub: Sub, a: seq<Op>, b: seq<Op>)
    ensures Alone(size, sub, a + b) == Alone(size, Alone(size, sub, a), b)
    decreases |a|
  {
    if a == [] {
      assert a + b == b;
    } else {
      Seqs.Uncons(a, b);
      AloneConcat(size, One(size, sub, a[0]), a[1..], b);
    }
  }

  /**
   A subscriber's whole state depends only on the publications and its own
   operations: it is the same as if it were alone on the bus.
   */
  lemma {:induction false} SubscribersIndependent(b: Bus, steps: seq<Step>, b': Bus, i: nat)
    requires Executes(b, steps, b') && i < |b.subs|
    ensures i < |b'.subs| && b'.subs[i] == Alone(b.size, b.subs[i], Project(steps, i))
    decreases |steps|
  {
    if steps != [] {
      var b1 := Apply(b, steps[0]);
      OneStepAlone(b, steps[0], i);
      SubscribersIndependent(b1, steps[1..], b', i);
      AloneConcat(b.size, b.subs[i], OpOf(steps[0], i), Project(steps[1..], i));
    }
  }

  // ---- evaluations ---------------------------------------------------------

  /** Waiters name existing futures, each under one request id. */
  ghost predicate WaitersOk(b: Bus) {
    && (forall id :: id in b.waiters ==> b.waiters[id] < |b.futures|)
    && (forall x, y :: x in b.waiters && y in b.waiters && b.waiters[x] == b.waiters[y] ==> x == y)
  }

  lemma StepKeepsWaiters(b: Bus, step: Step)
    requires WaitersOk(b) && Enabled(b, step)
    ensures WaitersOk(Apply(b, step)) && |b.futures| <= |Apply(b, step).futures|
    ensures forall f :: 0 <= f < |b.futures| && b.futures[f] != Open ==> Apply(b, step).futures[f] == b.futures[f]
  {
  }

  /** An evaluation that has its answer keeps it whatever happens later. */
  lemma {:induction false} AnswersAreFinal(b: Bus, steps: seq<Step>, b': Bus, f: nat)
    requires WaitersOk(b) && Executes(b, steps, b') && f < |b.futures| && b.futures[f] != Open
    ensures f < |b'.futures| && b'.futures[f] == b.futures[f]
    decreases |steps|
  {
    if steps != [] {
      StepKeepsWaiters(b, steps[0]);
      AnswersAreFinal(Apply(b, steps[0]), steps[1..], b', f);
    }
  }

  // ---- the bus object ------------------------------------------------------

  class CanvasEventBus {
    const size: int
    var subs: seq<Sub>
    var waiters: map<string, nat>
    var futures: seq<Future>
    // The history of the bus; no method's result depends on it.
    var published: seq<CanvasEvent>

    ghost function View(): Bus
      reads this
    {
      Bus(size, subs, published, waiters, futures)
    }

    constructor (queueSize: int)
      ensures View() == Init(queueSize)
    {
      size := queueSize;
      subs, waiters, futures, published := [], map[], [], [];
    }

    /** `publish`: never blocks, and a full queue only loses the event for itself. */
    method PublishEvent(ev: CanvasEvent) returns (delivered: nat)
      modifies this`subs, this`published
      ensures View() == Apply(old(View()), Publish(ev))
      ensures delivered == Delivered(size, old(subs))
    {
      delivered := 0;
      var was := subs;
      for i := 0 to |was|
        invariant published == old(published) && |subs| == |was| && delivered == Delivered(size, was[..i])
        invariant forall k :: 0 <= k < |was| ==> subs[k] == if k < i then Offer(size, was[k], ev) else was[k]
      {
        assert was[..i + 1][..i] == was[..i];
        var q := was[i];
        if q.active {
          if size > 0 && |q.queue| >= size {
            subs := subs[i := q.(offered := q.offered + [Offered(ev, true)])];
          } else {
            subs := subs[i := q.(queue := q.queue + [ev], offered := q.offered + [Offered(ev, false)])];
            delivered := delivered + 1;
          }
        }
      }
      assert was[..|was|] == was;
      OfferAllAt(size, was, ev);
      assert subs == OfferAll(size, was, ev);
      published := published + [ev];
    }

    method AddSubscriber() returns (i: nat)
      modifies this`subs
      ensures View() == Apply(old(View()), Subscribe) && i == |old(subs)|
    {
      i := |subs|;
      subs := subs + [Sub(|published|, true, [], [], [])];
    }

    method RemoveSubscriber(i: nat)
      requires i < |subs|
      modifies this`subs
      ensures View() == Apply(old(View()), Unsubscribe(i))
    {
      subs := subs[i := subs[i].(active := false)];
    }

    method RegisterWaiter(id: string) returns (f: nat)
      modifies this`waiters, this`futures
      ensures View() == Apply(old(View()), Register(id)) && f == |old(futures)|
    {
      f := |futures|;
      futures := futures + [Open];
      waiters := waiters[id := f];
    }

    /** `resolve_eval` with a result, `reject_eval` with an error. */
    method CompleteEval(id: string, st: Future) returns (ok: bool)
      modifies this`waiters, this`futures
      ensures (View(), ok) == Settle(old(View()), id, st)
    {
      if id !in waiters {
        return false;
      }
      var f := waiters[id];
      waiters := waiters - {id};
      if !(f < |futures| && futures[f] == Open) {
        return false;
      }
      futures := futures[f := st];
      ok := true;
    }
  }
}
