/**
 Concurrency lanes of the dispatcher (oxenclaw/agents/lanes.py).

 A turn passes an optional global semaphore and then the lock of its
 (agent, session) lane.  Tasks are named by their arrival number.  The
 code between two awaits of `run` is one step; asyncio's Lock and Semaphore
 are modelled with their own waiter queues, so a released lock is briefly
 free while its first waiter has not resumed yet, and a permit handed to a
 waiter is already taken although that waiter has not resumed yet.
 */
module Lanes {
  import opened Wrappers

  type Key = (string, string)
  type Task = nat

  datatype Phase = Queued | LockWait | Running | Ended

  /** asyncio.Lock: `holder` is the task between acquire and release. */
  datatype Lane = Lane(holder: Option<Task>, waiters: seq<Task>) {
    predicate Locked() { holder.Some? }
  }

  const FREE_LANE := Lane(None, [])

  /** asyncio.Semaphore: `granted` waiters own a permit but have not resumed. */
  datatype Gate = Gate(free: nat, granted: seq<Task>, waiting: seq<Task>) {
    predicate Blocked() { free == 0 || granted != [] || waiting != [] }

    function Wake(): Gate {
      if free > 0 && waiting != [] then Gate(free - 1, granted + [waiting[0]], waiting[1..]) else this
    }

    function Release(): Gate { this.(free := free + 1).Wake() }
  }

  datatype State = State(
    cap: nat,
    gate: Option<Gate>,
    lanes: map<Key, Lane>,
    inFlight: int,
    keys: seq<Key>,
    phases: seq<Phase>,
    started: seq<Task>
  ) {
    predicate Shape() {
      && |keys| == |phases|
      && forall t :: 0 <= t < |keys| ==> keys[t] in lanes
    }

    predicate InPhase(t: Task, p: Phase) { t < |phases| && phases[t] == p }

    function GateOf(): Gate { if gate.Some? then gate.value else Gate(0, [], []) }

    function Queue(): seq<Task> { GateOf().granted + GateOf().waiting }
  }

  function Init(cap: nat): State {
    State(cap, if cap > 0 then Some(Gate(cap, [], [])) else None, map[], 0, [], [], [])
  }

  // ---- steps of `run` ------------------------------------------------------

  /** Entry of the critical section: the lock is ours, the counter goes up. */
  function Start(s: State, t: Task, waiters: seq<Task>): State
    requires s.Shape() && t < |s.keys|
  {
    s.(lanes := s.lanes[s.keys[t] := Lane(Some(t), waiters)],
       inFlight := s.inFlight + 1,
       phases := s.phases[t := Running],
       started := s.started + [t])
  }

  /** `state.lock.acquire()`: at once, or to the end of the waiter queue. */
  function AcquireLane(s: State, t: Task): State
    requires s.Shape() && t < |s.keys|
  {
    var lane := s.lanes[s.keys[t]];
    if !lane.Locked() && lane.waiters == [] then
      Start(s, t, [])
    else
      s.(lanes := s.lanes[s.keys[t] := lane.(waiters := lane.waiters + [t])],
         phases := s.phases[t := LockWait])
  }

  function Admit(s: State, k: Key): State
    requires s.Shape()
  {
    s.(lanes := if k in s.lanes then s.lanes else s.lanes[k := FREE_LANE],
       keys := s.keys + [k],
       phases := s.phases + [Queued])
  }

  /** A new caller of `run` for lane `k`, up to its first suspension. */
  function Arrive(s: State, k: Key): State
    requires s.Shape()
  {
    var s1 := Admit(s, k);
    var t := |s.keys|;
    match s.gate
    case None => AcquireLane(s1, t)
    case Some(g) =>
      if g.Blocked() then
        s1.(gate := Some(g.(waiting := g.waiting + [t])))
      else
        AcquireLane(s1.(gate := Some(g.(free := g.free - 1))), t)
  }

  /** The first granted waiter of the semaphore resumes and tries its lane. */
  function ResumeGate(s: State): State
    requires s.Shape() && s.gate.Some? && s.gate.value.granted != []
    requires s.gate.value.granted[0] < |s.keys|
  {
    var g := s.gate.value;
    AcquireLane(s.(gate := Some(g.(granted := g.granted[1..]).Wake())), g.granted[0])
  }

  predicate CanResumeLane(s: State, k: Key) {
    k in s.lanes && !s.lanes[k].Locked() && s.lanes[k].waiters != []
  }

  /** The first waiter of a free lane lock resumes and starts its turn. */
  function ResumeLane(s: State, k: Key): State
    requires s.Shape() && CanResumeLane(s, k) && s.lanes[k].waiters[0] < |s.keys|
  {
    Start(s, s.lanes[k].waiters[0], s.lanes[k].waiters[1..])
  }

  function ReleaseGate(s: State): State {
    match s.gate
    case None => s
    case Some(g) => s.(gate := Some(g.Release()))
  }

  /** The turn returns, raises or is cancelled: counter, lock, permit. */
  function Finish(s: State, t: Task): State
    requires s.Shape() && s.InPhase(t, Running)
  {
    var lane := s.lanes[s.keys[t]];
    ReleaseGate(s.(lanes := s.lanes[s.keys[t] := lane.(holder := None)],
                   inFlight := s.inFlight - 1,
                   phases := s.phases[t := Ended]))
  }

  function Without(q: seq<Task>, t: Task): (r: seq<Task>)
    ensures t !in q ==> r == q
  {
    if q == [] then [] else if q[0] == t then q[1..] else [q[0]] + Without(q[1..], t)
  }

  /** Cancellation delivered at whichever await the task is suspended. */
  function Cancel(s: State, t: Task): State
    requires s.Shape() && t < |s.phases| && s.phases[t] != Ended
    requires s.InPhase(t, Queued) ==> s.gate.Some?
  {
    var k := s.keys[t];
    var gone := s.(phases := s.phases[t := Ended]);
    if s.phases[t] == Running then
      Finish(s, t)
    else if s.phases[t] == LockWait then
      var lane := s.lanes[k];
      ReleaseGate(gone.(lanes := s.lanes[k := lane.(waiters := Without(lane.waiters, t))]))
    else
      var g := s.gate.value;
      if t in g.granted then
        gone.(gate := Some(g.(granted := Without(g.granted, t)).Release()))
      else
        gone.(gate := Some(g.(waiting := Without(g.waiting, t))))
  }

  /** `stats()["global_available"]`, reported only under a cap. */
  function GlobalAvailable(s: State): nat {
    if s.cap - s.inFlight > 0 then s.cap - s.inFlight else 0
  }

  // ---- the invariant -------------------------------------------------------

  ghost predicate Increasing(q: seq<Task>) { forall i, j :: 0 <= i < j < |q| ==> q[i] < q[j] }

  predicate Is(phases: seq<Phase>, t: Task, p: Phase) { t < |phases| && phases[t] == p }

  predicate Waits(phases: seq<Phase>, t: Task) { Is(phases, t, LockWait) || Is(phases, t, Queued) }

  function InPhases(phases: seq<Phase>, ps: set<Phase>): set<Task> {
    set t: nat | t < |phases| && phases[t] in ps
  }

  /** The tasks past the gate: they hold a permit when there is a cap. */
  function Holding(phases: seq<Phase>): set<Task> { InPhases(phases, {LockWait, Running}) }

  function RunningTasks(phases: seq<Phase>): set<Task> { InPhases(phases, {Running}) }

  ghost predicate Shaped(lanes: map<Key, Lane>, keys: seq<Key>, phases: seq<Phase>) {
    && |keys| == |phases|
    && forall t :: 0 <= t < |keys| ==> keys[t] in lanes
  }

  /** The running task of a lane is the one holding its lock. */
  ghost predicate HoldersOk(lanes: map<Key, Lane>, keys: seq<Key>, phases: seq<Phase>)
    requires Shaped(lanes, keys, phases)
  {
    && (forall k :: k in lanes && lanes[k].holder.Some? ==>
          Is(phases, lanes[k].holder.value, Running) && keys[lanes[k].holder.value] == k)
    && (forall t: Task :: Is(phases, t, Running) ==> lanes[keys[t]].holder == Some(t))
  }

  /** A lane's waiters are exactly its tasks waiting for the lock, in arrival order. */
  ghost predicate WaitersOk(lanes: map<Key, Lane>, keys: seq<Key>, phases: seq<Phase>)
    requires Shaped(lanes, keys, phases)
  {
    && (forall k, t: Task :: k in lanes && t in lanes[k].waiters ==> Is(phases, t, LockWait) && keys[t] == k)
    && (forall t: Task :: Is(phases, t, LockWait) ==> t in lanes[keys[t]].waiters)
    && (forall k :: k in lanes ==> Increasing(lanes[k].waiters))
  }

  /** The semaphore's queue is exactly the queued tasks (but those in `moving`), in arrival order. */
  ghost predicate QueueOk(queue: seq<Task>, phases: seq<Phase>, moving: set<Task>) {
    && (forall t :: t in queue ==> Is(phases, t, Queued) && t !in moving)
    && (forall t: Task :: Is(phases, t, Queued) && t !in moving ==> t in queue)
    && Increasing(queue)
  }

  /** `extra` permits are taken by tasks between the gate and their lane. */
  ghost predicate PermitsOk(cap: nat, gate: Option<Gate>, holding: nat, extra: nat) {
    && (gate.Some? <==> cap > 0)
    && (gate.Some? ==>
          && gate.value.free + |gate.value.granted| + holding + extra == cap
          && (gate.value.waiting != [] && gate.value.granted == [] ==> gate.value.free == 0))
  }

  /** Turns of one lane started in the order their callers arrived. */
  ghost predicate StartedInOrder(keys: seq<Key>, started: seq<Task>) {
    && (forall i :: 0 <= i < |started| ==> started[i] < |keys|)
    && (forall i, j :: 0 <= i < j < |started| && keys[started[i]] == keys[started[j]] ==>
          started[i] < started[j])
  }

  /** Within one lane: started before waiting for the lock before queued, in arrival order. */
  ghost predicate StagesOk(keys: seq<Key>, phases: seq<Phase>, started: seq<Task>)
    requires |keys| == |phases|
  {
    && (forall t: Task, u: Task ::
          Is(phases, t, LockWait) && Is(phases, u, Queued) && keys[t] == keys[u] ==> t < u)
    && StartedInOrder(keys, started)
    && (forall i, u: Task ::
          0 <= i < |started| && Waits(phases, u) && keys[started[i]] == keys[u] ==> started[i] < u)
  }

  /** The running turn of a lane is the one of that lane that started last. */
  ghost predicate LatestOk(keys: seq<Key>, phases: seq<Phase>, started: seq<Task>)
    requires |keys| == |phases| && StartedInOrder(keys, started)
  {
    forall t: Task :: Is(phases, t, Running) ==>
      && t in started
      && forall i :: 0 <= i < |started| && keys[started[i]] == keys[t] ==> started[i] <= t
  }

  ghost predicate Common(s: State, moving: set<Task>) {
    && s.Shape()
    && HoldersOk(s.lanes, s.keys, s.phases)
    && WaitersOk(s.lanes, s.keys, s.phases)
    && QueueOk(s.Queue(), s.phases, moving)
    && PermitsOk(s.cap, s.gate, |Holding(s.phases)|, |moving|)
    && s.inFlight == |RunningTasks(s.phases)|
    && StagesOk(s.keys, s.phases, s.started)
    && LatestOk(s.keys, s.phases, s.started)
  }

  ghost predicate Inv(s: State) { Common(s, {}) }

  /** Task `t` has left the semaphore's queue and is about to try its lane lock. */
  ghost predicate Moving(s: State, t: Task) {
    && Common(s, {t})
    && Is(s.phases, t, Queued)
    && FirstQueued(s.keys, s.phases, t)
  }

  ghost predicate FirstQueued(keys: seq<Key>, phases: seq<Phase>, t: Task)
    requires |keys| == |phases| && t < |keys|
  {
    forall u: Task :: Is(phases, u, Queued) && u != t && keys[u] == keys[t] ==> t < u
  }

  // ---- the parts of one step -----------------------------------------------

  lemma PhaseChange(phases: seq<Phase>, t: Task, p: Phase, ps: set<Phase>)
    requires t < |phases|
    ensures |InPhases(phases[t := p], ps)| ==
            |InPhases(phases, ps)| + (if p in ps then 1 else 0) - (if phases[t] in ps then 1 else 0)
  {
    var before, after := InPhases(phases, ps), InPhases(phases[t := p], ps);
    if (p in ps) == (phases[t] in ps) {
      assert after == before;
    } else if p in ps {
      assert t !in before && after == before + {t};
    } else {
      assert t in before && after == before - {t};
    }
  }

  function Holds(p: Phase): int { if p == LockWait || p == Running then 1 else 0 }

  function Runs(p: Phase): int { if p == Running then 1 else 0 }

  lemma PhaseCounts(phases: seq<Phase>, t: Task, p: Phase)
    requires t < |phases|
    ensures |Holding(phases[t := p])| == |Holding(phases)| + Holds(p) - Holds(phases[t])
    ensures |RunningTasks(phases[t := p])| == |RunningTasks(phases)| + Runs(p) - Runs(phases[t])
  {
    PhaseChange(phases, t, p, {LockWait, Running});
    PhaseChange(phases, t, p, {Running});
  }

  lemma PhaseAdd(phases: seq<Phase>)
    ensures Holding(phases + [Queued]) == Holding(phases)
    ensures RunningTasks(phases + [Queued]) == RunningTasks(phases)
  {
  }

  lemma StagesMove(keys: seq<Key>, phases: seq<Phase>, started: seq<Task>, t: Task)
    requires |keys| == |phases| && StagesOk(keys, phases, started)
    requires Is(phases, t, Queued) && FirstQueued(keys, phases, t)
    ensures StagesOk(keys, phases[t := LockWait], started)
  {
  }

  lemma StagesStart(keys: seq<Key>, phases: seq<Phase>, started: seq<Task>, t: Task)
    requires |keys| == |phases| && StagesOk(keys, phases, started)
    requires Waits(phases, t)
    requires forall u: Task :: Waits(phases, u) && u != t && keys[u] == keys[t] ==> t < u
    ensures StagesOk(keys, phases[t := Running], started + [t])
  {
    var phases', started' := phases[t := Running], started + [t];
    forall i, u: Task | 0 <= i < |started'| && Waits(phases', u) && keys[started'[i]] == keys[u]
      ensures started'[i] < u
    {
      assert Waits(phases, u);
    }
  }

  lemma StagesEnd(keys: seq<Key>, phases: seq<Phase>, started: seq<Task>, t: Task)
    requires |keys| == |phases| && StagesOk(keys, phases, started) && t < |keys|
    ensures StagesOk(keys, phases[t := Ended], started)
  {
    forall u: Task | Waits(phases[t := Ended], u) ensures Waits(phases, u) { }
  }

  lemma StagesAdmit(keys: seq<Key>, phases: seq<Phase>, started: seq<Task>, k: Key)
    requires |keys| == |phases| && StagesOk(keys, phases, started)
    ensures StagesOk(keys + [k], phases + [Queued], started)
  {
    forall u: Task | Waits(phases + [Queued], u) && u != |phases| ensures Waits(phases, u) { }
  }

  lemma LatestStart(keys: seq<Key>, phases: seq<Phase>, started: seq<Task>, t: Task)
    requires |keys| == |phases| && StagesOk(keys, phases, started) && LatestOk(keys, phases, started)
    requires StartedInOrder(keys, started + [t])
    requires Waits(phases, t)
    requires forall u: Task :: Is(phases, u, Running) ==> keys[u] != keys[t]
    ensures LatestOk(keys, phases[t := Running], started + [t])
  {
    var started' := started + [t];
    assert started'[|started|] == t;
    forall u: Task | Is(phases[t := Running], u, Running) && u != t ensures u in started' {
      assert Is(phases, u, Running);
    }
  }

  lemma LatestElse(keys: seq<Key>, phases: seq<Phase>, started: seq<Task>, t: Task, p: Phase)
    requires |keys| == |phases| && StartedInOrder(keys, started) && LatestOk(keys, phases, started)
    requires t < |phases| && p != Running
    ensures LatestOk(keys, phases[t := p], started)
  {
    forall u: Task | Is(phases[t := p], u, Running) ensures Is(phases, u, Running) { }
  }

  lemma LatestAdmit(keys: seq<Key>, phases: seq<Phase>, started: seq<Task>, k: Key)
    requires |keys| == |phases| && StartedInOrder(keys, started) && LatestOk(keys, phases, started)
    ensures LatestOk(keys + [k], phases + [Queued], started)
  {
    forall u: Task | Is(phases + [Queued], u, Running) ensures Is(phases, u, Running) { }
  }

  lemma RestOfWaiters(rest: seq<Task>, t: Task)
    requires Increasing([t] + rest)
    ensures Increasing(rest) && t !in rest
    ensures forall u :: u in [t] + rest <==> u == t || u in rest
  {
    var all := [t] + rest;
    forall i | 0 <= i < |rest| ensures rest[i] == all[i + 1] && all[0] < rest[i] { }
  }

  lemma HoldersStart(lanes: map<Key, Lane>, keys: seq<Key>, phases: seq<Phase>, t: Task, rest: seq<Task>)
    requires Shaped(lanes, keys, phases) && HoldersOk(lanes, keys, phases)
    requires t < |keys| && lanes[keys[t]].holder.None?
    ensures HoldersOk(lanes[keys[t] := Lane(Some(t), rest)], keys, phases[t := Running])
  {
    var after := phases[t := Running];
    assert forall u: Task :: Is(after, u, Running) <==> u == t || Is(phases, u, Running);
  }

  lemma WaitersStart(lanes: map<Key, Lane>, keys: seq<Key>, phases: seq<Phase>, t: Task, rest: seq<Task>)
    requires Shaped(lanes, keys, phases) && WaitersOk(lanes, keys, phases) && t < |keys|
    requires Increasing(rest) && t !in rest
    requires forall u :: u in lanes[keys[t]].waiters <==> u in rest || (u == t && phases[t] == LockWait)
    ensures WaitersOk(lanes[keys[t] := Lane(Some(t), rest)], keys, phases[t := Running])
  {
    var after, lanes' := phases[t := Running], lanes[keys[t] := Lane(Some(t), rest)];
    assert forall u: Task :: Is(after, u, LockWait) <==> u != t && Is(phases, u, LockWait);
    forall k, u: Task | k in lanes' && u in lanes'[k].waiters ensures Is(after, u, LockWait) && keys[u] == k {
      assert u in lanes[k].waiters;
      assert Is(phases, u, LockWait);
    }
  }

  /** `t` becomes the holder; `rest` are the lane's other waiters. */
  lemma LanesStart(lanes: map<Key, Lane>, keys: seq<Key>, phases: seq<Phase>, t: Task, rest: seq<Task>)
    requires Shaped(lanes, keys, phases) && HoldersOk(lanes, keys, phases) && WaitersOk(lanes, keys, phases)
    requires t < |keys| && lanes[keys[t]].holder.None?
    requires lanes[keys[t]].waiters == if phases[t] == LockWait then [t] + rest else rest
    requires Waits(phases, t)
    ensures var lanes' := lanes[keys[t] := Lane(Some(t), rest)];
            && HoldersOk(lanes', keys, phases[t := Running])
            && WaitersOk(lanes', keys, phases[t := Running])
  {
    if phases[t] == LockWait {
      RestOfWaiters(rest, t);
    }
    HoldersStart(lanes, keys, phases, t, rest);
    WaitersStart(lanes, keys, phases, t, rest);
  }

  lemma LanesMove(lanes: map<Key, Lane>, keys: seq<Key>, phases: seq<Phase>, t: Task)
    requires Shaped(lanes, keys, phases) && HoldersOk(lanes, keys, phases) && WaitersOk(lanes, keys, phases)
    requires Is(phases, t, Queued)
    requires forall u: Task :: Is(phases, u, LockWait) && keys[u] == keys[t] ==> u < t
    ensures var lane := lanes[keys[t]];
            var lanes' := lanes[keys[t] := lane.(waiters := lane.waiters + [t])];
            && HoldersOk(lanes', keys, phases[t := LockWait])
            && WaitersOk(lanes', keys, phases[t := LockWait])
  {
    var lane := lanes[keys[t]];
    var lanes', phases' := lanes[keys[t] := lane.(waiters := lane.waiters + [t])], phases[t := LockWait];
    forall u: Task | Is(phases', u, LockWait) ensures u in lanes'[keys[u]].waiters {
      if u == t { assert lanes'[keys[t]].waiters[|lane.waiters|] == t; } else { assert Is(phases, u, LockWait); }
    }
    forall u: Task | Is(phases', u, Running) ensures lanes'[keys[u]].holder == Some(u) {
      assert Is(phases, u, Running);
    }
    forall u: Task | u in lane.waiters + [t] && u != t ensures u in lane.waiters { }
    forall i | 0 <= i < |lane.waiters| ensures lane.waiters[i] < t {
      assert lane.waiters[i] in lane.waiters;
      assert Is(phases, lane.waiters[i], LockWait);
    }
    assert Increasing(lane.waiters + [t]);
    forall k, u: Task | k in lanes' && u in lanes'[k].waiters ensures Is(phases', u, LockWait) && keys[u] == k {
      if k != keys[t] || u != t {
        assert u in lanes[k].waiters;
        assert Is(phases, u, LockWait);
      }
    }
  }

  lemma AcquireLaneKeepsInv(s: State, t: Task)
    requires Moving(s, t)
    ensures Inv(AcquireLane(s, t))
  {
    var lane := s.lanes[s.keys[t]];
    var s' := AcquireLane(s, t);
    assert s'.Queue() == s.Queue();
    PhaseCounts(s.phases, t, s'.phases[t]);
    QueueMoved(s.Queue(), s.phases, t, s'.phases[t]);
    if !lane.Locked() && lane.waiters == [] {
      LanesStart(s.lanes, s.keys, s.phases, t, []);
      StagesStart(s.keys, s.phases, s.started, t);
      LatestStart(s.keys, s.phases, s.started, t);
    } else {
      LanesMove(s.lanes, s.keys, s.phases, t);
      StagesMove(s.keys, s.phases, s.started, t);
      LatestElse(s.keys, s.phases, s.started, t, LockWait);
    }
  }

  lemma QueueMoved(queue: seq<Task>, phases: seq<Phase>, t: Task, p: Phase)
    requires Is(phases, t, Queued) && QueueOk(queue, phases, {t}) && p != Queued
    ensures QueueOk(queue, phases[t := p], {})
  {
    forall u: Task | Is(phases[t := p], u, Queued) ensures u in queue {
      assert Is(phases, u, Queued);
    }
  }

  lemma Mem(q: seq<Task>)
    ensures forall i :: 0 <= i < |q| ==> q[i] in q
  {
  }

  lemma IncreasingTail(q: seq<Task>)
    requires Increasing(q) && q != []
    ensures Increasing(q[1..]) && q[0] !in q[1..]
    ensures forall u :: u in q[1..] <==> u in q && u != q[0]
    ensures forall u :: u in q[1..] ==> q[0] < u
  {
    forall u | u in q && u != q[0] ensures u in q[1..] {
      var i :| 0 <= i < |q| && q[i] == u;
      assert q[1..][i - 1] == u;
    }
  }

  lemma WithoutOne(q: seq<Task>, t: Task)
    requires Increasing(q)
    ensures Increasing(Without(q, t))
    ensures forall u :: u in Without(q, t) <==> u in q && u != t
    ensures |Without(q, t)| == |q| - (if t in q then 1 else 0)
  {
    if q != [] {
      IncreasingTail(q);
      if q[0] != t {
        WithoutOne(q[1..], t);
        var w := Without(q[1..], t);
        assert Without(q, t) == [q[0]] + w;
        forall i | 0 <= i < |w| ensures q[0] < w[i] { assert w[i] in q[1..]; }
      }
    }
  }

  lemma AdmitKeeps(s: State, k: Key, gate: Option<Gate>)
    requires Inv(s) && s.Queue() == []
    requires PermitsOk(s.cap, gate, |Holding(s.phases)|, 1)
    requires gate.Some? ==> gate.value.granted + gate.value.waiting == []
    ensures Moving(Admit(s, k).(gate := gate), |s.keys|)
  {
    var s', t := Admit(s, k).(gate := gate), |s.keys|;
    PhaseAdd(s.phases);
    StagesAdmit(s.keys, s.phases, s.started, k);
    LatestAdmit(s.keys, s.phases, s.started, k);
    assert s'.Queue() == [];
    AdmitLanes(s.lanes, s'.lanes, s.keys, s.phases, k);
    forall u: Task | Is(s'.phases, u, Queued) && u != t ensures false {
      assert Is(s.phases, u, Queued);
    }
  }

  lemma AdmitLanes(lanes: map<Key, Lane>, lanes': map<Key, Lane>, keys: seq<Key>, phases: seq<Phase>, k: Key)
    requires Shaped(lanes, keys, phases) && HoldersOk(lanes, keys, phases) && WaitersOk(lanes, keys, phases)
    requires lanes' == if k in lanes then lanes else lanes[k := FREE_LANE]
    ensures Shaped(lanes', keys + [k], phases + [Queued])
    ensures HoldersOk(lanes', keys + [k], phases + [Queued]) && WaitersOk(lanes', keys + [k], phases + [Queued])
  {
    forall u: Task | Is(phases + [Queued], u, Running) ensures lanes'[keys[u]].holder == Some(u) {
      assert Is(phases, u, Running);
    }
    forall u: Task | Is(phases + [Queued], u, LockWait) ensures u in lanes'[keys[u]].waiters {
      assert Is(phases, u, LockWait);
    }
    forall l, u: Task | l in lanes' && u in lanes'[l].waiters
      ensures Is(phases + [Queued], u, LockWait) && (keys + [k])[u] == l
    {
      assert u in lanes[l].waiters;
      assert Is(phases, u, LockWait);
    }
  }

  function OnePermitLess(gate: Option<Gate>): Option<Gate>
    requires gate.Some? ==> !gate.value.Blocked()
  {
    if gate.Some? then Some(gate.value.(free := gate.value.free - 1)) else None
  }

  lemma PassingIsMoving(s: State, k: Key)
    requires Inv(s) && (s.gate.Some? ==> !s.gate.value.Blocked())
    ensures Moving(Admit(s, k).(gate := OnePermitLess(s.gate)), |s.keys|)
    ensures Arrive(s, k) == AcquireLane(Admit(s, k).(gate := OnePermitLess(s.gate)), |s.keys|)
  {
    AdmitKeeps(s, k, OnePermitLess(s.gate));
    assert s.gate.None? ==> Admit(s, k).(gate := OnePermitLess(s.gate)) == Admit(s, k);
  }

  lemma ArriveKeepsInv(s: State, k: Key)
    requires Inv(s)
    ensures Inv(Arrive(s, k))
  {
    if s.gate.Some? && s.gate.value.Blocked() {
      EnqueueKeepsInv(s, k);
    } else {
      PassingIsMoving(s, k);
      AcquireLaneKeepsInv(Admit(s, k).(gate := OnePermitLess(s.gate)), |s.keys|);
    }
  }

  lemma EnqueueKeepsInv(s: State, k: Key)
    requires Inv(s) && s.gate.Some? && s.gate.value.Blocked()
    ensures Inv(Arrive(s, k))
  {
    var s', t := Arrive(s, k), |s.keys|;
    PhaseAdd(s.phases);
    StagesAdmit(s.keys, s.phases, s.started, k);
    LatestAdmit(s.keys, s.phases, s.started, k);
    AdmitLanes(s.lanes, s'.lanes, s.keys, s.phases, k);
    assert s'.Queue() == s.Queue() + [t];
    forall u: Task | Is(s'.phases, u, Queued) ensures u in s'.Queue() {
      if u == t { assert s'.Queue()[|s.Queue()|] == t; } else { assert Is(s.phases, u, Queued); }
    }
    forall u: Task | u in s.Queue() ensures u < t && Is(s.phases, u, Queued) { }
    Mem(s.Queue());
    assert Increasing(s'.Queue());
  }

  lemma ResumeGateKeepsInv(s: State)
    requires Inv(s) && s.gate.Some? && s.gate.value.granted != []
    ensures s.gate.value.granted[0] < |s.keys| && Inv(ResumeGate(s))
  {
    var g := s.gate.value;
    ResumeGateMoves(s);
    AcquireLaneKeepsInv(s.(gate := Some(g.(granted := g.granted[1..]).Wake())), g.granted[0]);
  }

  lemma ResumeLaneKeepsInv(s: State, k: Key)
    requires Inv(s) && CanResumeLane(s, k)
    ensures s.lanes[k].waiters[0] < |s.keys| && Inv(ResumeLane(s, k))
  {
    var t := s.lanes[k].waiters[0];
    Mem(s.lanes[k].waiters);
    IncreasingTail(s.lanes[k].waiters);
    assert Is(s.phases, t, LockWait);
    var s' := ResumeLane(s, k);
    assert s'.Queue() == s.Queue();
    PhaseCounts(s.phases, t, Running);
    QueueStays(s.Queue(), s.phases, t, Running);
    LanesStart(s.lanes, s.keys, s.phases, t, s.lanes[k].waiters[1..]);
    forall u: Task | Waits(s.phases, u) && u != t && s.keys[u] == k ensures t < u {
      if Is(s.phases, u, LockWait) { assert u in s.lanes[k].waiters; }
    }
    StagesStart(s.keys, s.phases, s.started, t);
    LatestStart(s.keys, s.phases, s.started, t);
  }

  lemma QueueStays(queue: seq<Task>, phases: seq<Phase>, t: Task, p: Phase)
    requires t < |phases| && phases[t] != Queued && QueueOk(queue, phases, {}) && p != Queued
    ensures QueueOk(queue, phases[t := p], {})
  {
    forall u: Task | Is(phases[t := p], u, Queued) ensures u in queue {
      assert Is(phases, u, Queued);
    }
  }

  /** `t` leaves its lane, as holder or as waiter, and is done. */
  lemma LanesEnd(lanes: map<Key, Lane>, keys: seq<Key>, phases: seq<Phase>, t: Task, lane: Lane)
    requires Shaped(lanes, keys, phases) && HoldersOk(lanes, keys, phases) && WaitersOk(lanes, keys, phases)
    requires t < |keys| && phases[t] in {Running, LockWait}
    requires lane == if phases[t] == Running then lanes[keys[t]].(holder := None)
                     else lanes[keys[t]].(waiters := Without(lanes[keys[t]].waiters, t))
    ensures HoldersOk(lanes[keys[t] := lane], keys, phases[t := Ended])
    ensures WaitersOk(lanes[keys[t] := lane], keys, phases[t := Ended])
  {
    var lanes', phases' := lanes[keys[t] := lane], phases[t := Ended];
    WithoutOne(lanes[keys[t]].waiters, t);
    forall u: Task | Is(phases', u, Running) ensures lanes'[keys[u]].holder == Some(u) {
      assert Is(phases, u, Running);
    }
    forall u: Task | Is(phases', u, LockWait) ensures u in lanes'[keys[u]].waiters {
      assert Is(phases, u, LockWait);
    }
    forall l, u: Task | l in lanes' && u in lanes'[l].waiters ensures Is(phases', u, LockWait) && keys[u] == l {
      assert u in lanes[l].waiters;
      assert Is(phases, u, LockWait);
    }
  }

  lemma FinishKeepsInv(s: State, t: Task)
    requires Inv(s) && Is(s.phases, t, Running)
    ensures Inv(Finish(s, t))
  {
    var lane := s.lanes[s.keys[t]].(holder := None);
    var s' := Finish(s, t);
    assert s'.Queue() == s.Queue();
    PhaseCounts(s.phases, t, Ended);
    QueueStays(s.Queue(), s.phases, t, Ended);
    LanesEnd(s.lanes, s.keys, s.phases, t, lane);
    StagesEnd(s.keys, s.phases, s.started, t);
    LatestElse(s.keys, s.phases, s.started, t, Ended);
  }

  lemma CancelKeepsInv(s: State, t: Task)
    requires Inv(s) && t < |s.phases| && s.phases[t] != Ended
    ensures Is(s.phases, t, Queued) ==> s.gate.Some?
    ensures Inv(Cancel(s, t))
  {
    if s.phases[t] == Running {
      FinishKeepsInv(s, t);
    } else if s.phases[t] == LockWait {
      var s' := Cancel(s, t);
      assert s'.Queue() == s.Queue();
      PhaseCounts(s.phases, t, Ended);
      QueueStays(s.Queue(), s.phases, t, Ended);
      LanesEnd(s.lanes, s.keys, s.phases, t, s'.lanes[s.keys[t]]);
      StagesEnd(s.keys, s.phases, s.started, t);
      LatestElse(s.keys, s.phases, s.started, t, Ended);
    } else {
      assert Is(s.phases, t, Queued);
      CancelQueuedKeepsInv(s, t);
    }
  }

  lemma IncreasingConcat(a: seq<Task>, b: seq<Task>)
    ensures Increasing(a + b) <==>
            Increasing(a) && Increasing(b) && forall x, y :: x in a && y in b ==> x < y
  {
    var c := a + b;
    if Increasing(c) {
      assert forall i :: 0 <= i < |a| ==> a[i] == c[i];
      assert forall i :: 0 <= i < |b| ==> b[i] == c[|a| + i];
    }
    if Increasing(a) && Increasing(b) && forall x, y :: x in a && y in b ==> x < y {
      forall i, j | 0 <= i < j < |c| ensures c[i] < c[j] {
        if i < |a| <= j { assert c[i] in a && c[j] in b; }
      }
    }
  }

  lemma CancelQueue(granted: seq<Task>, waiting: seq<Task>, phases: seq<Phase>, t: Task)
    requires QueueOk(granted + waiting, phases, {}) && Is(phases, t, Queued)
    ensures QueueOk(Without(granted, t) + Without(waiting, t), phases[t := Ended], {})
    ensures t in granted <==> t !in waiting
    ensures |Without(granted, t)| == |granted| - (if t in granted then 1 else 0)
  {
    IncreasingConcat(granted, waiting);
    WithoutOne(granted, t);
    WithoutOne(waiting, t);
    IncreasingConcat(Without(granted, t), Without(waiting, t));
    assert t in granted + waiting;
    var queue' := Without(granted, t) + Without(waiting, t);
    forall u: Task | Is(phases[t := Ended], u, Queued) ensures u in queue' {
      assert Is(phases, u, Queued);
      assert u in granted + waiting;
    }
    forall u: Task | u in queue' ensures Is(phases[t := Ended], u, Queued) {
      assert u in granted + waiting;
    }
  }

  lemma HoldersIgnoreQueued(lanes: map<Key, Lane>, keys: seq<Key>, phases: seq<Phase>, t: Task)
    requires Shaped(lanes, keys, phases) && HoldersOk(lanes, keys, phases) && Is(phases, t, Queued)
    ensures HoldersOk(lanes, keys, phases[t := Ended])
  {
    var after := phases[t := Ended];
    assert forall u: Task :: Is(after, u, Running) <==> Is(phases, u, Running);
  }

  lemma WaitersIgnoreQueued(lanes: map<Key, Lane>, keys: seq<Key>, phases: seq<Phase>, t: Task)
    requires Shaped(lanes, keys, phases) && WaitersOk(lanes, keys, phases) && Is(phases, t, Queued)
    ensures WaitersOk(lanes, keys, phases[t := Ended])
  {
    var after := phases[t := Ended];
    assert forall u: Task :: Is(after, u, LockWait) <==> Is(phases, u, LockWait);
  }

  /** The semaphore once the queued task `t` is cancelled; a permit already granted to it is passed on. */
  function WithoutTask(g: Gate, t: Task): Gate {
    if t in g.granted then g.(granted := Without(g.granted, t)).Release() else g.(waiting := Without(g.waiting, t))
  }

  lemma ReleasedQueue(g: Gate)
    ensures g.Release().granted + g.Release().waiting == g.granted + g.waiting
  {
  }

  lemma WithoutTaskQueue(g: Gate, phases: seq<Phase>, t: Task)
    requires QueueOk(g.granted + g.waiting, phases, {}) && Is(phases, t, Queued)
    ensures QueueOk(WithoutTask(g, t).granted + WithoutTask(g, t).waiting, phases[t := Ended], {})
  {
    CancelQueue(g.granted, g.waiting, phases, t);
    ReleasedQueue(g.(granted := Without(g.granted, t)));
  }

  lemma WithoutTaskPermits(g: Gate, phases: seq<Phase>, t: Task, cap: nat, holding: nat)
    requires QueueOk(g.granted + g.waiting, phases, {}) && Is(phases, t, Queued)
    requires PermitsOk(cap, Some(g), holding, 0)
    ensures PermitsOk(cap, Some(WithoutTask(g, t)), holding, 0)
  {
    CancelQueue(g.granted, g.waiting, phases, t);
  }

  lemma CancelQueuedFields(s: State, t: Task)
    requires s.Shape() && Is(s.phases, t, Queued) && s.gate.Some?
    ensures Cancel(s, t) == s.(phases := s.phases[t := Ended], gate := Some(WithoutTask(s.gate.value, t)))
  {
  }

  lemma CancelQueuedKeepsInv(s: State, t: Task)
    requires Inv(s) && Is(s.phases, t, Queued) && s.gate.Some?
    ensures Inv(Cancel(s, t))
  {
    CancelQueuedFields(s, t);
    PhaseCounts(s.phases, t, Ended);
    StagesEnd(s.keys, s.phases, s.started, t);
    LatestElse(s.keys, s.phases, s.started, t, Ended);
    WithoutTaskQueue(s.gate.value, s.phases, t);
    WithoutTaskPermits(s.gate.value, s.phases, t, s.cap, |Holding(s.phases)|);
    HoldersIgnoreQueued(s.lanes, s.keys, s.phases, t);
    WaitersIgnoreQueued(s.lanes, s.keys, s.phases, t);
  }

  // ---- whole runs ----------------------------------------------------------

  datatype Step =
    | DoArrive(k: Key)
    | DoResumeGate
    | DoResumeLane(k: Key)
    | DoFinish(t: Task)
    | DoCancel(t: Task)

  predicate Enabled(s: State, step: Step)
    requires s.Shape()
  {
    match step
    case DoArrive(_) => true
    case DoResumeGate => s.gate.Some? && s.gate.value.granted != [] && s.gate.value.granted[0] < |s.keys|
    case DoResumeLane(k) => CanResumeLane(s, k) && s.lanes[k].waiters[0] < |s.keys|
    case DoFinish(t) => Is(s.phases, t, Running)
    case DoCancel(t) => t < |s.phases| && s.phases[t] != Ended && (Is(s.phases, t, Queued) ==> s.gate.Some?)
  }

  function Apply(s: State, step: Step): State
    requires s.Shape() && Enabled(s, step)
  {
    match step
    case DoArrive(k) => Arrive(s, k)
    case DoResumeGate => ResumeGate(s)
    case DoResumeLane(k) => ResumeLane(s, k)
    case DoFinish(t) => Finish(s, t)
    case DoCancel(t) => Cancel(s, t)
  }

  ghost predicate Executes(s: State, steps: seq<Step>, s': State)
    decreases |steps|
  {
    if steps == [] then s == s'
    else s.Shape() && Enabled(s, steps[0]) && Executes(Apply(s, steps[0]), steps[1..], s')
  }

  lemma StepKeepsInv(s: State, step: Step)
    requires Inv(s) && Enabled(s, step)
    ensures Inv(Apply(s, step))
  {
    match step
    case DoArrive(k) => ArriveKeepsInv(s, k);
    case DoResumeGate => ResumeGateKeepsInv(s);
    case DoResumeLane(k) => ResumeLaneKeepsInv(s, k);
    case DoFinish(t) => FinishKeepsInv(s, t);
    case DoCancel(t) => CancelKeepsInv(s, t);
  }

  /** Callers are never renumbered, and a step starts at most one turn. */
  lemma StepExtends(s: State, step: Step)
    requires Inv(s) && Enabled(s, step)
    ensures var s' := Apply(s, step);
            && s.keys <= s'.keys
            && |s'.keys| == |s.keys| + (if step.DoArrive? then 1 else 0)
            && (step.DoArrive? ==> s'.keys == s.keys + [step.k])
            && (s'.started == s.started || exists t :: s'.started == s.started + [t])
  {
    var s' := Apply(s, step);
    if s'.started != s.started {
      assert exists t :: s'.started == s.started + [t];
    }
  }

  lemma {:induction false} RunKeepsInv(s: State, steps: seq<Step>, s': State)
    requires Inv(s) && Executes(s, steps, s')
    ensures Inv(s')
    decreases |steps|
  {
    if steps != [] {
      StepKeepsInv(s, steps[0]);
      RunKeepsInv(Apply(s, steps[0]), steps[1..], s');
    }
  }

  lemma InitInv(cap: nat)
    ensures Inv(Init(cap))
  {
    assert Holding([]) == {} == RunningTasks([]);
  }

  /**
   Whatever the interleaving of arrivals, resumptions, returns, exceptions and
   cancellations: one turn per lane, turns of a lane start in arrival order, the
   counter is the number of running turns, no permit is lost or minted, and
   `stats` never reports fewer free permits than there are.
   */
  lemma LaneSafety(cap: nat, steps: seq<Step>, s: State)
    requires Executes(Init(cap), steps, s)
    ensures |s.keys| == |s.phases|
    ensures forall t: Task, u: Task ::
              Is(s.phases, t, Running) && Is(s.phases, u, Running) && s.keys[t] == s.keys[u] ==> t == u
    ensures StartedInOrder(s.keys, s.started)
    ensures s.inFlight == |RunningTasks(s.phases)|
    ensures cap > 0 <==> s.gate.Some?
    ensures s.gate.Some? ==> s.gate.value.free + |s.gate.value.granted| + |Holding(s.phases)| == cap
    ensures s.gate.Some? ==> s.inFlight <= cap && GlobalAvailable(s) >= s.gate.value.free
  {
    InitInv(cap);
    RunKeepsInv(Init(cap), steps, s);
    CapIsFixed(Init(cap), steps, s);
    var running, holding := RunningTasks(s.phases), Holding(s.phases);
    assert running <= holding;
    SubsetSize(running, holding);
  }

  lemma {:induction false} CapIsFixed(s: State, steps: seq<Step>, s': State)
    requires Executes(s, steps, s')
    ensures s'.cap == s.cap
    decreases |steps|
  {
    if steps != [] {
      assert Apply(s, steps[0]).cap == s.cap;
      CapIsFixed(Apply(s, steps[0]), steps[1..], s');
    }
  }

  lemma SubsetSize(a: set<Task>, b: set<Task>)
    requires a <= b
    ensures |a| <= |b|
  {
    if a != {} {
      var x :| x in a;
      SubsetSize(a - {x}, b - {x});
    }
  }

  // ---- progress ------------------------------------------------------------

  function Weight(p: Phase): nat {
    match p
    case Queued => 3
    case LockWait => 2
    case Running => 1
    case Ended => 0
  }

  /** Steps the unfinished tasks still need at most. */
  function Rank(phases: seq<Phase>): nat {
    if phases == [] then 0 else Weight(phases[0]) + Rank(phases[1..])
  }

  lemma {:induction false} RankChange(phases: seq<Phase>, t: Task, p: Phase)
    requires t < |phases|
    ensures Rank(phases[t := p]) == Rank(phases) + Weight(p) - Weight(phases[t])
  {
    if t > 0 {
      RankChange(phases[1..], t - 1, p);
      assert phases[t := p][1..] == phases[1..][t - 1 := p];
    } else {
      assert phases[t := p][1..] == phases[1..];
    }
  }

  lemma GateMovesOne(s: State)
    requires Inv(s) && s.gate.Some? && s.gate.value.granted != []
    ensures var t := s.gate.value.granted[0];
            && Is(s.phases, t, Queued) && ResumeGate(s).phases[t] in {LockWait, Running}
            && ResumeGate(s).phases == s.phases[t := ResumeGate(s).phases[t]]
  {
    var t := s.gate.value.granted[0];
    assert t == s.Queue()[0];
    assert t in s.Queue();
  }

  lemma LaneMovesOne(s: State, k: Key)
    requires Inv(s) && CanResumeLane(s, k)
    ensures var t := s.lanes[k].waiters[0]; Is(s.phases, t, LockWait) && ResumeLane(s, k).phases == s.phases[t := Running]
  {
    assert s.lanes[k].waiters[0] in s.lanes[k].waiters;
  }

  /** Every step but an arrival moves exactly one task, to a later phase. */
  lemma StepMovesOne(s: State, step: Step) returns (t: Task, p: Phase)
    requires Inv(s) && Enabled(s, step) && !step.DoArrive?
    ensures t < |s.phases| && Weight(p) < Weight(s.phases[t])
    ensures Apply(s, step).phases == s.phases[t := p]
  {
    match step
    case DoResumeGate =>
      GateMovesOne(s);
      t := s.gate.value.granted[0];
      p := ResumeGate(s).phases[t];
    case DoResumeLane(k) =>
      LaneMovesOne(s, k);
      t, p := s.lanes[k].waiters[0], Running;
    case DoFinish(u) => t, p := u, Ended;
    case DoCancel(u) => t, p := u, Ended;
  }

  lemma EndedStepStays(s: State, step: Step)
    requires Inv(s) && Enabled(s, step)
    ensures |s.phases| <= |Apply(s, step).phases|
    ensures forall t: Task :: t < |s.phases| && s.phases[t] == Ended ==> Apply(s, step).phases[t] == Ended
  {
    if !step.DoArrive? {
      var t, p := StepMovesOne(s, step);
    }
  }

  /** Over any run a task that has ended stays ended, and no arrival or start is forgotten or reordered. */
  lemma {:induction false} EndedForGood(s: State, steps: seq<Step>, s': State)
    requires Inv(s) && Executes(s, steps, s')
    ensures s.started <= s'.started && s.keys <= s'.keys && |s.phases| <= |s'.phases|
    ensures forall t: Task :: t < |s.phases| && s.phases[t] == Ended ==> s'.phases[t] == Ended
    decreases |steps|
  {
    if steps != [] {
      StepKeepsInv(s, steps[0]);
      StepExtends(s, steps[0]);
      EndedStepStays(s, steps[0]);
      EndedForGood(Apply(s, steps[0]), steps[1..], s');
    }
  }

  lemma StepLowersRank(s: State, step: Step)
    requires Inv(s) && Enabled(s, step) && !step.DoArrive?
    ensures Rank(Apply(s, step).phases) < Rank(s.phases)
  {
    var t, p := StepMovesOne(s, step);
    RankChange(s.phases, t, p);
  }

  /** A step that needs no caller and no cancellation: a resumption or the end of a turn body. */
  ghost predicate Progress(s: State, step: Step)
    requires s.Shape()
  {
    Enabled(s, step) && (step.DoResumeGate? || step.DoResumeLane? || step.DoFinish?)
  }

  /** No deadlock: while some task is unfinished, some step can be taken. */
  lemma NoDeadlock(s: State, t: Task) returns (step: Step)
    requires Inv(s) && t < |s.phases| && s.phases[t] != Ended
    ensures Progress(s, step)
  {
    if s.phases[t] == Queued {
      assert t in s.Queue();
      var g := s.gate.value;
      if g.granted != [] {
        assert g.granted[0] == s.Queue()[0];
        return DoResumeGate;
      }
      assert g.waiting != [] && g.free == 0;
      assert Holding(s.phases) != {};
      var u :| u in Holding(s.phases);
      step := NoDeadlockHolding(s, u);
    } else {
      step := NoDeadlockHolding(s, t);
    }
  }

  lemma NoDeadlockHolding(s: State, t: Task) returns (step: Step)
    requires Inv(s) && t < |s.phases| && s.phases[t] in {LockWait, Running}
    ensures Progress(s, step)
  {
    if s.phases[t] == Running {
      return DoFinish(t);
    }
    assert Is(s.phases, t, LockWait);
    var lane := s.lanes[s.keys[t]];
    assert t in lane.waiters;
    if lane.holder.Some? {
      return DoFinish(lane.holder.value);
    }
    assert lane.waiters[0] in lane.waiters;
    return DoResumeLane(s.keys[t]);
  }

  ghost predicate NoArrivals(steps: seq<Step>) { forall i :: 0 <= i < |steps| ==> !steps[i].DoArrive? }

  lemma {:induction false} RunLowersRank(s: State, steps: seq<Step>, s': State)
    requires Inv(s) && Executes(s, steps, s') && NoArrivals(steps)
    ensures Inv(s') && |steps| + Rank(s'.phases) <= Rank(s.phases)
    decreases |steps|
  {
    if steps != [] {
      StepKeepsInv(s, steps[0]);
      StepLowersRank(s, steps[0]);
      RunLowersRank(Apply(s, steps[0]), steps[1..], s');
    }
  }

  /**
   Once callers stop arriving, every schedule is finite, and one that can go no
   further has finished every task.
   */
  lemma LanesDrain(cap: nat, before: seq<Step>, s: State, steps: seq<Step>, s': State)
    requires Executes(Init(cap), before, s)
    requires Executes(s, steps, s') && NoArrivals(steps)
    ensures |steps| <= Rank(s.phases)
    ensures s'.Shape()
    ensures (forall step :: !Progress(s', step)) ==> forall t: Task :: t < |s'.phases| ==> s'.phases[t] == Ended
  {
    InitInv(cap);
    RunKeepsInv(Init(cap), before, s);
    RunLowersRank(s, steps, s');
    forall t: Task | t < |s'.phases| && s'.phases[t] != Ended ensures exists step :: Progress(s', step) {
      var step := NoDeadlock(s', t);
    }
  }

  // ---- the registry object -------------------------------------------------

  /**
   `LaneRegistry`: every method is what `run` does between two awaits.  The
   ghost fields record the callers; `View` is the state the theorems are about.
   */
  class LaneRegistry {
    const cap: nat
    var gate: Option<Gate>
    var lanes: map<Key, Lane>
    var inFlight: int
    ghost var keys: seq<Key>
    ghost var phases: seq<Phase>
    ghost var started: seq<Task>

    ghost function View(): State
      reads this
    {
      State(cap, gate, lanes, inFlight, keys, phases, started)
    }

    ghost predicate Valid()
      reads this
    {
      Inv(View())
    }

    constructor (globalConcurrency: Option<int>)
      ensures Valid()
      ensures View() == Init(if globalConcurrency.Some? && globalConcurrency.value > 0
                             then globalConcurrency.value else 0)
    {
      cap := if globalConcurrency.Some? && globalConcurrency.value > 0 then globalConcurrency.value else 0;
      if globalConcurrency.Some? && globalConcurrency.value > 0 {
        gate := Some(Gate(globalConcurrency.value, [], []));
      } else {
        gate := None;
      }
      lanes, inFlight := map[], 0;
      keys, phases, started := [], [], [];
      new;
      InitInv(cap);
    }

    method LockOrWait(t: Task, k: Key)
      requires Moving(View(), t) && keys[t] == k
      modifies this
      ensures Valid() && View() == AcquireLane(old(View()), t)
    {
      AcquireLaneKeepsInv(View(), t);
      var lane := lanes[k];
      if !lane.Locked() && lane.waiters == [] {
        lanes := lanes[k := Lane(Some(t), [])];
        inFlight := inFlight + 1;
        phases, started := phases[t := Running], started + [t];
      } else {
        lanes := lanes[k := lane.(waiters := lane.waiters + [t])];
        phases := phases[t := LockWait];
      }
    }

    /** The lane is created on first use; the caller gets its arrival number. */
    method Register(k: Key)
      requires View().Shape()
      modifies this`lanes, this`keys, this`phases
      ensures View() == Admit(old(View()), k)
    {
      if k !in lanes {
        lanes := lanes[k := FREE_LANE];
      }
      keys, phases := keys + [k], phases + [Queued];
    }

    method TakePermit()
      requires gate.Some? ==> !gate.value.Blocked()
      modifies this`gate
      ensures View() == old(View()).(gate := OnePermitLess(old(gate)))
    {
      if gate.Some? {
        gate := Some(gate.value.(free := gate.value.free - 1));
      }
    }

    method PassGate(t: Task, k: Key)
      requires Valid() && t == |keys|
      requires gate.Some? ==> !gate.value.Blocked()
      modifies this
      ensures Valid() && View() == Arrive(old(View()), k)
    {
      PassingIsMoving(View(), k);
      Register(k);
      TakePermit();
      LockOrWait(t, k);
    }

    method Enter(t: Task, k: Key)
      requires Valid() && t == |keys|
      modifies this
      ensures Valid() && View() == Arrive(old(View()), k)
    {
      if gate.Some? && gate.value.Blocked() {
        EnqueueKeepsInv(View(), k);
        Register(k);
        gate := Some(gate.value.(waiting := gate.value.waiting + [t]));
      } else {
        PassGate(t, k);
      }
    }

    method ResumeAfterGate(k: Key)
      requires Valid() && Enabled(View(), DoResumeGate) && keys[gate.value.granted[0]] == k
      modifies this
      ensures Valid() && View() == ResumeGate(old(View()))
    {
      ResumeGateMoves(View());
      var t := gate.value.granted[0];
      gate := Some(gate.value.(granted := gate.value.granted[1..]).Wake());
      LockOrWait(t, k);
    }

    method ResumeAfterLock(k: Key)
      requires Valid() && Enabled(View(), DoResumeLane(k))
      modifies this
      ensures Valid() && View() == ResumeLane(old(View()), k)
    {
      ResumeLaneKeepsInv(View(), k);
      var t := lanes[k].waiters[0];
      assert t in lanes[k].waiters;
      lanes := lanes[k := Lane(Some(t), lanes[k].waiters[1..])];
      inFlight := inFlight + 1;
      phases, started := phases[t := Running], started + [t];
    }

    /** The `finally` of the turn and the exits of both `async with` blocks. */
    method Leave(t: Task, k: Key)
      requires Valid() && Enabled(View(), DoFinish(t)) && keys[t] == k
      modifies this
      ensures Valid() && View() == Finish(old(View()), t)
    {
      FinishKeepsInv(View(), t);
      inFlight := inFlight - 1;
      lanes := lanes[k := lanes[k].(holder := None)];
      if gate.Some? {
        gate := Some(gate.value.Release());
      }
      phases := phases[t := Ended];
    }

    /** Cancellation while suspended on the semaphore or on the lane lock. */
    method Abandon(t: Task, k: Key)
      requires Valid() && Enabled(View(), DoCancel(t)) && keys[t] == k && !Is(phases, t, Running)
      modifies this
      ensures Valid() && View() == Cancel(old(View()), t)
    {
      CancelKeepsInv(View(), t);
      assert Is(phases, t, LockWait) <==> t in lanes[k].waiters;
      assert Is(phases, t, Queued) ==> t in View().Queue();
      if t in lanes[k].waiters {
        lanes := lanes[k := lanes[k].(waiters := Without(lanes[k].waiters, t))];
        if gate.Some? {
          gate := Some(gate.value.Release());
        }
      } else if t in gate.value.granted {
        gate := Some(gate.value.(granted := Without(gate.value.granted, t)).Release());
      } else {
        gate := Some(gate.value.(waiting := Without(gate.value.waiting, t)));
      }
      phases := phases[t := Ended];
    }

    /** `stats()`: the free permits as the registry reports them. */
    method Available() returns (available: nat)
      requires Valid() && gate.Some?
      ensures available == GlobalAvailable(View()) >= gate.value.free
    {
      ghost var running, holding := RunningTasks(phases), Holding(phases);
      assert running <= holding;
      SubsetSize(running, holding);
      available := if cap - inFlight > 0 then cap - inFlight else 0;
    }
  }

  /** The first granted waiter, once out of the semaphore's queue, is on its way to its lane. */
  lemma ResumeGateMoves(s: State)
    requires Inv(s) && s.gate.Some? && s.gate.value.granted != []
    ensures var g := s.gate.value;
            Moving(s.(gate := Some(g.(granted := g.granted[1..]).Wake())), g.granted[0])
  {
    var g := s.gate.value;
    var t := g.granted[0];
    var s1 := s.(gate := Some(g.(granted := g.granted[1..]).Wake()));
    assert t == s.Queue()[0];
    assert s1.Queue() == s.Queue()[1..];
    Mem(s.Queue());
    IncreasingTail(s.Queue());
    assert QueueOk(s1.Queue(), s.phases, {t});
    forall u: Task | Is(s.phases, u, Queued) && u != t ensures t < u {
      assert u in s.Queue();
    }
  }
}
