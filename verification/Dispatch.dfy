/**
 The dispatcher (oxenclaw/agents/dispatch.py): agent resolution, the turn that
 runs under a lane, and the conversation history it writes.
 */
module Dispatch {
  import opened Wrappers
  import Lanes
  import Seqs

  type Key = Lanes.Key
  type Task = Lanes.Task

  datatype Target = Target(channel: string, account: string, chat: string, thread: Option<string>)

  datatype Envelope = Envelope(
    channel: string,
    target: Target,
    sender: string,
    text: Option<string>,
    agentId: Option<string>
  )

  datatype SendParams = SendParams(target: Target, text: Option<string>)

  datatype SendResult = SendResult(messageId: string)

  datatype Item = Inbound(envelope: Envelope) | Outbound(params: SendParams)

  /** `agents.<id>.channels`: channel name to its `allow_from` list. */
  datatype AgentConfig = AgentConfig(id: string, channels: map<string, seq<string>>)

  /** The root config's agents in declaration order and the sorted registered ids. */
  datatype Config = Config(agents: seq<AgentConfig>, registered: seq<string>)

  function SessionKey(t: Target): string {
    t.channel + ":" + t.account + ":" + t.chat +
    (if t.thread.Some? && t.thread.value != "" then ":" + t.thread.value else "")
  }

  // ---- agent resolution ----------------------------------------------------

  predicate Pinned(e: Envelope) { e.agentId.Some? && e.agentId.value != "" }

  predicate Routes(a: AgentConfig, e: Envelope) { e.channel in a.channels }

  predicate Admits(a: AgentConfig, e: Envelope) {
    Routes(a, e) && (a.channels[e.channel] == [] || e.sender in a.channels[e.channel])
  }

  function FirstAdmitting(agents: seq<AgentConfig>, e: Envelope): Option<string> {
    if agents == [] then None
    else if Admits(agents[0], e) then Some(agents[0].id)
    else FirstAdmitting(agents[1..], e)
  }

  function Resolve(cfg: Config, e: Envelope): Option<string> {
    if Pinned(e) then
      if e.agentId.value in cfg.registered then e.agentId else None
    else if FirstAdmitting(cfg.agents, e).Some? then
      FirstAdmitting(cfg.agents, e)
    else if exists i :: 0 <= i < |cfg.agents| && Routes(cfg.agents[i], e) then
      None
    else if |cfg.registered| == 1 then
      Some(cfg.registered[0])
    else
      None
  }

  /** `id` is the first agent in declaration order that routes the channel and admits the sender. */
  ghost predicate FirstAt(agents: seq<AgentConfig>, e: Envelope, id: string) {
    exists i :: && 0 <= i < |agents| && agents[i].id == id && Admits(agents[i], e)
                && forall j :: 0 <= j < i ==> !Admits(agents[j], e)
  }

  lemma {:induction false} FirstAdmittingMeaning(agents: seq<AgentConfig>, e: Envelope)
    ensures FirstAdmitting(agents, e).None? <==> forall i :: 0 <= i < |agents| ==> !Admits(agents[i], e)
    ensures forall id :: FirstAdmitting(agents, e) == Some(id) <==> FirstAt(agents, e, id)
  {
    if agents != [] {
      FirstAdmittingMeaning(agents[1..], e);
      if Admits(agents[0], e) {
        forall id ensures FirstAdmitting(agents, e) == Some(id) <==> FirstAt(agents, e, id) {
          assert agents[0].id == id ==> FirstAt(agents, e, id);
        }
      } else {
        forall i | 0 <= i < |agents[1..]| ensures agents[1..][i] == agents[i + 1] { }
        forall id ensures FirstAt(agents[1..], e, id) <==> FirstAt(agents, e, id) {
          FirstShift(agents, e, id);
        }
      }
    }
  }

  lemma FirstShift(agents: seq<AgentConfig>, e: Envelope, id: string)
    requires agents != [] && !Admits(agents[0], e)
    ensures FirstAt(agents[1..], e, id) <==> FirstAt(agents, e, id)
  {
    var rest := agents[1..];
    if FirstAt(rest, e, id) {
      var i :| 0 <= i < |rest| && rest[i].id == id && Admits(rest[i], e) && forall j :: 0 <= j < i ==> !Admits(rest[j], e);
      forall j | 0 <= j < i + 1 ensures !Admits(agents[j], e) {
        if j > 0 { assert agents[j] == rest[j - 1]; }
      }
      assert agents[i + 1].id == id;
    }
    if FirstAt(agents, e, id) {
      var i :| 0 <= i < |agents| && agents[i].id == id && Admits(agents[i], e) && forall j :: 0 <= j < i ==> !Admits(agents[j], e);
      assert rest[i - 1].id == id;
      forall j | 0 <= j < i - 1 ensures !Admits(rest[j], e) { assert rest[j] == agents[j + 1]; }
    }
  }

  /**
   A pinned agent is used or the envelope dropped.  Otherwise the first admitting
   agent wins; a routed but excluded sender is dropped; the implicit default is
   used only when no agent routes the channel and exactly one is registered.
   */
  lemma ResolveMeaning(cfg: Config, e: Envelope, id: string)
    ensures Resolve(cfg, e) == Some(id) <==>
            if Pinned(e) then
              e.agentId == Some(id) && id in cfg.registered
            else
              || FirstAt(cfg.agents, e, id)
              || (cfg.registered == [id] && forall i :: 0 <= i < |cfg.agents| ==> !Routes(cfg.agents[i], e))
  {
    FirstAdmittingMeaning(cfg.agents, e);
    if FirstAt(cfg.agents, e, id) {
      assert FirstAdmitting(cfg.agents, e).Some?;
    }
  }

  /** `_resolve_agent_id`: one pass with the `sender_blocked` flag. */
  method ResolveAgentId(cfg: Config, e: Envelope) returns (r: Option<string>)
    ensures r == Resolve(cfg, e)
  {
    if e.agentId.Some? && e.agentId.value != "" {
      return if e.agentId.value in cfg.registered then e.agentId else None;
    }
    var senderBlocked := false;
    for i := 0 to |cfg.agents|
      invariant forall j :: 0 <= j < i ==> !Admits(cfg.agents[j], e)
      invariant senderBlocked <==> exists j :: 0 <= j < i && Routes(cfg.agents[j], e)
    {
      var agent := cfg.agents[i];
      if e.channel in agent.channels {
        if agent.channels[e.channel] == [] || e.sender in agent.channels[e.channel] {
          assert FirstAt(cfg.agents, e, agent.id);
          FirstAdmittingMeaning(cfg.agents, e);
          return Some(agent.id);
        }
        assert Routes(agent, e);
        senderBlocked := true;
      }
    }
    FirstAdmittingMeaning(cfg.agents, e);
    if senderBlocked {
      return None;
    }
    if |cfg.registered| == 1 {
      return Some(cfg.registered[0]);
    }
    return None;
  }

  predicate Routed(cfg: Config, e: Envelope) {
    Resolve(cfg, e).Some? && Resolve(cfg, e).value in cfg.registered
  }

  function LaneKey(cfg: Config, e: Envelope): Key {
    (if Resolve(cfg, e).Some? && Resolve(cfg, e).value != "" then Resolve(cfg, e).value else "_unrouted",
     SessionKey(e.target))
  }

  /** Where a routed turn keeps its history; an agent may have the empty name, a lane may not. */
  function HistoryKey(cfg: Config, e: Envelope): Key {
    (if Resolve(cfg, e).Some? then Resolve(cfg, e).value else "", SessionKey(e.target))
  }

  lemma OneLanePerHistory(cfg: Config, e: Envelope, f: Envelope)
    ensures HistoryKey(cfg, e) == HistoryKey(cfg, f) ==> LaneKey(cfg, e) == LaneKey(cfg, f)
  {
  }

  // ---- one turn under its lane ---------------------------------------------

  /** What `_send` did with one outbound: delivered, `UserVisibleError`, or another exception. */
  datatype SendOutcome = Sent(result: SendResult) | Undeliverable(reason: string) | Raises

  datatype Outcome = Outcome(
    results: seq<SendResult>,
    agentId: Option<string>,
    yielded: nat,
    dropped: bool,
    warnings: seq<string>
  )

  function Outbounds(outs: seq<SendParams>): seq<Item> { seq(|outs|, i requires 0 <= i < |outs| => Outbound(outs[i])) }

  /** A turn's block: its envelope, then what it emitted. */
  function Block(e: Envelope, outs: seq<SendParams>): seq<Item> { [Inbound(e)] + Outbounds(outs) }

  function Delivered(sends: seq<SendOutcome>): seq<SendResult> {
    if sends == [] then [] else
    Delivered(sends[..|sends| - 1]) +
    (if sends[|sends| - 1].Sent? then [sends[|sends| - 1].result] else [])
  }

  function Warned(sends: seq<SendOutcome>): seq<string> {
    if sends == [] then [] else
    Warned(sends[..|sends| - 1]) +
    (if sends[|sends| - 1].Undeliverable? then [sends[|sends| - 1].reason] else [])
  }

  lemma {:induction false} EveryOutboundAccounted(sends: seq<SendOutcome>)
    requires forall i :: 0 <= i < |sends| ==> !sends[i].Raises?
    ensures |Delivered(sends)| + |Warned(sends)| == |sends|
  {
    if sends != [] { EveryOutboundAccounted(sends[..|sends| - 1]); }
  }

  class Dispatcher {
    const config: Config
    var sessions: map<Key, seq<Item>>

    constructor (config: Config)
      ensures this.config == config && sessions == map[]
    {
      this.config, sessions := config, map[];
    }

    function History(k: Key): seq<Item>
      reads this
    {
      if k in sessions then sessions[k] else []
    }

    /** The `async for` of a turn: append, then send; an unexpected send error escapes. */
    method Emit(k: Key, outs: seq<SendParams>, sends: seq<SendOutcome>)
      returns (yielded: nat, results: seq<SendResult>, warnings: seq<string>, escaped: bool)
      requires |sends| == |outs| && k in sessions
      modifies this
      ensures yielded <= |outs|
      ensures sessions == old(sessions)[k := old(sessions[k]) + Outbounds(outs[..yielded])]
      ensures forall i :: 0 <= i < yielded - 1 ==> !sends[i].Raises?
      ensures escaped <==> yielded > 0 && sends[yielded - 1].Raises?
      ensures !escaped ==> yielded == |outs| && results == Delivered(sends) && warnings == Warned(sends)
    {
      results, warnings, yielded, escaped := [], [], 0, false;
      assert sessions[k] + Outbounds([]) == sessions[k];
      while yielded < |outs|
        invariant yielded <= |outs|
        invariant sessions == old(sessions)[k := old(sessions[k]) + Outbounds(outs[..yielded])]
        invariant forall i :: 0 <= i < yielded ==> !sends[i].Raises?
        invariant results == Delivered(sends[..yielded]) && warnings == Warned(sends[..yielded])
      {
        OneMore(outs, sends, yielded);
        assert old(sessions[k]) + Outbounds(outs[..yielded + 1]) ==
               old(sessions[k]) + Outbounds(outs[..yielded]) + [Outbound(outs[yielded])];
        var out, send := outs[yielded], sends[yielded];
        sessions := sessions[k := sessions[k] + [Outbound(out)]];
        yielded := yielded + 1;
        match send {
          case Sent(result) => results := results + [result];
          case Undeliverable(reason) => warnings := warnings + [reason];
          case Raises =>
            escaped := true;
            return;
        }
      }
      assert sends[..yielded] == sends;
    }

    /**
     `_dispatch_locked` with `outs` as what the agent yields and `sends[i]` as what
     `_send` does with `outs[i]`.  No outcome means an exception escaped; the
     outbound whose send raised is in the history all the same.
     */
    method DispatchLocked(e: Envelope, outs: seq<SendParams>, sends: seq<SendOutcome>, agentRaises: bool)
      returns (outcome: Option<Outcome>, yielded: nat)
      requires |sends| == |outs|
      modifies this
      ensures !Routed(config, e) ==>
                sessions == old(sessions) && outcome == Some(Outcome([], Resolve(config, e), 0, true, []))
      ensures yielded <= |outs|
      ensures Routed(config, e) ==>
                var k := HistoryKey(config, e);
                && sessions == old(sessions)[k := old(History(k)) + Block(e, outs[..yielded])]
                && (forall i :: 0 <= i < yielded - 1 ==> !sends[i].Raises?)
                && (outcome.None? <==> agentRaises || (yielded > 0 && sends[yielded - 1].Raises?))
      ensures Routed(config, e) && outcome.Some? ==>
                && yielded == |outs|
                && outcome.value == Outcome(Delivered(sends), Resolve(config, e), |outs|, false, Warned(sends))
                && |outcome.value.results| + |outcome.value.warnings| == outcome.value.yielded
    {
      yielded := 0;
      var agentId := ResolveAgentId(config, e);
      if agentId.None? {
        return Some(Outcome([], None, 0, true, [])), 0;
      }
      if agentId.value !in config.registered {
        return Some(Outcome([], agentId, 0, true, [])), 0;
      }
      var k := (agentId.value, SessionKey(e.target));
      if k !in sessions {
        sessions := sessions[k := []];
      }
      sessions := sessions[k := sessions[k] + [Inbound(e)]];
      var results, warnings, escaped;
      yielded, results, warnings, escaped := Emit(k, outs, sends);
      assert sessions[k] == old(History(k)) + Block(e, outs[..yielded]);
      if escaped || agentRaises {
        return None, yielded;
      }
      EveryOutboundAccounted(sends);
      return Some(Outcome(results, agentId, yielded, false, warnings)), yielded;
    }
  }

  lemma OneMore(outs: seq<SendParams>, sends: seq<SendOutcome>, i: nat)
    requires i < |outs| == |sends|
    ensures Outbounds(outs[..i + 1]) == Outbounds(outs[..i]) + [Outbound(outs[i])]
    ensures Delivered(sends[..i + 1]) == Delivered(sends[..i]) + if sends[i].Sent? then [sends[i].result] else []
    ensures Warned(sends[..i + 1]) == Warned(sends[..i]) + if sends[i].Undeliverable? then [sends[i].reason] else []
  {
    assert sends[..i + 1][..i] == sends[..i];
  }

  // ---- overlapping dispatches ----------------------------------------------

  /** `history` is every session's `ctx.history`; `outs[t]` is what turn `t` has emitted so far. */
  datatype State = State(
    lanes: Lanes.State,
    envelopes: seq<Envelope>,
    outs: seq<seq<SendParams>>,
    history: map<Key, seq<Item>>
  )

  function Init(cap: nat): State { State(Lanes.Init(cap), [], [], map[]) }

  function HistoryOf(d: State, k: Key): seq<Item> { if k in d.history then d.history[k] else [] }

  function Append(d: State, k: Key, item: Item): State {
    d.(history := d.history[k := HistoryOf(d, k) + [item]])
  }

  /** The first thing a turn does inside its lane, in the same step as taking the lock. */
  function Begin(cfg: Config, d: State, t: Task): State
    requires t < |d.envelopes|
  {
    if Routed(cfg, d.envelopes[t]) then
      Append(d, HistoryKey(cfg, d.envelopes[t]), Inbound(d.envelopes[t]))
    else d
  }

  datatype Step =
    | Accept(e: Envelope)
    | InLanes(step: Lanes.Step)
    | Emit(t: Task, out: SendParams)

  predicate Enabled(cfg: Config, d: State, step: Step)
    requires d.lanes.Shape()
  {
    match step
    case Accept(_) => true
    case InLanes(st) => !st.DoArrive? && Lanes.Enabled(d.lanes, st)
    case Emit(t, _) =>
      Lanes.Is(d.lanes.phases, t, Lanes.Running) && t < |d.envelopes| == |d.outs| && Routed(cfg, d.envelopes[t])
  }

  function AfterLanes(cfg: Config, d: State, lanes: Lanes.State): State {
    var d' := d.(lanes := lanes);
    if |lanes.started| > |d.lanes.started| && lanes.started[|lanes.started| - 1] < |d.envelopes| then
      Begin(cfg, d', lanes.started[|lanes.started| - 1])
    else d'
  }

  function Apply(cfg: Config, d: State, step: Step): State
    requires d.lanes.Shape() && Enabled(cfg, d, step)
  {
    match step
    case Accept(e) =>
      AfterLanes(cfg, d.(envelopes := d.envelopes + [e], outs := d.outs + [[]]),
                 Lanes.Arrive(d.lanes, LaneKey(cfg, e)))
    case InLanes(st) => AfterLanes(cfg, d, Lanes.Apply(d.lanes, st))
    case Emit(t, out) =>
      Append(d.(outs := d.outs[t := d.outs[t] + [out]]), HistoryKey(cfg, d.envelopes[t]), Outbound(out))
  }

  ghost predicate Executes(cfg: Config, d: State, steps: seq<Step>, d': State)
    decreases |steps|
  {
    if steps == [] then d == d'
    else d.lanes.Shape() && Enabled(cfg, d, steps[0]) && Executes(cfg, Apply(cfg, d, steps[0]), steps[1..], d')
  }

  /** The blocks of the turns that keep their history under `k`, in the order they started. */
  function Blocks(cfg: Config, envelopes: seq<Envelope>, outs: seq<seq<SendParams>>, started: seq<Task>, k: Key): seq<Item>
    requires |envelopes| == |outs| && forall i :: 0 <= i < |started| ==> started[i] < |envelopes|
  {
    if started == [] then [] else
    var n := |started| - 1;
    var t := started[n];
    Blocks(cfg, envelopes, outs, started[..n], k) +
    (if Routed(cfg, envelopes[t]) && HistoryKey(cfg, envelopes[t]) == k then Block(envelopes[t], outs[t]) else [])
  }

  ghost predicate Inv(cfg: Config, d: State) {
    && Lanes.Inv(d.lanes)
    && |d.envelopes| == |d.outs| == |d.lanes.keys|
    && (forall t :: 0 <= t < |d.envelopes| ==> d.lanes.keys[t] == LaneKey(cfg, d.envelopes[t]))
    && (forall t :: 0 <= t < |d.outs| && t !in d.lanes.started ==> d.outs[t] == [])
    && (forall k :: HistoryOf(d, k) == Blocks(cfg, d.envelopes, d.outs, d.lanes.started, k))
  }

  lemma {:induction false} BlocksLocal(
    cfg: Config, envelopes: seq<Envelope>, outs: seq<seq<SendParams>>,
    envelopes': seq<Envelope>, outs': seq<seq<SendParams>>, started: seq<Task>, k: Key)
    requires |envelopes| == |outs| && |envelopes'| == |outs'|
    requires forall i :: 0 <= i < |started| ==> started[i] < |envelopes| && started[i] < |envelopes'|
    requires forall i :: 0 <= i < |started| ==> envelopes[started[i]] == envelopes'[started[i]]
    requires forall i :: 0 <= i < |started| && HistoryKey(cfg, envelopes[started[i]]) == k ==>
               outs[started[i]] == outs'[started[i]]
    ensures Blocks(cfg, envelopes, outs, started, k) == Blocks(cfg, envelopes', outs', started, k)
  {
    if started != [] {
      var n := |started| - 1;
      BlocksLocal(cfg, envelopes, outs, envelopes', outs', started[..n], k);
    }
  }

  lemma LastBlockGrows(
    cfg: Config, envelopes: seq<Envelope>, outs: seq<seq<SendParams>>, prior: seq<Task>, t: Task, out: SendParams)
    requires |envelopes| == |outs| && (forall i :: 0 <= i < |prior| ==> prior[i] < |envelopes|)
    requires t < |envelopes| && t !in prior && Routed(cfg, envelopes[t])
    ensures var k := HistoryKey(cfg, envelopes[t]);
            Blocks(cfg, envelopes, outs[t := outs[t] + [out]], prior + [t], k) ==
            Blocks(cfg, envelopes, outs, prior + [t], k) + [Outbound(out)]
  {
    var k, outs', started := HistoryKey(cfg, envelopes[t]), outs[t := outs[t] + [out]], prior + [t];
    assert started[..|prior|] == prior;
    BlocksLocal(cfg, envelopes, outs, envelopes, outs', prior, k);
    assert Outbounds(outs'[t]) == Outbounds(outs[t]) + [Outbound(out)];
    assert Block(envelopes[t], outs'[t]) == Block(envelopes[t], outs[t]) + [Outbound(out)];
    Seqs.Regroup(Blocks(cfg, envelopes, outs, prior, k), Block(envelopes[t], outs[t]), [Outbound(out)]);
  }

  /** Emitting extends the last block of the lane, and that is the end of the history. */
  lemma {:induction false} BlocksGrow(
    cfg: Config, envelopes: seq<Envelope>, outs: seq<seq<SendParams>>, started: seq<Task>, t: Task, out: SendParams)
    requires |envelopes| == |outs| && forall i :: 0 <= i < |started| ==> started[i] < |envelopes|
    requires t in started && Routed(cfg, envelopes[t])
    requires forall i, j :: 0 <= i < j < |started| && LaneKey(cfg, envelopes[started[i]]) == LaneKey(cfg, envelopes[started[j]]) ==>
               started[i] < started[j]
    requires forall i :: 0 <= i < |started| && LaneKey(cfg, envelopes[started[i]]) == LaneKey(cfg, envelopes[t]) ==>
               started[i] <= t
    ensures var k := HistoryKey(cfg, envelopes[t]);
            Blocks(cfg, envelopes, outs[t := outs[t] + [out]], started, k) ==
            Blocks(cfg, envelopes, outs, started, k) + [Outbound(out)]
  {
    var n := |started| - 1;
    var prior := started[..n];
    assert prior + [started[n]] == started;
    if started[n] == t {
      LastBlockGrows(cfg, envelopes, outs, prior, t, out);
    } else {
      var i :| 0 <= i < |started| && started[i] == t;
      assert prior[i] == t;
      assert LaneKey(cfg, envelopes[started[n]]) != LaneKey(cfg, envelopes[t]);
      OneLanePerHistory(cfg, envelopes[started[n]], envelopes[t]);
      BlocksGrow(cfg, envelopes, outs, prior, t, out);
      Seqs.AppendNothing(Blocks(cfg, envelopes, outs, prior, HistoryKey(cfg, envelopes[t])));
    }
  }

  /** Appending to one session's history. */
  lemma AppendHistory(d: State, own: Key, item: Item, k: Key)
    ensures HistoryOf(Append(d, own, item), k) == if k == own then HistoryOf(d, k) + [item] else HistoryOf(d, k)
  {
  }

  lemma EmitFrame(cfg: Config, d: State, t: Task, out: SendParams, k: Key)
    requires d.lanes.Shape() && Enabled(cfg, d, Emit(t, out))
    ensures var d' := Apply(cfg, d, Emit(t, out));
            && d'.envelopes == d.envelopes && d'.outs == d.outs[t := d.outs[t] + [out]] && d'.lanes == d.lanes
            && HistoryOf(d', k) ==
               if k == HistoryKey(cfg, d.envelopes[t]) then HistoryOf(d, k) + [Outbound(out)] else HistoryOf(d, k)
  {
    AppendHistory(d.(outs := d.outs[t := d.outs[t] + [out]]), HistoryKey(cfg, d.envelopes[t]), Outbound(out), k);
  }

  /** The blocks under key `k` once the turn `t` has yielded `out`. */
  lemma EmitBlocks(
    cfg: Config, envelopes: seq<Envelope>, outs: seq<seq<SendParams>>, lanes: Lanes.State, t: Task, out: SendParams, k: Key)
    requires Lanes.Inv(lanes) && |envelopes| == |outs| == |lanes.keys|
    requires forall u :: 0 <= u < |envelopes| ==> lanes.keys[u] == LaneKey(cfg, envelopes[u])
    requires Lanes.Is(lanes.phases, t, Lanes.Running) && Routed(cfg, envelopes[t])
    ensures forall i :: 0 <= i < |lanes.started| ==> lanes.started[i] < |envelopes|
    ensures Blocks(cfg, envelopes, outs[t := outs[t] + [out]], lanes.started, k) ==
            Blocks(cfg, envelopes, outs, lanes.started, k) +
            (if k == HistoryKey(cfg, envelopes[t]) then [Outbound(out)] else [])
  {
    if k == HistoryKey(cfg, envelopes[t]) {
      BlocksGrow(cfg, envelopes, outs, lanes.started, t, out);
    } else {
      BlocksLocal(cfg, envelopes, outs, envelopes, outs[t := outs[t] + [out]], lanes.started, k);
      Seqs.AppendNothing(Blocks(cfg, envelopes, outs, lanes.started, k));
    }
  }

  lemma EmitKeepsHistory(cfg: Config, d: State, t: Task, out: SendParams, k: Key)
    requires Inv(cfg, d) && Enabled(cfg, d, Emit(t, out))
    ensures var d' := Apply(cfg, d, Emit(t, out));
            && |d'.envelopes| == |d'.outs|
            && (forall i :: 0 <= i < |d.lanes.started| ==> d.lanes.started[i] < |d'.envelopes|)
            && HistoryOf(d', k) == Blocks(cfg, d'.envelopes, d'.outs, d.lanes.started, k)
  {
    EmitFrame(cfg, d, t, out, k);
    EmitBlocks(cfg, d.envelopes, d.outs, d.lanes, t, out, k);
    Seqs.AppendNothing(HistoryOf(d, k));
  }

  lemma EmitKeepsInv(cfg: Config, d: State, t: Task, out: SendParams)
    requires Inv(cfg, d) && Enabled(cfg, d, Emit(t, out))
    ensures Inv(cfg, Apply(cfg, d, Emit(t, out)))
  {
    var d' := Apply(cfg, d, Emit(t, out));
    assert t in d.lanes.started;
    forall k ensures HistoryOf(d', k) == Blocks(cfg, d'.envelopes, d'.outs, d'.lanes.started, k) {
      EmitKeepsHistory(cfg, d, t, out, k);
    }
  }

  /** A new caller changes no block. */
  lemma CallersKeepBlocks(cfg: Config, d: State, envelopes: seq<Envelope>, outs: seq<seq<SendParams>>)
    requires Inv(cfg, d) && |envelopes| == |outs| && d.envelopes <= envelopes && d.outs <= outs
    ensures forall i :: 0 <= i < |d.lanes.started| ==> d.lanes.started[i] < |envelopes|
    ensures forall k :: HistoryOf(d, k) == Blocks(cfg, envelopes, outs, d.lanes.started, k)
  {
    StartedExist(d.lanes);
    forall k ensures HistoryOf(d, k) == Blocks(cfg, envelopes, outs, d.lanes.started, k) {
      BlocksLocal(cfg, d.envelopes, d.outs, envelopes, outs, d.lanes.started, k);
    }
  }

  lemma LanesKeepInv(cfg: Config, d: State, st: Lanes.Step, envelopes: seq<Envelope>, outs: seq<seq<SendParams>>)
    requires Inv(cfg, d) && Lanes.Enabled(d.lanes, st)
    requires st.DoArrive? ==>
               exists e :: envelopes == d.envelopes + [e] && outs == d.outs + [[]] && st.k == LaneKey(cfg, e)
    requires !st.DoArrive? ==> envelopes == d.envelopes && outs == d.outs
    ensures Inv(cfg, AfterLanes(cfg, d.(envelopes := envelopes, outs := outs), Lanes.Apply(d.lanes, st)))
  {
    var lanes := Lanes.Apply(d.lanes, st);
    Lanes.StepKeepsInv(d.lanes, st);
    Lanes.StepExtends(d.lanes, st);
    LanesKeepCallers(cfg, d, st, envelopes, outs);
    CallersKeepBlocks(cfg, d, envelopes, outs);
    BeginKeepsHistory(cfg, d.(envelopes := envelopes, outs := outs), lanes);
    AfterLanesFields(cfg, d.(envelopes := envelopes, outs := outs), lanes);
  }

  lemma AfterLanesFields(cfg: Config, d: State, lanes: Lanes.State)
    ensures var d' := AfterLanes(cfg, d, lanes);
            d'.lanes == lanes && d'.envelopes == d.envelopes && d'.outs == d.outs
  {
  }

  lemma LanesKeepCallers(cfg: Config, d: State, st: Lanes.Step, envelopes: seq<Envelope>, outs: seq<seq<SendParams>>)
    requires Inv(cfg, d) && Lanes.Enabled(d.lanes, st)
    requires st.DoArrive? ==>
               exists e :: envelopes == d.envelopes + [e] && outs == d.outs + [[]] && st.k == LaneKey(cfg, e)
    requires !st.DoArrive? ==> envelopes == d.envelopes && outs == d.outs
    ensures var lanes := Lanes.Apply(d.lanes, st);
            && |envelopes| == |outs| == |lanes.keys|
            && (forall t :: 0 <= t < |envelopes| ==> lanes.keys[t] == LaneKey(cfg, envelopes[t]))
            && (forall t :: 0 <= t < |outs| && t !in d.lanes.started ==> outs[t] == [])
            && (forall t :: 0 <= t < |outs| && t !in lanes.started ==> outs[t] == [])
  {
    Lanes.StepExtends(d.lanes, st);
    var lanes := Lanes.Apply(d.lanes, st);
    forall t | 0 <= t < |outs| && t !in lanes.started ensures t !in d.lanes.started {
      if lanes.started != d.lanes.started {
        var u :| lanes.started == d.lanes.started + [u];
      }
    }
  }

  lemma BeginKeepsHistory(cfg: Config, d: State, lanes: Lanes.State)
    requires Lanes.Inv(lanes) && |d.envelopes| == |d.outs| == |lanes.keys|
    requires forall i :: 0 <= i < |d.lanes.started| ==> d.lanes.started[i] < |d.envelopes|
    requires forall t :: 0 <= t < |d.outs| && t !in d.lanes.started ==> d.outs[t] == []
    requires forall k :: HistoryOf(d, k) == Blocks(cfg, d.envelopes, d.outs, d.lanes.started, k)
    requires lanes.started == d.lanes.started || exists t :: lanes.started == d.lanes.started + [t]
    ensures var d' := AfterLanes(cfg, d, lanes);
            forall k :: HistoryOf(d', k) == Blocks(cfg, d.envelopes, d.outs, lanes.started, k)
  {
    var d' := AfterLanes(cfg, d, lanes);
    if lanes.started != d.lanes.started {
      forall k ensures HistoryOf(d', k) == Blocks(cfg, d.envelopes, d.outs, lanes.started, k) {
        NewBlock(cfg, d.envelopes, d.outs, d.lanes.started, lanes, k);
      }
    }
  }

  lemma NewBlock(
    cfg: Config, envelopes: seq<Envelope>, outs: seq<seq<SendParams>>, started: seq<Task>, lanes: Lanes.State, k: Key)
    requires Lanes.Inv(lanes) && |envelopes| == |outs| == |lanes.keys|
    requires exists t :: lanes.started == started + [t]
    requires forall t :: 0 <= t < |outs| && t !in started ==> outs[t] == []
    ensures |lanes.started| > 0 && lanes.started[|lanes.started| - 1] < |envelopes|
    ensures forall i :: 0 <= i < |started| ==> started[i] < |envelopes|
    ensures var t := lanes.started[|lanes.started| - 1];
            Blocks(cfg, envelopes, outs, lanes.started, k) ==
            Blocks(cfg, envelopes, outs, started, k) +
            if Routed(cfg, envelopes[t]) && HistoryKey(cfg, envelopes[t]) == k then [Inbound(envelopes[t])] else []
  {
    var n := |started|;
    var t := lanes.started[n];
    assert lanes.started[..n] == started;
    assert forall i :: 0 <= i < n ==> started[i] == lanes.started[i];
    forall i | 0 <= i < n ensures started[i] != t {
      assert lanes.keys[lanes.started[i]] == lanes.keys[t] ==> lanes.started[i] < t;
    }
    assert outs[t] == [];
    assert Block(envelopes[t], []) == [Inbound(envelopes[t])];
  }

  lemma StepKeepsInv(cfg: Config, d: State, step: Step)
    requires Inv(cfg, d) && Enabled(cfg, d, step)
    ensures Inv(cfg, Apply(cfg, d, step))
  {
    match step
    case Accept(e) =>
      LanesKeepInv(cfg, d, Lanes.DoArrive(LaneKey(cfg, e)), d.envelopes + [e], d.outs + [[]]);
    case InLanes(st) =>
      LanesKeepInv(cfg, d, st, d.envelopes, d.outs);
      assert d.(envelopes := d.envelopes, outs := d.outs) == d;
    case Emit(t, out) => EmitKeepsInv(cfg, d, t, out);
  }

  lemma {:induction false} RunKeepsInv(cfg: Config, d: State, steps: seq<Step>, d': State)
    requires Inv(cfg, d) && Executes(cfg, d, steps, d')
    ensures Inv(cfg, d')
    decreases |steps|
  {
    if steps != [] {
      StepKeepsInv(cfg, d, steps[0]);
      RunKeepsInv(cfg, Apply(cfg, d, steps[0]), steps[1..], d');
    }
  }

  /** The `i`th and the `j`th turn to start belong to one lane. */
  ghost predicate SameLane(cfg: Config, d: State, i: nat, j: nat)
    requires i < |d.lanes.started| && j < |d.lanes.started|
    requires d.lanes.started[i] < |d.envelopes| && d.lanes.started[j] < |d.envelopes|
  {
    LaneKey(cfg, d.envelopes[d.lanes.started[i]]) == LaneKey(cfg, d.envelopes[d.lanes.started[j]])
  }

  /** Of two turns of one lane the earlier to start arrived earlier, and has ended. */
  lemma LaneOrder(lanes: Lanes.State, i: nat, j: nat)
    requires Lanes.Inv(lanes) && i < j < |lanes.started|
    requires lanes.keys[lanes.started[i]] == lanes.keys[lanes.started[j]]
    ensures lanes.started[i] < lanes.started[j] && lanes.phases[lanes.started[i]] == Lanes.Ended
  {
    var t := lanes.started[i];
    assert t < lanes.started[j];
    assert !Lanes.Is(lanes.phases, t, Lanes.Running);
    assert !Lanes.Waits(lanes.phases, t);
  }

  lemma StartedExist(lanes: Lanes.State)
    requires Lanes.Inv(lanes)
    ensures |lanes.keys| == |lanes.phases| && forall i :: 0 <= i < |lanes.started| ==> lanes.started[i] < |lanes.keys|
  {
  }

  /**
   However many dispatches overlap, are cancelled or fail: a session's history is
   the blocks of its turns, all of one lane, in start order, which is arrival order;
   and every turn of a lane but its last has ended, so only the last block can grow.
   */
  lemma HistoryIsBlocks(cfg: Config, cap: nat, steps: seq<Step>, d: State, k: Key)
    requires Executes(cfg, Init(cap), steps, d)
    ensures |d.envelopes| == |d.outs| == |d.lanes.phases|
    ensures forall i :: 0 <= i < |d.lanes.started| ==> d.lanes.started[i] < |d.envelopes|
    ensures HistoryOf(d, k) == Blocks(cfg, d.envelopes, d.outs, d.lanes.started, k)
    ensures forall i, j | 0 <= i < j < |d.lanes.started| && SameLane(cfg, d, i, j) ::
              && d.lanes.started[i] < d.lanes.started[j]
              && d.lanes.phases[d.lanes.started[i]] == Lanes.Ended
  {
    InitInv(cfg, cap);
    RunKeepsInv(cfg, Init(cap), steps, d);
    StartedExist(d.lanes);
    forall i, j | 0 <= i < j < |d.lanes.started| && SameLane(cfg, d, i, j)
      ensures d.lanes.started[i] < d.lanes.started[j] && d.lanes.phases[d.lanes.started[i]] == Lanes.Ended
    {
      LaneOrder(d.lanes, i, j);
    }
  }

  lemma InitInv(cfg: Config, cap: nat)
    ensures Inv(cfg, Init(cap))
  {
    Lanes.InitInv(cap);
  }

  /** History is append-only: no step, of any session, rewrites what a session already holds. */
  lemma {:induction false} HistoryOnlyGrows(cfg: Config, d: State, steps: seq<Step>, d': State, k: Key)
    requires Executes(cfg, d, steps, d')
    ensures HistoryOf(d, k) <= HistoryOf(d', k)
    decreases |steps|
  {
    if steps != [] {
      var d1 := Apply(cfg, d, steps[0]);
      assert HistoryOf(d, k) <= HistoryOf(d1, k);
      HistoryOnlyGrows(cfg, d1, steps[1..], d', k);
    }
  }
}
