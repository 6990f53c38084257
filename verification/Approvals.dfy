/**
 The approval gate: the registry of one-shot futures (oxenclaw/approvals/manager.py)
 and the tool wrappers that wait on it (oxenclaw/approvals/tool_wrap.py).

 A request id is a fresh uuid in the source; here requests are numbered in the
 order they are made.
 */
module Approvals {
  import opened Wrappers

  datatype Status = Approved | Denied | Cancelled | TimedOut

  /** `ApprovalResult` */
  datatype Verdict = Verdict(id: nat, status: Status, reason: Option<string>)

  /** `Expired` and `Dropped` are futures cancelled by the timeout and by their task. */
  datatype Future = Open | Set(verdict: Verdict) | Expired | Dropped

  /** Who completed a request's future. */
  datatype Winner = ByResolve(approved: bool) | ByCancel | ByShutdown | ByTimeout | ByTask

  datatype Win = Win(r: nat, how: Winner)

  /**
   `pending` is the dictionary in insertion order, `snapshot` the ids in the state
   file.  `wins` records every completion of a future.
   */
  datatype Registry = Registry(futures: seq<Future>, pending: seq<nat>, snapshot: seq<nat>, wins: seq<Win>)

  function Init(): Registry { Registry([], [], [], []) }

  predicate Authorized(token: Option<string>, offered: Option<string>) { token.None? || offered == token }

  function Without(s: seq<nat>, r: nat): seq<nat> {
    if s == [] then [] else if s[0] == r then s[1..] else [s[0]] + Without(s[1..], r)
  }

  /** The synchronous start of `request`. */
  function Register(g: Registry): Registry {
    var pending := g.pending + [|g.futures|];
    g.(futures := g.futures + [Open], pending := pending, snapshot := pending)
  }

  /** `self._pending.pop(req.id, None)` and `_persist`. */
  function Unregister(g: Registry, r: nat): Registry {
    g.(pending := Without(g.pending, r), snapshot := Without(g.pending, r))
  }

  predicate IsOpen(g: Registry, r: nat) { r < |g.futures| && g.futures[r] == Open }

  function Settle(g: Registry, r: nat, st: Future, how: Winner): Registry
    requires r < |g.futures|
  {
    g.(futures := g.futures[r := st], wins := g.wins + [Win(r, how)])
  }

  /** `resolve`: an error without the token, no result unless the request is pending and open. */
  function AfterResolve(
    g: Registry, token: Option<string>, r: nat, approved: bool, reason: Option<string>, offered: Option<string>
  ): (Registry, Result<Option<Verdict>, string>) {
    if !Authorized(token, offered) then (g, Err("invalid or missing approver token"))
    else if r !in g.pending || !IsOpen(g, r) then (g, Ok(None))
    else
      var verdict := Verdict(r, if approved then Approved else Denied, reason);
      (Settle(g, r, Set(verdict), ByResolve(approved)), Ok(Some(verdict)))
  }

  /** `cancel` */
  function AfterCancel(
    g: Registry, token: Option<string>, r: nat, reason: Option<string>, offered: Option<string>
  ): (Registry, Result<bool, string>) {
    if !Authorized(token, offered) then (g, Err("invalid or missing approver token"))
    else if r !in g.pending || !IsOpen(g, r) then (g, Ok(false))
    else (Settle(g, r, Set(Verdict(r, Cancelled, reason)), ByCancel), Ok(true))
  }

  /** `cancel_all` over the ids from `i` on. */
  function CancelFrom(g: Registry, ids: seq<nat>, i: nat, reason: Option<string>): (Registry, nat)
    requires i <= |ids|
    decreases |ids| - i
  {
    if i == |ids| then (g, 0)
    else if !IsOpen(g, ids[i]) then CancelFrom(g, ids, i + 1, reason)
    else
      var (g', n) := CancelFrom(
        Settle(g, ids[i], Set(Verdict(ids[i], Cancelled, reason)), ByShutdown), ids, i + 1, reason);
      (g', n + 1)
  }

  function AfterCancelAll(g: Registry, reason: Option<string>): (Registry, nat) { CancelFrom(g, g.pending, 0, reason) }

  // ---- gated calls ---------------------------------------------------------

  datatype Outcome = Got(verdict: Verdict) | Interrupted

  /**
   Where a gated `execute` is: in the first event emit, waiting on its future, in
   the closing emit, or inside the wrapped tool; then how it ended.  A call dropped
   in the first emit never reaches the `finally`, so its request leaks.
   */
  datatype Phase =
    | Announcing
    | Awaiting
    | Closing(out: Outcome)
    | Running
    | Completed
    | Refused(verdict: Verdict)
    | Killed(leaked: bool)

  datatype Call = Call(timed: bool, interrupted: bool, phase: Phase)

  /**
   `calls[r]` is the tool call that made request `r`; `direct` counts the bodies
   that ran because their own `auto_approve` held; `emits` says whether an event
   emitter is configured.
   */
  datatype System = System(token: Option<string>, emits: bool, g: Registry, calls: seq<Call>, direct: nat)

  datatype Step =
    | Execute(auto: Option<bool>, timed: bool)
    | Announced(r: nat)
    | Wake(r: nat)
    | Closed(r: nat)
    | BodyDone(r: nat)
    | Interrupt(r: nat)
    | Timeout(r: nat)
    | DoResolve(r: nat, approved: bool, reason: Option<string>, offered: Option<string>)
    | DoCancel(r: nat, reason: Option<string>, offered: Option<string>)
    | DoCancelAll(reason: Option<string>)

  predicate Over(phase: Phase) { phase.Completed? || phase.Refused? || phase.Killed? }

  predicate Enabled(s: System, step: Step) {
    match step
    case Announced(r) => r < |s.calls| && s.calls[r].phase.Announcing?
    case Wake(r) => r < |s.calls| <= |s.g.futures| && s.calls[r].phase.Awaiting? && s.g.futures[r] != Open
    case Closed(r) => r < |s.calls| && s.calls[r].phase.Closing?
    case BodyDone(r) => r < |s.calls| && s.calls[r].phase.Running?
    case Interrupt(r) => r < |s.calls| <= |s.g.futures| && !Over(s.calls[r].phase)
    case Timeout(r) =>
      r < |s.calls| <= |s.g.futures| && s.calls[r].phase.Awaiting? && s.calls[r].timed && s.g.futures[r] == Open
    case _ => true
  }

  function SetPhase(s: System, r: nat, phase: Phase): System
    requires r < |s.calls|
  {
    s.(calls := s.calls[r := s.calls[r].(phase := phase)])
  }

  /** What `execute` does with the outcome of `request`. */
  function AfterRequest(out: Outcome): Phase {
    match out
    case Interrupted => Killed(false)
    case Got(verdict) => if verdict.status == Approved then Running else Refused(verdict)
  }

  /** What `await fut` gives or raises once the future is done. */
  function OutcomeOf(fut: Future, interrupted: bool, r: nat): Outcome {
    if interrupted then Interrupted
    else match fut
         case Set(verdict) => Got(verdict)
         case Expired => Got(Verdict(r, TimedOut, None))
         case _ => Interrupted
  }

  /** `task.cancel()` */
  function ApplyInterrupt(s: System, r: nat): System
    requires r < |s.calls| <= |s.g.futures|
  {
    match s.calls[r].phase
    case Announcing => SetPhase(s, r, Killed(true))
    case Awaiting =>
      s.(calls := s.calls[r := s.calls[r].(interrupted := true)],
         g := if s.g.futures[r] == Open then Settle(s.g, r, Dropped, ByTask) else s.g)
    case _ => SetPhase(s, r, Killed(false))
  }

  function Apply(s: System, step: Step): System
    requires Enabled(s, step)
  {
    match step
    case Execute(auto, timed) =>
      if auto == Some(true) then s.(direct := s.direct + 1)
      else s.(g := Register(s.g), calls := s.calls + [Call(timed, false, if s.emits then Announcing else Awaiting)])
    case Announced(r) => SetPhase(s, r, Awaiting)
    case Wake(r) =>
      var out := OutcomeOf(s.g.futures[r], s.calls[r].interrupted, r);
      SetPhase(s.(g := Unregister(s.g, r)), r, if s.emits then Closing(out) else AfterRequest(out))
    case Closed(r) => SetPhase(s, r, AfterRequest(s.calls[r].phase.out))
    case BodyDone(r) => SetPhase(s, r, Completed)
    case Interrupt(r) => ApplyInterrupt(s, r)
    case Timeout(r) => s.(g := Settle(s.g, r, Expired, ByTimeout))
    case DoResolve(r, approved, reason, offered) => s.(g := AfterResolve(s.g, s.token, r, approved, reason, offered).0)
    case DoCancel(r, reason, offered) => s.(g := AfterCancel(s.g, s.token, r, reason, offered).0)
    case DoCancelAll(reason) => s.(g := AfterCancelAll(s.g, reason).0)
  }

  function Start(token: Option<string>, emits: bool): System { System(token, emits, Init(), [], 0) }

  ghost predicate Executes(s: System, steps: seq<Step>, s': System)
    decreases |steps|
  {
    if steps == [] then s == s' else Enabled(s, steps[0]) && Executes(Apply(s, steps[0]), steps[1..], s')
  }

  // ---- the registry's invariant --------------------------------------------

  ghost predicate Distinct(s: seq<nat>) { forall i, j :: 0 <= i < j < |s| ==> s[i] != s[j] }

  /** The winner that a completed future shows. */
  predicate Shows(fut: Future, r: nat, how: Winner) {
    match fut
    case Open => false
    case Expired => how == ByTimeout
    case Dropped => how == ByTask
    case Set(verdict) =>
      && verdict.id == r
      && (verdict.status == Approved <==> how == ByResolve(true))
      && (verdict.status == Denied <==> how == ByResolve(false))
      && (verdict.status == Cancelled <==> how == ByCancel || how == ByShutdown)
  }

  ghost predicate Won(wins: seq<Win>, r: nat) { exists i :: 0 <= i < |wins| && wins[i].r == r }

  /** A future is done exactly when somebody won it; nobody wins twice. */
  ghost predicate WinsOk(futures: seq<Future>, wins: seq<Win>) {
    && (forall i :: 0 <= i < |wins| ==> wins[i].r < |futures| && Shows(futures[wins[i].r], wins[i].r, wins[i].how))
    && (forall i, j :: 0 <= i < j < |wins| ==> wins[i].r != wins[j].r)
    && (forall r :: 0 <= r < |futures| && futures[r] != Open ==> Won(wins, r))
  }

  ghost predicate PendingOk(pending: seq<nat>, snapshot: seq<nat>, n: nat) {
    && snapshot == pending && Distinct(pending)
    && forall i :: 0 <= i < |pending| ==> pending[i] < n
  }

  ghost predicate Inv(g: Registry) {
    WinsOk(g.futures, g.wins) && PendingOk(g.pending, g.snapshot, |g.futures|)
  }

  lemma {:induction false} WithoutMeaning(s: seq<nat>, r: nat)
    requires Distinct(s)
    ensures Distinct(Without(s, r))
    ensures forall x :: x in Without(s, r) <==> x in s && x != r
  {
    if s != [] {
      WithoutMeaning(s[1..], r);
      assert s == [s[0]] + s[1..];
      if s[0] != r {
        var t := Without(s, r);
        assert t[1..] == Without(s[1..], r);
        assert s[0] !in s[1..];
        forall i, j | 0 <= i < j < |t| ensures t[i] != t[j] {
          if i == 0 { assert t[j] == t[1..][j - 1] && t[j] in t[1..]; } else { assert t[i] == t[1..][i - 1] && t[j] == t[1..][j - 1]; }
        }
      }
    }
  }

  lemma SettleKeepsInv(g: Registry, r: nat, st: Future, how: Winner)
    requires Inv(g) && IsOpen(g, r) && Shows(st, r, how)
    ensures Inv(Settle(g, r, st, how))
  {
    var g' := Settle(g, r, st, how);
    assert g'.wins[|g.wins|] == Win(r, how);
    forall q | 0 <= q < |g'.futures| && g'.futures[q] != Open ensures Won(g'.wins, q) {
      if q != r {
        var i :| 0 <= i < |g.wins| && g.wins[i].r == q;
        assert g'.wins[i].r == q;
      }
    }
  }

  lemma RegisterKeepsInv(g: Registry)
    requires Inv(g)
    ensures Inv(Register(g))
  {
    var g' := Register(g);
    forall q | 0 <= q < |g'.futures| && g'.futures[q] != Open ensures Won(g'.wins, q) {
      assert g.futures[q] != Open;
    }
  }

  lemma UnregisterKeepsInv(g: Registry, r: nat)
    requires Inv(g)
    ensures Inv(Unregister(g, r))
  {
    WithoutMeaning(g.pending, r);
    forall i | 0 <= i < |Without(g.pending, r)| ensures Without(g.pending, r)[i] < |g.futures| {
      assert Without(g.pending, r)[i] in g.pending;
    }
  }

  /** How many of the ids from `i` on are open. */
  function OpenCount(futures: seq<Future>, ids: seq<nat>, i: nat): nat
    requires i <= |ids|
    decreases |ids| - i
  {
    if i == |ids| then 0
    else (if ids[i] < |futures| && futures[ids[i]] == Open then 1 else 0) + OpenCount(futures, ids, i + 1)
  }

  lemma {:induction false} OpenCountSkips(futures: seq<Future>, ids: seq<nat>, i: nat, r: nat, st: Future)
    requires i <= |ids| && r < |futures| && forall j :: i <= j < |ids| ==> ids[j] != r
    ensures OpenCount(futures[r := st], ids, i) == OpenCount(futures, ids, i)
    decreases |ids| - i
  {
    if i < |ids| { OpenCountSkips(futures, ids, i + 1, r, st); }
  }

  /** Shutdown completes exactly the listed open futures, and counts them. */
  lemma {:induction false} CancelFromMeaning(g: Registry, ids: seq<nat>, i: nat, reason: Option<string>)
    requires Inv(g) && i <= |ids| && Distinct(ids)
    ensures var (g', n) := CancelFrom(g, ids, i, reason);
            && Inv(g') && g'.pending == g.pending && |g'.futures| == |g.futures|
            && (forall r :: 0 <= r < |g.futures| ==>
                  g'.futures[r] == if r in ids[i..] && g.futures[r] == Open then Set(Verdict(r, Cancelled, reason)) else g.futures[r])
            && n == OpenCount(g.futures, ids, i)
    decreases |ids| - i
  {
    if i < |ids| {
      assert ids[i..] == [ids[i]] + ids[i + 1..];
      if !IsOpen(g, ids[i]) {
        CancelFromMeaning(g, ids, i + 1, reason);
      } else {
        var st := Set(Verdict(ids[i], Cancelled, reason));
        SettleKeepsInv(g, ids[i], st, ByShutdown);
        CancelFromMeaning(Settle(g, ids[i], st, ByShutdown), ids, i + 1, reason);
        OpenCountSkips(g.futures, ids, i + 1, ids[i], st);
      }
    }
  }

  lemma PrefixThrough<T>(a: seq<T>, b: seq<T>, c: seq<T>)
    requires a <= b <= c
    ensures a <= c
    ensures forall k :: |a| <= k < |b| ==> c[k] == b[k]
  {
  }

  /** It wins as many requests as it counts. */
  lemma {:induction false} CancelFromWins(g: Registry, ids: seq<nat>, i: nat, reason: Option<string>)
    requires i <= |ids|
    ensures var (g', n) := CancelFrom(g, ids, i, reason);
            && g.wins <= g'.wins && |g'.wins| == |g.wins| + n
            && (forall k :: |g.wins| <= k < |g'.wins| ==> g'.wins[k].how == ByShutdown)
    decreases |ids| - i
  {
    if i < |ids| {
      if !IsOpen(g, ids[i]) {
        CancelFromWins(g, ids, i + 1, reason);
      } else {
        var g1 := Settle(g, ids[i], Set(Verdict(ids[i], Cancelled, reason)), ByShutdown);
        CancelFromWins(g1, ids, i + 1, reason);
        PrefixThrough(g.wins, g1.wins, CancelFrom(g1, ids, i + 1, reason).0.wins);
      }
    }
  }

  /** After `cancel_all` no pending future is open; it returns how many were. */
  lemma ShutdownLeavesNothingOpen(g: Registry, reason: Option<string>)
    requires Inv(g)
    ensures var (g', n) := AfterCancelAll(g, reason);
            && Inv(g') && |g'.futures| == |g.futures|
            && (forall r :: r in g'.pending ==> g'.futures[r] != Open)
            && (forall r :: 0 <= r < |g.futures| && g.futures[r] != Open ==> g'.futures[r] == g.futures[r])
            && n == OpenCount(g.futures, g.pending, 0)
  {
    CancelFromMeaning(g, g.pending, 0, reason);
    assert g.pending[0..] == g.pending;
  }

  // ---- the system's invariant ----------------------------------------------

  /** The request is still in `_pending`. */
  predicate Listed(phase: Phase) { phase.Announcing? || phase.Awaiting? || phase == Killed(true) }

  predicate CallOk(call: Call, fut: Future, r: nat) {
    match call.phase
    case Closing(Got(verdict)) => verdict == GivenBy(fut, r) && fut != Open
    case Closing(Interrupted) => true
    case Running => fut.Set? && fut.verdict.status == Approved
    case Completed => fut.Set? && fut.verdict.status == Approved
    case Refused(verdict) => verdict == GivenBy(fut, r) && fut != Open && verdict.status != Approved
    case _ => true
  }

  function GivenBy(fut: Future, r: nat): Verdict {
    if fut.Set? then fut.verdict else Verdict(r, TimedOut, None)
  }

  ghost predicate CallsOk(calls: seq<Call>, futures: seq<Future>, pending: seq<nat>) {
    && |calls| == |futures|
    && (forall r: nat :: r < |calls| ==> CallOk(calls[r], futures[r], r))
    && (forall r: nat :: r < |calls| ==> (r in pending <==> Listed(calls[r].phase)))
  }

  ghost predicate SystemInv(s: System) { Inv(s.g) && CallsOk(s.calls, s.g.futures, s.g.pending) }

  /** Completing a future nobody has read yet contradicts no call. */
  lemma SettleKeepsCalls(calls: seq<Call>, futures: seq<Future>, pending: seq<nat>, r: nat, st: Future)
    requires CallsOk(calls, futures, pending) && r < |futures| && futures[r] == Open
    ensures CallsOk(calls, futures[r := st], pending)
  {
  }

  lemma {:induction false} CancelFromKeepsCalls(calls: seq<Call>, g: Registry, ids: seq<nat>, i: nat, reason: Option<string>)
    requires i <= |ids| && CallsOk(calls, g.futures, g.pending)
    ensures CallsOk(calls, CancelFrom(g, ids, i, reason).0.futures, g.pending)
    decreases |ids| - i
  {
    if i < |ids| {
      if !IsOpen(g, ids[i]) {
        CancelFromKeepsCalls(calls, g, ids, i + 1, reason);
      } else {
        var st := Set(Verdict(ids[i], Cancelled, reason));
        SettleKeepsCalls(calls, g.futures, g.pending, ids[i], st);
        CancelFromKeepsCalls(calls, Settle(g, ids[i], st, ByShutdown), ids, i + 1, reason);
      }
    }
  }

  lemma WakeKeepsInv(s: System, r: nat)
    requires SystemInv(s) && Enabled(s, Wake(r))
    ensures SystemInv(Apply(s, Wake(r)))
  {
    UnregisterKeepsInv(s.g, r);
    WithoutMeaning(s.g.pending, r);
  }

  lemma InterruptKeepsInv(s: System, r: nat)
    requires SystemInv(s) && Enabled(s, Interrupt(r))
    ensures SystemInv(Apply(s, Interrupt(r)))
  {
    if s.calls[r].phase.Awaiting? && s.g.futures[r] == Open {
      SettleKeepsInv(s.g, r, Dropped, ByTask);
    }
  }

  lemma ExecuteKeepsInv(s: System, auto: Option<bool>, timed: bool)
    requires SystemInv(s)
    ensures SystemInv(Apply(s, Execute(auto, timed)))
  {
    RegisterKeepsInv(s.g);
  }

  lemma SettlingKeepsInv(s: System, r: nat, st: Future, how: Winner)
    requires SystemInv(s) && IsOpen(s.g, r) && Shows(st, r, how)
    ensures SystemInv(s.(g := Settle(s.g, r, st, how)))
  {
    SettleKeepsInv(s.g, r, st, how);
    SettleKeepsCalls(s.calls, s.g.futures, s.g.pending, r, st);
  }

  lemma StepKeepsInv(s: System, step: Step)
    requires SystemInv(s) && Enabled(s, step)
    ensures SystemInv(Apply(s, step))
  {
    match step
    case Execute(auto, timed) => ExecuteKeepsInv(s, auto, timed);
    case Wake(r) => WakeKeepsInv(s, r);
    case Interrupt(r) => InterruptKeepsInv(s, r);
    case Timeout(r) => SettlingKeepsInv(s, r, Expired, ByTimeout);
    case DoResolve(r, approved, reason, offered) =>
      if Authorized(s.token, offered) && r in s.g.pending && IsOpen(s.g, r) {
        SettlingKeepsInv(s, r, Set(Verdict(r, if approved then Approved else Denied, reason)), ByResolve(approved));
      }
    case DoCancel(r, reason, offered) =>
      if Authorized(s.token, offered) && r in s.g.pending && IsOpen(s.g, r) {
        SettlingKeepsInv(s, r, Set(Verdict(r, Cancelled, reason)), ByCancel);
      }
    case DoCancelAll(reason) =>
      CancelFromMeaning(s.g, s.g.pending, 0, reason);
      CancelFromKeepsCalls(s.calls, s.g, s.g.pending, 0, reason);
    case _ =>
  }

  lemma {:induction false} RunKeepsInv(s: System, steps: seq<Step>, s': System)
    requires SystemInv(s) && Executes(s, steps, s')
    ensures SystemInv(s')
    decreases |steps|
  {
    if steps != [] {
      StepKeepsInv(s, steps[0]);
      RunKeepsInv(Apply(s, steps[0]), steps[1..], s');
    }
  }

  // ---- theorems ------------------------------------------------------------

  /** An accepted approval of request `r`. */
  predicate Approves(step: Step, token: Option<string>, r: nat) {
    step.DoResolve? && step.r == r && step.approved && Authorized(token, step.offered)
  }

  /** The step reported success for request `r` to its caller, or was the timeout or task cancellation that took it. */
  predicate Reports(s: System, step: Step, win: Win)
    requires Enabled(s, step)
  {
    match step
    case DoResolve(r, approved, reason, offered) =>
      && AfterResolve(s.g, s.token, r, approved, reason, offered).1 ==
         Ok(Some(Verdict(win.r, if approved then Approved else Denied, reason)))
      && win.how == ByResolve(approved)
    case DoCancel(r, reason, offered) => AfterCancel(s.g, s.token, r, reason, offered).1 == Ok(true) && win == Win(r, ByCancel)
    case DoCancelAll(reason) => AfterCancelAll(s.g, reason).1 > 0 && win.how == ByShutdown
    case Timeout(r) => win == Win(r, ByTimeout)
    case Interrupt(r) => win == Win(r, ByTask)
    case _ => false
  }

  /** Every completion of a future is reported by the very step that made it, and old ones stay. */
  lemma WinsAreReported(s: System, step: Step)
    requires SystemInv(s) && Enabled(s, step)
    ensures var wins := Apply(s, step).g.wins;
            && s.g.wins <= wins
            && forall k :: |s.g.wins| <= k < |wins| ==> Reports(s, step, wins[k])
  {
    if step.DoCancelAll? {
      CancelFromWins(s.g, s.g.pending, 0, step.reason);
    }
  }

  /** The step tells its caller that it decided request `r`. */
  predicate Succeeds(s: System, step: Step, r: nat, how: Winner)
    requires Enabled(s, step)
  {
    match step
    case DoResolve(q, approved, reason, offered) =>
      && q == r && how == ByResolve(approved)
      && AfterResolve(s.g, s.token, q, approved, reason, offered).1.Ok?
      && AfterResolve(s.g, s.token, q, approved, reason, offered).1.value.Some?
    case DoCancel(q, reason, offered) =>
      q == r && how == ByCancel && AfterCancel(s.g, s.token, q, reason, offered).1 == Ok(true)
    case _ => false
  }

  /**
   A call that reports success is the winner of that request: nobody had won it
   before, and its win is on record, whatever else happens.
   */
  lemma SuccessWins(s: System, step: Step, r: nat, how: Winner)
    requires SystemInv(s) && Enabled(s, step) && Succeeds(s, step, r, how)
    ensures !Won(s.g.wins, r) && Apply(s, step).g.wins == s.g.wins + [Win(r, how)]
  {
    assert IsOpen(s.g, r);
    forall i | 0 <= i < |s.g.wins| ensures s.g.wins[i].r != r { assert Shows(s.g.futures[s.g.wins[i].r], s.g.wins[i].r, s.g.wins[i].how); }
  }

  /** What `cancel_all` returns is the number of requests it won. */
  lemma ShutdownWinsItsCount(s: System, reason: Option<string>)
    requires SystemInv(s)
    ensures var wins := Apply(s, DoCancelAll(reason)).g.wins;
            && s.g.wins <= wins && |wins| == |s.g.wins| + AfterCancelAll(s.g, reason).1
            && forall k :: |s.g.wins| <= k < |wins| ==> wins[k].how == ByShutdown && !Won(s.g.wins, wins[k].r)
  {
    CancelFromMeaning(s.g, s.g.pending, 0, reason);
    CancelFromWins(s.g, s.g.pending, 0, reason);
    var wins := Apply(s, DoCancelAll(reason)).g.wins;
    forall k | |s.g.wins| <= k < |wins| ensures !Won(s.g.wins, wins[k].r) {
      forall i | 0 <= i < |s.g.wins| ensures s.g.wins[i].r != wins[k].r { assert s.g.wins[i] == wins[i]; }
    }
  }

  /** A step that puts an approval on record is the one that approves. */
  lemma NewApproval(s: System, step: Step, r: nat)
    requires SystemInv(s) && Enabled(s, step)
    requires Win(r, ByResolve(true)) in Apply(s, step).g.wins && Win(r, ByResolve(true)) !in s.g.wins
    ensures Approves(step, s.token, r)
  {
    var wins := Apply(s, step).g.wins;
    WinsAreReported(s, step);
    var k :| 0 <= k < |wins| && wins[k] == Win(r, ByResolve(true));
    assert Reports(s, step, wins[k]);
  }

  /** Approved at last means approved by one of the steps, with the token, for this request. */
  lemma {:induction false} ApprovalHasCause(s: System, steps: seq<Step>, s': System, r: nat)
    requires SystemInv(s) && Executes(s, steps, s')
    requires Win(r, ByResolve(true)) in s'.g.wins && Win(r, ByResolve(true)) !in s.g.wins
    ensures s'.token == s.token && exists i :: 0 <= i < |steps| && Approves(steps[i], s.token, r)
    decreases |steps|
  {
    var s1 := Apply(s, steps[0]);
    StepKeepsInv(s, steps[0]);
    if Win(r, ByResolve(true)) in s1.g.wins {
      NewApproval(s, steps[0], r);
      TokenFixed(s, steps, s');
    } else {
      ApprovalHasCause(s1, steps[1..], s', r);
      var i :| 0 <= i < |steps[1..]| && Approves(steps[1..][i], s.token, r);
      assert Approves(steps[i + 1], s.token, r);
    }
  }

  lemma {:induction false} TokenFixed(s: System, steps: seq<Step>, s': System)
    requires Executes(s, steps, s')
    ensures s'.token == s.token
    decreases |steps|
  {
    if steps != [] { TokenFixed(Apply(s, steps[0]), steps[1..], s'); }
  }

  /**
   In every interleaving of requests, resolves, cancels, timeouts, interruptions and
   shutdown, a gated body runs only if this call's own request was approved by an
   accepted `resolve`; every other body ran because `auto_approve` held.
   */
  lemma GateIsSafe(token: Option<string>, emits: bool, steps: seq<Step>, s: System, r: nat)
    requires Executes(Start(token, emits), steps, s)
    requires r < |s.calls| && (s.calls[r].phase.Running? || s.calls[r].phase.Completed?)
    ensures exists i :: 0 <= i < |steps| && Approves(steps[i], token, r)
    ensures !exists i :: 0 <= i < |s.g.wins| && s.g.wins[i].r == r && s.g.wins[i].how != ByResolve(true)
  {
    RunKeepsInv(Start(token, emits), steps, s);
    assert CallOk(s.calls[r], s.g.futures[r], r);
    assert Won(s.g.wins, r);
    var i :| 0 <= i < |s.g.wins| && s.g.wins[i].r == r;
    assert s.g.wins[i] == Win(r, ByResolve(true));
    ApprovalHasCause(Start(token, emits), steps, s, r);
  }

  /** Per request at most one of resolve, cancel, shutdown, timeout and interruption wins. */
  lemma OneWinner(token: Option<string>, emits: bool, steps: seq<Step>, s: System, i: nat, j: nat)
    requires Executes(Start(token, emits), steps, s)
    requires i < |s.g.wins| && j < |s.g.wins| && s.g.wins[i].r == s.g.wins[j].r
    ensures i == j && s.g.wins[i].r < |s.g.futures| && Shows(s.g.futures[s.g.wins[i].r], s.g.wins[i].r, s.g.wins[i].how)
  {
    RunKeepsInv(Start(token, emits), steps, s);
  }

  predicate Waits(phase: Phase) { phase.Announcing? || phase.Awaiting? }

  // ---- when a request leaks ------------------------------------------------

  /** Seen from outside: the call's task was cancelled before its first event emit had returned. */
  ghost predicate LeakedBy(emits: bool, steps: seq<Step>, r: nat) {
    emits && exists i :: 0 <= i < |steps| && steps[i] == Interrupt(r) && Announced(r) !in steps[..i]
  }

  /** What the past says about call `r`. */
  ghost predicate Recalls(emits: bool, past: seq<Step>, calls: seq<Call>, r: nat) {
    if r >= |calls| then Announced(r) !in past && Interrupt(r) !in past
    else match calls[r].phase
         case Announcing => emits && Announced(r) !in past && Interrupt(r) !in past
         case Killed(true) => LeakedBy(emits, past, r)
         case _ => (emits ==> Announced(r) in past) && !LeakedBy(emits, past, r)
  }

  lemma LeakedMore(emits: bool, past: seq<Step>, step: Step, r: nat)
    ensures LeakedBy(emits, past + [step], r) <==>
            LeakedBy(emits, past, r) || (emits && step == Interrupt(r) && Announced(r) !in past)
  {
    var more := past + [step];
    forall i | 0 <= i < |past| ensures more[i] == past[i] && more[..i] == past[..i] { }
    assert more[..|past|] == past && more[|past|] == step;
  }

  lemma NeverInterrupted(emits: bool, past: seq<Step>, r: nat)
    requires Interrupt(r) !in past
    ensures !LeakedBy(emits, past, r)
  {
  }

  /** How a step changes the phase of one call. */
  lemma PhaseChanges(s: System, step: Step, r: nat)
    requires SystemInv(s) && Enabled(s, step)
    ensures Apply(s, step).emits == s.emits && |Apply(s, step).calls| >= |s.calls|
    ensures r < |s.calls| && step == Announced(r) ==> s.calls[r].phase.Announcing? && Apply(s, step).calls[r].phase.Awaiting?
    ensures r < |s.calls| && step == Interrupt(r) ==>
              (Apply(s, step).calls[r].phase == Killed(true) <==> s.calls[r].phase.Announcing?)
              && !Apply(s, step).calls[r].phase.Announcing? && s.calls[r].phase != Killed(true)
    ensures r < |s.calls| && step != Announced(r) && step != Interrupt(r) ==>
              && (Apply(s, step).calls[r].phase.Announcing? <==> s.calls[r].phase.Announcing?)
              && (Apply(s, step).calls[r].phase == Killed(true) <==> s.calls[r].phase == Killed(true))
    ensures |s.calls| <= r < |Apply(s, step).calls| ==>
              Apply(s, step).calls[r].phase == (if s.emits then Announcing else Awaiting) && step.Execute?
    ensures r >= |s.calls| ==> step != Interrupt(r) && step != Announced(r)
  {
  }

  lemma RecallsMore(s: System, past: seq<Step>, step: Step, r: nat)
    requires SystemInv(s) && Enabled(s, step) && Recalls(s.emits, past, s.calls, r)
    ensures Recalls(s.emits, past + [step], Apply(s, step).calls, r)
  {
    PhaseChanges(s, step, r);
    LeakedMore(s.emits, past, step, r);
    if Interrupt(r) !in past { NeverInterrupted(s.emits, past, r); }
    assert forall x :: x in past + [step] <==> x in past || x == step;
  }

  lemma {:induction false} RunRecalls(s: System, past: seq<Step>, steps: seq<Step>, s': System, r: nat)
    requires SystemInv(s) && Executes(s, steps, s') && Recalls(s.emits, past, s.calls, r)
    ensures s'.emits == s.emits && Recalls(s.emits, past + steps, s'.calls, r)
    decreases |steps|
  {
    if steps == [] {
      assert past + steps == past;
    } else {
      StepKeepsInv(s, steps[0]);
      RecallsMore(s, past, steps[0], r);
      PhaseChanges(s, steps[0], r);
      RunRecalls(Apply(s, steps[0]), past + [steps[0]], steps[1..], s', r);
      assert past + [steps[0]] + steps[1..] == past + steps;
    }
  }

  /** Leaked means interrupted before the first emit returned. */
  lemma LeaksExactly(token: Option<string>, emits: bool, steps: seq<Step>, s: System, r: nat)
    requires Executes(Start(token, emits), steps, s)
    ensures r < |s.calls| && s.calls[r].phase == Killed(true) <==> LeakedBy(emits, steps, r)
  {
    RunRecalls(Start(token, emits), [], steps, s, r);
    assert [] + steps == steps;
    if r >= |s.calls| || s.calls[r].phase.Announcing? {
      NeverInterrupted(emits, steps, r);
    }
  }

  /**
   The pending requests, and the ones in the state file, are exactly those of calls
   still waiting if and only if the run cancelled no task before the first event emit
   of its request had returned.
   */
  lemma PendingMeansWaiting(token: Option<string>, emits: bool, steps: seq<Step>, s: System)
    requires Executes(Start(token, emits), steps, s)
    ensures s.g.snapshot == s.g.pending && |s.calls| == |s.g.futures|
    ensures (forall r: nat :: r in s.g.pending <==> r < |s.calls| && Waits(s.calls[r].phase)) <==>
            (forall r: nat :: !LeakedBy(emits, steps, r))
  {
    RunKeepsInv(Start(token, emits), steps, s);
    forall r: nat ensures r < |s.calls| && s.calls[r].phase == Killed(true) <==> LeakedBy(emits, steps, r) {
      LeaksExactly(token, emits, steps, s, r);
    }
    if r: nat :| LeakedBy(emits, steps, r) {
      assert r in s.g.pending && !Waits(s.calls[r].phase);
    }
  }

  /** A leaked request stays listed through every later run. */
  lemma {:induction false} LeakIsForever(s: System, steps: seq<Step>, s': System, r: nat)
    requires SystemInv(s) && Executes(s, steps, s')
    requires r < |s.calls| && s.calls[r].phase == Killed(true)
    ensures r in s'.g.pending && r in s'.g.snapshot
    decreases |steps|
  {
    if steps == [] {
      assert Listed(s.calls[r].phase);
    } else {
      StepKeepsInv(s, steps[0]);
      assert Apply(s, steps[0]).calls[r] == s.calls[r];
      LeakIsForever(Apply(s, steps[0]), steps[1..], s', r);
    }
  }

  /** The leak needs nothing but an emitter: announce a request, cancel its task. */
  lemma LeakExample(token: Option<string>)
    ensures exists s :: Executes(Start(token, true), [Execute(None, false), Interrupt(0)], s) && s.calls[0].phase == Killed(true)
  {
    var s0 := Start(token, true);
    var s1 := Apply(s0, Execute(None, false));
    var s2 := Apply(s1, Interrupt(0));
    assert Executes(s2, [], s2);
    assert [Interrupt(0)][1..] == [];
    assert Executes(s1, [Interrupt(0)], s2);
    assert [Execute(None, false), Interrupt(0)][1..] == [Interrupt(0)];
    assert Executes(s0, [Execute(None, false), Interrupt(0)], s2);
  }

  // ---- the manager object --------------------------------------------------

  /** The first occurrence is the one that goes. */
  lemma {:induction false} WithoutAt(s: seq<nat>, r: nat, i: nat)
    requires i <= |s| && (forall j :: 0 <= j < i ==> s[j] != r) && (i < |s| ==> s[i] == r)
    ensures Without(s, r) == if i < |s| then s[..i] + s[i + 1..] else s
  {
    if i > 0 {
      WithoutAt(s[1..], r, i - 1);
      if i < |s| { assert [s[0]] + (s[1..][..i - 1] + s[1..][i..]) == s[..i] + s[i + 1..]; }
    }
  }

  class ApprovalManager {
    const token: Option<string>
    var futures: seq<Future>
    var pending: seq<nat>
    var snapshot: seq<nat>
    ghost var wins: seq<Win>

    ghost function View(): Registry
      reads this
    {
      Registry(futures, pending, snapshot, wins)
    }

    constructor (approverToken: Option<string>)
      ensures View() == Init() && token == approverToken
    {
      token := approverToken;
      futures, pending, snapshot, wins := [], [], [], [];
    }

    method Persist()
      modifies this`snapshot
      ensures snapshot == pending
    {
      snapshot := pending;
    }

    /** The start of `request`, up to its first await. */
    method Begin() returns (r: nat)
      modifies this
      ensures View() == Register(old(View())) && r == |old(futures)|
    {
      r := |futures|;
      futures := futures + [Open];
      pending := pending + [r];
      Persist();
    }

    /** The `finally` of `request`, up to its await. */
    method End(r: nat)
      modifies this
      ensures View() == Unregister(old(View()), r)
    {
      var i := 0;
      while i < |pending| && pending[i] != r
        invariant i <= |pending|
        invariant forall j :: 0 <= j < i ==> pending[j] != r
      {
        i := i + 1;
      }
      WithoutAt(pending, r, i);
      if i < |pending| {
        pending := pending[..i] + pending[i + 1..];
      }
      Persist();
    }

    method Resolve(r: nat, approved: bool, reason: Option<string>, offered: Option<string>)
      returns (res: Result<Option<Verdict>, string>)
      modifies this`futures, this`wins
      ensures (View(), res) == AfterResolve(old(View()), token, r, approved, reason, offered)
    {
      if !(token.None? || offered == token) {
        return Err("invalid or missing approver token");
      }
      if r !in pending {
        return Ok(None);
      }
      if !(r < |futures| && futures[r] == Open) {
        return Ok(None);
      }
      var verdict := Verdict(r, if approved then Approved else Denied, reason);
      futures := futures[r := Set(verdict)];
      wins := wins + [Win(r, ByResolve(approved))];
      res := Ok(Some(verdict));
    }

    method Cancel(r: nat, reason: Option<string>, offered: Option<string>) returns (res: Result<bool, string>)
      modifies this`futures, this`wins
      ensures (View(), res) == AfterCancel(old(View()), token, r, reason, offered)
    {
      if !(token.None? || offered == token) {
        return Err("invalid or missing approver token");
      }
      if r !in pending {
        return Ok(false);
      }
      if !(r < |futures| && futures[r] == Open) {
        return Ok(false);
      }
      futures := futures[r := Set(Verdict(r, Cancelled, reason))];
      wins := wins + [Win(r, ByCancel)];
      res := Ok(true);
    }

    method CancelAll(reason: Option<string>) returns (count: nat)
      modifies this`futures, this`wins
      ensures (View(), count) == AfterCancelAll(old(View()), reason)
    {
      count := 0;
      var i := 0;
      while i < |pending|
        invariant i <= |pending|
        invariant AfterCancelAll(old(View()), reason) ==
                  (var (g, n) := CancelFrom(View(), pending, i, reason); (g, count + n))
      {
        var r := pending[i];
        if r < |futures| && futures[r] == Open {
          futures := futures[r := Set(Verdict(r, Cancelled, reason))];
          wins := wins + [Win(r, ByShutdown)];
          count := count + 1;
        }
        i := i + 1;
      }
    }
  }
}
