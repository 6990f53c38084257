/**
 The reconnect watcher of the channel router (oxenclaw/channels/router.py): failed
 channels are probed again on a backoff ladder until they recover, fail for lack of
 credentials, or run out of attempts.
 */
module ReconnectWatcher {
  /** A channel id and an account id. */
  type Key = (string, string)

  const BACKOFF: seq<nat> := [30, 60, 120, 240, 300]
  const MAX_ATTEMPTS := 20

  // ---- credential failures -------------------------------------------------

  function LowerChar(c: char): char { if 'A' <= c <= 'Z' then c - 'A' + 'a' else c }

  function Lower(s: string): string { if s == "" then "" else [LowerChar(s[0])] + Lower(s[1..]) }

  /** `token in text` */
  predicate Contains(text: string, token: string) {
    token <= text || (text != "" && Contains(text[1..], token))
  }

  predicate IsAuthError(message: string) {
    var text := Lower(message);
    Contains(text, "401") || Contains(text, "unauthor") || Contains(text, "forbidden") || Contains(text, "403")
  }

  // ---- the failed channels -------------------------------------------------

  /** `FailedChannelState`; times are seconds. */
  datatype Failed = Failed(attempts: nat, nextRetry: real, lastError: string, authError: bool)

  const FRESH := Failed(0, 0.0, "", false)

  /** The wait after the `n`th failure. */
  function Backoff(n: nat): nat
    requires n >= 1
  {
    BACKOFF[if n - 1 < |BACKOFF| - 1 then n - 1 else |BACKOFF| - 1]
  }

  function MarkFailed(failed: map<Key, Failed>, key: Key, error: string, now: real): map<Key, Failed> {
    var st := if key in failed then failed[key] else FRESH;
    var n := st.attempts + 1;
    failed[key := if IsAuthError(error) then Failed(n, 0.0, error, true)
                  else Failed(n, now + Backoff(n) as real, error, st.authError)]
  }

  predicate Due(st: Failed, now: real) { !st.authError && st.attempts < MAX_ATTEMPTS && st.nextRetry <= now }

  // ---- the watcher ---------------------------------------------------------

  /** What a probe gave; an exception counts as a failure with its text. */
  datatype ProbeResult = Up | Down(error: string)

  /** When a channel's current run of failures began, and how often it was probed since. */
  datatype Ledger = Ledger(first: real, probes: nat)

  /**
   `due` are the channels of the current pass still to be probed; `ledger` follows
   `failed` for the specification.
   */
  datatype Watcher = Watcher(clock: real, failed: map<Key, Failed>, due: seq<Key>, ledger: map<Key, Ledger>)

  /** The watcher is the only source of failures of a channel that has already failed. */
  datatype Step =
    | Wait(seconds: real)
    | FirstFailure(key: Key, error: string)
    | Pass(order: seq<Key>)
    | Probe(result: ProbeResult)

  ghost predicate Enabled(w: Watcher, step: Step) {
    match step
    case Wait(seconds) => seconds >= 0.0
    case FirstFailure(key, _) => key !in w.failed
    case Pass(order) => w.due == [] && IsDuePass(w.failed, w.clock, order)
    case Probe(_) => w.due != []
  }

  /** The pass visits each due channel once. */
  ghost predicate IsDuePass(failed: map<Key, Failed>, now: real, order: seq<Key>) {
    && (forall key :: key in order <==> key in failed && Due(failed[key], now))
    && (forall i, j :: 0 <= i < j < |order| ==> order[i] != order[j])
  }

  function Note(w: Watcher, key: Key, error: string): Watcher {
    w.(failed := MarkFailed(w.failed, key, error, w.clock),
       ledger := if key in w.ledger then w.ledger[key := w.ledger[key].(probes := w.ledger[key].probes + 1)]
                 else w.ledger[key := Ledger(w.clock, 0)])
  }

  function ApplyProbe(w: Watcher, result: ProbeResult): Watcher
    requires w.due != []
  {
    var key := w.due[0];
    var w1 := w.(due := w.due[1..]);
    match result
    case Up => w1.(failed := w.failed - {key}, ledger := w.ledger - {key})
    case Down(error) => Note(w1, key, error)
  }

  function Apply(w: Watcher, step: Step): Watcher
    requires step.Probe? ==> w.due != []
  {
    match step
    case Wait(seconds) => w.(clock := w.clock + seconds)
    case FirstFailure(key, error) => Note(w, key, error)
    case Pass(order) => w.(due := order)
    case Probe(result) => ApplyProbe(w, result)
  }

  function Start(now: real): Watcher { Watcher(now, map[], [], map[]) }

  ghost predicate Executes(w: Watcher, steps: seq<Step>, w': Watcher)
    decreases |steps|
  {
    if steps == [] then w == w' else Enabled(w, steps[0]) && Executes(Apply(w, steps[0]), steps[1..], w')
  }

  /** The step probes the channel. */
  predicate Probes(w: Watcher, step: Step, key: Key) { step.Probe? && w.due != [] && w.due[0] == key }

  // ---- the ladder ----------------------------------------------------------

  /** The least time between the first failure and the end of the wait after the `n`th. */
  function Ladder(n: nat): nat { if n == 0 then 0 else Ladder(n - 1) + Backoff(n) }

  lemma LadderValues()
    ensures Ladder(1) == 30 && Ladder(2) == 90 && Ladder(3) == 210 && Ladder(4) == 450 && Ladder(5) == 750
  {
    assert Ladder(1) == Ladder(0) + Backoff(1);
    assert Ladder(2) == Ladder(1) + Backoff(2);
    assert Ladder(3) == Ladder(2) + Backoff(3);
    assert Ladder(4) == Ladder(3) + Backoff(4);
  }

  lemma {:induction false} LadderGrows(n: nat)
    requires n >= 4
    ensures Ladder(n) == 450 + 300 * (n - 4)
  {
    if n == 4 {
      LadderValues();
    } else {
      LadderGrows(n - 1);
    }
  }

  // ---- the invariant -------------------------------------------------------

  /** One failed channel, its ledger, and the pass under way. */
  ghost predicate ChannelOk(st: Failed, l: Ledger, clock: real, queued: bool) {
    && st.attempts == l.probes + 1
    && 1 <= st.attempts <= MAX_ATTEMPTS
    && l.first + Ladder(st.attempts - 1) as real <= clock
    && (!st.authError ==> l.first + Ladder(st.attempts) as real <= st.nextRetry)
    && (queued ==> Due(st, clock))
  }

  ghost predicate Inv(w: Watcher) {
    && w.failed.Keys == w.ledger.Keys
    && (forall i :: 0 <= i < |w.due| ==> w.due[i] in w.failed)
    && (forall i, j :: 0 <= i < j < |w.due| ==> w.due[i] != w.due[j])
    && (forall key :: key in w.failed ==> ChannelOk(w.failed[key], w.ledger[key], w.clock, key in w.due))
  }

  lemma ProbeFails(st: Failed, l: Ledger, clock: real, error: string, failed: map<Key, Failed>, key: Key)
    requires ChannelOk(st, l, clock, true) && key in failed && failed[key] == st
    ensures ChannelOk(MarkFailed(failed, key, error, clock)[key], l.(probes := l.probes + 1), clock, false)
  {
  }

  lemma ProbeKeepsInv(w: Watcher, result: ProbeResult)
    requires Inv(w) && w.due != []
    ensures Inv(ApplyProbe(w, result))
  {
    var key, rest := w.due[0], w.due[1..];
    assert w.due == [key] + rest && key !in rest;
    if result.Down? {
      ProbeFails(w.failed[key], w.ledger[key], w.clock, result.error, w.failed, key);
    }
  }

  lemma FirstKeepsInv(w: Watcher, key: Key, error: string)
    requires Inv(w) && key !in w.failed
    ensures Inv(Note(w, key, error))
  {
    LadderValues();
    assert key !in w.due;
  }

  lemma StepKeepsInv(w: Watcher, step: Step)
    requires Inv(w) && Enabled(w, step)
    ensures Inv(Apply(w, step))
  {
    match step
    case FirstFailure(key, error) => FirstKeepsInv(w, key, error);
    case Probe(result) => ProbeKeepsInv(w, result);
    case Wait(seconds) =>
    case Pass(order) =>
      forall i | 0 <= i < |order| ensures order[i] in w.failed { assert order[i] in order; }
  }

  lemma {:induction false} RunKeepsInv(w: Watcher, steps: seq<Step>, w': Watcher)
    requires Inv(w) && Executes(w, steps, w')
    ensures Inv(w') && w.clock <= w'.clock
    decreases |steps|
  {
    if steps != [] {
      StepKeepsInv(w, steps[0]);
      RunKeepsInv(Apply(w, steps[0]), steps[1..], w');
    }
  }

  // ---- theorems ------------------------------------------------------------

  /**
   Since its first failure a channel that has not recovered was probed at most 19
   times, one less than its attempts; its `n`th attempt came no earlier than the
   ladder allows, so attempt 20 no earlier than 4950 seconds after the first failure.
   */
  lemma ProbesAreBounded(now: real, steps: seq<Step>, w: Watcher, key: Key)
    requires Executes(Start(now), steps, w) && key in w.failed
    ensures key in w.ledger && w.ledger[key].probes <= 19 && w.failed[key].attempts == w.ledger[key].probes + 1
    ensures w.ledger[key].first + Ladder(w.failed[key].attempts - 1) as real <= w.clock
    ensures w.failed[key].attempts == 20 ==> w.ledger[key].first + 4950.0 <= w.clock
  {
    RunKeepsInv(Start(now), steps, w);
    LadderGrows(19);
  }

  /** Out of attempts, or refused for lack of credentials. */
  predicate GivenUp(st: Failed) { st.authError || st.attempts >= MAX_ATTEMPTS }

  /** No step of the run probes the channel. */
  ghost predicate NeverProbed(w: Watcher, steps: seq<Step>, key: Key)
    decreases |steps|
  {
    steps == [] ||
    (Enabled(w, steps[0]) && !Probes(w, steps[0], key) && NeverProbed(Apply(w, steps[0]), steps[1..], key))
  }

  /**
   A channel that was given up is never probed again, at any later step of any run,
   and stays in the failed list exactly as it is.
   */
  lemma {:induction false} GivenUpForGood(w: Watcher, steps: seq<Step>, w': Watcher, key: Key)
    requires Inv(w) && Executes(w, steps, w')
    requires key in w.failed && GivenUp(w.failed[key])
    ensures key in w'.failed && w'.failed[key] == w.failed[key]
    ensures NeverProbed(w, steps, key)
    decreases |steps|
  {
    assert key !in w.due;
    if steps != [] {
      StepKeepsInv(w, steps[0]);
      GivenUpForGood(Apply(w, steps[0]), steps[1..], w', key);
    }
  }

  /** A probe never comes before the wait it was scheduled for is over. */
  lemma ProbedOnlyWhenDue(now: real, steps: seq<Step>, w: Watcher, result: ProbeResult, key: Key)
    requires Executes(Start(now), steps, w) && Probes(w, Probe(result), key)
    ensures key in w.failed && Due(w.failed[key], w.clock)
  {
    RunKeepsInv(Start(now), steps, w);
    assert w.due[0] in w.due;
  }

  // ---- a pass as a loop ----------------------------------------------------

  function ProbeOne(failed: map<Key, Failed>, key: Key, result: ProbeResult, time: real): map<Key, Failed> {
    match result
    case Up => failed - {key}
    case Down(error) => MarkFailed(failed, key, error, time)
  }

  /** The failed list after probing `due` in order; the `i`th probe ends at `times[i]`. */
  function ProbeAll(failed: map<Key, Failed>, due: seq<Key>, results: seq<ProbeResult>, times: seq<real>): map<Key, Failed>
    requires |due| == |results| == |times|
    decreases |due|
  {
    if due == [] then failed
    else ProbeAll(ProbeOne(failed, due[0], results[0], times[0]), due[1..], results[1..], times[1..])
  }

  /** The steps of a pass whose `i`th probe takes `waits[i]` seconds. */
  function PassSteps(waits: seq<real>, results: seq<ProbeResult>): seq<Step>
    requires |waits| == |results|
  {
    if waits == [] then [] else [Wait(waits[0]), Probe(results[0])] + PassSteps(waits[1..], results[1..])
  }

  function Times(clock: real, waits: seq<real>): (times: seq<real>)
    ensures |times| == |waits|
    decreases |waits|
  {
    if waits == [] then [] else [clock + waits[0]] + Times(clock + waits[0], waits[1..])
  }

  /** The machine can always finish its pass, and the probes of the pass do what the loop over `due` does. */
  lemma {:induction false} PassIsLoop(w: Watcher, waits: seq<real>, results: seq<ProbeResult>) returns (w': Watcher)
    requires |w.due| == |waits| == |results| && forall i :: 0 <= i < |waits| ==> waits[i] >= 0.0
    ensures Executes(w, PassSteps(waits, results), w') && w'.due == []
    ensures w'.failed == ProbeAll(w.failed, w.due, results, Times(w.clock, waits))
    decreases |waits|
  {
    if waits == [] {
      w' := w;
    } else {
      var steps := PassSteps(waits, results);
      var w1 := Apply(w, Wait(waits[0]));
      var w2 := Apply(w1, Probe(results[0]));
      w' := PassIsLoop(w2, waits[1..], results[1..]);
      assert steps[1..][0] == Probe(results[0]) && steps[1..][1..] == PassSteps(waits[1..], results[1..]);
      assert Executes(w1, steps[1..], w');
    }
  }

  // ---- the router object ---------------------------------------------------

  class ChannelRouter {
    var failed: map<Key, Failed>

    constructor ()
      ensures failed == map[]
    {
      failed := map[];
    }

    method RecordFailure(key: Key, error: string, now: real) returns (st: Failed)
      modifies this
      ensures failed == MarkFailed(old(failed), key, error, now) && st == failed[key]
    {
      st := if key in failed then failed[key] else FRESH;
      st := st.(attempts := st.attempts + 1, lastError := error);
      if IsAuthError(error) {
        st := st.(authError := true, nextRetry := 0.0);
      } else {
        var idx := if st.attempts - 1 < |BACKOFF| - 1 then st.attempts - 1 else |BACKOFF| - 1;
        st := st.(nextRetry := now + BACKOFF[idx] as real);
      }
      failed := failed[key := st];
    }

    method RecordRecovery(key: Key)
      modifies this
      ensures failed == old(failed) - {key}
    {
      failed := failed - {key};
    }

    /** The first loop of a pass: what is due now, each channel once. */
    method CollectDue(now: real) returns (due: seq<Key>)
      ensures IsDuePass(failed, now, due)
    {
      due := [];
      var keys := failed.Keys;
      while keys != {}
        invariant keys <= failed.Keys
        invariant forall key :: key in due <==> key in failed.Keys - keys && Due(failed[key], now)
        invariant forall i, j :: 0 <= i < j < |due| ==> due[i] != due[j]
        decreases keys
      {
        var key :| key in keys;
        keys := keys - {key};
        var st := failed[key];
        if st.authError {
          continue;
        }
        if st.attempts >= MAX_ATTEMPTS {
          continue;
        }
        if st.nextRetry <= now {
          due := due + [key];
        }
      }
    }

    /** The second loop: `results[i]` and `times[i]` are the `i`th probe's outcome and when it came. */
    method ProbeDue(due: seq<Key>, results: seq<ProbeResult>, times: seq<real>)
      requires |due| == |results| == |times|
      modifies this
      ensures failed == ProbeAll(old(failed), due, results, times)
    {
      for i := 0 to |due|
        invariant ProbeAll(failed, due[i..], results[i..], times[i..]) == ProbeAll(old(failed), due, results, times)
      {
        if results[i].Up? {
          RecordRecovery(due[i]);
        } else {
          var _ := RecordFailure(due[i], results[i].error, times[i]);
        }
      }
    }
  }
}
