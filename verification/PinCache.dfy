/**
 The browser's host pin cache (oxenclaw/browser/pinning.py): a least-recently-used
 dictionary of validated address sets.  `resolve_or_pin` is two lock sections with
 the name resolution between them, so threads interleave inside one call.
 */
module PinCache {
  import opened Wrappers

  /** One entry of the ordered dictionary. */
  datatype Pin = Pin(host: string, ips: set<string>, at: real)

  /** `policy(host, ip)` says whether `assert_ip_allowed` lets the address pass. */
  datatype Config = Config(ttl: real, capacity: nat, policy: (string, string) -> bool)

  datatype Failure = ResolutionFailed | NoAddresses | AllBlocked | RebindBlocked

  /** What `getaddrinfo` gave: the socket addresses, each a tuple that may be empty. */
  datatype Dns = GaiError | Infos(addrs: seq<seq<string>>)

  // ---- the ordered dictionary ----------------------------------------------

  function Find(pins: seq<Pin>, host: string): Option<Pin> {
    if pins == [] then None else if pins[0].host == host then Some(pins[0]) else Find(pins[1..], host)
  }

  function Drop(pins: seq<Pin>, host: string): seq<Pin> {
    if pins == [] then [] else if pins[0].host == host then Drop(pins[1..], host) else [pins[0]] + Drop(pins[1..], host)
  }

  /** Assignment followed by `move_to_end`. */
  function PutLast(pins: seq<Pin>, pin: Pin): seq<Pin> { Drop(pins, pin.host) + [pin] }

  /** `while len > capacity: popitem(last=False)` */
  function Evict(pins: seq<Pin>, capacity: nat): seq<Pin> {
    if |pins| > capacity then Evict(pins[1..], capacity) else pins
  }

  ghost predicate Distinct(pins: seq<Pin>) { forall i, j :: 0 <= i < j < |pins| ==> pins[i].host != pins[j].host }

  lemma {:induction false} FindMeaning(pins: seq<Pin>, host: string)
    ensures Find(pins, host).Some? ==> Find(pins, host).value in pins && Find(pins, host).value.host == host
    ensures Find(pins, host).None? ==> forall i :: 0 <= i < |pins| ==> pins[i].host != host
  {
    if pins != [] && pins[0].host != host {
      FindMeaning(pins[1..], host);
      forall i | 0 <= i < |pins| && Find(pins, host).None? ensures pins[i].host != host {
        assert i > 0 ==> pins[i] == pins[1..][i - 1];
      }
    }
  }

  lemma {:induction false} FindAt(pins: seq<Pin>, i: nat)
    requires Distinct(pins) && i < |pins|
    ensures Find(pins, pins[i].host) == Some(pins[i])
  {
    if i > 0 {
      assert pins[0].host != pins[i].host;
      FindAt(pins[1..], i - 1);
    }
  }

  lemma {:induction false} FindAppended(pins: seq<Pin>, pin: Pin, host: string)
    ensures Find(pins + [pin], host) ==
            if Find(pins, host).Some? then Find(pins, host) else if pin.host == host then Some(pin) else None
  {
    if pins == [] {
      assert pins + [pin] == [pin];
    } else {
      FindAppended(pins[1..], pin, host);
      assert (pins + [pin])[1..] == pins[1..] + [pin];
    }
  }

  lemma {:induction false} FindDropped(pins: seq<Pin>, gone: string, host: string)
    ensures Find(Drop(pins, gone), host) == if host == gone then None else Find(pins, host)
  {
    if pins != [] {
      FindDropped(pins[1..], gone, host);
      if pins[0].host != gone {
        assert Drop(pins, gone)[1..] == Drop(pins[1..], gone);
      }
    }
  }

  lemma {:induction false} DropMeaning(pins: seq<Pin>, gone: string)
    ensures forall p :: p in Drop(pins, gone) <==> p in pins && p.host != gone
    ensures |Drop(pins, gone)| <= |pins|
    ensures Find(pins, gone).Some? ==> |Drop(pins, gone)| < |pins|
    ensures Find(pins, gone).None? ==> Drop(pins, gone) == pins
  {
    if pins != [] {
      assert pins == [pins[0]] + pins[1..];
      DropMeaning(pins[1..], gone);
    }
  }

  // ---- recency -------------------------------------------------------------

  /** Hosts are ordered by the last time they were touched. */
  ghost predicate ByRecency(pins: seq<Pin>, touched: map<string, nat>) {
    && (forall i :: 0 <= i < |pins| ==> pins[i].host in touched)
    && forall i, j :: 0 <= i < j < |pins| ==> touched[pins[i].host] < touched[pins[j].host]
  }

  lemma RecencyTail(pins: seq<Pin>, touched: map<string, nat>)
    requires ByRecency(pins, touched) && pins != []
    ensures ByRecency(pins[1..], touched)
    ensures forall p :: p in pins[1..] ==> p.host in touched && touched[pins[0].host] < touched[p.host]
  {
  }

  lemma RecencyCons(pin: Pin, rest: seq<Pin>, touched: map<string, nat>)
    requires ByRecency(rest, touched) && pin.host in touched
    requires forall p :: p in rest ==> p.host in touched && touched[pin.host] < touched[p.host]
    ensures ByRecency([pin] + rest, touched)
  {
    var all := [pin] + rest;
    assert forall i :: 1 <= i < |all| ==> all[i] == rest[i - 1] && all[i] in rest;
  }

  lemma {:induction false} DropKeepsRecency(pins: seq<Pin>, gone: string, touched: map<string, nat>)
    requires ByRecency(pins, touched)
    ensures ByRecency(Drop(pins, gone), touched)
  {
    if pins != [] {
      RecencyTail(pins, touched);
      DropKeepsRecency(pins[1..], gone, touched);
      if pins[0].host != gone {
        DropMeaning(pins[1..], gone);
        RecencyCons(pins[0], Drop(pins[1..], gone), touched);
      }
    }
  }

  lemma RecencySnoc(rest: seq<Pin>, pin: Pin, touched: map<string, nat>, clock: nat)
    requires ByRecency(rest, touched) && forall i :: 0 <= i < |rest| ==> rest[i].host != pin.host && touched[rest[i].host] < clock
    ensures ByRecency(rest + [pin], touched[pin.host := clock])
  {
    var all, later := rest + [pin], touched[pin.host := clock];
    forall i | 0 <= i < |all| ensures all[i].host in later && (i < |rest| ==> later[all[i].host] == touched[rest[i].host]) {
      assert i < |rest| ==> all[i] == rest[i];
    }
  }

  /** Touching a host last makes it the most recent one. */
  lemma PutLastKeepsRecency(pins: seq<Pin>, pin: Pin, touched: map<string, nat>, clock: nat)
    requires ByRecency(pins, touched) && forall h :: h in touched ==> touched[h] < clock
    ensures ByRecency(PutLast(pins, pin), touched[pin.host := clock])
  {
    DropKeepsRecency(pins, pin.host, touched);
    DropMeaning(pins, pin.host);
    var rest := Drop(pins, pin.host);
    forall i | 0 <= i < |rest| ensures rest[i].host != pin.host { assert rest[i] in rest; }
    RecencySnoc(rest, pin, touched, clock);
  }

  lemma RecencyIsDistinct(pins: seq<Pin>, touched: map<string, nat>)
    requires ByRecency(pins, touched)
    ensures Distinct(pins)
  {
  }

  // ---- the two lock sections -----------------------------------------------

  predicate Fresh(ttl: real, pin: Pin, now: real) { now - pin.at < ttl }

  /** The first section: the cached set, unless missing or expired. */
  function Lookup(ttl: real, pins: seq<Pin>, host: string, now: real): (seq<Pin>, Option<set<string>>) {
    var cached := Find(pins, host);
    if cached.Some? && Fresh(ttl, cached.value, now) then (PutLast(pins, cached.value), Some(cached.value.ips))
    else (pins, None)
  }

  function Addresses(addrs: seq<seq<string>>): set<string> {
    set i | 0 <= i < |addrs| && addrs[i] != [] :: addrs[i][0]
  }

  function Allowed(policy: (string, string) -> bool, host: string, ips: set<string>): set<string> {
    set ip | ip in ips && policy(host, ip)
  }

  /** The unlocked part: resolve, then strip what the policy blocks. */
  function Resolved(policy: (string, string) -> bool, host: string, dns: Dns): Result<set<string>, Failure> {
    if dns.GaiError? then Err(ResolutionFailed)
    else if Addresses(dns.addrs) == {} then Err(NoAddresses)
    else if Allowed(policy, host, Addresses(dns.addrs)) == {} then Err(AllBlocked)
    else Ok(Allowed(policy, host, Addresses(dns.addrs)))
  }

  /** The second section: merge with an overlapping pin, refuse a disjoint one, or insert and evict. */
  function Commit(
    capacity: nat, pins: seq<Pin>, host: string, ips: set<string>, now: real
  ): (seq<Pin>, Result<set<string>, Failure>) {
    match Find(pins, host)
    case Some(existing) =>
      if ips !! existing.ips then (pins, Err(RebindBlocked))
      else (PutLast(pins, Pin(host, existing.ips + ips, now)), Ok(existing.ips + ips))
    case None => (Evict(PutLast(pins, Pin(host, ips, now)), capacity), Ok(ips))
  }

  /** The whole call when the resolution succeeds or fails as `dns` says and nobody interferes. */
  function CommitResolved(
    c: Config, pins: seq<Pin>, host: string, dns: Dns, now: real
  ): (seq<Pin>, Result<set<string>, Failure>) {
    match Resolved(c.policy, host, dns)
    case Err(why) => (pins, Err(why))
    case Ok(ips) => Commit(c.capacity, pins, host, ips, now)
  }

  function Forget(pins: seq<Pin>, host: Option<string>): seq<Pin> {
    if host.None? then [] else Drop(pins, host.value)
  }

  // ---- threads -------------------------------------------------------------

  datatype Thread =
    | Resolving(host: string, now: real)
    | Returned(host: string, ips: set<string>)
    | Raised(host: string, why: Failure)

  /**
   `touched` remembers when each host was last hit, merged or inserted; `clock`
   counts those touches.
   */
  datatype System = System(pins: seq<Pin>, touched: map<string, nat>, clock: nat, threads: seq<Thread>)

  datatype Step =
    | Enter(host: string, now: real)
    | Finish(t: nat, dns: Dns)
    | Invalidate(gone: Option<string>)

  predicate Enabled(s: System, step: Step) {
    step.Finish? ==> step.t < |s.threads| && s.threads[step.t].Resolving?
  }

  function Touch(s: System, host: string): System {
    s.(touched := s.touched[host := s.clock], clock := s.clock + 1)
  }

  function Apply(c: Config, s: System, step: Step): System
    requires Enabled(s, step)
  {
    match step
    case Enter(host, now) =>
      var (pins, hit) := Lookup(c.ttl, s.pins, host, now);
      if hit.Some? then Touch(s.(pins := pins, threads := s.threads + [Returned(host, hit.value)]), host)
      else s.(threads := s.threads + [Resolving(host, now)])
    case Finish(t, dns) =>
      var host := s.threads[t].host;
      var (pins, res) := CommitResolved(c, s.pins, host, dns, s.threads[t].now);
      if res.Ok? then Touch(s.(pins := pins, threads := s.threads[t := Returned(host, res.value)]), host)
      else s.(threads := s.threads[t := Raised(host, res.error)])
    case Invalidate(host) => s.(pins := Forget(s.pins, host))
  }

  function Init(): System { System([], map[], 0, []) }

  ghost predicate Executes(c: Config, s: System, steps: seq<Step>, s': System)
    decreases |steps|
  {
    if steps == [] then s == s' else Enabled(s, steps[0]) && Executes(c, Apply(c, s, steps[0]), steps[1..], s')
  }

  // ---- the invariant -------------------------------------------------------

  /** A usable pin: non-empty, and every address passes the policy for its host. */
  ghost predicate Usable(c: Config, host: string, ips: set<string>) {
    ips != {} && forall ip :: ip in ips ==> c.policy(host, ip)
  }

  ghost predicate AllUsable(c: Config, pins: seq<Pin>) {
    forall i :: 0 <= i < |pins| ==> Usable(c, pins[i].host, pins[i].ips)
  }

  ghost predicate Inv(c: Config, s: System) {
    && c.capacity >= 1 && |s.pins| <= c.capacity
    && AllUsable(c, s.pins)
    && ByRecency(s.pins, s.touched)
    && (forall h :: h in s.touched ==> s.touched[h] < s.clock)
    && (forall t :: 0 <= t < |s.threads| && s.threads[t].Returned? ==> Usable(c, s.threads[t].host, s.threads[t].ips))
  }

  lemma UsableIn(c: Config, pins: seq<Pin>, host: string)
    requires AllUsable(c, pins)
    ensures Find(pins, host).Some? ==> Usable(c, host, Find(pins, host).value.ips)
  {
    FindMeaning(pins, host);
    if Find(pins, host).Some? {
      var i :| 0 <= i < |pins| && pins[i] == Find(pins, host).value;
    }
  }

  lemma PutLastUsable(c: Config, pins: seq<Pin>, pin: Pin)
    requires AllUsable(c, pins) && Usable(c, pin.host, pin.ips)
    ensures AllUsable(c, PutLast(pins, pin))
  {
    DropMeaning(pins, pin.host);
    var out := PutLast(pins, pin);
    forall i | 0 <= i < |out| ensures Usable(c, out[i].host, out[i].ips) {
      if i < |out| - 1 {
        assert out[i] in Drop(pins, pin.host);
        var j :| 0 <= j < |pins| && pins[j] == out[i];
      }
    }
  }

  /** At most one pin is evicted when the cache was within its capacity. */
  lemma EvictsOne(pins: seq<Pin>, capacity: nat)
    requires |pins| <= capacity + 1
    ensures Evict(pins, capacity) == if |pins| == capacity + 1 then pins[1..] else pins
  {
  }

  lemma CommitKeepsInv(c: Config, s: System, host: string, ips: set<string>, now: real)
    requires Inv(c, s) && Usable(c, host, ips)
    ensures var (pins, res) := Commit(c.capacity, s.pins, host, ips, now);
            && |pins| <= c.capacity && AllUsable(c, pins)
            && (res.Ok? ==> ByRecency(pins, s.touched[host := s.clock]) && Usable(c, host, res.value))
            && (res.Err? ==> pins == s.pins)
  {
    UsableIn(c, s.pins, host);
    DropMeaning(s.pins, host);
    var prior := Find(s.pins, host);
    var pin := Pin(host, if prior.Some? then prior.value.ips + ips else ips, now);
    if prior.None? || !(ips !! prior.value.ips) {
      PutLastUsable(c, s.pins, pin);
      PutLastKeepsRecency(s.pins, pin, s.touched, s.clock);
      EvictsOne(PutLast(s.pins, pin), c.capacity);
    }
  }

  lemma ResolvedUsable(c: Config, host: string, dns: Dns)
    ensures Resolved(c.policy, host, dns).Ok? ==> Usable(c, host, Resolved(c.policy, host, dns).value)
  {
  }

  lemma EnterKeepsInv(c: Config, s: System, host: string, now: real)
    requires Inv(c, s)
    ensures Inv(c, Apply(c, s, Enter(host, now)))
  {
    FindMeaning(s.pins, host);
    UsableIn(c, s.pins, host);
    DropMeaning(s.pins, host);
    if Find(s.pins, host).Some? {
      PutLastUsable(c, s.pins, Find(s.pins, host).value);
      PutLastKeepsRecency(s.pins, Find(s.pins, host).value, s.touched, s.clock);
    }
  }

  lemma FinishKeepsInv(c: Config, s: System, t: nat, dns: Dns)
    requires Inv(c, s) && Enabled(s, Finish(t, dns))
    ensures Inv(c, Apply(c, s, Finish(t, dns)))
  {
    var host := s.threads[t].host;
    ResolvedUsable(c, host, dns);
    var ips := Resolved(c.policy, host, dns);
    if ips.Ok? {
      CommitKeepsInv(c, s, host, ips.value, s.threads[t].now);
    }
  }

  lemma ForgetKeepsInv(c: Config, s: System, host: Option<string>)
    requires Inv(c, s)
    ensures Inv(c, Apply(c, s, Invalidate(host)))
  {
    if host.Some? {
      DropMeaning(s.pins, host.value);
      DropKeepsRecency(s.pins, host.value, s.touched);
      var out := Drop(s.pins, host.value);
      forall i | 0 <= i < |out| ensures Usable(c, out[i].host, out[i].ips) {
        assert out[i] in out;
        var j :| 0 <= j < |s.pins| && s.pins[j] == out[i];
      }
    }
  }

  lemma StepKeepsInv(c: Config, s: System, step: Step)
    requires Inv(c, s) && Enabled(s, step)
    ensures Inv(c, Apply(c, s, step))
  {
    match step
    case Enter(host, now) => EnterKeepsInv(c, s, host, now);
    case Finish(t, dns) => FinishKeepsInv(c, s, t, dns);
    case Invalidate(host) => ForgetKeepsInv(c, s, host);
  }

  lemma {:induction false} RunKeepsInv(c: Config, s: System, steps: seq<Step>, s': System)
    requires Inv(c, s) && Executes(c, s, steps, s')
    ensures Inv(c, s')
    decreases |steps|
  {
    if steps != [] {
      StepKeepsInv(c, s, steps[0]);
      RunKeepsInv(c, Apply(c, s, steps[0]), steps[1..], s');
    }
  }

  // ---- theorems ------------------------------------------------------------

  /**
   However the threads interleave, the cache never exceeds its capacity, and every
   stored or returned set is non-empty and passes the policy.
   */
  lemma CacheIsSound(c: Config, steps: seq<Step>, s: System)
    requires c.capacity >= 1 && Executes(c, Init(), steps, s)
    ensures |s.pins| <= c.capacity && Distinct(s.pins)
    ensures forall i :: 0 <= i < |s.pins| ==> Usable(c, s.pins[i].host, s.pins[i].ips)
    ensures forall t :: 0 <= t < |s.threads| && s.threads[t].Returned? ==> Usable(c, s.threads[t].host, s.threads[t].ips)
  {
    RunKeepsInv(c, Init(), steps, s);
    RecencyIsDistinct(s.pins, s.touched);
  }

  /**
   A commit raises exactly when the host is resident and the new addresses share
   nothing with its pin; then the cache is unchanged.  Otherwise the host ends up
   with the union, and no other host changes except that an insertion into a full
   cache removes one.
   */
  lemma CommitMeaning(c: Config, s: System, host: string, ips: set<string>, now: real, h: string)
    requires Inv(c, s)
    ensures var (pins, res) := Commit(c.capacity, s.pins, host, ips, now);
            var prior := Find(s.pins, host);
            && (res.Err? <==> prior.Some? && ips !! prior.value.ips)
            && (res.Err? ==> res == Err(RebindBlocked) && pins == s.pins)
            && (res.Ok? ==> Find(pins, host) == Some(Pin(host, res.value, now)))
            && (res.Ok? ==> res.value == ips + (if prior.Some? then prior.value.ips else {}))
            && (h != host && Find(pins, h) != Find(s.pins, h) ==>
                  prior.None? && |s.pins| == c.capacity && s.pins[0].host == h && Find(pins, h).None?)
  {
    var prior := Find(s.pins, host);
    if prior.Some? {
      FindPutLast(s.pins, Pin(host, prior.value.ips + ips, now), host);
      FindPutLast(s.pins, Pin(host, prior.value.ips + ips, now), h);
    } else {
      InsertMeaning(c, s, Pin(host, ips, now), host);
      InsertMeaning(c, s, Pin(host, ips, now), h);
    }
  }

  lemma FindPutLast(pins: seq<Pin>, pin: Pin, h: string)
    ensures Find(PutLast(pins, pin), h) == if h == pin.host then Some(pin) else Find(pins, h)
  {
    FindDropped(pins, pin.host, h);
    FindAppended(Drop(pins, pin.host), pin, h);
  }

  /** Inserting a new host keeps every other pin, except the first one of a full cache. */
  lemma InsertMeaning(c: Config, s: System, pin: Pin, h: string)
    requires Inv(c, s) && Find(s.pins, pin.host).None?
    ensures Find(Evict(PutLast(s.pins, pin), c.capacity), h) ==
            if h == pin.host then Some(pin)
            else if |s.pins| == c.capacity && s.pins[0].host == h then None
            else Find(s.pins, h)
  {
    var put := PutLast(s.pins, pin);
    FindPutLast(s.pins, pin, h);
    DropMeaning(s.pins, pin.host);
    FindMeaning(s.pins, pin.host);
    EvictsOne(put, c.capacity);
    if |s.pins| == c.capacity {
      assert put[0] == s.pins[0];
      PutLastKeepsRecency(s.pins, pin, s.touched, s.clock);
      RecencyIsDistinct(put, s.touched[pin.host := s.clock]);
      TailFinds(put, h);
    }
  }

  lemma TailFinds(pins: seq<Pin>, h: string)
    requires pins != [] && Distinct(pins)
    ensures Find(pins[1..], h) == if pins[0].host == h then None else Find(pins, h)
  {
    FindMeaning(pins[1..], h);
    forall i | 0 <= i < |pins[1..]| ensures pins[1..][i].host != pins[0].host {
      assert pins[1..][i] == pins[i + 1];
    }
  }

  /** Some resolved address passes the policy. */
  ghost predicate SomeAllowed(c: Config, host: string, addrs: seq<seq<string>>) {
    exists ip :: ip in Addresses(addrs) && c.policy(host, ip)
  }

  /** Some resolved address passes the policy and is pinned already. */
  ghost predicate SomeOverlap(c: Config, host: string, addrs: seq<seq<string>>, pinned: set<string>) {
    exists ip :: ip in Addresses(addrs) && c.policy(host, ip) && ip in pinned
  }

  /** The name service failed; it had no address; all addresses are blocked; or the host is pinned and no allowed address is. */
  ghost predicate FailsWith(c: Config, pins: seq<Pin>, host: string, dns: Dns, why: Failure) {
    match why
    case ResolutionFailed => dns.GaiError?
    case NoAddresses => dns.Infos? && Addresses(dns.addrs) == {}
    case AllBlocked => dns.Infos? && Addresses(dns.addrs) != {} && !SomeAllowed(c, host, dns.addrs)
    case RebindBlocked =>
      && dns.Infos? && SomeAllowed(c, host, dns.addrs)
      && Find(pins, host).Some? && !SomeOverlap(c, host, dns.addrs, Find(pins, host).value.ips)
  }

  /** A resolution fails exactly as its raw answer and the pin say, and a failure changes nothing. */
  lemma FailsExactly(c: Config, pins: seq<Pin>, host: string, dns: Dns, now: real, why: Failure)
    ensures var (pins', res) := CommitResolved(c, pins, host, dns, now);
            && (res == Err(why) <==> FailsWith(c, pins, host, dns, why))
            && (res.Err? ==> pins' == pins)
  {
    if dns.Infos? {
      AllowedMeaning(c, host, dns.addrs);
      if Find(pins, host).Some? { OverlapMeaning(c, host, dns.addrs, Find(pins, host).value.ips); }
    }
  }

  lemma AllowedMeaning(c: Config, host: string, addrs: seq<seq<string>>)
    ensures SomeAllowed(c, host, addrs) <==> Allowed(c.policy, host, Addresses(addrs)) != {}
    ensures SomeAllowed(c, host, addrs) ==> Addresses(addrs) != {}
  {
    var allowed := Allowed(c.policy, host, Addresses(addrs));
    if allowed != {} { var ip :| ip in allowed; }
    if SomeAllowed(c, host, addrs) {
      var ip :| ip in Addresses(addrs) && c.policy(host, ip);
      assert ip in allowed;
    }
  }

  lemma OverlapMeaning(c: Config, host: string, addrs: seq<seq<string>>, pinned: set<string>)
    ensures SomeOverlap(c, host, addrs, pinned) <==> !(Allowed(c.policy, host, Addresses(addrs)) !! pinned)
  {
    var allowed := Allowed(c.policy, host, Addresses(addrs));
    if SomeOverlap(c, host, addrs, pinned) {
      var ip :| ip in Addresses(addrs) && c.policy(host, ip) && ip in pinned;
      assert ip in allowed * pinned;
    }
    if !(allowed !! pinned) {
      var ip :| ip in allowed && ip in pinned;
    }
  }

  /** A thread raises exactly so, judged by the pins at the time of its second section. */
  lemma FinishFailsExactly(c: Config, s: System, t: nat, dns: Dns, why: Failure)
    requires Enabled(s, Finish(t, dns))
    ensures var host := s.threads[t].host; var s' := Apply(c, s, Finish(t, dns));
            && (s'.threads[t] == Raised(host, why) <==> FailsWith(c, s.pins, host, dns, why))
            && (s'.threads[t].Raised? ==> s'.pins == s.pins && s'.touched == s.touched)
  {
    FailsExactly(c, s.pins, s.threads[t].host, dns, s.threads[t].now, why);
  }

  /** What the documentation says raises: a new address that fails the policy. */
  ghost predicate NewBlocked(c: Config, host: string, addrs: seq<seq<string>>, pinned: set<string>) {
    exists ip :: ip in Addresses(addrs) && ip !in pinned && !c.policy(host, ip)
  }

  const PINNED_ADDRESS := "93.184.216.34"
  const OTHER_ADDRESS := "93.184.216.35"
  const PRIVATE_ADDRESS := "10.0.0.7"

  lemma AddressesDiffer()
    ensures PINNED_ADDRESS != OTHER_ADDRESS && PINNED_ADDRESS != PRIVATE_ADDRESS && OTHER_ADDRESS != PRIVATE_ADDRESS
  {
    assert |PRIVATE_ADDRESS| == 8 && |PINNED_ADDRESS| == 13 == |OTHER_ADDRESS|;
    assert PINNED_ADDRESS[12] == '4' && OTHER_ADDRESS[12] == '5';
  }

  lemma TwoAddresses(x: string, y: string)
    ensures Addresses([[x], [y]]) == {x, y}
  {
    var addrs := [[x], [y]];
    assert addrs[0][0] == x && addrs[1][0] == y;
    assert x in Addresses(addrs) && y in Addresses(addrs);
  }

  lemma OneAddress(x: string)
    ensures Addresses([[x]]) == {x}
  {
    assert [[x]][0][0] == x && x in Addresses([[x]]);
  }

  /** The pinned address together with a new blocked one is no error. */
  lemma BlockedNewcomerExample(ttl: real, capacity: nat, now: real)
    ensures var c := Config(ttl, capacity, (host: string, ip: string) => ip != PRIVATE_ADDRESS);
            var addrs := [[PINNED_ADDRESS], [PRIVATE_ADDRESS]];
            && NewBlocked(c, "h", addrs, {PINNED_ADDRESS})
            && CommitResolved(c, [Pin("h", {PINNED_ADDRESS}, 0.0)], "h", Infos(addrs), now).1 == Ok({PINNED_ADDRESS})
  {
    var c := Config(ttl, capacity, (host: string, ip: string) => ip != PRIVATE_ADDRESS);
    AddressesDiffer();
    TwoAddresses(PINNED_ADDRESS, PRIVATE_ADDRESS);
    assert PRIVATE_ADDRESS in {PINNED_ADDRESS, PRIVATE_ADDRESS};
    assert Allowed(c.policy, "h", {PINNED_ADDRESS, PRIVATE_ADDRESS}) == {PINNED_ADDRESS};
    assert {PINNED_ADDRESS} + {PINNED_ADDRESS} == {PINNED_ADDRESS};
    assert PINNED_ADDRESS in {PINNED_ADDRESS} * {PINNED_ADDRESS};
  }

  /** A new address that passes the policy, alone, is an error. */
  lemma AllowedNewcomerExample(ttl: real, capacity: nat, now: real)
    ensures var c := Config(ttl, capacity, (host: string, ip: string) => ip != PRIVATE_ADDRESS);
            && !NewBlocked(c, "h", [[OTHER_ADDRESS]], {PINNED_ADDRESS})
            && CommitResolved(c, [Pin("h", {PINNED_ADDRESS}, 0.0)], "h", Infos([[OTHER_ADDRESS]]), now).1 == Err(RebindBlocked)
  {
    var c := Config(ttl, capacity, (host: string, ip: string) => ip != PRIVATE_ADDRESS);
    AddressesDiffer();
    OneAddress(OTHER_ADDRESS);
    assert Allowed(c.policy, "h", {OTHER_ADDRESS}) == {OTHER_ADDRESS};
  }

  /** The host a full cache gives up is the least recently touched one, never the one just inserted. */
  lemma EvictionIsLeastRecent(c: Config, s: System, host: string, ips: set<string>, now: real, victim: string)
    requires Inv(c, s) && Find(s.pins, victim).Some?
    requires Find(Commit(c.capacity, s.pins, host, ips, now).0, victim).None?
    ensures victim != host && victim in s.touched
    ensures forall i :: 0 <= i < |s.pins| && s.pins[i].host != victim ==> s.touched[victim] < s.touched[s.pins[i].host]
    ensures Find(s.pins, host).None? && |s.pins| == c.capacity
  {
    CommitMeaning(c, s, host, ips, now, victim);
  }

  function IpsOf(pins: seq<Pin>, host: string): set<string> {
    if Find(pins, host).Some? then Find(pins, host).value.ips else {}
  }

  /** One step of any thread only grows the set of a host that stays resident, and only by an overlapping resolution. */
  lemma ResidentGrows(c: Config, s: System, step: Step, host: string)
    requires Inv(c, s) && Enabled(s, step)
    requires Find(s.pins, host).Some? && Find(Apply(c, s, step).pins, host).Some?
    ensures IpsOf(s.pins, host) <= IpsOf(Apply(c, s, step).pins, host)
    ensures IpsOf(s.pins, host) != IpsOf(Apply(c, s, step).pins, host) ==>
              && step.Finish? && s.threads[step.t].host == host
              && Resolved(c.policy, host, step.dns).Ok?
              && !(Resolved(c.policy, host, step.dns).value !! IpsOf(s.pins, host))
              && IpsOf(Apply(c, s, step).pins, host) == IpsOf(s.pins, host) + Resolved(c.policy, host, step.dns).value
  {
    match step
    case Enter(other, now) =>
      FindMeaning(s.pins, other);
      FindDropped(s.pins, other, host);
      if Find(s.pins, other).Some? {
        FindAppended(Drop(s.pins, other), Find(s.pins, other).value, host);
      }
    case Finish(t, dns) =>
      var ips := Resolved(c.policy, s.threads[t].host, dns);
      if ips.Ok? {
        CommitMeaning(c, s, s.threads[t].host, ips.value, s.threads[t].now, host);
      }
    case Invalidate(gone) =>
      if gone.Some? { FindDropped(s.pins, gone.value, host); }
  }

  /** The host is pinned in every state of the run. */
  ghost predicate StaysResident(c: Config, s: System, steps: seq<Step>, host: string)
    decreases |steps|
  {
    && Find(s.pins, host).Some?
    && (steps != [] ==> Enabled(s, steps[0]) && StaysResident(c, Apply(c, s, steps[0]), steps[1..], host))
  }

  /**
   Between two states of a run in which a host stays pinned its set only grows: a
   rebind to addresses never seen together with a pinned one cannot get in.
   */
  lemma {:induction false} PinOnlyGrows(c: Config, s: System, steps: seq<Step>, s': System, host: string)
    requires Inv(c, s) && Executes(c, s, steps, s') && StaysResident(c, s, steps, host)
    ensures Find(s'.pins, host).Some? && IpsOf(s.pins, host) <= IpsOf(s'.pins, host)
    decreases |steps|
  {
    if steps != [] {
      StepKeepsInv(c, s, steps[0]);
      assert StaysResident(c, Apply(c, s, steps[0]), steps[1..], host);
      ResidentGrows(c, s, steps[0], host);
      PinOnlyGrows(c, Apply(c, s, steps[0]), steps[1..], s', host);
    }
  }

  /**
   A call that returns gives its caller every address it resolved and validated
   itself, plus whatever is pinned; what it returns is then exactly the pin.
   */
  lemma ReturnedIsPinned(c: Config, s: System, t: nat, dns: Dns)
    requires Inv(c, s) && Enabled(s, Finish(t, dns))
    requires Apply(c, s, Finish(t, dns)).threads[t].Returned?
    ensures var s' := Apply(c, s, Finish(t, dns)); var host := s.threads[t].host;
            && Resolved(c.policy, host, dns).Ok?
            && IpsOf(s'.pins, host) == s'.threads[t].ips == Resolved(c.policy, host, dns).value + IpsOf(s.pins, host)
  {
    var host := s.threads[t].host;
    CommitMeaning(c, s, host, Resolved(c.policy, host, dns).value, s.threads[t].now, host);
  }

  /** A lookup answers from the cache if and only if the pin is younger than the TTL; it changes no pin. */
  lemma HitMeaning(c: Config, s: System, host: string, now: real, h: string)
    requires Inv(c, s)
    ensures var (pins, hit) := Lookup(c.ttl, s.pins, host, now);
            && (hit.Some? <==> Find(s.pins, host).Some? && now - Find(s.pins, host).value.at < c.ttl)
            && (hit.Some? ==> hit.value == IpsOf(s.pins, host))
            && Find(pins, h) == Find(s.pins, h)
  {
    FindMeaning(s.pins, host);
    FindDropped(s.pins, host, h);
    if Find(s.pins, host).Some? {
      FindAppended(Drop(s.pins, host), Find(s.pins, host).value, h);
    }
  }

  // ---- the cache object ----------------------------------------------------

  predicate IsUpper(ch: char) { 'A' <= ch <= 'Z' }

  /** `str.lower` on ASCII host names. */
  function Lower(s: string): string {
    seq(|s|, i requires 0 <= i < |s| => if IsUpper(s[i]) then s[i] - 'A' + 'a' else s[i])
  }

  class HostPinCache {
    const ttl: real
    const capacity: nat
    var pins: seq<Pin>

    constructor (ttlSeconds: real, maxPins: nat)
      requires maxPins >= 1
      ensures pins == [] && ttl == ttlSeconds && capacity == maxPins
    {
      ttl, capacity, pins := ttlSeconds, maxPins, [];
    }

    /** The first lock section. */
    method LookUp(host: string, now: real) returns (hit: Option<set<string>>)
      modifies this
      ensures (pins, hit) == Lookup(ttl, old(pins), host, now)
    {
      var cached := Find(pins, host);
      if cached.None? || !(now - cached.value.at < ttl) {
        return None;
      }
      pins := Drop(pins, cached.value.host) + [cached.value];
      hit := Some(cached.value.ips);
    }

    /** The validation loop, between the two sections. */
    static method Validate(policy: (string, string) -> bool, host: string, dns: Dns)
      returns (res: Result<set<string>, Failure>)
      ensures res == Resolved(policy, host, dns)
    {
      if dns.GaiError? {
        return Err(ResolutionFailed);
      }
      var resolved: set<string> := {};
      for i := 0 to |dns.addrs|
        invariant resolved == Addresses(dns.addrs[..i])
      {
        assert dns.addrs[..i + 1] == dns.addrs[..i] + [dns.addrs[i]];
        if dns.addrs[i] != [] {
          resolved := resolved + {dns.addrs[i][0]};
        }
        AddressesMore(dns.addrs, i);
      }
      assert dns.addrs[..|dns.addrs|] == dns.addrs;
      if resolved == {} {
        return Err(NoAddresses);
      }
      var validated: set<string> := {};
      var left := resolved;
      while left != {}
        invariant left <= resolved && validated == Allowed(policy, host, resolved - left)
        decreases left
      {
        var ip :| ip in left;
        if policy(host, ip) {
          validated := validated + {ip};
        }
        left := left - {ip};
      }
      assert resolved - left == resolved;
      res := if validated == {} then Err(AllBlocked) else Ok(validated);
    }

    /** The second lock section. */
    method Store(host: string, ips: set<string>, now: real) returns (res: Result<set<string>, Failure>)
      modifies this
      ensures (pins, res) == Commit(capacity, old(pins), host, ips, now)
    {
      var existing := Find(pins, host);
      if existing.Some? {
        if ips !! existing.value.ips {
          return Err(RebindBlocked);
        }
        var merged := existing.value.ips + ips;
        pins := Drop(pins, host) + [Pin(host, merged, now)];
        return Ok(merged);
      }
      pins := Drop(pins, host) + [Pin(host, ips, now)];
      while |pins| > capacity
        invariant Evict(pins, capacity) == Evict(PutLast(old(pins), Pin(host, ips, now)), capacity)
        decreases |pins|
      {
        pins := pins[1..];
      }
      res := Ok(ips);
    }

    /** `resolve_or_pin` when no other thread gets between its two sections. */
    method ResolveOrPin(rawHost: string, policy: (string, string) -> bool, now: real, dns: Dns)
      returns (res: Result<set<string>, Failure>)
      modifies this
      ensures var host := Lower(rawHost);
              var (found, hit) := Lookup(ttl, old(pins), host, now);
              if hit.Some? then pins == found && res == Ok(hit.value)
              else (pins, res) == CommitResolved(Config(ttl, capacity, policy), old(pins), host, dns, now)
    {
      var host := Lower(rawHost);
      var hit := LookUp(host, now);
      if hit.Some? {
        return Ok(hit.value);
      }
      res := Validate(policy, host, dns);
      if res.Ok? {
        res := Store(host, res.value, now);
      }
    }

    method Invalidate(host: Option<string>)
      modifies this
      ensures pins == Forget(old(pins), if host.Some? then Some(Lower(host.value)) else None)
    {
      if host.None? {
        pins := [];
      } else {
        pins := Drop(pins, Lower(host.value));
      }
    }
  }

  lemma AddressesMore(addrs: seq<seq<string>>, i: nat)
    requires i < |addrs|
    ensures Addresses(addrs[..i + 1]) == Addresses(addrs[..i]) + (if addrs[i] != [] then {addrs[i][0]} else {})
  {
    var a, b := addrs[..i], addrs[..i + 1];
    forall x | x in Addresses(b) ensures x in Addresses(a) + (if addrs[i] != [] then {addrs[i][0]} else {}) {
      var k :| 0 <= k < |b| && b[k] != [] && x == b[k][0];
      if k < i { assert a[k] == b[k]; }
    }
    forall x | x in Addresses(a) ensures x in Addresses(b) {
      var k :| 0 <= k < |a| && a[k] != [] && x == a[k][0];
      assert b[k] == a[k];
    }
    if addrs[i] != [] { assert b[i] == addrs[i]; }
  }
}
