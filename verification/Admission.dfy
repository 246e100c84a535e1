/** Concurrent admissions: `GetSubscriptionLimiter` looks up the limit, loads or
    stores the user's IP map, checks the IP, counts, tests and stores in separate
    atomic steps, while reports forget maps and updates change limits. */
module Admission {
  import opened Basics
  import opened Decimal

  /** Where one connection stands between two of its atomic steps; `m` names the
      IP map object it holds. */
  datatype Phase =
    | Idle
    | LookedUp(key: string, ip: string, limit: int)
    | Loaded(key: string, ip: string, limit: int, m: nat)
    | Absent(key: string, ip: string, limit: int, m: nat)
    | Counting(key: string, ip: string, limit: int, m: nat, low: nat)   // ranging; `low` IPs were there at the start
    | Counted(key: string, ip: string, limit: int, m: nat, n: nat)
    | Passed(key: string, ip: string, limit: int, m: nat)

  datatype IpMap = IpMap(owner: string, ips: set<string>)

  datatype State = State(
    threads: seq<Phase>,
    limits: map<string, int>,
    online: map<string, nat>,    // user key -> its current map object
    maps: seq<IpMap>)            // all map objects ever stored

  datatype Step =
    | Start(t: nat, key: string, ip: string)
    | LoadOrStore(t: nat)
    | CheckIp(t: nat)
    | CountBegin(t: nat)
    | CountEnd(t: nat, n: nat)
    | Test(t: nat)
    | Store(t: nat)
    | Forget(key: string)                  // a report deletes the key's map
    | SetLimit(key: string, limit: int)    // an update stores the subscription

  function To(s: State, t: nat, p: Phase): State
    requires t < |s.threads|
  {
    s.(threads := s.threads[t := p])
  }

  function LimitOf(s: State, key: string): int {
    if key in s.limits then s.limits[key] else 0
  }

  /** A step that is not enabled does nothing. */
  function Apply(s: State, step: Step): State {
    if step.Forget? then s.(online := s.online - {step.key})
    else if step.SetLimit? then s.(limits := s.limits[step.key := step.limit])
    else if step.t < |s.threads| then ThreadStep(s, step, s.threads[step.t])
    else s
  }

  function ThreadStep(s: State, step: Step, p: Phase): State
    requires !step.Forget? && !step.SetLimit?
    requires step.t < |s.threads| && p == s.threads[step.t]
  {
    var t := step.t;
    if step.Start? && p.Idle? then
      To(s, t, LookedUp(step.key, step.ip, LimitOf(s, step.key)))
    else if step.LoadOrStore? && p.LookedUp? then
      if p.key in s.online then To(s, t, Loaded(p.key, p.ip, p.limit, s.online[p.key]))
      else To(s.(online := s.online[p.key := |s.maps|], maps := s.maps + [IpMap(p.key, {p.ip})]), t, Idle)
    else if p.Loaded? || p.Absent? || p.Counting? || p.Counted? || p.Passed? then
      if p.m < |s.maps| then MapStep(s, step, p) else s
    else s
  }

  function MapStep(s: State, step: Step, p: Phase): State
    requires !step.Forget? && !step.SetLimit? && step.t < |s.threads|
    requires (p.Loaded? || p.Absent? || p.Counting? || p.Counted? || p.Passed?) && p.m < |s.maps|
  {
    var t, ips := step.t, s.maps[p.m].ips;
    if step.CheckIp? && p.Loaded? then
      To(s, t, if p.ip in ips then Idle else Absent(p.key, p.ip, p.limit, p.m))
    else if step.CountBegin? && p.Absent? then
      To(s, t, Counting(p.key, p.ip, p.limit, p.m, |ips|))
    else if step.CountEnd? && p.Counting? && p.low <= step.n <= |ips| then
      To(s, t, Counted(p.key, p.ip, p.limit, p.m, step.n))
    else if step.Test? && p.Counted? then
      To(s, t, if p.limit > 0 && p.n > p.limit then Idle else Passed(p.key, p.ip, p.limit, p.m))
    else if step.Store? && p.Passed? then
      To(s.(maps := s.maps[p.m := IpMap(s.maps[p.m].owner, ips + {p.ip})]), t, Idle)
    else s
  }

  function Run(s: State, steps: seq<Step>): State {
    if steps == [] then s else Apply(Run(s, steps[..|steps| - 1]), steps[|steps| - 1])
  }

  function Init(K: nat, limits: map<string, int>): State {
    State(seq(K, _ => Idle), limits, map[], [])
  }

  // The bound.

  /** A connection that may still add an IP to map `m` of a user limited to L. */
  predicate Pending(p: Phase, m: nat, L: int) {
    match p
    case Counting(_, _, _, m', low) => m' == m && low <= L
    case Counted(_, _, _, m', n) => m' == m && n <= L
    case Passed(_, _, _, m') => m' == m
    case _ => false
  }

  function PendingCount(threads: seq<Phase>, m: nat, L: int): nat {
    if threads == [] then 0
    else PendingCount(threads[..|threads| - 1], m, L) + if Pending(threads[|threads| - 1], m, L) then 1 else 0
  }

  lemma {:induction false} PendingUpdate(threads: seq<Phase>, t: nat, p: Phase, m: nat, L: int)
    requires t < |threads|
    ensures PendingCount(threads[t := p], m, L) ==
            PendingCount(threads, m, L) - (if Pending(threads[t], m, L) then 1 else 0) +
              if Pending(p, m, L) then 1 else 0
    ensures PendingCount(threads, m, L) <= |threads| - if Pending(threads[t], m, L) then 0 else 1
  {
    var init := threads[..|threads| - 1];
    if t < |init| {
      PendingUpdate(init, t, p, m, L);
      assert threads[t := p][..|threads| - 1] == init[t := p];
    } else {
      PendingAtMost(init, m, L);
      assert threads[t := p][..|threads| - 1] == init;
    }
  }

  lemma {:induction false} PendingAtMost(threads: seq<Phase>, m: nat, L: int)
    ensures PendingCount(threads, m, L) <= |threads|
  {
    if threads != [] {
      PendingAtMost(threads[..|threads| - 1], m, L);
    }
  }

  lemma {:induction false} NothingPending(threads: seq<Phase>, m: nat, L: int)
    requires forall t :: 0 <= t < |threads| ==> !Pending(threads[t], m, L)
    ensures PendingCount(threads, m, L) == 0
  {
    if threads != [] {
      NothingPending(threads[..|threads| - 1], m, L);
    }
  }

  ghost predicate GoodPhase(s: State, p: Phase, key: string, L: int) {
    && (!p.Idle? && p.key == key ==> 0 < p.limit <= L)
    && (!p.Idle? && !p.LookedUp? ==> p.m < |s.maps| && s.maps[p.m].owner == p.key)
  }

  /** Stored IPs and IPs still on their way never exceed the limit plus the number of connections. */
  ghost predicate Inv(s: State, key: string, L: int) {
    && (forall t :: 0 <= t < |s.threads| ==> GoodPhase(s, s.threads[t], key, L))
    && (forall k :: k in s.online ==> s.online[k] < |s.maps| && s.maps[s.online[k]].owner == k)
    && (forall m :: 0 <= m < |s.maps| && s.maps[m].owner == key ==>
          |s.maps[m].ips| + PendingCount(s.threads, m, L) <= L + |s.threads|)
  }

  lemma PhaseChange(s: State, t: nat, p: Phase, key: string, L: int)
    requires Inv(s, key, L) && t < |s.threads| && GoodPhase(s, p, key, L)
    requires forall m :: 0 <= m < |s.maps| && s.maps[m].owner == key ==>
               Pending(p, m, L) && !Pending(s.threads[t], m, L) ==> |s.maps[m].ips| <= L
    ensures Inv(To(s, t, p), key, L)
  {
    var s' := To(s, t, p);
    forall m | 0 <= m < |s.maps| && s.maps[m].owner == key
      ensures |s.maps[m].ips| + PendingCount(s'.threads, m, L) <= L + |s.threads|
    {
      PendingUpdate(s.threads, t, p, m, L);
    }
  }

  lemma NewMap(s: State, t: nat, key: string, L: int)
    requires Inv(s, key, L) && t < |s.threads| && s.threads[t].LookedUp?
    ensures Inv(Apply(s, LoadOrStore(t)), key, L)
  {
    var p := s.threads[t];
    if p.key in s.online {
      PhaseChange(s, t, Loaded(p.key, p.ip, p.limit, s.online[p.key]), key, L);
    } else {
      var mid := s.(online := s.online[p.key := |s.maps|], maps := s.maps + [IpMap(p.key, {p.ip})]);
      NothingPending(s.threads, |s.maps|, L);
      assert forall i :: 0 <= i < |s.threads| ==> GoodPhase(s, s.threads[i], key, L);
      assert Inv(mid, key, L) by {
        assert forall m :: 0 <= m < |s.maps| ==> mid.maps[m] == s.maps[m];
      }
      PhaseChange(mid, t, Idle, key, L);
    }
  }

  lemma StoreStep(s: State, t: nat, key: string, L: int)
    requires Inv(s, key, L) && t < |s.threads| && s.threads[t].Passed?
    ensures Inv(Apply(s, Store(t)), key, L)
  {
    var p := s.threads[t];
    assert GoodPhase(s, p, key, L);
    var s' := Apply(s, Store(t));
    forall i | 0 <= i < |s'.threads| ensures GoodPhase(s', s'.threads[i], key, L) {
      assert GoodPhase(s, s.threads[i], key, L);
    }
    forall m | 0 <= m < |s.maps| && s'.maps[m].owner == key
      ensures |s'.maps[m].ips| + PendingCount(s'.threads, m, L) <= L + |s.threads|
    {
      PendingUpdate(s.threads, t, Idle, m, L);
    }
  }

  lemma StepKeepsInv(s: State, step: Step, key: string, L: int)
    requires Inv(s, key, L)
    requires 0 < LimitOf(s, key) <= L
    ensures Inv(Apply(s, step), key, L)
  {
    if step.SetLimit? {
      assert forall i :: 0 <= i < |s.threads| ==> GoodPhase(s, s.threads[i], key, L);
    } else if !step.Forget? && Apply(s, step) != s {
      var t := step.t;
      var p := s.threads[t];
      assert GoodPhase(s, p, key, L);
      if p.LookedUp? {
        NewMap(s, t, key, L);
      } else if p.Passed? {
        StoreStep(s, t, key, L);
      } else {
        PhaseChange(s, t, Apply(s, step).threads[t], key, L);
      }
    }
  }

  /** Under every interleaving of K connections, updates and reports, a user whose
      limit stays within 1..L never has more than L + K IPs in one map. */
  lemma {:induction false} ConcurrentBound(K: nat, limits: map<string, int>, steps: seq<Step>, key: string, L: int)
    requires forall i :: 0 <= i <= |steps| ==> 0 < LimitOf(Run(Init(K, limits), steps[..i]), key) <= L
    ensures Inv(Run(Init(K, limits), steps), key, L)
    ensures var s := Run(Init(K, limits), steps);
            forall m :: 0 <= m < |s.maps| && s.maps[m].owner == key ==> |s.maps[m].ips| <= L + K
    ensures |Run(Init(K, limits), steps).threads| == K
  {
    if steps != [] {
      var init := steps[..|steps| - 1];
      forall i | 0 <= i <= |init| ensures 0 < LimitOf(Run(Init(K, limits), init[..i]), key) <= L {
        assert init[..i] == steps[..i];
      }
      ConcurrentBound(K, limits, init, key, L);
      assert init[..|init|] == init;
      StepKeepsInv(Run(Init(K, limits), init), steps[|steps| - 1], key, L);
    }
  }

  // When a map holds more than some number of IPs.

  /** The connection has begun to count and not stored yet. */
  predicate Counts(p: Phase) {
    p.Counting? || p.Counted? || p.Passed?
  }

  predicate SameAdmission(p: Phase, q: Phase) {
    && Counts(p) && Counts(q)
    && p.key == q.key && p.ip == q.ip && p.limit == q.limit && p.m == q.m
  }

  /** What a connection that counts knows of the number `c` of IPs that were there when
      it began. */
  predicate Knows(p: Phase, c: nat) {
    match p
    case Counting(_, _, _, _, low) => low == c
    case Counted(_, _, _, _, n) => c <= n
    case Passed(_, _, limit, _) => limit > 0 ==> c <= limit
    case _ => false
  }

  /** One step of a counting connection: it goes on, or has just begun. */
  lemma CountingStep(s: State, step: Step, t: nat, c: nat)
    requires t < |s.threads| && Counts(Apply(s, step).threads[t])
    ensures var p, q := s.threads[t], Apply(s, step).threads[t];
            if Counts(p) then SameAdmission(p, q) && (Knows(p, c) ==> Knows(q, c))
            else && step == CountBegin(t) && p == Absent(q.key, q.ip, q.limit, q.m) && q.m < |s.maps|
                 && Knows(q, |s.maps[q.m].ips|)
  {
  }

  lemma ThreadsStay(s: State, step: Step)
    ensures |Apply(s, step).threads| == |s.threads|
  {
  }

  /** Connection t began to count map m's IPs at step h, when there were at most its limit,
      and stores a new IP at step i, when there are at least B. */
  ghost predicate Overtaken(s: State, steps: seq<Step>, h: nat, i: nat, m: nat, B: nat) {
    && h < i < |steps| && steps[i].Store? && steps[h] == CountBegin(steps[i].t)
    && var t, before, now := steps[i].t, Run(s, steps[..h]), Run(s, steps[..i]);
    && t < |before.threads| && t < |now.threads| && m < |before.maps| && m < |now.maps|
    && now.threads[t].Passed? && now.threads[t].m == m
    && (forall k :: h < k <= i ==>
          t < |Run(s, steps[..k]).threads| && SameAdmission(Run(s, steps[..k]).threads[t], now.threads[t]))
    && (now.threads[t].limit > 0 ==> |before.maps[m].ips| <= now.threads[t].limit)
    && now.threads[t].ip !in now.maps[m].ips && |now.maps[m].ips| >= B
  }

  /** A connection that counts now began at some step. */
  lemma {:induction false} Began(s: State, steps: seq<Step>, t: nat) returns (h: nat)
    requires t < |s.threads| == |Run(s, steps).threads| && !Counts(s.threads[t]) && Counts(Run(s, steps).threads[t])
    ensures h < |steps| && steps[h] == CountBegin(t)
    ensures var p, before := Run(s, steps).threads[t], Run(s, steps[..h]);
            p.m < |before.maps| && Knows(p, |before.maps[p.m].ips|)
    ensures forall k :: h < k <= |steps| ==>
              t < |Run(s, steps[..k]).threads| && SameAdmission(Run(s, steps[..k]).threads[t], Run(s, steps).threads[t])
  {
    hide Apply, Knows;
    var init, last := steps[..|steps| - 1], steps[|steps| - 1];
    var mid := Run(s, init);
    ThreadsStay(mid, last);
    assert steps[..|init|] == init && steps[..|steps|] == steps;
    if Counts(mid.threads[t]) {
      h := Began(s, init, t);
      CountingStep(mid, last, t, |Run(s, init[..h]).maps[mid.threads[t].m].ips|);
      assert steps[..h] == init[..h];
      forall k | h < k <= |steps|
        ensures t < |Run(s, steps[..k]).threads|
        ensures SameAdmission(Run(s, steps[..k]).threads[t], Run(s, steps).threads[t])
      {
        if k <= |init| {
          assert steps[..k] == init[..k];
        }
      }
    } else {
      h := |init|;
      CountingStep(mid, last, t, 0);
    }
  }

  /** A step takes a map beyond B only by storing a new IP. */
  lemma GrowingStep(s: State, step: Step, m: nat, B: nat)
    requires B > 0 && m < |Apply(s, step).maps| && |Apply(s, step).maps[m].ips| > B
    requires m < |s.maps| ==> |s.maps[m].ips| <= B
    ensures step.Store? && step.t < |s.threads| && s.threads[step.t].Passed? && s.threads[step.t].m == m < |s.maps|
    ensures s.threads[step.t].ip !in s.maps[m].ips && |s.maps[m].ips| == B
  {
  }

  lemma MapsGrow(s: State, step: Step, m: nat)
    requires m < |s.maps|
    ensures m < |Apply(s, step).maps| && s.maps[m].ips <= Apply(s, step).maps[m].ips
  {
  }

  lemma {:induction false} RunMapsGrow(s: State, steps: seq<Step>, i: nat, m: nat)
    requires i <= |steps| && m < |Run(s, steps[..i]).maps|
    ensures m < |Run(s, steps).maps| && Run(s, steps[..i]).maps[m].ips <= Run(s, steps).maps[m].ips
    ensures |Run(s, steps).threads| == |Run(s, steps[..i]).threads|
    decreases |steps| - i
  {
    hide Apply;
    if i < |steps| {
      assert steps[..i + 1][..i] == steps[..i];
      MapsGrow(Run(s, steps[..i]), steps[i], m);
      ThreadsStay(Run(s, steps[..i]), steps[i]);
      RunMapsGrow(s, steps, i + 1, m);
    } else {
      assert steps[..i] == steps;
    }
  }

  /** The step that takes the map beyond B. */
  lemma {:induction false} FirstBeyond(s: State, steps: seq<Step>, m: nat, B: nat) returns (i: nat)
    requires s.maps == [] && B > 0 && m < |Run(s, steps).maps| && |Run(s, steps).maps[m].ips| > B
    ensures i < |steps| && steps[i].Store?
    ensures var now, t := Run(s, steps[..i]), steps[i].t;
            && t < |now.threads| && now.threads[t].Passed? && now.threads[t].m == m < |now.maps|
            && now.threads[t].ip !in now.maps[m].ips && |now.maps[m].ips| == B
  {
    hide Apply;
    var init := steps[..|steps| - 1];
    var mid := Run(s, init);
    if m < |mid.maps| && |mid.maps[m].ips| > B {
      i := FirstBeyond(s, init, m, B);
      assert init[..i] == steps[..i];
    } else {
      GrowingStep(mid, steps[|steps| - 1], m, B);
      i := |init|;
      assert steps[..i] == init;
    }
  }

  lemma {:induction false} RunThreads(s: State, steps: seq<Step>)
    ensures |Run(s, steps).threads| == |s.threads|
  {
    hide Apply;
    if steps != [] {
      RunThreads(s, steps[..|steps| - 1]);
      ThreadsStay(Run(s, steps[..|steps| - 1]), steps[|steps| - 1]);
    }
  }

  /** The exact condition, for every interleaving with updates and reports: a map gets more
      than B > 0 IPs if and only if some connection that counted at most its limit when it
      began stores a new IP when at least B are there. For a B of at least the limit this
      says that others stored since the count began, or that the count was at the limit. */
  lemma BeyondIff(K: nat, limits: map<string, int>, steps: seq<Step>, m: nat, B: nat)
    requires B > 0
    ensures var s := Init(K, limits);
            (m < |Run(s, steps).maps| && |Run(s, steps).maps[m].ips| > B) <==>
              exists h: nat, i: nat :: Overtaken(s, steps, h, i, m, B)
  {
    hide Apply, Run, Overtaken, SameAdmission;
    var s := Init(K, limits);
    if h: nat, i: nat :| Overtaken(s, steps, h, i, m, B) {
      OvertakenGrows(s, steps, h, i, m, B);
    }
    if m < |Run(s, steps).maps| && |Run(s, steps).maps[m].ips| > B {
      var i := FirstBeyond(s, steps, m, B);
      RunThreads(s, steps[..i]);
      var h := StoresOvertaken(s, steps, i, m, B);
    }
  }

  /** A store of a new IP when at least B are there has a beginning. */
  lemma StoresOvertaken(s: State, steps: seq<Step>, i: nat, m: nat, B: nat) returns (h: nat)
    requires i < |steps| && steps[i].Store?
    requires var now, t := Run(s, steps[..i]), steps[i].t;
             && t < |s.threads| == |now.threads| && !Counts(s.threads[t])
             && now.threads[t].Passed? && now.threads[t].m == m < |now.maps|
             && now.threads[t].ip !in now.maps[m].ips && |now.maps[m].ips| >= B
    ensures Overtaken(s, steps, h, i, m, B)
  {
    hide Apply, Run, SameAdmission;
    h := Began(s, steps[..i], steps[i].t);
    assert steps[..i][..h] == steps[..h];
    forall k | h < k <= i ensures steps[..i][..k] == steps[..k] {
    }
    RunMapsGrow(s, steps[..i], h, m);
  }

  lemma StoreAdds(s: State, t: nat)
    requires t < |s.threads| && s.threads[t].Passed? && s.threads[t].m < |s.maps|
    ensures var m, s' := s.threads[t].m, Apply(s, Store(t));
            m < |s'.maps| && s'.maps[m].ips == s.maps[m].ips + {s.threads[t].ip}
  {
  }

  lemma OvertakenGrows(s: State, steps: seq<Step>, h: nat, i: nat, m: nat, B: nat)
    requires Overtaken(s, steps, h, i, m, B)
    ensures m < |Run(s, steps).maps| && |Run(s, steps).maps[m].ips| > B
  {
    hide Apply, SameAdmission;
    var now := Run(s, steps[..i]);
    var ip := now.threads[steps[i].t].ip;
    StoreAdds(now, steps[i].t);
    assert steps[..i + 1][..i] == steps[..i];
    RunMapsGrow(s, steps, i + 1, m);
    hide Run, Overtaken;
    AtMost(now.maps[m].ips + {ip}, Run(s, steps).maps[m].ips);
  }

  // The bound is attained.

  lemma {:induction false} RunThen(s: State, a: seq<Step>, b: seq<Step>)
    ensures Run(s, a + b) == Run(Run(s, a), b)
  {
    if b == [] {
      assert a + b == a;
    } else {
      RunThen(s, a, b[..|b| - 1]);
      assert (a + b)[..|a + b| - 1] == a + b[..|b| - 1];
    }
  }

  lemma RunOne(s: State, a: seq<Step>, e: Step)
    ensures Run(s, a + [e]) == Apply(Run(s, a), e)
  {
    assert (a + [e])[..|a|] == a;
  }

  /** One map with `n` IPs, and connections lo..hi-1 about to store one more each. */
  ghost predicate Scene(s: State, K: nat, key: string, L: nat, n: nat, lo: nat, hi: nat, base: nat) {
    && |s.threads| == K && s.limits == map[key := L]
    && s.maps == [IpMap(key, Numerals(n))] && s.online == map[key := 0]
    && forall t :: 0 <= t < K ==> s.threads[t] == if lo <= t < hi then Passed(key, Dec(base + t), L, 0) else Idle
  }

  /** All steps of one admission up to the passed test. */
  function Enter(t: nat, key: string, ip: string, n: nat): seq<Step> {
    [Start(t, key, ip)] + [LoadOrStore(t)] + [CheckIp(t)] + [CountBegin(t)] + [CountEnd(t, n)] + [Test(t)]
  }

  predicate KeepsLimits(steps: seq<Step>) {
    forall i :: 0 <= i < |steps| ==> !steps[i].SetLimit?
  }

  lemma EnterKeepsLimits(t: nat, key: string, ip: string, n: nat)
    ensures KeepsLimits(Enter(t, key, ip, n))
  {
  }

  lemma BothKeepLimits(a: seq<Step>, b: seq<Step>)
    requires KeepsLimits(a) && KeepsLimits(b)
    ensures KeepsLimits(a + b)
  {
  }

  lemma RunEnter(s: State, t: nat, key: string, ip: string, n: nat)
    ensures Run(s, Enter(t, key, ip, n)) ==
            Apply(Apply(Apply(Apply(Apply(Apply(s, Start(t, key, ip)), LoadOrStore(t)), CheckIp(t)), CountBegin(t)),
                        CountEnd(t, n)), Test(t))
  {
    var a := [Start(t, key, ip)];
    RunOne(s, [], Start(t, key, ip));
    assert [] + a == a;
    RunOne(s, a, LoadOrStore(t));
    RunOne(s, a + [LoadOrStore(t)], CheckIp(t));
    RunOne(s, a + [LoadOrStore(t)] + [CheckIp(t)], CountBegin(t));
    RunOne(s, a + [LoadOrStore(t)] + [CheckIp(t)] + [CountBegin(t)], CountEnd(t, n));
    RunOne(s, a + [LoadOrStore(t)] + [CheckIp(t)] + [CountBegin(t)] + [CountEnd(t, n)], Test(t));
  }

  lemma ToTwice(s: State, t: nat, p: Phase, q: Phase)
    requires t < |s.threads|
    ensures To(To(s, t, p), t, q) == To(s, t, q) && To(s, t, p).threads[t] == p && |To(s, t, p).threads| == |s.threads|
  {
  }

  /** An idle connection with a new IP, alone on its way, finds its IP absent. */
  lemma EntersAbsent(s: State, t: nat, key: string, ip: string, m: nat)
    requires t < |s.threads| && s.threads[t] == Idle && key in s.limits && key in s.online
    requires s.online[key] == m < |s.maps| && ip !in s.maps[m].ips
    ensures Apply(Apply(Apply(s, Start(t, key, ip)), LoadOrStore(t)), CheckIp(t)) ==
            To(s, t, Absent(key, ip, s.limits[key], m))
  {
    var L := s.limits[key];
    ToTwice(s, t, LookedUp(key, ip, L), Loaded(key, ip, L, m));
    ToTwice(s, t, Loaded(key, ip, L, m), Absent(key, ip, L, m));
  }

  /** And passes the test if the map holds at most its limit. */
  lemma PassesTest(s: State, t: nat, key: string, ip: string, L: int, m: nat)
    requires t < |s.threads| && m < |s.maps| && |s.maps[m].ips| <= L
    ensures var n := |s.maps[m].ips|;
            Apply(Apply(Apply(To(s, t, Absent(key, ip, L, m)), CountBegin(t)), CountEnd(t, n)), Test(t)) ==
            To(s, t, Passed(key, ip, L, m))
  {
    var n := |s.maps[m].ips|;
    ToTwice(s, t, Absent(key, ip, L, m), Counting(key, ip, L, m, n));
    ToTwice(s, t, Counting(key, ip, L, m, n), Counted(key, ip, L, m, n));
    ToTwice(s, t, Counted(key, ip, L, m, n), Passed(key, ip, L, m));
  }

  lemma EnterAlone(s: State, t: nat, key: string, ip: string, m: nat)
    requires t < |s.threads| && s.threads[t] == Idle && key in s.limits && key in s.online
    requires s.online[key] == m < |s.maps|
    requires ip !in s.maps[m].ips && |s.maps[m].ips| <= s.limits[key]
    ensures Run(s, Enter(t, key, ip, |s.maps[m].ips|)) == To(s, t, Passed(key, ip, s.limits[key], m))
  {
    hide Run, Enter, Apply, To;
    RunEnter(s, t, key, ip, |s.maps[m].ips|);
    EntersAbsent(s, t, key, ip, m);
    PassesTest(s, t, key, ip, s.limits[key], m);
  }

  lemma EnterScene(s: State, K: nat, key: string, L: nat, n: nat, j: nat)
    requires j < K && n <= L && 0 < L && Scene(s, K, key, L, n, 0, j, n)
    ensures Scene(Run(s, Enter(j, key, Dec(n + j), n)), K, key, L, n, 0, j + 1, n)
  {
    hide Dec, Run, Enter, Apply, Numerals;
    NumeralsSize(n);
    NumeralNew(n, n + j);
    EnterAlone(s, j, key, Dec(n + j), 0);
  }

  lemma StoreScene(s: State, K: nat, key: string, L: nat, base: nat, lo: nat, hi: nat)
    requires lo < hi <= K && Scene(s, K, key, L, base + lo, lo, hi, base)
    ensures Scene(Apply(s, Store(lo)), K, key, L, base + lo + 1, lo + 1, hi, base)
  {
    hide Dec;
    assert s.threads[lo] == Passed(key, Dec(base + lo), L, 0);
    var s' := Apply(s, Store(lo));
    assert s'.maps[0] == IpMap(key, Numerals(base + lo + 1));
    assert s'.threads == s.threads[lo := Idle];
  }

  lemma FirstMap(K: nat, key: string, L: nat, steps: seq<Step>)
    requires 0 < K && steps == [Start(0, key, Dec(0))] + [LoadOrStore(0)]
    ensures Scene(Run(Init(K, map[key := L]), steps), K, key, L, 1, 0, 0, 1)
  {
    var s := Init(K, map[key := L]);
    RunOne(s, [], Start(0, key, Dec(0)));
    assert [] + [Start(0, key, Dec(0))] == [Start(0, key, Dec(0))];
    RunOne(s, [Start(0, key, Dec(0))], LoadOrStore(0));
    assert Numerals(0) == {} && Numerals(1) == {Dec(0)};
  }

  lemma FillOne(s: State, K: nat, key: string, L: nat, n: nat)
    requires 0 < K && n < L && Scene(s, K, key, L, n, 0, 0, n)
    ensures Scene(Run(s, Enter(0, key, Dec(n), n) + [Store(0)]), K, key, L, n + 1, 0, 0, n + 1)
  {
    hide Dec, Enter, Numerals, Run;
    var e := Enter(0, key, Dec(n), n);
    RunOne(s, e, Store(0));
    EnterScene(s, K, key, L, n, 0);
    StoreScene(Run(s, e), K, key, L, n, 0, 1);
  }

  /** One connection after another fills the map up to `n` IPs. */
  lemma {:induction false} Fill(K: nat, key: string, L: nat, n: nat) returns (steps: seq<Step>)
    requires 0 < n <= L && 0 < K
    ensures Scene(Run(Init(K, map[key := L]), steps), K, key, L, n, 0, 0, n)
    ensures KeepsLimits(steps)
  {
    if n == 1 {
      steps := [Start(0, key, Dec(0))] + [LoadOrStore(0)];
      FirstMap(K, key, L, steps);
    } else {
      var before := Fill(K, key, L, n - 1);
      var round := Enter(0, key, Dec(n - 1), n - 1) + [Store(0)];
      steps := before + round;
      RunThen(Init(K, map[key := L]), before, round);
      EnterKeepsLimits(0, key, Dec(n - 1), n - 1);
      BothKeepLimits(Enter(0, key, Dec(n - 1), n - 1), [Store(0)]);
      BothKeepLimits(before, round);
      FillOne(Run(Init(K, map[key := L]), before), K, key, L, n - 1);
    }
  }

  lemma {:induction false} EnterMany(s: State, K: nat, key: string, L: nat, j: nat) returns (steps: seq<Step>)
    requires j <= K && 0 < L && Scene(s, K, key, L, L, 0, 0, L)
    ensures Scene(Run(s, steps), K, key, L, L, 0, j, L)
    ensures KeepsLimits(steps)
  {
    hide Dec, Enter, Numerals, Scene;
    steps := [];
    if j > 0 {
      var before := EnterMany(s, K, key, L, j - 1);
      var e := Enter(j - 1, key, Dec(L + j - 1), L);
      RunThen(s, before, e);
      EnterScene(Run(s, before), K, key, L, L, j - 1);
      EnterKeepsLimits(j - 1, key, Dec(L + j - 1), L);
      BothKeepLimits(before, e);
      steps := before + e;
    }
  }

  lemma {:induction false} StoreMany(s: State, K: nat, key: string, L: nat, j: nat) returns (steps: seq<Step>)
    requires j <= K && Scene(s, K, key, L, L, 0, K, L)
    ensures Scene(Run(s, steps), K, key, L, L + j, j, K, L)
    ensures KeepsLimits(steps)
  {
    hide Dec, Numerals;
    steps := [];
    if j > 0 {
      var before := StoreMany(s, K, key, L, j - 1);
      RunOne(s, before, Store(j - 1));
      StoreScene(Run(s, before), K, key, L, L, j - 1, K);
      steps := before + [Store(j - 1)];
    }
  }

  lemma {:induction false} LimitStays(s: State, steps: seq<Step>, key: string)
    requires KeepsLimits(steps)
    ensures forall i :: 0 <= i <= |steps| ==> LimitOf(Run(s, steps[..i]), key) == LimitOf(s, key)
  {
    if steps != [] {
      var init := steps[..|steps| - 1];
      LimitStays(s, init, key);
      forall i | 0 <= i <= |steps| ensures LimitOf(Run(s, steps[..i]), key) == LimitOf(s, key) {
        if i <= |init| {
          assert steps[..i] == init[..i];
        } else {
          assert steps[..i] == steps && init[..|init|] == init;
        }
      }
    }
  }

  /** The bound of `ConcurrentBound` is the best possible: for every K and L some
      interleaving under a constant limit L reaches L + K IPs. */
  lemma BoundIsAttained(K: nat, key: string, L: nat) returns (steps: seq<Step>)
    requires 0 < K && 0 < L
    ensures forall i :: 0 <= i <= |steps| ==> LimitOf(Run(Init(K, map[key := L]), steps[..i]), key) == L
    ensures var s := Run(Init(K, map[key := L]), steps);
            |s.maps| == 1 && s.maps[0].owner == key && |s.maps[0].ips| == L + K
  {
    var s := Init(K, map[key := L]);
    var fill := Fill(K, key, L, L);
    var enter := EnterMany(Run(s, fill), K, key, L, K);
    RunThen(s, fill, enter);
    var store := StoreMany(Run(s, fill + enter), K, key, L, K);
    RunThen(s, fill + enter, store);
    steps := fill + enter + store;
    LimitStays(s, steps, key);
    NumeralsSize(L + K);
  }
}
