/** The shared IP cache: `globalLimit` reads a user's IP set from the node's own
    cache or the shared one, tests a private copy, and pushes the enlarged copy
    asynchronously, so updates interleave, overwrite each other, get lost and expire. */
module GlobalLimit {
  import opened Basics
  import opened Decimal
  import opened UserKey

  type Ips = map<string, int>

  /** Each node's inbound has a local cache in front of the shared one. */
  datatype Cell = Local(node: nat) | Shared

  datatype Write = Write(cell: Cell, key: string, ips: Ips)

  datatype Phase =
    | Idle
    | Got(node: nat, key: string, limit: int, ip: string, uid: int, found: Option<Ips>)
    | Admitted(ip: string)
    | Rejected(ip: string)

  datatype State = State(
    threads: seq<Phase>,
    cells: map<(Cell, string), Ips>,
    writes: seq<Write>)          // pushes and refills still under way

  datatype User = User(tag: string, email: string, id: int)

  datatype Step =
    | Get(t: nat, node: nat, user: User, limit: int, ip: string, uid: int)
    | GetFails(t: nat, user: User, limit: int, ip: string)   // a cache error other than "not found"
    | Decide(t: nat)
    | Land(i: nat)
    | Lose(i: nat)
    | Expire(cell: Cell, key: string)

  function Read(s: State, node: nat, key: string): Option<Ips> {
    if (Local(node), key) in s.cells then Some(s.cells[(Local(node), key)])
    else if (Shared, key) in s.cells then Some(s.cells[(Shared, key)])
    else None
  }

  /** A hit in the shared cache is copied into the local one in the background. */
  function Refill(s: State, node: nat, key: string): seq<Write> {
    if (Local(node), key) !in s.cells && (Shared, key) in s.cells then [Write(Local(node), key, s.cells[(Shared, key)])]
    else []
  }

  function UserGlobalKey(u: User, limit: int): string {
    GlobalKey(u.tag, Key(u.tag, u.email, u.id), limit)
  }

  /** The test of `globalLimit`. */
  predicate Rejects(found: Option<Ips>, ip: string, limit: int) {
    found.Some? && ip !in found.value && limit > 0 && |found.value| >= limit
  }

  /** The set it pushes, if any. */
  function Pushed(found: Option<Ips>, ip: string, uid: int, limit: int): Option<Ips> {
    if found.None? then Some(map[ip := uid])
    else if ip in found.value || Rejects(found, ip, limit) then None
    else Some(found.value[ip := uid])
  }

  predicate Busy(s: State, t: nat) {
    t < |s.threads| && s.threads[t].Got?
  }

  predicate Free(s: State, t: nat) {
    t < |s.threads| && !s.threads[t].Got?
  }

  function DecideStep(s: State, t: nat): State
    requires Busy(s, t)
  {
    var p := s.threads[t];
    var push := Pushed(p.found, p.ip, p.uid, p.limit);
    var s' := s.(threads := s.threads[t := if Rejects(p.found, p.ip, p.limit) then Rejected(p.ip) else Admitted(p.ip)]);
    if push.None? then s'
    else s'.(writes := s.writes + [Write(Local(p.node), p.key, push.value), Write(Shared, p.key, push.value)])
  }

  function Without(writes: seq<Write>, i: nat): seq<Write>
    requires i < |writes|
  {
    writes[..i] + writes[i + 1..]
  }

  function Apply(s: State, step: Step): State {
    match step
    case Get(t, node, user, limit, ip, uid) =>
      if Free(s, t) then
        var key := UserGlobalKey(user, limit);
        s.(threads := s.threads[t := Got(node, key, limit, ip, uid, Read(s, node, key))],
           writes := s.writes + Refill(s, node, key))
      else s
    case GetFails(t, _, _, ip) => if Free(s, t) then s.(threads := s.threads[t := Admitted(ip)]) else s
    case Decide(t) => if Busy(s, t) then DecideStep(s, t) else s
    case Land(i) =>
      if i < |s.writes| then
        s.(cells := s.cells[(s.writes[i].cell, s.writes[i].key) := s.writes[i].ips], writes := Without(s.writes, i))
      else s
    case Lose(i) => if i < |s.writes| then s.(writes := Without(s.writes, i)) else s
    case Expire(cell, key) => s.(cells := s.cells - {(cell, key)})
  }

  function Run(s: State, steps: seq<Step>): State {
    if steps == [] then s else Apply(Run(s, steps[..|steps| - 1]), steps[|steps| - 1])
  }

  function Init(K: nat): State {
    State(seq(K, _ => Idle), map[], [])
  }

  // The bound on stored sets.

  /** `key` is the global key of some user limited to L. */
  ghost predicate Encodes(key: string, L: int) {
    exists email, id :: key == Key(Dec(L), email, id)
  }

  lemma EncodesOnce(key: string, L: int, L': int)
    requires Encodes(key, L) && Encodes(key, L')
    ensures L == L'
  {
    var email, id :| key == Key(Dec(L), email, id);
    var email', id' :| key == Key(Dec(L'), email', id');
    GlobalKeySharedByNodes("", email, id, L);
    GlobalKeySharedByNodes("", email', id', L');
    GlobalKeyInjective("", email, id, L, "", email', id', L');
  }

  lemma UserKeyEncodes(u: User, limit: int)
    ensures Encodes(UserGlobalKey(u, limit), limit)
  {
    GlobalKeySharedByNodes(u.tag, u.email, u.id, limit);
  }

  ghost predicate Bounded(key: string, ips: Ips) {
    forall L: int :: Encodes(key, L) && L > 0 ==> |ips| <= L
  }

  ghost predicate GoodPhase(p: Phase) {
    p.Got? ==> Encodes(p.key, p.limit) && (p.found.Some? ==> Bounded(p.key, p.found.value))
  }

  ghost predicate Inv(s: State) {
    && (forall t :: 0 <= t < |s.threads| ==> GoodPhase(s.threads[t]))
    && (forall c :: c in s.cells ==> Bounded(c.1, s.cells[c]))
    && (forall i :: 0 <= i < |s.writes| ==> Bounded(s.writes[i].key, s.writes[i].ips))
  }

  lemma PushedBounded(key: string, found: Option<Ips>, ip: string, uid: int, limit: int)
    requires Encodes(key, limit) && (found.Some? ==> Bounded(key, found.value))
    ensures var push := Pushed(found, ip, uid, limit); push.Some? ==> Bounded(key, push.value)
  {
    forall L: int | Encodes(key, L) && L > 0
      ensures var push := Pushed(found, ip, uid, limit); push.Some? ==> |push.value| <= L
    {
      EncodesOnce(key, limit, L);
    }
  }

  lemma StepKeepsInv(s: State, step: Step)
    requires Inv(s)
    ensures Inv(Apply(s, step))
  {
    hide Encodes, Bounded, UserGlobalKey, Pushed;
    match step
    case Get(t, node, user, limit, ip, uid) => UserKeyEncodes(user, limit);
    case Decide(t) =>
      if Busy(s, t) {
        var p := s.threads[t];
        assert GoodPhase(p);
        PushedBounded(p.key, p.found, p.ip, p.uid, p.limit);
      }
    case _ =>
  }

  lemma {:induction false} RunInv(K: nat, steps: seq<Step>)
    ensures Inv(Run(Init(K), steps))
  {
    if steps != [] {
      RunInv(K, steps[..|steps| - 1]);
      StepKeepsInv(Run(Init(K), steps[..|steps| - 1]), steps[|steps| - 1]);
    }
  }

  /** Whatever interleaving of reads, pushes, refills, losses and expiries: every
      set stored under a global key that encodes a limit L > 0 has at most L IPs. */
  lemma StoredSetsBounded(K: nat, steps: seq<Step>)
    ensures var cells := Run(Init(K), steps).cells;
            forall cell, email, id, L: int :: L > 0 && (cell, Key(Dec(L), email, id)) in cells ==>
              |cells[(cell, Key(Dec(L), email, id))]| <= L
  {
    RunInv(K, steps);
    var cells := Run(Init(K), steps).cells;
    forall cell, email, id, L: int | L > 0 && (cell, Key(Dec(L), email, id)) in cells
      ensures |cells[(cell, Key(Dec(L), email, id))]| <= L
    {
      assert Encodes(Key(Dec(L), email, id), L);
      assert Bounded((cell, Key(Dec(L), email, id)).1, cells[(cell, Key(Dec(L), email, id))]);
    }
  }

  // The IPs let through.

  /** The IPs a step lets through for one global key. */
  function Through(s: State, step: Step, key: string): set<string> {
    match step
    case Decide(t) =>
      if Busy(s, t) && s.threads[t].key == key && !Rejects(s.threads[t].found, s.threads[t].ip, s.threads[t].limit)
      then {s.threads[t].ip} else {}
    case GetFails(t, user, limit, ip) => if Free(s, t) && UserGlobalKey(user, limit) == key then {ip} else {}
    case _ => {}
  }

  /** All IPs a run has let through for the key. */
  function LetThrough(K: nat, steps: seq<Step>, key: string): set<string> {
    if steps == [] then {} else
      var init, step := steps[..|steps| - 1], steps[|steps| - 1];
      LetThrough(K, init, key) + Through(Run(Init(K), init), step, key)
  }

  /** Every set around for the key has at least one IP and only IPs let through. */
  ghost predicate Known(ips: Ips, through: set<string>) {
    ips != map[] && ips.Keys <= through
  }

  ghost predicate KeyInv(s: State, key: string, through: set<string>) {
    && (forall t :: 0 <= t < |s.threads| && s.threads[t].Got? && s.threads[t].key == key && s.threads[t].found.Some? ==>
          Known(s.threads[t].found.value, through))
    && (forall c :: c in s.cells && c.1 == key ==> Known(s.cells[c], through))
    && (forall i :: 0 <= i < |s.writes| && s.writes[i].key == key ==> Known(s.writes[i].ips, through))
  }

  lemma DecideKeepsKeyInv(s: State, t: nat, key: string, through: set<string>)
    requires KeyInv(s, key, through) && Busy(s, t)
    ensures KeyInv(DecideStep(s, t), key, through + Through(s, Decide(t), key))
  {
    hide UserGlobalKey;
    var p := s.threads[t];
    var push := Pushed(p.found, p.ip, p.uid, p.limit);
    assert push.Some? && p.key == key ==> p.ip in push.value && Known(push.value, through + Through(s, Decide(t), key));
    hide Through, Pushed, Rejects;
  }

  lemma StepKeepsKeyInv(s: State, step: Step, key: string, through: set<string>)
    requires KeyInv(s, key, through)
    ensures KeyInv(Apply(s, step), key, through + Through(s, step, key))
  {
    hide UserGlobalKey, DecideStep;
    match step
    case Decide(t) =>
      if Busy(s, t) {
        DecideKeepsKeyInv(s, t, key, through);
      }
    case _ =>
  }

  lemma {:induction false} RunKeyInv(K: nat, steps: seq<Step>, key: string)
    ensures KeyInv(Run(Init(K), steps), key, LetThrough(K, steps, key))
  {
    if steps != [] {
      RunKeyInv(K, steps[..|steps| - 1], key);
      StepKeepsKeyInv(Run(Init(K), steps[..|steps| - 1]), steps[|steps| - 1], key,
                      LetThrough(K, steps[..|steps| - 1], key));
    }
  }

  // When more than L IPs are let through.

  /** Step i lets a new IP through although L were let through before: the cache
      failed, or it showed fewer than L IPs. */
  ghost predicate Overshoots(K: nat, steps: seq<Step>, i: nat, key: string, L: int) {
    i < |steps| &&
    var s, through := Run(Init(K), steps[..i]), LetThrough(K, steps[..i], key);
    |through| >= L &&
    match steps[i]
    case Decide(t) =>
      Busy(s, t) && var p := s.threads[t]; p.key == key && p.ip !in through && (p.found.None? || |p.found.value| < L)
    case GetFails(t, user, limit, ip) => Free(s, t) && UserGlobalKey(user, limit) == key && ip !in through
    case _ => false
  }

  lemma OneMore(K: nat, steps: seq<Step>, i: nat, key: string)
    requires i < |steps|
    ensures Run(Init(K), steps[..i + 1]) == Apply(Run(Init(K), steps[..i]), steps[i])
    ensures LetThrough(K, steps[..i + 1], key) ==
              LetThrough(K, steps[..i], key) + Through(Run(Init(K), steps[..i]), steps[i], key)
  {
    assert steps[..i + 1][..i] == steps[..i];
  }

  /** A step lets a new IP through beyond L exactly if it overshoots. */
  lemma StepOvershoots(K: nat, steps: seq<Step>, i: nat, user: User, L: int)
    requires i < |steps| && L > 0
    ensures var key := UserGlobalKey(user, L);
            var through := LetThrough(K, steps[..i], key);
            Overshoots(K, steps, i, key, L) <==>
                |through| >= L && !(Through(Run(Init(K), steps[..i]), steps[i], key) <= through)
  {
    var key := UserGlobalKey(user, L);
    var s, through := Run(Init(K), steps[..i]), LetThrough(K, steps[..i], key);
    RunInv(K, steps[..i]);
    RunKeyInv(K, steps[..i], key);
    if steps[i].Decide? && Busy(s, steps[i].t) {
      var p := s.threads[steps[i].t];
      assert GoodPhase(p);
      if p.key == key {
        UserKeyEncodes(user, L);
        EncodesOnce(key, L, p.limit);
      }
    }
  }

  lemma {:induction false} ThroughGrows(K: nat, steps: seq<Step>, i: nat, key: string)
    requires i <= |steps|
    ensures LetThrough(K, steps[..i], key) <= LetThrough(K, steps, key)
    decreases |steps| - i
  {
    if i < |steps| {
      OneMore(K, steps, i, key);
      ThroughGrows(K, steps, i + 1, key);
    } else {
      assert steps[..i] == steps;
    }
  }

  /** The exact condition, for every run: more than L IPs are let through if and
      only if some step overshoots, that is, decides a new IP on a failed read or
      on a set of fewer than L IPs when L were let through already. */
  lemma {:induction false} OvershootIff(K: nat, steps: seq<Step>, user: User, L: int)
    requires L > 0
    ensures |LetThrough(K, steps, UserGlobalKey(user, L))| > L <==>
              exists i: nat :: Overshoots(K, steps, i, UserGlobalKey(user, L), L)
  {
    var key := UserGlobalKey(user, L);
    if i: nat :| Overshoots(K, steps, i, key, L) {
      StepOvershoots(K, steps, i, user, L);
      OneMore(K, steps, i, key);
      ThroughGrows(K, steps, i + 1, key);
      MoreThan(LetThrough(K, steps[..i], key), LetThrough(K, steps[..i + 1], key));
      AtMost(LetThrough(K, steps[..i + 1], key), LetThrough(K, steps, key));
    }
    if |LetThrough(K, steps, key)| > L {
      var i := FirstBeyond(K, steps, key, L);
      OneMore(K, steps, i, key);
      AddingFew(LetThrough(K, steps[..i], key), Through(Run(Init(K), steps[..i]), steps[i], key));
      StepOvershoots(K, steps, i, user, L);
    }
  }

  /** The step that passes the bound. */
  lemma {:induction false} FirstBeyond(K: nat, steps: seq<Step>, key: string, L: int) returns (i: nat)
    requires |LetThrough(K, steps, key)| > L >= 0
    ensures i < |steps| && |LetThrough(K, steps[..i], key)| <= L < |LetThrough(K, steps[..i + 1], key)|
  {
    hide Run, Through;
    var init := steps[..|steps| - 1];
    if |LetThrough(K, init, key)| > L {
      i := FirstBeyond(K, init, key, L);
      assert init[..i] == steps[..i] && init[..i + 1] == steps[..i + 1];
    } else {
      i := |init|;
      assert steps[..i + 1] == steps;
    }
  }

  // Without any discipline there is no bound.

  lemma RunOne(K: nat, steps: seq<Step>, step: Step, key: string)
    ensures Run(Init(K), steps + [step]) == Apply(Run(Init(K), steps), step)
    ensures LetThrough(K, steps + [step], key) == LetThrough(K, steps, key) + Through(Run(Init(K), steps), step, key)
  {
    assert (steps + [step])[..|steps|] == steps;
  }

  /** K connections, the first `n` of which read an empty cache, and the first `d`
      of those were let through. */
  ghost predicate AllMissed(K: nat, steps: seq<Step>, key: string, L: int, d: nat, n: nat) {
    var s := Run(Init(K), steps);
    && LetThrough(K, steps, key) == Numerals(d) && |s.threads| == K && (d == 0 ==> s.cells == map[])
    && forall t :: 0 <= t < K ==>
         s.threads[t] == if t < d then Admitted(Dec(t)) else if t < n then Got(0, key, L, Dec(t), 0, None) else Idle
  }

  lemma NothingYet(K: nat, key: string)
    ensures LetThrough(K, [], key) == Numerals(0)
  {
  }

  lemma GetMisses(s: State, t: nat, user: User, L: int, ip: string)
    requires Free(s, t) && s.cells == map[]
    ensures var s' := Apply(s, Get(t, 0, user, L, ip, 0));
            s'.threads == s.threads[t := Got(0, UserGlobalKey(user, L), L, ip, 0, None)] && s'.cells == map[]
    ensures Through(s, Get(t, 0, user, L, ip, 0), UserGlobalKey(user, L)) == {}
  {
    hide UserGlobalKey;
  }

  lemma {:induction false} AllRead(K: nat, user: User, L: int, n: nat) returns (steps: seq<Step>)
    requires n <= K
    ensures AllMissed(K, steps, UserGlobalKey(user, L), L, 0, n)
  {
    hide UserGlobalKey, Dec, LetThrough;
    steps := [];
    if n == 0 {
      assert LetThrough(K, [], UserGlobalKey(user, L)) == Numerals(0) by {
        NothingYet(K, UserGlobalKey(user, L));
      }
    } else {
      var before := AllRead(K, user, L, n - 1);
      var step := Get(n - 1, 0, user, L, Dec(n - 1), 0);
      RunOne(K, before, step, UserGlobalKey(user, L));
      GetMisses(Run(Init(K), before), n - 1, user, L, Dec(n - 1));
      steps := before + [step];
    }
  }

  lemma {:induction false} AllDecide(K: nat, user: User, L: int, d: nat) returns (steps: seq<Step>)
    requires d <= K
    ensures AllMissed(K, steps, UserGlobalKey(user, L), L, d, K)
  {
    hide UserGlobalKey, Dec;
    if d == 0 {
      steps := AllRead(K, user, L, K);
    } else {
      var before := AllDecide(K, user, L, d - 1);
      RunOne(K, before, Decide(d - 1), UserGlobalKey(user, L));
      steps := before + [Decide(d - 1)];
    }
  }

  /** The stored sets are bounded, the IPs let through are not: whatever the limit,
      K connections that all read before any push lands are all let through. */
  lemma Overshoot(K: nat, user: User, L: int) returns (steps: seq<Step>)
    ensures |LetThrough(K, steps, UserGlobalKey(user, L))| == K
  {
    hide UserGlobalKey;
    steps := AllDecide(K, user, L, K);
    NumeralsSize(K);
  }

  // Small laws of sets.

  lemma MoreThan<T>(a: set<T>, b: set<T>)
    requires a <= b && a != b
    ensures |a| < |b|
  {
    assert b == a + (b - a) && b - a != {};
  }

  lemma AddingFew<T>(a: set<T>, b: set<T>)
    requires |b| <= 1
    ensures b <= a ==> a + b == a
    ensures |a + b| <= |a| + 1
  {
    if b <= a {
      assert a + b == a;
    } else {
      assert |a + b| == |a| + |b - a|;
      AtMost(b - a, b);
    }
  }
}
