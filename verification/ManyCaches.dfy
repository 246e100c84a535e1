/** How many IPs a settled run lets through on many nodes: the exact number. Only
    the first two additions may go to caches that show too little; every other
    node starts one short. */
module ManyCaches {
  import opened Basics
  import opened Decimal
  import opened GlobalLimit
  import opened SettledCache

  /** The step adds an IP to the key's set. */
  predicate Adds(s: State, step: Step, key: string) {
    step.Decide? && Busy(s, step.t) && s.threads[step.t].key == key &&
    var p := s.threads[step.t];
    Pushed(p.found, p.ip, p.uid, p.limit).Some?
  }

  /** The nodes at which IPs were added, in order. */
  function AddNodes(K: nat, steps: seq<Step>, key: string): seq<nat> {
    if steps == [] then [] else
      var init, step := steps[..|steps| - 1], steps[|steps| - 1];
      var s := Run(Init(K), init);
      AddNodes(K, init, key) + if Adds(s, step, key) then [s.threads[step.t].node] else []
  }

  /** The node made the first or the second addition. */
  predicate Early(order: seq<nat>, node: nat) {
    (|order| > 0 && order[0] == node) || (|order| > 1 && order[1] == node)
  }

  // The shared cache after n additions.

  ghost predicate AwaitedShared(s: State, w: Write, key: string) {
    w in s.writes && w.key == key && w.cell == Shared
  }

  ghost predicate SharedCell(s: State, key: string, n: nat) {
    && (n >= 1 ==> (Shared, key) in s.cells || exists w :: AwaitedShared(s, w, key))
    && (forall w :: AwaitedShared(s, w, key) && n >= 2 ==> |w.ips| >= 2)
    && ((Shared, key) in s.cells && (forall w :: !AwaitedShared(s, w, key)) && n >= 2 ==> |s.cells[(Shared, key)]| >= 2)
  }

  ghost predicate SharedRead(s: State, key: string, n: nat) {
    forall t: nat :: Deciding(s, t, key) ==>
      && (n >= 1 ==> s.threads[t].found.Some?) && (forall w :: !AwaitedShared(s, w, key))
      && forall w :: Awaited(s, w, key, s.threads[t].node) && n >= 2 ==> |w.ips| >= 2
  }

  ghost predicate SharedInv(s: State, key: string, n: nat) {
    OneDecides(s, key) && SharedCell(s, key, n) && SharedRead(s, key, n)
  }

  lemma SharedGetCell(s: State, step: Step, key: string, n: nat)
    requires SharedCell(s, key, n) && step.Get?
    ensures SharedCell(Apply(s, step), key, n)
  {
    hide UserGlobalKey;
    var s' := Apply(s, step);
    assert forall w :: AwaitedShared(s', w, key) <==> AwaitedShared(s, w, key);
  }

  lemma SharedGetRead(s: State, step: Step, key: string, n: nat)
    requires SharedCell(s, key, n) && SharedRead(s, key, n) && step.Get? && SettledStep(s, step, key)
    ensures SharedRead(Apply(s, step), key, n)
  {
    hide UserGlobalKey;
    var s' := Apply(s, step);
    assert forall w :: AwaitedShared(s', w, key) <==> AwaitedShared(s, w, key);
    forall t: nat | Deciding(s', t, key)
      ensures n >= 1 ==> s'.threads[t].found.Some?
      ensures forall w :: !AwaitedShared(s', w, key)
      ensures forall w :: Awaited(s', w, key, s'.threads[t].node) && n >= 2 ==> |w.ips| >= 2
    {
      if t == step.t && Free(s, t) {
        assert forall w :: !AwaitedShared(s, w, key);
        forall w | Awaited(s', w, key, s'.threads[t].node) && n >= 2 ensures |w.ips| >= 2 {
          RefillOnly(s, step, key, s'.threads[t].node, w);
        }
      } else {
        assert Deciding(s, t, key);
        forall w | Awaited(s', w, key, s'.threads[t].node) && n >= 2 ensures |w.ips| >= 2 {
          if !Awaited(s, w, key, s'.threads[t].node) {
            RefillOnly(s, step, key, s'.threads[t].node, w);
          }
        }
      }
    }
  }

  lemma DecideShared(s: State, step: Step, key: string, w: Write)
    requires step.Decide? && Busy(s, step.t)
    ensures AwaitedShared(Apply(s, step), w, key) <==>
              AwaitedShared(s, w, key) ||
              (Adds(s, step, key) &&
               var p := s.threads[step.t];
               w == Write(Shared, key, Pushed(p.found, p.ip, p.uid, p.limit).value))
  {
  }

  lemma SharedDecideCell(s: State, step: Step, key: string, n: nat, through: set<string>)
    requires SharedInv(s, key, n) && KeyInv(s, key, through) && step.Decide?
    ensures SharedCell(Apply(s, step), key, n + if Adds(s, step, key) then 1 else 0)
  {
    hide DecideStep, Known, Pushed;
    if Busy(s, step.t) {
      var s', p := Apply(s, step), s.threads[step.t];
      DecideKeepsCells(s, step);
      forall w ensures AwaitedShared(s, w, key) ==> AwaitedShared(s', w, key) {
        DecideShared(s, step, key, w);
      }
      if Adds(s, step, key) {
        assert Deciding(s, step.t, key);
        var push := Write(Shared, key, Pushed(p.found, p.ip, p.uid, p.limit).value);
        DecideShared(s, step, key, push);
        PushedSize(p.found, p.ip, p.uid, p.limit);
        if p.found.Some? {
          KnownSize(p.found.value, through);
        }
        forall w | AwaitedShared(s', w, key) ensures w == push {
          DecideShared(s, step, key, w);
        }
      } else {
        forall w ensures AwaitedShared(s', w, key) ==> AwaitedShared(s, w, key) {
          DecideShared(s, step, key, w);
        }
      }
    }
  }

  lemma SharedDecideRead(s: State, step: Step, key: string, n: nat)
    requires OneDecides(s, key) && SharedRead(s, key, n) && step.Decide?
    ensures SharedRead(Apply(s, step), key, n + if Adds(s, step, key) then 1 else 0)
  {
    hide DecideStep, Pushed;
    if Busy(s, step.t) {
      var s' := Apply(s, step);
      DecideFrees(s, step);
      forall t: nat | Deciding(s', t, key)
        ensures Deciding(s, t, key) && s'.threads[t] == s.threads[t] && !Deciding(s, step.t, key)
      {
        assert t != step.t;
      }
      forall w | !Adds(s, step, key) ensures AwaitedShared(s', w, key) ==> AwaitedShared(s, w, key) {
        DecideShared(s, step, key, w);
      }
      forall w, node | !Adds(s, step, key) ensures Awaited(s', w, key, node) ==> Awaited(s, w, key, node) {
        DecideAwaits(s, step, key, node, w);
      }
    }
  }

  lemma DecideFrees(s: State, step: Step)
    requires step.Decide? && Busy(s, step.t)
    ensures var s' := Apply(s, step);
            && |s'.threads| == |s.threads| && !s'.threads[step.t].Got?
            && forall t :: 0 <= t < |s.threads| && t != step.t ==> s'.threads[t] == s.threads[t]
  {
  }

  lemma SharedDrop(s: State, step: Step, key: string, n: nat)
    requires SharedInv(s, key, n) && (step.Land? || step.Lose?) && SettledStep(s, step, key)
    ensures SharedCell(Apply(s, step), key, n) && SharedRead(Apply(s, step), key, n)
  {
    var s', i := Apply(s, step), step.i;
    if i < |s.writes| {
      WithoutOne(s.writes, i);
      assert s.writes[i] in s.writes;
      assert forall w :: AwaitedShared(s', w, key) ==> AwaitedShared(s, w, key);
      assert forall w :: AwaitedShared(s, w, key) && w != s.writes[i] ==> AwaitedShared(s', w, key);
      assert forall w, node :: Awaited(s', w, key, node) ==> Awaited(s, w, key, node);
      assert forall t: nat :: Deciding(s', t, key) ==> Deciding(s, t, key) && s'.threads[t] == s.threads[t];
    }
  }

  lemma SharedRest(s: State, step: Step, key: string, n: nat)
    requires SharedInv(s, key, n) && (step.GetFails? || step.Expire?) && SettledStep(s, step, key)
    ensures SharedCell(Apply(s, step), key, n) && SharedRead(Apply(s, step), key, n)
  {
    hide UserGlobalKey;
    var s' := Apply(s, step);
    assert forall w :: AwaitedShared(s', w, key) <==> AwaitedShared(s, w, key);
    assert forall w, node :: Awaited(s', w, key, node) ==> Awaited(s, w, key, node);
    assert forall t: nat :: Deciding(s', t, key) ==> Deciding(s, t, key) && s'.threads[t] == s.threads[t];
  }

  lemma SharedStep(s: State, step: Step, key: string, n: nat, through: set<string>)
    requires SharedInv(s, key, n) && KeyInv(s, key, through) && SettledStep(s, step, key)
    ensures SharedInv(Apply(s, step), key, n + if Adds(s, step, key) then 1 else 0)
  {
    hide OneDecides, SharedCell, SharedRead, KeyInv, SettledStep, Apply;
    if step.Get? {
      GetKeepsDecides(s, step, key);
      SharedGetCell(s, step, key, n);
      SharedGetRead(s, step, key, n);
    } else {
      OtherKeepsDecides(s, step, key);
      if step.Decide? {
        SharedDecideCell(s, step, key, n, through);
        SharedDecideRead(s, step, key, n);
      } else if step.Land? || step.Lose? {
        SharedDrop(s, step, key, n);
      } else {
        SharedRest(s, step, key, n);
      }
    }
  }

  // The bound.

  lemma {:induction false} RunShared(K: nat, steps: seq<Step>, key: string)
    requires Settled(K, steps, key)
    ensures SharedInv(Run(Init(K), steps), key, |AddNodes(K, steps, key)|)
  {
    if steps != [] {
      var init, step := steps[..|steps| - 1], steps[|steps| - 1];
      SettledPrefix(K, steps, key);
      RunShared(K, init, key);
      RunKeyInv(K, init, key);
      SharedStep(Run(Init(K), init), step, key, |AddNodes(K, init, key)|, LetThrough(K, init, key));
    }
  }

  lemma LateFits(s: State, step: Step, key: string, node: nat, n: nat)
    requires SharedInv(s, key, n) && (Adding(s, step, key, node) != {} ==> n >= 2)
    ensures Fits(s, step, key, node, 1)
  {
    if step.Decide? && Adding(s, step, key, node) != {} {
      assert Deciding(s, step.t, key);
    }
  }

  /** A node that made neither of the first two additions always has one to spare. */
  lemma {:induction false} RunSpare(K: nat, steps: seq<Step>, key: string, node: nat)
    requires Settled(K, steps, key) && !Early(AddNodes(K, steps, key), node)
    ensures NodeInv(Run(Init(K), steps), key, node, AddedAt(K, steps, key, node), 1)
  {
    if steps != [] {
      var init, step := steps[..|steps| - 1], steps[|steps| - 1];
      var s, order := Run(Init(K), init), AddNodes(K, init, key);
      SettledPrefix(K, steps, key);
      RunShared(K, init, key);
      RunKeyInv(K, init, key);
      assert !Early(order, node) && (Adding(s, step, key, node) != {} ==> |order| >= 2);
      RunSpare(K, init, key, node);
      LateFits(s, step, key, node, |order|);
      StepKeepsNode(s, step, key, node, AddedAt(K, init, key, node), 1, LetThrough(K, init, key));
    }
  }

  /** So it adds at most L - 1 IPs. */
  lemma SpareBound(K: nat, steps: seq<Step>, user: User, L: nat, node: nat)
    requires L > 0 && Settled(K, steps, UserGlobalKey(user, L))
    requires !Early(AddNodes(K, steps, UserGlobalKey(user, L)), node)
    ensures |AddedAt(K, steps, UserGlobalKey(user, L), node)| <= L - 1
  {
    var s, key := Run(Init(K), steps), UserGlobalKey(user, L);
    var added := AddedAt(K, steps, key, node);
    RunSpare(K, steps, key, node);
    RunInv(K, steps);
    UserKeyEncodes(user, L);
    if w :| Awaited(s, w, key, node) {
      assert Bounded(key, w.ips);
    } else if (Local(node), key) in s.cells {
      assert Bounded((Local(node), key).1, s.cells[(Local(node), key)]);
    } else {
      assert added == {};
    }
  }

  function EarlyBelow(order: seq<nat>, M: nat): nat {
    if M == 0 then 0 else EarlyBelow(order, M - 1) + if Early(order, M - 1) then 1 else 0
  }

  lemma {:induction false} FewEarly(order: seq<nat>, M: nat)
    ensures EarlyBelow(order, M) <=
              (if |order| > 0 && order[0] < M then 1 else 0) + (if |order| > 1 && order[1] < M then 1 else 0)
  {
    if M > 0 {
      FewEarly(order, M - 1);
    }
  }

  lemma {:induction false} BelowExact(K: nat, steps: seq<Step>, user: User, L: nat, M: nat)
    requires L > 0 && Settled(K, steps, UserGlobalKey(user, L))
    ensures var key := UserGlobalKey(user, L);
            |AddedBelow(K, steps, key, M)| <= M * (L - 1) + EarlyBelow(AddNodes(K, steps, key), M)
  {
    hide UserGlobalKey, Settled, AddedAt, AddNodes, Early;
    if M > 0 {
      var key := UserGlobalKey(user, L);
      var below, at := AddedBelow(K, steps, key, M - 1), AddedAt(K, steps, key, M - 1);
      BelowExact(K, steps, user, L, M - 1);
      SumBound(below, at);
      if Early(AddNodes(K, steps, key), M - 1) {
        NodeBound(K, steps, user, L, M - 1);
        OneNodeMore(M, L, |below|, EarlyBelow(AddNodes(K, steps, key), M - 1), |at|, 1);
      } else {
        SpareBound(K, steps, user, L, M - 1);
        OneNodeMore(M, L, |below|, EarlyBelow(AddNodes(K, steps, key), M - 1), |at|, 0);
      }
    }
  }

  lemma OneNodeMore(M: nat, L: nat, below: nat, early: nat, at: nat, one: nat)
    requires M > 0 && L > 0 && below <= (M - 1) * (L - 1) + early && at <= L - 1 + one
    ensures below + at <= M * (L - 1) + (early + one)
  {
    assert (M - 1) * (L - 1) + (L - 1) == M * (L - 1);
  }

  /** Each addition lets through at most one IP more, and nothing else does. */
  lemma {:induction false} ThroughByAdds(K: nat, steps: seq<Step>, key: string)
    requires Settled(K, steps, key)
    ensures |LetThrough(K, steps, key)| <= |AddNodes(K, steps, key)|
  {
    if steps != [] {
      var init, step := steps[..|steps| - 1], steps[|steps| - 1];
      var s, through := Run(Init(K), init), LetThrough(K, init, key);
      SettledPrefix(K, steps, key);
      ThroughByAdds(K, init, key);
      RunKeyInv(K, init, key);
      AddingFew(through, Through(s, step, key));
      if step.Decide? && Deciding(s, step.t, key) && !Adds(s, step, key) {
        var p := s.threads[step.t];
        if !Rejects(p.found, p.ip, p.limit) {
          assert Known(p.found.value, through) && p.ip in p.found.value.Keys;
        }
      }
    }
  }

  /** Under limit 1 there is never a second addition. */
  lemma {:induction false} OneAddition(K: nat, steps: seq<Step>, user: User)
    requires Settled(K, steps, UserGlobalKey(user, 1))
    ensures |AddNodes(K, steps, UserGlobalKey(user, 1))| <= 1
  {
    if steps != [] {
      var key := UserGlobalKey(user, 1);
      var init, step := steps[..|steps| - 1], steps[|steps| - 1];
      var s := Run(Init(K), init);
      SettledPrefix(K, steps, key);
      OneAddition(K, init, user);
      RunShared(K, init, key);
      RunKeyInv(K, init, key);
      RunInv(K, init);
      if Adds(s, step, key) {
        var p := s.threads[step.t];
        assert Deciding(s, step.t, key) && GoodPhase(p);
        UserKeyEncodes(user, 1);
        EncodesOnce(key, 1, p.limit);
        if p.found.Some? {
          KnownSize(p.found.value, LetThrough(K, init, key));
        }
      }
    }
  }

  /** The most that M nodes together let through under limit L. */
  function Cap(M: nat, L: nat): nat
    requires L > 0
  {
    if M == 0 then 0 else if L == 1 then 1 else if M == 1 then L else M * (L - 1) + 2
  }

  /** No settled run that uses M nodes lets more through. */
  lemma SettledNodesBound(K: nat, steps: seq<Step>, user: User, L: nat, M: nat)
    requires L > 0 && Settled(K, steps, UserGlobalKey(user, L)) && UsesNodes(steps, UserGlobalKey(user, L), M)
    ensures |LetThrough(K, steps, UserGlobalKey(user, L))| <= Cap(M, L)
  {
    hide UserGlobalKey, Settled, UsesNodes, LetThrough, AddedAt, AddNodes, Early;
    var key := UserGlobalKey(user, L);
    ThroughIsAdded(K, steps, key, M);
    AtMost(LetThrough(K, steps, key), AddedBelow(K, steps, key, M));
    if L == 1 {
      ThroughByAdds(K, steps, key);
      OneAddition(K, steps, user);
    }
    if M == 1 {
      NodeBound(K, steps, user, L, 0);
      assert AddedBelow(K, steps, key, 0) == {};
      SumBound(AddedBelow(K, steps, key, 0), AddedAt(K, steps, key, 0));
    }
    BelowExact(K, steps, user, L, M);
    FewEarly(AddNodes(K, steps, key), M);
  }

  // The bound is attained.

  /** A settled run of one connection on nodes 0..M-1, all writes landed. */
  ghost predicate Rest(M: nat, steps: seq<Step>, key: string, cells: map<(Cell, string), Ips>, through: set<string>) {
    var s := Run(Init(1), steps);
    && Settled(1, steps, key) && UsesNodes(steps, key, M) && LetThrough(1, steps, key) == through
    && Free(s, 0) && |s.threads| == 1 && s.cells == cells && s.writes == []
  }

  ghost predicate Fine(M: nat, steps: seq<Step>, key: string) {
    Settled(1, steps, key) && UsesNodes(steps, key, M)
  }

  lemma Snoc(M: nat, steps: seq<Step>, step: Step, key: string)
    requires Fine(M, steps, key) && SettledStep(Run(Init(1), steps), step, key) && (step.Get? ==> step.node < M)
    ensures Fine(M, steps + [step], key)
    ensures Run(Init(1), steps + [step]) == Apply(Run(Init(1), steps), step)
    ensures var through := Through(Run(Init(1), steps), step, key);
            LetThrough(1, steps + [step], key) == if through == {} then LetThrough(1, steps, key)
              else LetThrough(1, steps, key) + through
  {
    hide UserGlobalKey, Apply, Through, SettledStep;
    var all := steps + [step];
    assert all[..|steps|] == steps;
    forall i | 0 <= i < |all| ensures SettledStep(Run(Init(1), all[..i]), all[i], key) {
      if i < |steps| {
        assert all[..i] == steps[..i];
      }
    }
  }

  lemma GetOnly(s: State, user: User, L: nat, node: nat, ip: string)
    requires Free(s, 0) && |s.threads| == 1 && s.writes == []
    ensures var key := UserGlobalKey(user, L);
            Apply(s, Get(0, node, user, L, ip, 0)) ==
              State([Got(node, key, L, ip, 0, Read(s, node, key))], s.cells, Refill(s, node, key))
    ensures forall key ::
              SettledStep(s, Get(0, node, user, L, ip, 0), key) && Through(s, Get(0, node, user, L, ip, 0), key) == {}
  {
    hide UserGlobalKey;
    assert s.threads[0 := Idle] == [Idle];
  }

  lemma DecideOnly(s: State, node: nat, key: string, L: nat, ip: string, found: Option<Ips>)
    requires s.threads == [Got(node, key, L, ip, 0, found)] && Pushed(found, ip, 0, L).Some?
    ensures var push := Pushed(found, ip, 0, L).value;
            Apply(s, Decide(0)) ==
              State([Admitted(ip)], s.cells, s.writes + [Write(Local(node), key, push), Write(Shared, key, push)])
    ensures Through(s, Decide(0), key) == {ip}
  {
  }

  /** Read and decide, from rest. */
  lemma ReadAndDecide(M: nat, steps: seq<Step>, user: User, L: nat, node: nat, ip: string,
                      cells: map<(Cell, string), Ips>, through: set<string>)
    returns (steps': seq<Step>)
    requires Rest(M, steps, UserGlobalKey(user, L), cells, through) && node < M
    requires Pushed(Read(Run(Init(1), steps), node, UserGlobalKey(user, L)), ip, 0, L).Some?
    ensures var key := UserGlobalKey(user, L);
            var s := Run(Init(1), steps);
            var push := Pushed(Read(s, node, key), ip, 0, L).value;
            && steps' == steps + [Get(0, node, user, L, ip, 0)] + [Decide(0)]
            && Fine(M, steps', key) && LetThrough(1, steps', key) == through + {ip}
            && Run(Init(1), steps') ==
                 State([Admitted(ip)], cells,
                       Refill(s, node, key) + [Write(Local(node), key, push), Write(Shared, key, push)])
  {
    var key, s := UserGlobalKey(user, L), Run(Init(1), steps);
    hide *;
    RestFacts(M, steps, key, cells, through);
    var get := Get(0, node, user, L, ip, 0);
    GetOnly(s, user, L, node, ip);
    Snoc(M, steps, get, key);
    var mid := Run(Init(1), steps + [get]);
    DecideOnly(mid, node, key, L, ip, Read(s, node, key));
    assert SettledStep(mid, Decide(0), key) by {
      DecideSettled(mid, key);
    }
    Snoc(M, steps + [get], Decide(0), key);
    steps' := steps + [get] + [Decide(0)];
  }

  lemma RestFacts(M: nat, steps: seq<Step>, key: string, cells: map<(Cell, string), Ips>, through: set<string>)
    requires Rest(M, steps, key, cells, through)
    ensures Fine(M, steps, key) && LetThrough(1, steps, key) == through
    ensures var s := Run(Init(1), steps); Free(s, 0) && |s.threads| == 1 && s.cells == cells && s.writes == []
  {
  }

  lemma DecideSettled(s: State, key: string)
    ensures SettledStep(s, Decide(0), key)
  {
  }

  /** Let write i land. */
  lemma Landing(M: nat, steps: seq<Step>, i: nat, key: string)
    requires Fine(M, steps, key) && i < |Run(Init(1), steps).writes|
    ensures Fine(M, steps + [Land(i)], key) && LetThrough(1, steps + [Land(i)], key) == LetThrough(1, steps, key)
    ensures var s, s' := Run(Init(1), steps), Run(Init(1), steps + [Land(i)]);
            && s'.threads == s.threads && s'.writes == Without(s.writes, i)
            && s'.cells == s.cells[(s.writes[i].cell, s.writes[i].key) := s.writes[i].ips]
  {
    hide Settled, UsesNodes;
    Snoc(M, steps, Land(i), key);
  }

  /** Writes land in the order in which they were issued. */
  predicate InOrder(steps: seq<Step>) {
    forall i :: 0 <= i < |steps| && steps[i].Land? ==> steps[i].i == 0
  }

  /** A new IP at a node whose own cache has room. */
  lemma AdmitMore(M: nat, steps: seq<Step>, user: User, L: nat, node: nat, ip: string, cells: map<(Cell, string), Ips>,
                  through: set<string>)
    returns (steps': seq<Step>)
    requires Rest(M, steps, UserGlobalKey(user, L), cells, through) && node < M
    requires var key := UserGlobalKey(user, L);
             var found := Read(Run(Init(1), steps), node, key);
             Refill(Run(Init(1), steps), node, key) == [] && (found.Some? ==> ip !in found.value && |found.value| < L)
    ensures var key := UserGlobalKey(user, L);
            var push := Pushed(Read(Run(Init(1), steps), node, key), ip, 0, L).value;
            Rest(M, steps', key, cells[(Local(node), key) := push][(Shared, key) := push], through + {ip})
    ensures InOrder(steps) ==> InOrder(steps')
  {
    var key := UserGlobalKey(user, L);
    hide UserGlobalKey, Settled, UsesNodes, Run, LetThrough;
    var push := Pushed(Read(Run(Init(1), steps), node, key), ip, 0, L).value;
    steps' := ReadAndDecide(M, steps, user, L, node, ip, cells, through);
    BothLand(M, steps', key, node, push, cells);
    steps' := steps' + [Land(0)] + [Land(0)];
  }

  /** Both writes of an admission land. */
  lemma BothLand(M: nat, steps: seq<Step>, key: string, node: nat, push: Ips, cells: map<(Cell, string), Ips>)
    requires Fine(M, steps, key)
    requires var s := Run(Init(1), steps);
             s.cells == cells && s.writes == [Write(Local(node), key, push), Write(Shared, key, push)]
    ensures var steps' := steps + [Land(0)] + [Land(0)];
            var s, s' := Run(Init(1), steps), Run(Init(1), steps');
            && Fine(M, steps', key) && LetThrough(1, steps', key) == LetThrough(1, steps, key)
            && s'.threads == s.threads && s'.writes == []
            && s'.cells == cells[(Local(node), key) := push][(Shared, key) := push]
  {
    hide Settled, UsesNodes, Run, LetThrough, Fine;
    Landing(M, steps, 0, key);
    assert Run(Init(1), steps + [Land(0)]).writes == [Write(Shared, key, push)];
    Landing(M, steps + [Land(0)], 0, key);
  }

  /** The first IP at a node whose own cache is still empty; the copy of what it
      found in the shared cache lands last. */
  lemma AdmitFirst(M: nat, steps: seq<Step>, user: User, L: nat, node: nat, ip: string, cells: map<(Cell, string), Ips>,
                   through: set<string>)
    returns (steps': seq<Step>)
    requires Rest(M, steps, UserGlobalKey(user, L), cells, through) && node < M
    requires var key := UserGlobalKey(user, L);
             && (Local(node), key) !in cells && (Shared, key) in cells
             && ip !in cells[(Shared, key)] && |cells[(Shared, key)]| < L
    ensures var key := UserGlobalKey(user, L);
            var found := cells[(Shared, key)];
            Rest(M, steps', key, cells[(Shared, key) := found[ip := 0]][(Local(node), key) := found], through + {ip})
  {
    var key := UserGlobalKey(user, L);
    hide UserGlobalKey, Settled, UsesNodes, Run, LetThrough;
    var found := cells[(Shared, key)];
    var push := found[ip := 0];
    steps' := ReadAndDecide(M, steps, user, L, node, ip, cells, through);
    assert Run(Init(1), steps').writes == [Write(Local(node), key, found), Write(Local(node), key, push),
                                           Write(Shared, key, push)];
    Landing(M, steps', 1, key);
    assert Run(Init(1), steps' + [Land(1)]).writes == [Write(Local(node), key, found), Write(Shared, key, push)];
    Landing(M, steps' + [Land(1)], 1, key);
    assert Run(Init(1), steps' + [Land(1)] + [Land(1)]).writes == [Write(Local(node), key, found)];
    Landing(M, steps' + [Land(1)] + [Land(1)], 0, key);
    steps' := steps' + [Land(1)] + [Land(1)] + [Land(0)];
    assert Without([Write(Local(node), key, found)], 0) == [];
  }

  /** An IP that is known already, at a node whose own cache is still empty: nothing
      is pushed, but the shared set is copied into the node's cache. */
  lemma CopyAt(M: nat, steps: seq<Step>, user: User, L: nat, node: nat, ip: string, cells: map<(Cell, string), Ips>,
               through: set<string>)
    returns (steps': seq<Step>)
    requires Rest(M, steps, UserGlobalKey(user, L), cells, through) && node < M && ip in through
    requires var key := UserGlobalKey(user, L);
             (Local(node), key) !in cells && (Shared, key) in cells && ip in cells[(Shared, key)]
    ensures var key := UserGlobalKey(user, L);
            Rest(M, steps', key, cells[(Local(node), key) := cells[(Shared, key)]], through)
  {
    var key := UserGlobalKey(user, L);
    hide UserGlobalKey, Settled, UsesNodes, Run, LetThrough, Apply, Through, SettledStep;
    var found := cells[(Shared, key)];
    var decided := ReadKnown(M, steps, user, L, node, ip, cells, through);
    Landing(M, decided, 0, key);
    steps' := decided + [Land(0)];
    assert Without([Write(Local(node), key, found)], 0) == [];
  }

  /** Read and decide, for a known IP. */
  lemma ReadKnown(M: nat, steps: seq<Step>, user: User, L: nat, node: nat, ip: string, cells: map<(Cell, string), Ips>,
                  through: set<string>)
    returns (steps': seq<Step>)
    requires Rest(M, steps, UserGlobalKey(user, L), cells, through) && node < M && ip in through
    requires var key := UserGlobalKey(user, L);
             (Local(node), key) !in cells && (Shared, key) in cells && ip in cells[(Shared, key)]
    ensures var key := UserGlobalKey(user, L);
            && Fine(M, steps', key) && LetThrough(1, steps', key) == through
            && Run(Init(1), steps') == State([Admitted(ip)], cells, [Write(Local(node), key, cells[(Shared, key)])])
  {
    var key, s := UserGlobalKey(user, L), Run(Init(1), steps);
    var get, found := Get(0, node, user, L, ip, 0), cells[(Shared, key)];
    assert Read(s, node, key) == Some(found) && Refill(s, node, key) == [Write(Local(node), key, found)] by {
      RestFacts(M, steps, key, cells, through);
    }
    hide *;
    RestFacts(M, steps, key, cells, through);
    GetOnly(s, user, L, node, ip);
    Snoc(M, steps, get, key);
    var mid := Run(Init(1), steps + [get]);
    KnownIpOnly(mid, node, key, L, ip, found);
    DecideSettled(mid, key);
    Snoc(M, steps + [get], Decide(0), key);
    steps' := steps + [get] + [Decide(0)];
    assert through + {ip} == through;
  }

  lemma KnownIpOnly(s: State, node: nat, key: string, L: nat, ip: string, found: Ips)
    requires s.threads == [Got(node, key, L, ip, 0, Some(found))] && ip in found
    ensures Apply(s, Decide(0)) == State([Admitted(ip)], s.cells, s.writes)
    ensures Through(s, Decide(0), key) == {ip}
  {
  }

  lemma NextIsNew(steps: seq<Step>, key: string, n: nat, cell: Cell)
    requires LetThrough(1, steps, key) == Numerals(n) && (cell, key) in Run(Init(1), steps).cells
    ensures Dec(n) !in Run(Init(1), steps).cells[(cell, key)]
  {
    hide Numerals;
    RunKeyInv(1, steps, key);
    NumeralNew(n, n);
    assert Known(Run(Init(1), steps).cells[(cell, key)], Numerals(n));
  }

  /** At rest with `n` IPs let through. */
  ghost predicate Resting(M: nat, steps: seq<Step>, key: string, n: nat) {
    Rest(M, steps, key, Run(Init(1), steps).cells, Numerals(n))
  }

  /** `k` IPs in the node's own cache. */
  ghost predicate Shows(steps: seq<Step>, key: string, node: nat, k: nat) {
    var cells := Run(Init(1), steps).cells;
    (Local(node), key) in cells && |cells[(Local(node), key)]| == k
  }

  // One IP at node 1, copied to nodes 2, 3, ..; then another one at node 0.

  /** Nodes 1..c-1 and the shared cache hold the first IP, node 0 and the rest nothing. */
  ghost predicate Copied(M: nat, steps: seq<Step>, key: string, c: nat) {
    var cells := Run(Init(1), steps).cells;
    && Resting(M, steps, key, 1)
    && (Shared, key) in cells && cells[(Shared, key)] == map[Dec(0) := 0]
    && forall j: nat :: if 1 <= j < c then (Local(j), key) in cells && cells[(Local(j), key)] == map[Dec(0) := 0]
                        else (Local(j), key) !in cells
  }

  lemma FirstAt(M: nat, user: User, L: nat, node: nat) returns (steps: seq<Step>)
    requires node < M && L >= 1
    ensures var key := UserGlobalKey(user, L);
            var one := map[Dec(0) := 0];
            Rest(M, steps, key, map[(Local(node), key) := one, (Shared, key) := one], Numerals(1))
    ensures InOrder(steps)
  {
    var key := UserGlobalKey(user, L);
    hide UserGlobalKey, Dec;
    assert Run(Init(1), []) == Init(1) && Rest(M, [], key, map[], {});
    assert {} + {Dec(0)} == Numerals(1) == {Dec(0)} by {
      assert Numerals(0) == {};
    }
    steps := AdmitMore(M, [], user, L, node, Dec(0), map[], {});
  }

  lemma {:induction false} CopyAll(M: nat, user: User, L: nat, c: nat) returns (steps: seq<Step>)
    requires 2 <= c <= M && L >= 2
    ensures Copied(M, steps, UserGlobalKey(user, L), c)
  {
    var key := UserGlobalKey(user, L);
    hide UserGlobalKey, Dec, Settled, UsesNodes, LetThrough, Run;
    if c == 2 {
      steps := FirstAt(M, user, L, 1);
    } else {
      var before := CopyAll(M, user, L, c - 1);
      assert Dec(0) in Numerals(1);
      steps := CopyAt(M, before, user, L, c - 1, Dec(0), Run(Init(1), before).cells, Numerals(1));
    }
  }

  /** Every node's own cache shows one IP, but two were let through. */
  lemma AllStarted(M: nat, user: User, L: nat) returns (steps: seq<Step>)
    requires M >= 2 && L >= 2
    ensures var key := UserGlobalKey(user, L);
            Resting(M, steps, key, 2) && forall j: nat :: j < M ==> Shows(steps, key, j, 1)
  {
    var key := UserGlobalKey(user, L);
    hide UserGlobalKey, Dec, Settled, UsesNodes, LetThrough, Run;
    var copied := CopyAll(M, user, L, M);
    var cells := Run(Init(1), copied).cells;
    NextIsNew(copied, key, 1, Shared);
    assert Numerals(1) + {Dec(1)} == Numerals(2);
    hide Numerals;
    steps := AdmitFirst(M, copied, user, L, 0, Dec(1), cells, Numerals(1));
    forall j: nat | j < M ensures Shows(steps, key, j, 1) {
      StartedAt(M, copied, key, j);
    }
  }

  /** In the cells that the first IP at node 0 leaves. */
  lemma StartedAt(M: nat, copied: seq<Step>, key: string, j: nat)
    requires Copied(M, copied, key, M) && j < M
    ensures var cells, one := Run(Init(1), copied).cells, map[Dec(0) := 0];
            var next := cells[(Shared, key) := one[Dec(1) := 0]][(Local(0), key) := one];
            (Local(j), key) in next && |next[(Local(j), key)]| == 1
  {
    hide Dec, Run, Resting;
    assert |map[Dec(0) := 0]| == 1;
  }

  // Every node then takes L - 1 more.

  /** Only this node's cache shows more. */
  ghost predicate Others(steps: seq<Step>, steps': seq<Step>, key: string, node: nat) {
    forall j: nat, k: nat :: j != node && Shows(steps, key, j, k) ==> Shows(steps', key, j, k)
  }

  lemma FillOne(M: nat, steps: seq<Step>, user: User, L: nat, n: nat, node: nat, k: nat) returns (steps': seq<Step>)
    requires node < M && k < L
    requires Resting(M, steps, UserGlobalKey(user, L), n) && Shows(steps, UserGlobalKey(user, L), node, k)
    ensures Resting(M, steps', UserGlobalKey(user, L), n + 1) && Shows(steps', UserGlobalKey(user, L), node, k + 1)
    ensures Others(steps, steps', UserGlobalKey(user, L), node)
  {
    var key := UserGlobalKey(user, L);
    hide UserGlobalKey, Dec, Run, LetThrough, Settled, UsesNodes;
    NextIsNew(steps, key, n, Local(node));
    var cells := Run(Init(1), steps).cells;
    PushedSize(Some(cells[(Local(node), key)]), Dec(n), 0, L);
    steps' := AdmitMore(M, steps, user, L, node, Dec(n), cells, Numerals(n));
  }

  lemma {:induction false} FillNode(M: nat, steps: seq<Step>, user: User, L: nat, n: nat, node: nat, k: nat, j: nat)
    returns (steps': seq<Step>)
    requires node < M && k + j <= L
    requires Resting(M, steps, UserGlobalKey(user, L), n) && Shows(steps, UserGlobalKey(user, L), node, k)
    ensures Resting(M, steps', UserGlobalKey(user, L), n + j) && Shows(steps', UserGlobalKey(user, L), node, k + j)
    ensures Others(steps, steps', UserGlobalKey(user, L), node)
  {
    hide UserGlobalKey, Resting, Shows;
    steps' := steps;
    if j > 0 {
      steps' := FillNode(M, steps, user, L, n, node, k, j - 1);
      steps' := FillOne(M, steps', user, L, n + j - 1, node, k + j - 1);
    }
  }

  /** Let through once `done` nodes are full. */
  function Taken(done: nat, L: nat): nat
    requires L > 0
  {
    if done == 0 then 2 else Taken(done - 1, L) + (L - 1)
  }

  lemma {:induction false} TakenIs(done: nat, L: nat)
    requires L > 0
    ensures Taken(done, L) == done * (L - 1) + 2
  {
    if done > 0 {
      TakenIs(done - 1, L);
      assert (done - 1) * (L - 1) + (L - 1) == done * (L - 1);
    }
  }

  lemma {:induction false} FillAll(M: nat, user: User, L: nat, done: nat) returns (steps: seq<Step>)
    requires done <= M && M >= 2 && L >= 2
    ensures var key := UserGlobalKey(user, L);
            Resting(M, steps, key, Taken(done, L)) && forall j: nat :: done <= j < M ==> Shows(steps, key, j, 1)
  {
    hide UserGlobalKey, Resting, Shows;
    if done == 0 {
      steps := AllStarted(M, user, L);
    } else {
      var before := FillAll(M, user, L, done - 1);
      steps := FillNode(M, before, user, L, Taken(done - 1, L), done - 1, 1, L - 1);
    }
  }

  lemma RestingSize(M: nat, steps: seq<Step>, key: string, n: nat)
    requires Resting(M, steps, key, n)
    ensures Settled(1, steps, key) && UsesNodes(steps, key, M) && |LetThrough(1, steps, key)| == n
  {
    NumeralsSize(n);
  }

  /** The bound is exact, for every number of nodes and every limit: one connection at
      a time, each write landed before the next read, nothing lost, expired or failing,
      and as many IPs as the bound allows are let through. */
  lemma CapIsReached(user: User, L: nat, M: nat) returns (steps: seq<Step>)
    requires L > 0
    ensures Settled(1, steps, UserGlobalKey(user, L)) && UsesNodes(steps, UserGlobalKey(user, L), M)
    ensures |LetThrough(1, steps, UserGlobalKey(user, L))| == Cap(M, L)
  {
    var key := UserGlobalKey(user, L);
    hide UserGlobalKey, Resting, Shows, Settled, UsesNodes, LetThrough;
    if M == 0 {
      steps := [];
      NothingDone(key);
    } else if M == 1 || L == 1 {
      steps := OneStarted(M, user, L);
      steps := FillNode(M, steps, user, L, 1, 0, 1, if M == 1 then L - 1 else 0);
      RestingSize(M, steps, key, Cap(M, L));
    } else {
      steps := FillAll(M, user, L, M);
      TakenIs(M, L);
      RestingSize(M, steps, key, Cap(M, L));
    }
  }

  lemma OneStarted(M: nat, user: User, L: nat) returns (steps: seq<Step>)
    requires M >= 1 && L >= 1
    ensures Resting(M, steps, UserGlobalKey(user, L), 1) && Shows(steps, UserGlobalKey(user, L), 0, 1)
  {
    hide UserGlobalKey, Dec, Settled, UsesNodes, LetThrough, Run;
    steps := FirstAt(M, user, L, 0);
  }

  lemma NothingDone(key: string)
    ensures Settled(1, [], key) && UsesNodes([], key, 0) && LetThrough(1, [], key) == {}
  {
  }

  // Even if all writes land in order.

  /** The first IP at a node whose own cache is still empty, all writes in order. */
  lemma AdmitInOrder(M: nat, steps: seq<Step>, user: User, L: nat, node: nat, ip: string,
                     cells: map<(Cell, string), Ips>, through: set<string>)
    returns (steps': seq<Step>)
    requires Rest(M, steps, UserGlobalKey(user, L), cells, through) && node < M && InOrder(steps)
    requires var key := UserGlobalKey(user, L);
             && (Local(node), key) !in cells && (Shared, key) in cells
             && ip !in cells[(Shared, key)] && |cells[(Shared, key)]| < L
    ensures var key := UserGlobalKey(user, L);
            var push := cells[(Shared, key)][ip := 0];
            Rest(M, steps', key, cells[(Local(node), key) := push][(Shared, key) := push], through + {ip})
    ensures InOrder(steps')
  {
    var key := UserGlobalKey(user, L);
    hide UserGlobalKey, Settled, UsesNodes, Run, LetThrough;
    var found := cells[(Shared, key)];
    var push := found[ip := 0];
    steps' := ReadAndDecide(M, steps, user, L, node, ip, cells, through);
    assert Run(Init(1), steps').writes == [Write(Local(node), key, found), Write(Local(node), key, push),
                                           Write(Shared, key, push)];
    Landing(M, steps', 0, key);
    assert Run(Init(1), steps' + [Land(0)]).writes == [Write(Local(node), key, push), Write(Shared, key, push)];
    Landing(M, steps' + [Land(0)], 0, key);
    assert Run(Init(1), steps' + [Land(0)] + [Land(0)]).writes == [Write(Shared, key, push)];
    Landing(M, steps' + [Land(0)] + [Land(0)], 0, key);
    steps' := steps' + [Land(0)] + [Land(0)] + [Land(0)];
    assert Without([Write(Shared, key, push)], 0) == [];
  }

  /** Two nodes, limit 2, every write landed in order before the next read: node 1
      admits an IP, node 0 finds it in the shared cache and admits a second one, and
      node 1, whose own cache still shows one, admits a third. */
  lemma StaleCacheExceeds(user: User) returns (steps: seq<Step>)
    ensures Settled(1, steps, UserGlobalKey(user, 2)) && UsesNodes(steps, UserGlobalKey(user, 2), 2) && InOrder(steps)
    ensures |LetThrough(1, steps, UserGlobalKey(user, 2))| == 3
  {
    var key := UserGlobalKey(user, 2);
    hide UserGlobalKey, Dec, Settled, UsesNodes, LetThrough, Run;
    steps := FirstAt(2, user, 2, 1);
    NextIsNew(steps, key, 1, Shared);
    steps := AdmitInOrder(2, steps, user, 2, 0, Dec(1), Run(Init(1), steps).cells, Numerals(1));
    assert Numerals(1) + {Dec(1)} == Numerals(2) && Numerals(2) + {Dec(2)} == Numerals(3);
    NextIsNew(steps, key, 2, Local(1));
    steps := AdmitMore(2, steps, user, 2, 1, Dec(2), Run(Init(1), steps).cells, Numerals(2));
    RestingSize(2, steps, key, 3);
  }
}
