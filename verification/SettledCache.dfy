/** The shared IP cache when it is settled: one connection of a user at a time,
    each push landed before the user's next read, and nothing lost, expired or
    failing. Then a single node keeps the limit, and every node keeps it for the
    IPs it adds itself, but two nodes together do not. */
module SettledCache {
  import opened Basics
  import opened GlobalLimit

  // Settled runs: one connection of the user at a time, each push landed before
  // the user's next read, nothing lost, expired or failing.

  /** Nothing of the key is under way. */
  ghost predicate Quiet(s: State, key: string) {
    && (forall i :: 0 <= i < |s.writes| ==> s.writes[i].key != key)
    && (forall t :: 0 <= t < |s.threads| && s.threads[t].Got? ==> s.threads[t].key != key)
  }

  ghost predicate SettledStep(s: State, step: Step, key: string) {
    match step
    case Get(_, _, user, limit, _, _) => UserGlobalKey(user, limit) == key ==> Quiet(s, key)
    case GetFails(_, user, limit, _) => UserGlobalKey(user, limit) != key
    case Lose(i) => i < |s.writes| ==> s.writes[i].key != key
    case Expire(_, k) => k != key
    case _ => true
  }

  ghost predicate Settled(K: nat, steps: seq<Step>, key: string) {
    forall i :: 0 <= i < |steps| ==> SettledStep(Run(Init(K), steps[..i]), steps[i], key)
  }

  lemma SettledPrefix(K: nat, steps: seq<Step>, key: string)
    requires steps != [] && Settled(K, steps, key)
    ensures Settled(K, steps[..|steps| - 1], key)
    ensures SettledStep(Run(Init(K), steps[..|steps| - 1]), steps[|steps| - 1], key)
  {
    var init := steps[..|steps| - 1];
    forall i | 0 <= i < |init| ensures SettledStep(Run(Init(K), init[..i]), init[i], key) {
      assert init[..i] == steps[..i];
    }
  }

  /** The user's connections come in through nodes 0..M-1. */
  ghost predicate UsesNodes(steps: seq<Step>, key: string, M: nat) {
    forall i :: 0 <= i < |steps| && steps[i].Get? && UserGlobalKey(steps[i].user, steps[i].limit) == key ==>
        steps[i].node < M
  }

  /** The IPs a step adds to the key's set at one node. */
  function Adding(s: State, step: Step, key: string, node: nat): set<string> {
    if step.Decide? && Busy(s, step.t) && s.threads[step.t].key == key && s.threads[step.t].node == node
      && Pushed(s.threads[step.t].found, s.threads[step.t].ip, s.threads[step.t].uid, s.threads[step.t].limit).Some?
    then {s.threads[step.t].ip} else {}
  }

  function AddedAt(K: nat, steps: seq<Step>, key: string, node: nat): set<string> {
    if steps == [] then {} else
      var init, step := steps[..|steps| - 1], steps[|steps| - 1];
      AddedAt(K, init, key, node) + Adding(Run(Init(K), init), step, key, node)
  }

  /** A write to the node's local cache is under way. */
  ghost predicate Awaited(s: State, w: Write, key: string, node: nat) {
    w in s.writes && w.key == key && w.cell == Local(node)
  }

  ghost predicate Deciding(s: State, t: nat, key: string) {
    Busy(s, t) && s.threads[t].key == key
  }

  ghost predicate OneDecides(s: State, key: string) {
    forall t: nat, t': nat :: Deciding(s, t, key) && Deciding(s, t', key) ==> t == t'
  }

  /** What a connection at the node found covers what the node has added, with `d` to spare. */
  ghost predicate ReadInv(s: State, key: string, node: nat, added: set<string>, d: nat) {
    forall t: nat :: Deciding(s, t, key) && s.threads[t].node == node ==>
      && (if s.threads[t].found.Some? then |added| + d <= |s.threads[t].found.value| else added == {})
      && forall w :: Awaited(s, w, key, node) ==> added == {}
  }

  /** And so does what its local cache shows once all writes to it have landed. */
  ghost predicate CellInv(s: State, key: string, node: nat, added: set<string>, d: nat) {
    && (added != {} ==> (Local(node), key) in s.cells || exists w :: Awaited(s, w, key, node))
    && (forall w :: Awaited(s, w, key, node) ==> |added| + d <= |w.ips|)
    && ((Local(node), key) in s.cells && (forall w :: !Awaited(s, w, key, node)) ==>
          |added| + d <= |s.cells[(Local(node), key)]|)
  }

  ghost predicate NodeInv(s: State, key: string, node: nat, added: set<string>, d: nat) {
    OneDecides(s, key) && ReadInv(s, key, node, added, d) && CellInv(s, key, node, added, d)
  }

  lemma WithoutOne(writes: seq<Write>, i: nat)
    requires i < |writes|
    ensures forall w :: w in Without(writes, i) ==> w in writes
    ensures forall w :: w in writes && w != writes[i] ==> w in Without(writes, i)
  {
    assert writes == writes[..i] + [writes[i]] + writes[i + 1..];
  }

  lemma GetKeepsDecides(s: State, step: Step, key: string)
    requires OneDecides(s, key) && step.Get? && SettledStep(s, step, key)
    ensures OneDecides(Apply(s, step), key)
  {
    hide UserGlobalKey;
    var s' := Apply(s, step);
    forall t: nat, t': nat | Deciding(s', t, key) && Deciding(s', t', key) ensures t == t' {
      assert t != step.t ==> Deciding(s, t, key);
      assert t' != step.t ==> Deciding(s, t', key);
    }
  }

  lemma OtherKeepsDecides(s: State, step: Step, key: string)
    requires OneDecides(s, key) && !step.Get?
    ensures OneDecides(Apply(s, step), key)
  {
    var s' := Apply(s, step);
    forall t: nat, t': nat | Deciding(s', t, key) && Deciding(s', t', key) ensures t == t' {
      assert Deciding(s, t, key) && Deciding(s, t', key);
    }
  }

  lemma RefillOnly(s: State, step: Step, key: string, node: nat, w: Write)
    requires step.Get? && Awaited(Apply(s, step), w, key, node) && !Awaited(s, w, key, node)
    ensures Free(s, step.t) && UserGlobalKey(step.user, step.limit) == key && step.node == node
    ensures (Local(node), key) !in s.cells && (Shared, key) in s.cells && w.ips == s.cells[(Shared, key)]
  {
    hide UserGlobalKey;
  }

  lemma GetKeepsCell(s: State, step: Step, key: string, node: nat, added: set<string>, d: nat, through: set<string>)
    requires CellInv(s, key, node, added, d) && step.Get? && SettledStep(s, step, key)
    requires d <= 1 && KeyInv(s, key, through)
    ensures CellInv(Apply(s, step), key, node, added, d)
  {
    hide UserGlobalKey;
    var s' := Apply(s, step);
    assert forall w :: Awaited(s, w, key, node) ==> Awaited(s', w, key, node);
    forall w | Awaited(s', w, key, node) ensures |added| + d <= |w.ips| {
      if !Awaited(s, w, key, node) {
        RefillOnly(s, step, key, node, w);
        assert forall v :: !Awaited(s, v, key, node);
        KnownSize(w.ips, through);
      }
    }
  }

  lemma GetKeepsRead(s: State, step: Step, key: string, node: nat, added: set<string>, d: nat, through: set<string>)
    requires ReadInv(s, key, node, added, d) && CellInv(s, key, node, added, d)
    requires step.Get? && SettledStep(s, step, key)
    requires d <= 1 && KeyInv(s, key, through)
    ensures ReadInv(Apply(s, step), key, node, added, d)
  {
    hide UserGlobalKey;
    var s' := Apply(s, step);
    forall t: nat | Deciding(s', t, key) && s'.threads[t].node == node
      ensures if s'.threads[t].found.Some? then |added| + d <= |s'.threads[t].found.value| else added == {}
      ensures forall w :: Awaited(s', w, key, node) ==> added == {}
    {
      if t == step.t && Free(s, t) {
        assert forall w :: !Awaited(s, w, key, node);
        if (Local(node), key) !in s.cells && (Shared, key) in s.cells {
          KnownSize(s.cells[(Shared, key)], through);
        }
        forall w | Awaited(s', w, key, node) ensures added == {} {
          RefillOnly(s, step, key, node, w);
        }
      } else {
        assert Deciding(s, t, key);
        forall w | Awaited(s', w, key, node) ensures added == {} {
          if !Awaited(s, w, key, node) {
            RefillOnly(s, step, key, node, w);
          }
        }
      }
    }
  }

  lemma DecideAwaits(s: State, step: Step, key: string, node: nat, w: Write)
    requires step.Decide? && Busy(s, step.t)
    ensures Awaited(Apply(s, step), w, key, node) <==>
              Awaited(s, w, key, node) ||
              (var p := s.threads[step.t];
               var push := Pushed(p.found, p.ip, p.uid, p.limit);
               push.Some? && p.key == key && p.node == node && w == Write(Local(node), key, push.value))
  {
  }

  /** To keep one to spare a node may only add to what others and itself have stored. */
  ghost predicate Fits(s: State, step: Step, key: string, node: nat, d: nat) {
    d <= 1 &&
    (d == 1 && step.Decide? && Adding(s, step, key, node) != {} ==>
       s.threads[step.t].found.Some? && forall w :: Awaited(s, w, key, node) ==> |w.ips| >= 2)
  }

  lemma DecideKeepsCell(s: State, step: Step, key: string, node: nat, added: set<string>, d: nat, through: set<string>)
    requires CellInv(s, key, node, added, d) && ReadInv(s, key, node, added, d)
    requires KeyInv(s, key, through) && step.Decide?
    requires Fits(s, step, key, node, d)
    ensures CellInv(Apply(s, step), key, node, added + Adding(s, step, key, node), d)
  {
    hide DecideStep, Known, Pushed;
    if Busy(s, step.t) {
      var s', p := Apply(s, step), s.threads[step.t];
      var adding := Adding(s, step, key, node);
      var push := Pushed(p.found, p.ip, p.uid, p.limit);
      DecideKeepsCells(s, step);
      forall w ensures Awaited(s, w, key, node) ==> Awaited(s', w, key, node) {
        DecideAwaits(s, step, key, node, w);
      }
      if adding == {} {
        forall w ensures Awaited(s', w, key, node) ==> Awaited(s, w, key, node) {
          DecideAwaits(s, step, key, node, w);
        }
        assert added + adding == added;
      } else {
        assert Deciding(s, step.t, key);
        DecideAwaits(s, step, key, node, Write(Local(node), key, push.value));
        assert Awaited(s', Write(Local(node), key, push.value), key, node);
        AddingFew(added, adding);
        PushedSize(p.found, p.ip, p.uid, p.limit);
        forall w | Awaited(s', w, key, node) ensures |added + adding| + d <= |w.ips| {
          DecideAwaits(s, step, key, node, w);
          if Awaited(s, w, key, node) {
            KnownSize(w.ips, through);
          }
        }
      }
    }
  }

  lemma KnownSize(ips: Ips, through: set<string>)
    requires Known(ips, through)
    ensures |ips| >= 1
  {
  }

  lemma PushedSize(found: Option<Ips>, ip: string, uid: int, limit: int)
    requires Pushed(found, ip, uid, limit).Some?
    ensures |Pushed(found, ip, uid, limit).value| == (if found.Some? then |found.value| else 0) + 1
  {
  }

  lemma DecideKeepsCells(s: State, step: Step)
    requires step.Decide? && Busy(s, step.t)
    ensures Apply(s, step).cells == s.cells
  {
  }

  lemma DecideKeepsRead(s: State, step: Step, key: string, node: nat, added: set<string>, d: nat)
    requires OneDecides(s, key) && ReadInv(s, key, node, added, d) && step.Decide?
    ensures ReadInv(Apply(s, step), key, node, added + Adding(s, step, key, node), d)
  {
    if Busy(s, step.t) {
      var s' := Apply(s, step);
      forall t: nat | Deciding(s', t, key) && s'.threads[t].node == node
        ensures Deciding(s, t, key) && !Deciding(s, step.t, key)
      {
        assert t != step.t;
      }
      forall w | Awaited(s', w, key, node) && !Deciding(s, step.t, key) ensures Awaited(s, w, key, node) {
        DecideAwaits(s, step, key, node, w);
      }
    }
  }

  lemma LandKeepsCell(s: State, step: Step, key: string, node: nat, added: set<string>, d: nat)
    requires CellInv(s, key, node, added, d) && step.Land?
    ensures CellInv(Apply(s, step), key, node, added, d)
  {
    var s', i := Apply(s, step), step.i;
    if i < |s.writes| {
      WithoutOne(s.writes, i);
      assert forall w :: Awaited(s', w, key, node) ==> Awaited(s, w, key, node);
      assert forall w :: Awaited(s, w, key, node) && w != s.writes[i] ==> Awaited(s', w, key, node);
    }
  }

  lemma LoseKeepsCell(s: State, step: Step, key: string, node: nat, added: set<string>, d: nat)
    requires CellInv(s, key, node, added, d) && step.Lose? && SettledStep(s, step, key)
    ensures CellInv(Apply(s, step), key, node, added, d)
  {
    var s', i := Apply(s, step), step.i;
    if i < |s.writes| {
      WithoutOne(s.writes, i);
      assert forall w :: Awaited(s', w, key, node) <==> Awaited(s, w, key, node);
    }
  }

  lemma DropKeepsRead(s: State, step: Step, key: string, node: nat, added: set<string>, d: nat)
    requires ReadInv(s, key, node, added, d) && (step.Land? || step.Lose?)
    ensures ReadInv(Apply(s, step), key, node, added, d)
  {
    var s', i := Apply(s, step), step.i;
    if i < |s.writes| {
      WithoutOne(s.writes, i);
      assert forall w :: Awaited(s', w, key, node) ==> Awaited(s, w, key, node);
      assert forall t: nat :: Deciding(s', t, key) ==> Deciding(s, t, key);
    }
  }

  lemma RestKeeps(s: State, step: Step, key: string, node: nat, added: set<string>, d: nat)
    requires NodeInv(s, key, node, added, d) && (step.GetFails? || step.Expire?) && SettledStep(s, step, key)
    ensures NodeInv(Apply(s, step), key, node, added, d)
  {
    hide UserGlobalKey;
    OtherKeepsDecides(s, step, key);
    var s' := Apply(s, step);
    assert forall w :: Awaited(s', w, key, node) <==> Awaited(s, w, key, node);
    assert forall t: nat :: Deciding(s', t, key) ==> Deciding(s, t, key) && s'.threads[t] == s.threads[t];
  }

  lemma StepKeepsNode(s: State, step: Step, key: string, node: nat, added: set<string>, d: nat, through: set<string>)
    requires NodeInv(s, key, node, added, d) && KeyInv(s, key, through) && SettledStep(s, step, key)
    requires Fits(s, step, key, node, d)
    ensures NodeInv(Apply(s, step), key, node, added + Adding(s, step, key, node), d)
  {
    hide OneDecides, ReadInv, CellInv, KeyInv, SettledStep, Apply;
    if !step.Decide? {
      assert added + Adding(s, step, key, node) == added;
    }
    match step
    case Get(_, _, _, _, _, _) =>
      GetKeepsDecides(s, step, key);
      GetKeepsCell(s, step, key, node, added, d, through);
      GetKeepsRead(s, step, key, node, added, d, through);
    case Decide(_) =>
      OtherKeepsDecides(s, step, key);
      DecideKeepsCell(s, step, key, node, added, d, through);
      DecideKeepsRead(s, step, key, node, added, d);
    case Land(_) =>
      OtherKeepsDecides(s, step, key);
      LandKeepsCell(s, step, key, node, added, d);
      DropKeepsRead(s, step, key, node, added, d);
    case Lose(_) =>
      OtherKeepsDecides(s, step, key);
      LoseKeepsCell(s, step, key, node, added, d);
      DropKeepsRead(s, step, key, node, added, d);
    case GetFails(_, _, _, _) => RestKeeps(s, step, key, node, added, d);
    case Expire(_, _) => RestKeeps(s, step, key, node, added, d);
  }

  lemma {:induction false} RunKeepsNode(K: nat, steps: seq<Step>, key: string, node: nat)
    requires Settled(K, steps, key)
    ensures NodeInv(Run(Init(K), steps), key, node, AddedAt(K, steps, key, node), 0)
  {
    if steps != [] {
      var init := steps[..|steps| - 1];
      SettledPrefix(K, steps, key);
      RunKeepsNode(K, init, key, node);
      RunKeyInv(K, init, key);
      StepKeepsNode(Run(Init(K), init), steps[|steps| - 1], key, node, AddedAt(K, init, key, node),
                    0, LetThrough(K, init, key));
    }
  }

  /** In a settled run no node adds more than L IPs of a user limited to L. */
  lemma NodeBound(K: nat, steps: seq<Step>, user: User, L: nat, node: nat)
    requires L > 0 && Settled(K, steps, UserGlobalKey(user, L))
    ensures |AddedAt(K, steps, UserGlobalKey(user, L), node)| <= L
  {
    var s, key := Run(Init(K), steps), UserGlobalKey(user, L);
    var added := AddedAt(K, steps, key, node);
    RunKeepsNode(K, steps, key, node);
    RunInv(K, steps);
    UserKeyEncodes(user, L);
    if w :| Awaited(s, w, key, node) {
      assert Bounded(key, w.ips);
    } else if (Local(node), key) in s.cells {
      assert Bounded((Local(node), key).1, s.cells[(Local(node), key)]);
    } else {
      assert added == {};
    }
  }

  // All nodes together.

  /** What nodes 0..M-1 have added. */
  function AddedBelow(K: nat, steps: seq<Step>, key: string, M: nat): set<string> {
    if M == 0 then {} else AddedBelow(K, steps, key, M - 1) + AddedAt(K, steps, key, M - 1)
  }

  lemma SumBound<T>(a: set<T>, b: set<T>)
    ensures |a + b| <= |a| + |b|
  {
    assert |a + b| == |a| + |b - a|;
    AtMost(b - a, b);
  }

  lemma {:induction false} BelowHas(K: nat, steps: seq<Step>, key: string, M: nat, node: nat)
    requires node < M
    ensures AddedAt(K, steps, key, node) <= AddedBelow(K, steps, key, M)
  {
    if node < M - 1 {
      BelowHas(K, steps, key, M - 1, node);
    }
  }

  lemma {:induction false} BelowGrows(K: nat, steps: seq<Step>, key: string, M: nat)
    requires steps != []
    ensures AddedBelow(K, steps[..|steps| - 1], key, M) <= AddedBelow(K, steps, key, M)
  {
    if M > 0 {
      BelowGrows(K, steps, key, M - 1);
    }
  }

  ghost predicate NodesBelow(s: State, key: string, M: nat) {
    forall t: nat :: Deciding(s, t, key) ==> s.threads[t].node < M
  }

  /** Whatever is let through was added by one of the nodes in use. */
  lemma {:induction false} ThroughIsAdded(K: nat, steps: seq<Step>, key: string, M: nat)
    requires Settled(K, steps, key) && UsesNodes(steps, key, M)
    ensures NodesBelow(Run(Init(K), steps), key, M)
    ensures LetThrough(K, steps, key) <= AddedBelow(K, steps, key, M)
  {
    if steps != [] {
      var init, step := steps[..|steps| - 1], steps[|steps| - 1];
      var s := Run(Init(K), init);
      SettledPrefix(K, steps, key);
      assert UsesNodes(init, key, M) by {
        assert forall i :: 0 <= i < |init| ==> init[i] == steps[i];
      }
      ThroughIsAdded(K, init, key, M);
      RunKeyInv(K, init, key);
      BelowGrows(K, steps, key, M);
      StepNodes(s, step, key, M);
      if step.Decide? && Deciding(s, step.t, key) {
        var p := s.threads[step.t];
        BelowHas(K, steps, key, M, p.node);
        if Pushed(p.found, p.ip, p.uid, p.limit).None? && !Rejects(p.found, p.ip, p.limit) {
          assert Known(p.found.value, LetThrough(K, init, key)) && p.ip in p.found.value.Keys;
        }
      }
    }
  }

  lemma StepNodes(s: State, step: Step, key: string, M: nat)
    requires NodesBelow(s, key, M)
    requires step.Get? && UserGlobalKey(step.user, step.limit) == key ==> step.node < M
    ensures NodesBelow(Apply(s, step), key, M)
  {
    hide UserGlobalKey;
    var s' := Apply(s, step);
    forall t: nat | Deciding(s', t, key) ensures s'.threads[t].node < M {
      if s'.threads[t] == s.threads[t] {
        assert Deciding(s, t, key);
      }
    }
  }

  // One node.

  /** What is let through is what is stored, as soon as it has landed, and what is read. */
  ghost predicate SyncInv(s: State, key: string, n: nat, through: set<string>) {
    && (forall w :: w in s.writes && w.key == key ==> w.ips.Keys == through && w.cell in {Local(n), Shared})
    && Shown(s, Local(n), key, through) && Shown(s, Shared, key, through)
    && forall t: nat :: Deciding(s, t, key) ==>
         && s.threads[t].node == n && (forall w :: w in s.writes ==> w.key != key)
         && through == if s.threads[t].found.Some? then s.threads[t].found.value.Keys else {}
  }

  ghost predicate Shown(s: State, cell: Cell, key: string, through: set<string>) {
    (forall w :: w in s.writes && w.key == key ==> w.cell != cell) ==>
      through == if (cell, key) in s.cells then s.cells[(cell, key)].Keys else {}
  }

  lemma SyncGetOwn(s: State, step: Step, key: string, n: nat, through: set<string>)
    requires SyncInv(s, key, n, through) && KeyInv(s, key, through) && step.Get? && Quiet(s, key)
    requires Free(s, step.t) && UserGlobalKey(step.user, step.limit) == key && step.node == n
    ensures SyncInv(Apply(s, step), key, n, through)
  {
    hide UserGlobalKey;
    var s' := Apply(s, step);
    assert forall w :: w in s.writes ==> w.key != key;
    assert (Shared, key) in s.cells ==> Known(s.cells[(Shared, key)], through);
    assert Refill(s, n, key) == [];
    assert forall t: nat :: Deciding(s', t, key) ==> t == step.t;
  }

  lemma SyncGetOther(s: State, step: Step, key: string, n: nat, through: set<string>)
    requires SyncInv(s, key, n, through) && step.Get?
    requires !(Free(s, step.t) && UserGlobalKey(step.user, step.limit) == key)
    ensures SyncInv(Apply(s, step), key, n, through)
  {
    hide UserGlobalKey;
    var s' := Apply(s, step);
    assert forall w :: w in s'.writes && w.key == key ==> w in s.writes;
    assert forall w :: w in s.writes ==> w in s'.writes;
    assert forall t: nat :: Deciding(s', t, key) ==> Deciding(s, t, key) && s'.threads[t] == s.threads[t];
  }

  /** What the one decision pushes is what was let through. */
  lemma OwnPush(s: State, t: nat, key: string, n: nat, through: set<string>)
    requires SyncInv(s, key, n, through) && Deciding(s, t, key)
    ensures var p := s.threads[t];
            var push, through' := Pushed(p.found, p.ip, p.uid, p.limit), through + Through(s, Decide(t), key);
            through' == if push.Some? then push.value.Keys else through
  {
  }

  lemma SyncDecideOwn(s: State, step: Step, key: string, n: nat, through: set<string>)
    requires SyncInv(s, key, n, through) && OneDecides(s, key) && step.Decide? && Deciding(s, step.t, key)
    ensures SyncInv(Apply(s, step), key, n, through + Through(s, step, key))
  {
    hide Through, Pushed, Rejects;
    var s', p := Apply(s, step), s.threads[step.t];
    var push := Pushed(p.found, p.ip, p.uid, p.limit);
    OwnPush(s, step.t, key, n, through);
    assert forall t: nat :: Deciding(s', t, key) ==> t != step.t && Deciding(s, t, key);
    assert forall t: nat :: !Deciding(s', t, key);
    if push.Some? {
      assert Write(Local(n), key, push.value) in s'.writes && Write(Shared, key, push.value) in s'.writes;
    } else {
      assert s'.writes == s.writes && s'.cells == s.cells;
    }
  }

  lemma SyncDecideOther(s: State, step: Step, key: string, n: nat, through: set<string>)
    requires SyncInv(s, key, n, through) && step.Decide? && !Deciding(s, step.t, key)
    ensures SyncInv(Apply(s, step), key, n, through + Through(s, step, key))
  {
    hide Pushed, Rejects;
    var s' := Apply(s, step);
    assert through + Through(s, step, key) == through;
    assert forall t: nat :: Deciding(s', t, key) ==> Deciding(s, t, key) && s'.threads[t] == s.threads[t];
    assert forall w :: w in s'.writes && w.key == key ==> w in s.writes;
    assert forall w :: w in s.writes ==> w in s'.writes;
  }

  lemma SyncLand(s: State, step: Step, key: string, n: nat, through: set<string>)
    requires SyncInv(s, key, n, through) && (step.Land? || step.Lose?) && SettledStep(s, step, key)
    ensures SyncInv(Apply(s, step), key, n, through)
  {
    var s', i := Apply(s, step), step.i;
    if i < |s.writes| {
      WithoutOne(s.writes, i);
      assert s.writes[i] in s.writes;
      assert forall t: nat :: Deciding(s', t, key) ==> Deciding(s, t, key) && s'.threads[t] == s.threads[t];
    }
  }

  lemma SyncRest(s: State, step: Step, key: string, n: nat, through: set<string>)
    requires SyncInv(s, key, n, through) && (step.GetFails? || step.Expire?) && SettledStep(s, step, key)
    ensures SyncInv(Apply(s, step), key, n, through)
  {
    hide UserGlobalKey;
    var s' := Apply(s, step);
    assert forall t: nat :: Deciding(s', t, key) ==> Deciding(s, t, key) && s'.threads[t] == s.threads[t];
  }

  lemma SyncStep(s: State, step: Step, key: string, n: nat, through: set<string>)
    requires SyncInv(s, key, n, through) && KeyInv(s, key, through) && OneDecides(s, key) && SettledStep(s, step, key)
    requires step.Get? && UserGlobalKey(step.user, step.limit) == key ==> step.node == n
    ensures SyncInv(Apply(s, step), key, n, through + Through(s, step, key))
  {
    hide OneDecides, SyncInv, KeyInv, Apply, UserGlobalKey;
    if !step.Decide? {
      assert through + Through(s, step, key) == through;
    }
    match step
    case Get(t, _, user, limit, _, _) =>
      if Free(s, t) && UserGlobalKey(user, limit) == key {
        SyncGetOwn(s, step, key, n, through);
      } else {
        SyncGetOther(s, step, key, n, through);
      }
    case Decide(t) =>
      if Deciding(s, t, key) {
        SyncDecideOwn(s, step, key, n, through);
      } else {
        SyncDecideOther(s, step, key, n, through);
      }
    case Land(_) => SyncLand(s, step, key, n, through);
    case Lose(_) => SyncLand(s, step, key, n, through);
    case GetFails(_, _, _, _) => SyncRest(s, step, key, n, through);
    case Expire(_, _) => SyncRest(s, step, key, n, through);
  }

  ghost predicate UsesOnly(steps: seq<Step>, key: string, n: nat) {
    forall i :: 0 <= i < |steps| && steps[i].Get? && UserGlobalKey(steps[i].user, steps[i].limit) == key ==>
        steps[i].node == n
  }

  lemma {:induction false} RunSync(K: nat, steps: seq<Step>, key: string, n: nat)
    requires Settled(K, steps, key) && UsesOnly(steps, key, n)
    ensures SyncInv(Run(Init(K), steps), key, n, LetThrough(K, steps, key))
  {
    if steps != [] {
      var init, step := steps[..|steps| - 1], steps[|steps| - 1];
      SettledPrefix(K, steps, key);
      assert UsesOnly(init, key, n) by {
        assert forall i :: 0 <= i < |init| ==> init[i] == steps[i];
      }
      RunSync(K, init, key, n);
      RunKeyInv(K, init, key);
      RunKeepsNode(K, init, key, n);
      SyncStep(Run(Init(K), init), step, key, n, LetThrough(K, init, key));
    }
  }

  /** In a settled run on one node the IPs let through are at most L, they are what
      both caches store once the pushes have landed, and a connection is refused
      exactly if its IP is new and L others were let through. */
  lemma SettledBound(K: nat, steps: seq<Step>, user: User, L: nat, n: nat)
    requires L > 0 && Settled(K, steps, UserGlobalKey(user, L)) && UsesOnly(steps, UserGlobalKey(user, L), n)
    ensures var s, key := Run(Init(K), steps), UserGlobalKey(user, L);
            var through := LetThrough(K, steps, key);
            && |through| <= L
            && (Quiet(s, key) ==> Stores(s, Local(n), key, through) && Stores(s, Shared, key, through))
            && forall t: nat :: Deciding(s, t, key) ==>
                 (Rejects(s.threads[t].found, s.threads[t].ip, s.threads[t].limit)
                  <==> s.threads[t].ip !in through && |through| == L)
  {
    var s, key := Run(Init(K), steps), UserGlobalKey(user, L);
    var through := LetThrough(K, steps, key);
    RunSync(K, steps, key, n);
    RunInv(K, steps);
    UserKeyEncodes(user, L);
    SyncSize(s, key, n, through, L);
    forall t: nat | Deciding(s, t, key)
      ensures Rejects(s.threads[t].found, s.threads[t].ip, s.threads[t].limit) <==>
                s.threads[t].ip !in through && |through| == L
    {
      assert GoodPhase(s.threads[t]);
      EncodesOnce(key, L, s.threads[t].limit);
      if s.threads[t].found.Some? {
        assert |s.threads[t].found.value| == |through|;
      }
    }
  }

  /** The cell holds exactly these IPs; no cell is stored for none. */
  ghost predicate Stores(s: State, cell: Cell, key: string, ips: set<string>) {
    if (cell, key) in s.cells then s.cells[(cell, key)].Keys == ips else ips == {}
  }

  lemma SyncSize(s: State, key: string, n: nat, through: set<string>, L: nat)
    requires SyncInv(s, key, n, through) && Inv(s) && Encodes(key, L) && L > 0
    ensures |through| <= L
  {
    if w :| w in s.writes && w.key == key {
      assert Bounded(key, w.ips) && |w.ips| == |through|;
    } else if (Shared, key) in s.cells {
      assert Bounded((Shared, key).1, s.cells[(Shared, key)]) && |s.cells[(Shared, key)]| == |through|;
    } else {
      assert Shown(s, Shared, key, through);
      assert through == {};
    }
  }
}
