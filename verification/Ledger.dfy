/** Usage accounting under concurrency: `SubscriptionMonitor` reads counters one
    by one, reports what it read, and zeroes the counters one by one, while
    traffic keeps adding to them between any two of these steps. */
module Ledger {
  import opened Api
  import opened UserKey

  datatype Phase =
    | Idle
    | Checking(names: seq<string>, i: nat)     // about to test counter i for zero
    | Reading(names: seq<string>, i: nat)      // it was not zero: about to read it
    | Resetting(order: seq<string>, i: nat)    // acknowledged: about to zero counter i

  type Amounts = map<string, nat>

  datatype State = State(
    counters: Amounts,
    phase: Phase,
    taken: Amounts,      // read and not yet dropped or zeroed
    window: Amounts,     // added to a taken counter since it was read
    added: Amounts,      // history: all bytes ever added
    acked: Amounts,      // history: all bytes in acknowledged reports
    lost: Amounts)       // history: bytes that were in the window of a reset

  datatype Step =
    | Add(name: string, n: nat)
    | Begin(names: seq<string>)
    | Check
    | Read
    | Send(ok: bool, order: seq<string>)
    | Reset

  function At(m: Amounts, name: string): nat {
    if name in m then m[name] else 0
  }

  function Plus(m: Amounts, name: string, n: nat): Amounts {
    m[name := At(m, name) + n]
  }

  function PlusAll(m: Amounts, more: Amounts): Amounts {
    m + map name | name in more :: At(m, name) + more[name]
  }

  predicate NoRepeats(names: seq<string>) {
    forall i, j :: 0 <= i < j < |names| ==> names[i] != names[j]
  }

  /** The counters to zero: every one that was read, in some order. */
  predicate ResetOrder(order: seq<string>, taken: Amounts) {
    && NoRepeats(order) && (forall name :: name in order ==> name in taken)
    && forall name :: name in taken ==> name in order
  }

  function Apply(s: State, step: Step): State {
    match step
    case Add(name, n) =>
      s.(counters := Plus(s.counters, name, n), added := Plus(s.added, name, n),
         window := if name in s.taken then Plus(s.window, name, n) else s.window)
    case Begin(names) => if s.phase.Idle? then s.(phase := Checking(names, 0)) else s
    case Check =>
      if s.phase.Checking? && s.phase.i < |s.phase.names| then
        if At(s.counters, s.phase.names[s.phase.i]) != 0 then s.(phase := Reading(s.phase.names, s.phase.i))
        else s.(phase := Checking(s.phase.names, s.phase.i + 1))
      else s
    case Read =>
      if s.phase.Reading? && s.phase.i < |s.phase.names| then
        var name := s.phase.names[s.phase.i];
        s.(phase := Checking(s.phase.names, s.phase.i + 1),
           taken := s.taken[name := At(s.counters, name)], window := s.window[name := 0])
      else s
    case Send(ok, order) =>
      if s.phase.Checking? && s.phase.i >= |s.phase.names| && ResetOrder(order, s.taken) then
        if ok && s.taken != map[] then s.(phase := Resetting(order, 0), acked := PlusAll(s.acked, s.taken))
        else s.(phase := Idle, taken := map[], window := map[])
      else s
    case Reset =>
      if s.phase.Resetting? then
        if s.phase.i < |s.phase.order| then
          var name := s.phase.order[s.phase.i];
          s.(phase := Resetting(s.phase.order, s.phase.i + 1), counters := s.counters[name := 0],
             taken := s.taken - {name}, lost := Plus(s.lost, name, At(s.window, name)))
        else s.(phase := Idle, window := map[])
      else s
  }

  function Run(s: State, steps: seq<Step>): State {
    if steps == [] then s else Apply(Run(s, steps[..|steps| - 1]), steps[|steps| - 1])
  }

  const START := State(map[], Idle, map[], map[], map[], map[], map[])

  /** The part of a counter that an acknowledged report already covers. */
  function Covered(s: State, name: string): nat {
    if s.phase.Resetting? then At(s.taken, name) else 0
  }

  ghost predicate Balanced(s: State, name: string) {
    && At(s.added, name) + Covered(s, name) == At(s.acked, name) + At(s.counters, name) + At(s.lost, name)
    && (name in s.taken ==> At(s.counters, name) == s.taken[name] + At(s.window, name) && s.taken[name] > 0)
  }

  ghost predicate PhaseInv(s: State) {
    match s.phase
    case Idle => s.taken == map[]
    case Checking(names, i) =>
      && i <= |names| && NoRepeats(names)
      && forall name :: name in s.taken ==> name in names[..i]
    case Reading(names, i) =>
      && i < |names| && NoRepeats(names) && At(s.counters, names[i]) > 0
      && forall name :: name in s.taken ==> name in names[..i]
    case Resetting(order, i) =>
      && i <= |order| && NoRepeats(order)
      && forall name :: name in s.taken <==> name in order[i..]
  }

  ghost predicate Inv(s: State) {
    PhaseInv(s) && forall name :: Balanced(s, name)
  }

  lemma AddKeepsInv(s: State, name: string, n: nat)
    requires Inv(s)
    ensures Inv(Apply(s, Add(name, n)))
  {
    var s' := Apply(s, Add(name, n));
    forall k ensures Balanced(s', k) {
      assert Balanced(s, k);
    }
  }

  lemma ReadKeepsInv(s: State)
    requires Inv(s) && s.phase.Reading?
    ensures Inv(Apply(s, Read))
  {
    var names, i := s.phase.names, s.phase.i;
    var s' := Apply(s, Read);
    assert names[..i + 1] == names[..i] + [names[i]];
    forall k ensures Balanced(s', k) {
      assert Balanced(s, k);
    }
  }

  lemma SendKeepsInv(s: State, ok: bool, order: seq<string>)
    requires Inv(s)
    ensures Inv(Apply(s, Send(ok, order)))
  {
    var s' := Apply(s, Send(ok, order));
    assert order[0..] == order;
    forall k ensures Balanced(s', k) {
      assert Balanced(s, k);
    }
  }

  lemma ResetBalances(s: State, k: string)
    requires Inv(s) && s.phase.Resetting? && s.phase.i < |s.phase.order|
    ensures Balanced(Apply(s, Reset), k)
  {
    var order, i := s.phase.order, s.phase.i;
    assert order[i] in order[i..];
    assert Balanced(s, k);
  }

  lemma ResetKeepsInv(s: State)
    requires Inv(s) && s.phase.Resetting? && s.phase.i < |s.phase.order|
    ensures Inv(Apply(s, Reset))
  {
    var order, i := s.phase.order, s.phase.i;
    assert order[i..] == [order[i]] + order[i + 1..];
    assert order[i] !in order[i + 1..];
    forall k ensures Balanced(Apply(s, Reset), k) {
      ResetBalances(s, k);
    }
    hide Balanced, At, Plus;
  }

  lemma AllResetKeepsInv(s: State)
    requires Inv(s) && s.phase.Resetting? && s.phase.i == |s.phase.order|
    ensures Inv(Apply(s, Reset))
  {
    assert s.taken == map[];
    forall k ensures Balanced(Apply(s, Reset), k) {
      assert Balanced(s, k);
    }
  }

  lemma BeginKeepsInv(s: State, names: seq<string>)
    requires Inv(s) && NoRepeats(names)
    ensures Inv(Apply(s, Begin(names)))
  {
    forall k ensures Balanced(Apply(s, Begin(names)), k) {
      assert Balanced(s, k);
    }
  }

  lemma CheckKeepsPhase(s: State)
    requires PhaseInv(s)
    ensures PhaseInv(Apply(s, Check))
  {
    if s.phase.Checking? && s.phase.i < |s.phase.names| && At(s.counters, s.phase.names[s.phase.i]) == 0 {
      assert s.phase.names[..s.phase.i + 1] == s.phase.names[..s.phase.i] + [s.phase.names[s.phase.i]];
    }
  }

  lemma CheckKeepsInv(s: State)
    requires Inv(s)
    ensures Inv(Apply(s, Check))
  {
    CheckKeepsPhase(s);
    CheckOnly(s);
    hide PhaseInv, Apply;
    forall k ensures Balanced(Apply(s, Check), k) {
      assert Balanced(s, k);
    }
  }

  lemma CheckOnly(s: State)
    ensures var s' := Apply(s, Check);
            && s' == s.(phase := s'.phase) && (s'.phase.Resetting? <==> s.phase.Resetting?)
  {
  }

  lemma StepKeepsInv(s: State, step: Step)
    requires Inv(s)
    requires step.Begin? ==> NoRepeats(step.names)
    ensures Inv(Apply(s, step))
  {
    match step
    case Add(name, n) => AddKeepsInv(s, name, n);
    case Read => if s.phase.Reading? { ReadKeepsInv(s); }
    case Send(ok, order) => SendKeepsInv(s, ok, order);
    case Reset =>
      if s.phase.Resetting? {
        if s.phase.i < |s.phase.order| {
          ResetKeepsInv(s);
        } else {
          AllResetKeepsInv(s);
        }
      }
    case Begin(names) => BeginKeepsInv(s, names);
    case Check => CheckKeepsInv(s);
  }

  ghost predicate DistinctRounds(steps: seq<Step>) {
    forall i :: 0 <= i < |steps| && steps[i].Begin? ==> NoRepeats(steps[i].names)
  }

  /** Conservation, at every moment of every interleaving: what was added to a
      counter is what acknowledged reports carried, plus what the counter holds
      beyond that, plus what arrived between a read and its reset. Hence
      acknowledged usage never exceeds real usage. */
  lemma {:induction false} Conservation(steps: seq<Step>, name: string)
    requires DistinctRounds(steps)
    ensures Inv(Run(START, steps))
    ensures var s := Run(START, steps);
            && Covered(s, name) <= At(s.counters, name)
            && At(s.added, name) == At(s.acked, name) + (At(s.counters, name) - Covered(s, name)) + At(s.lost, name)
            && At(s.acked, name) <= At(s.added, name)
    ensures var s := Run(START, steps);
            s.phase.Idle? ==> At(s.added, name) == At(s.acked, name) + At(s.counters, name) + At(s.lost, name)
  {
    if steps != [] {
      Conservation(steps[..|steps| - 1], name);
      StepKeepsInv(Run(START, steps[..|steps| - 1]), steps[|steps| - 1]);
    }
    assert Balanced(Run(START, steps), name);
  }

  /** No report of the run is acknowledged. */
  ghost predicate AllRefused(steps: seq<Step>) {
    forall i :: 0 <= i < |steps| && steps[i].Send? ==> !steps[i].ok
  }

  /** Apart from traffic a step before a reset changes no counter. */
  ghost predicate OnlyProgress(s: State, s': State) {
    && !s'.phase.Resetting? && s'.acked == s.acked && s'.lost == s.lost
    && s'.counters == s.counters && s'.added == s.added
  }

  lemma PhaseOnly(s: State, step: Step)
    requires !s.phase.Resetting? && (step.Begin? || step.Check? || step.Reset?)
    ensures OnlyProgress(s, Apply(s, step))
  {
    hide At;
  }

  lemma ReadOnly(s: State)
    requires !s.phase.Resetting?
    ensures OnlyProgress(s, Apply(s, Read))
  {
    hide At;
  }

  lemma RefusedOnly(s: State, order: seq<string>)
    requires !s.phase.Resetting?
    ensures OnlyProgress(s, Apply(s, Send(false, order)))
  {
    hide ResetOrder;
  }

  lemma RefusedKeeps(s: State, step: Step)
    requires !s.phase.Resetting? && !step.Add? && (step.Send? ==> !step.ok)
    ensures OnlyProgress(s, Apply(s, step))
  {
    hide Apply, OnlyProgress;
    if step.Read? {
      ReadOnly(s);
    } else if step.Send? {
      RefusedOnly(s, step.order);
    } else {
      PhaseOnly(s, step);
    }
  }

  lemma RefusedStep(s: State, step: Step, name: string)
    requires !s.phase.Resetting? && (step.Send? ==> !step.ok)
    ensures var s' := Apply(s, step);
            && !s'.phase.Resetting? && s'.acked == s.acked && s'.lost == s.lost
            && At(s'.counters, name) - At(s.counters, name) == At(s'.added, name) - At(s.added, name)
  {
    hide At, Plus;
    if step.Add? {
      PlusAt(s.counters, step.name, step.n, name);
      PlusAt(s.added, step.name, step.n, name);
    } else {
      hide Apply;
      RefusedKeeps(s, step);
    }
  }

  lemma PlusAt(m: Amounts, name: string, n: nat, k: string)
    ensures At(Plus(m, name, n), k) == At(m, k) + if k == name then n else 0
  {
  }

  /** Any number of rounds whose reports are all refused lose nothing and acknowledge
      nothing: whatever is added stays in the counters. */
  lemma {:induction false} FailedReportsLoseNothing(s: State, steps: seq<Step>, name: string)
    requires !s.phase.Resetting? && AllRefused(steps)
    ensures var s' := Run(s, steps);
            && !s'.phase.Resetting? && s'.acked == s.acked && s'.lost == s.lost
            && At(s'.counters, name) - At(s.counters, name) == At(s'.added, name) - At(s.added, name)
  {
    hide Apply;
    if steps != [] {
      var init := steps[..|steps| - 1];
      assert AllRefused(init) by {
        assert forall i :: 0 <= i < |init| ==> init[i] == steps[i];
      }
      FailedReportsLoseNothing(s, init, name);
      RefusedStep(Run(s, init), steps[|steps| - 1], name);
    }
  }

  lemma OnlyResetsLose(s: State, step: Step)
    requires !(step.Reset? && s.phase.Resetting? && s.phase.i < |s.phase.order|)
    ensures Apply(s, step).lost == s.lost
  {
    hide At;
    if step.Send? || step.Reset? {
    } else if step.Add? || step.Begin? {
    } else {
    }
  }

  /** No round of the run reads this counter. */
  ghost predicate NeverListed(steps: seq<Step>, name: string) {
    forall i :: 0 <= i < |steps| && steps[i].Begin? ==> name !in steps[i].names
  }

  /** The counter is untouched by whatever goes on. */
  ghost predicate Aside(s: State, name: string) {
    && name !in s.taken && At(s.acked, name) == 0 && At(s.counters, name) == At(s.added, name)
    && match s.phase
       case Idle => true
       case Checking(names, _) => name !in names
       case Reading(names, _) => name !in names
       case Resetting(order, _) => name !in order
  }

  lemma AsideAdd(s: State, other: string, n: nat, name: string)
    requires Aside(s, name)
    ensures Aside(Apply(s, Add(other, n)), name)
  {
    hide Plus, At;
    PlusAt(s.counters, other, n, name);
    PlusAt(s.added, other, n, name);
  }

  lemma AsideReport(s: State, step: Step, name: string)
    requires Aside(s, name) && (step.Send? || step.Reset?)
    ensures Aside(Apply(s, step), name)
  {
    if step.Reset? && s.phase.Resetting? && s.phase.i < |s.phase.order| {
      assert s.phase.order[s.phase.i] in s.phase.order;
    }
  }

  lemma AsideStep(s: State, step: Step, name: string)
    requires Aside(s, name) && (step.Begin? ==> name !in step.names)
    ensures Aside(Apply(s, step), name)
  {
    if step.Add? {
      AsideAdd(s, step.name, step.n, name);
    } else if step.Send? || step.Reset? {
      AsideReport(s, step, name);
    } else {
      hide Plus, PlusAll, ResetOrder, At;
      if step.Read? && s.phase.Reading? && s.phase.i < |s.phase.names| {
        assert s.phase.names[s.phase.i] in s.phase.names;
      }
    }
  }

  /** What a user without a listed key uses is never reported: it stays in a counter that
      no round reads. */
  lemma {:induction false} UnlistedIsNeverReported(steps: seq<Step>, name: string)
    requires NeverListed(steps, name)
    ensures Aside(Run(START, steps), name)
    ensures var s := Run(START, steps);
            At(s.acked, name) == 0 && At(s.counters, name) == At(s.added, name)
  {
    hide Apply;
    if steps != [] {
      var init := steps[..|steps| - 1];
      assert forall i :: 0 <= i < |init| ==> init[i] == steps[i];
      UnlistedIsNeverReported(init, name);
      AsideStep(Run(START, init), steps[|steps| - 1], name);
    }
  }

  /** Bytes are lost only if they arrive between a counter's read and its reset. */
  lemma LostOnlyInTheWindow(s: State, step: Step, name: string)
    requires Inv(s)
    ensures At(Apply(s, step).lost, name) ==
            At(s.lost, name) +
            if step.Reset? && s.phase.Resetting? && s.phase.i < |s.phase.order| && s.phase.order[s.phase.i] == name
            then At(s.counters, name) - s.taken[name] else 0
  {
    if step.Reset? && s.phase.Resetting? && s.phase.i < |s.phase.order| {
      var order, i := s.phase.order, s.phase.i;
      assert order[i] in order[i..];
      assert Balanced(s, order[i]);
    } else {
      OnlyResetsLose(s, step);
      hide Apply, Inv;
    }
  }

  // The counter names of a subscription list.

  function UpName(key: string): string {
    "user>>>" + key + ">>>traffic>>>uplink"
  }

  function DownName(key: string): string {
    "user>>>" + key + ">>>traffic>>>downlink"
  }

  lemma NamesDiffer(key: string, key': string)
    ensures UpName(key) != DownName(key')
    ensures UpName(key) == UpName(key') ==> key == key'
    ensures DownName(key) == DownName(key') ==> key == key'
  {
    var u, d := UpName(key), DownName(key');
    assert u[|u| - 6] == 'u' && d[|d| - 6] == 'w';
    assert u[7..|u| - 19] == key && UpName(key')[7..|UpName(key')| - 19] == key';
    assert d[7..|d| - 21] == key' && DownName(key)[7..|DownName(key)| - 21] == key;
  }

  function CounterNames(tag: string, list: seq<Subscription>): seq<string> {
    if list == [] then [] else
      var s := list[|list| - 1];
      CounterNames(tag, list[..|list| - 1]) + [UpName(Key(tag, s.email, s.id)), DownName(Key(tag, s.email, s.id))]
  }

  lemma {:induction false} NamesOfList(tag: string, list: seq<Subscription>, name: string)
    requires name in CounterNames(tag, list)
    ensures exists s :: s in list && name in [UpName(Key(tag, s.email, s.id)), DownName(Key(tag, s.email, s.id))]
  {
    var last := list[|list| - 1];
    if name !in [UpName(Key(tag, last.email, last.id)), DownName(Key(tag, last.email, last.id))] {
      NamesOfList(tag, list[..|list| - 1], name);
    }
  }

  lemma {:induction false} NamesListed(tag: string, list: seq<Subscription>, s: Subscription)
    requires s in list
    ensures UpName(Key(tag, s.email, s.id)) in CounterNames(tag, list)
    ensures DownName(Key(tag, s.email, s.id)) in CounterNames(tag, list)
  {
    hide UpName, DownName;
    var init, last := list[..|list| - 1], list[|list| - 1];
    assert list == init + [last];
    if s != last {
      NamesListed(tag, init, s);
    }
  }

  /** A list with unique Ids reads every counter at most once in a round. */
  lemma {:induction false} RoundsAreDistinct(tag: string, list: seq<Subscription>)
    requires UniqueIds(list)
    ensures NoRepeats(CounterNames(tag, list))
  {
    if list != [] {
      var init, s := list[..|list| - 1], list[|list| - 1];
      RoundsAreDistinct(tag, init);
      var key := Key(tag, s.email, s.id);
      NamesDiffer(key, key);
      forall i | 0 <= i < |CounterNames(tag, init)|
        ensures CounterNames(tag, init)[i] != UpName(key) && CounterNames(tag, init)[i] != DownName(key)
      {
        var name := CounterNames(tag, init)[i];
        NamesOfList(tag, init, name);
        var t :| t in init && name in [UpName(Key(tag, t.email, t.id)), DownName(Key(tag, t.email, t.id))];
        var key' := Key(tag, t.email, t.id);
        NamesDiffer(key, key');
        NamesDiffer(key', key);
        if key == key' {
          KeyInjective(tag, s.email, s.id, t.email, t.id);
        }
      }
    }
  }
}
