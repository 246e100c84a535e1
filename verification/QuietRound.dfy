/** A monitor round during which no traffic arrives is one particular run of the
    ledger: the method `ReportTraffic` takes the ledger's steps in its own order. */
module QuietRound {
  import opened Api
  import opened UserKey
  import opened Ledger
  import opened SubscriptionManager

  /** The counters in the order in which `resetTraffic` zeroes them. */
  function ResetList(counters: Amounts, tag: string, list: seq<Subscription>): seq<string> {
    UsedUps(counters, tag, list) + UsedDowns(counters, tag, list)
  }

  ghost predicate IsUp(name: string) {
    exists key :: name == UpName(key)
  }

  ghost predicate IsDown(name: string) {
    exists key :: name == DownName(key)
  }

  lemma {:induction false} ResetListMembers(counters: Amounts, tag: string, list: seq<Subscription>)
    ensures forall name :: name in ResetList(counters, tag, list) <==>
              name in CounterNames(tag, list) && At(counters, name) > 0
    ensures forall name :: name in UsedUps(counters, tag, list) ==> IsUp(name)
    ensures forall name :: name in UsedDowns(counters, tag, list) ==> IsDown(name)
  {
    hide UpName, DownName;
    if list != [] {
      ResetListMembers(counters, tag, list[..|list| - 1]);
    }
  }

  lemma UpIsNotDown(name: string)
    ensures !(IsUp(name) && IsDown(name))
  {
    if key, key' :| name == UpName(key) && name == DownName(key') {
      NamesDiffer(key, key');
    }
  }

  lemma LastNamesNew(tag: string, list: seq<Subscription>)
    requires list != [] && NoRepeats(CounterNames(tag, list))
    ensures var init, s := list[..|list| - 1], list[|list| - 1];
            && NoRepeats(CounterNames(tag, init))
            && UpName(Key(tag, s.email, s.id)) !in CounterNames(tag, init)
            && DownName(Key(tag, s.email, s.id)) !in CounterNames(tag, init)
  {
    hide UpName, DownName;
    var init, s := list[..|list| - 1], list[|list| - 1];
    var names, before := CounterNames(tag, list), CounterNames(tag, init);
    assert names[|before|] == UpName(Key(tag, s.email, s.id));
    assert names[|before| + 1] == DownName(Key(tag, s.email, s.id));
    assert forall i :: 0 <= i < |before| ==> names[i] == before[i];
  }

  lemma {:induction false} HalvesDistinct(counters: Amounts, tag: string, list: seq<Subscription>)
    requires NoRepeats(CounterNames(tag, list))
    ensures NoRepeats(UsedUps(counters, tag, list)) && NoRepeats(UsedDowns(counters, tag, list))
  {
    hide UpName, DownName, CounterNames;
    if list != [] {
      var init := list[..|list| - 1];
      LastNamesNew(tag, list);
      HalvesDistinct(counters, tag, init);
      ResetListMembers(counters, tag, init);
      assert forall name :: name in UsedUps(counters, tag, init) ==> name in ResetList(counters, tag, init);
      assert forall name :: name in UsedDowns(counters, tag, init) ==> name in ResetList(counters, tag, init);
    }
  }

  lemma ResetListDistinct(counters: Amounts, tag: string, list: seq<Subscription>)
    requires UniqueIds(list)
    ensures NoRepeats(ResetList(counters, tag, list))
  {
    RoundsAreDistinct(tag, list);
    HalvesDistinct(counters, tag, list);
    ResetListMembers(counters, tag, list);
    var ups, downs := UsedUps(counters, tag, list), UsedDowns(counters, tag, list);
    forall i, j | 0 <= i < |ups| && 0 <= j < |downs| ensures ups[i] != downs[j] {
      UpIsNotDown(ups[i]);
    }
  }

  lemma RunOne(s: State, steps: seq<Step>, step: Step)
    ensures Run(s, steps + [step]) == Apply(Run(s, steps), step)
  {
    assert (steps + [step])[..|steps|] == steps;
  }

  ghost predicate NoTraffic(steps: seq<Step>) {
    forall i :: 0 <= i < |steps| ==> !steps[i].Add?
  }

  /** What reading the given counters has noted. */
  function Taken(counters: Amounts, names: seq<string>): Amounts {
    map name | name in names && At(counters, name) > 0 :: At(counters, name)
  }

  /** Nothing acknowledged, lost or zeroed yet in this round. */
  ghost predicate Untouched(s: State, s': State) {
    s'.counters == s.counters && s'.acked == s.acked && s'.added == s.added && s'.lost == s.lost
  }

  /** The first `i` counters have been looked at. */
  ghost predicate Scanned(s: State, s': State, names: seq<string>, i: nat) {
    && i <= |names| && s'.phase == Checking(names, i) && s'.taken == Taken(s.counters, names[..i]) && Untouched(s, s')
    && forall name :: name in s'.taken ==> At(s'.window, name) == 0
  }

  lemma ScanZero(s: State, s': State, names: seq<string>, i: nat)
    requires i < |names| && Scanned(s, s', names, i) && At(s.counters, names[i]) == 0
    ensures Scanned(s, Apply(s', Check), names, i + 1)
  {
    assert names[..i + 1] == names[..i] + [names[i]];
    assert Taken(s.counters, names[..i + 1]) == Taken(s.counters, names[..i]);
  }

  lemma ScanUsed(s: State, s': State, names: seq<string>, i: nat)
    requires i < |names| && Scanned(s, s', names, i) && At(s.counters, names[i]) != 0
    ensures Scanned(s, Apply(Apply(s', Check), Read), names, i + 1)
  {
    var name := names[i];
    assert names[..i + 1] == names[..i] + [name];
    assert Apply(s', Check) == s'.(phase := Reading(names, i));
    assert Taken(s.counters, names[..i + 1]) == Taken(s.counters, names[..i])[name := At(s.counters, name)];
  }

  /** The reading half of a round. */
  lemma {:induction false} Scan(s: State, names: seq<string>, i: nat) returns (steps: seq<Step>)
    requires s.phase == Idle && s.taken == map[] && i <= |names|
    ensures NoTraffic(steps) && Scanned(s, Run(s, steps), names, i)
  {
    hide Apply;
    if i == 0 {
      steps := [Begin(names)];
      RunOne(s, [], Begin(names));
      assert [] + [Begin(names)] == steps;
      ScanStart(s, names);
    } else {
      hide Scanned;
      var before := Scan(s, names, i - 1);
      RunOne(s, before, Check);
      steps := before + [Check];
      if At(s.counters, names[i - 1]) != 0 {
        ScanUsed(s, Run(s, before), names, i - 1);
        RunOne(s, steps, Read);
        steps := steps + [Read];
      } else {
        ScanZero(s, Run(s, before), names, i - 1);
      }
    }
  }

  lemma ScanStart(s: State, names: seq<string>)
    requires s.phase == Idle && s.taken == map[]
    ensures Scanned(s, Apply(s, Begin(names)), names, 0)
  {
  }

  /** The first `i` counters of the acknowledged round have been zeroed. */
  ghost predicate PartlyReset(s: State, s': State, order: seq<string>, i: nat) {
    && i <= |order| && s'.phase == Resetting(order, i) && s'.counters == Zeroed(s.counters, order[..i])
    && s'.acked == s.acked && s'.window == s.window && forall name :: At(s'.lost, name) == At(s.lost, name)
  }

  lemma ResetStep(s: State, s': State, order: seq<string>, i: nat)
    requires i < |order| && PartlyReset(s, s', order, i) && At(s.window, order[i]) == 0
    ensures PartlyReset(s, Apply(s', Reset), order, i + 1)
  {
    hide Zeroed;
    ZeroOneMore(s.counters, order, i);
    assert Apply(s', Reset).lost == Plus(s'.lost, order[i], 0);
  }

  lemma ZeroOneMore(counters: Amounts, names: seq<string>, i: nat)
    requires i < |names|
    ensures Zeroed(counters, names[..i + 1]) == Zeroed(counters, names[..i])[names[i] := 0]
  {
    assert names[..i + 1] == names[..i] + [names[i]];
  }

  lemma ResetEnd(s: State, s': State, order: seq<string>)
    requires PartlyReset(s, s', order, |order|)
    ensures var t := Apply(s', Reset);
            && t.phase == Idle && t.counters == Zeroed(s.counters, order) && t.acked == s.acked
            && forall name :: At(t.lost, name) == At(s.lost, name)
  {
    assert order[..|order|] == order;
  }

  lemma ResetStart(s: State, order: seq<string>)
    requires s.phase == Resetting(order, 0)
    ensures PartlyReset(s, s, order, 0)
  {
    assert Zeroed(s.counters, order[..0]) == s.counters;
  }

  /** The zeroing half. */
  lemma {:induction false} ResetMany(s0: State, before: seq<Step>, order: seq<string>, i: nat)
    returns (steps: seq<Step>)
    requires NoTraffic(before) && i <= |order| && Run(s0, before).phase == Resetting(order, 0)
    requires forall name :: name in order ==> At(Run(s0, before).window, name) == 0
    ensures NoTraffic(steps) && PartlyReset(Run(s0, before), Run(s0, steps), order, i)
  {
    hide Apply, PartlyReset, Run;
    if i == 0 {
      steps := before;
      ResetStart(Run(s0, before), order);
    } else {
      steps := ResetMany(s0, before, order, i - 1);
      ResetStep(Run(s0, before), Run(s0, steps), order, i - 1);
      RunOne(s0, steps, Reset);
      steps := steps + [Reset];
    }
  }

  /** The report in between. */
  lemma SendAll(s: State, s': State, names: seq<string>, order: seq<string>)
    requires Scanned(s, s', names, |names|) && order != [] && NoRepeats(order)
    requires forall name :: name in order <==> name in names && At(s.counters, name) > 0
    ensures var t := Apply(s', Send(true, order));
            && t.phase == Resetting(order, 0) && t.counters == s.counters && t.lost == s.lost
            && t.acked == PlusAll(s.acked, Taken(s.counters, names))
            && forall name :: name in order ==> At(t.window, name) == 0
  {
    assert names[..|names|] == names;
    assert order[0] in order && order[0] in s'.taken;
  }

  // What is acknowledged is what was reported.

  /** All bytes that a report gives for an Id. */
  function Uploaded(traffic: seq<Traffic>, id: int): nat {
    if traffic == [] then 0 else
      var t := traffic[|traffic| - 1];
      Uploaded(traffic[..|traffic| - 1], id) + if t.id == id then t.upload else 0
  }

  function Downloaded(traffic: seq<Traffic>, id: int): nat {
    if traffic == [] then 0 else
      var t := traffic[|traffic| - 1];
      Downloaded(traffic[..|traffic| - 1], id) + if t.id == id then t.download else 0
  }

  /** The acknowledged amounts of the listed users' counters grew by what the report says,
      all others not at all. */
  ghost predicate Billed(before: Amounts, after: Amounts, tag: string, list: seq<Subscription>,
                         traffic: seq<Traffic>) {
    && (forall s :: s in list ==>
          && Counted(after, tag, s).0 == Counted(before, tag, s).0 + Uploaded(traffic, s.id)
          && Counted(after, tag, s).1 == Counted(before, tag, s).1 + Downloaded(traffic, s.id))
    && forall name :: name !in CounterNames(tag, list) ==> At(after, name) == At(before, name)
  }

  lemma {:induction false} SumOfNone(traffic: seq<Traffic>, id: int)
    requires forall t :: t in traffic ==> t.id != id
    ensures Uploaded(traffic, id) == 0 && Downloaded(traffic, id) == 0
  {
    if traffic != [] {
      SumOfNone(traffic[..|traffic| - 1], id);
      assert traffic[|traffic| - 1] in traffic;
    }
  }

  lemma {:induction false} SumOfOne(traffic: seq<Traffic>, i: nat)
    requires DistinctIds(traffic) && i < |traffic|
    ensures Uploaded(traffic, traffic[i].id) == traffic[i].upload
    ensures Downloaded(traffic, traffic[i].id) == traffic[i].download
  {
    var init := traffic[..|traffic| - 1];
    if i < |init| {
      SumOfOne(init, i);
    } else {
      forall t | t in init ensures t.id != traffic[i].id {
        var j :| 0 <= j < |init| && init[j] == t;
        assert traffic[j].id != traffic[i].id;
      }
      SumOfNone(init, traffic[i].id);
    }
  }

  /** The report gives for a listed Id exactly what was counted. */
  lemma SumsAreCounted(counters: Amounts, tag: string, list: seq<Subscription>, traffic: seq<Traffic>, s: Subscription)
    requires UniqueIds(list) && Reports(counters, tag, list, traffic) && s in list
    ensures Uploaded(traffic, s.id) == Counted(counters, tag, s).0
    ensures Downloaded(traffic, s.id) == Counted(counters, tag, s).1
  {
    hide Counted, Uploaded, Downloaded;
    if Counted(counters, tag, s) == (0, 0) {
      forall t | t in traffic ensures t.id != s.id {
        var s' :| s' in list && Counted(counters, tag, s') != (0, 0) && ReportedAs(counters, tag, s', t);
        if s'.id == s.id {
          UniqueId(list, s, s');
        }
      }
      SumOfNone(traffic, s.id);
    } else {
      var t :| t in traffic && ReportedAs(counters, tag, s, t);
      var i :| 0 <= i < |traffic| && traffic[i] == t;
      SumOfOne(traffic, i);
    }
  }

  lemma AckedAt(acked: Amounts, counters: Amounts, names: seq<string>, name: string)
    ensures At(PlusAll(acked, Taken(counters, names)), name) ==
            At(acked, name) + if name in names then At(counters, name) else 0
  {
  }

  lemma AckedIsBilled(acked: Amounts, counters: Amounts, tag: string, list: seq<Subscription>, traffic: seq<Traffic>)
    requires UniqueIds(list) && Reports(counters, tag, list, traffic)
    ensures Billed(acked, PlusAll(acked, Taken(counters, CounterNames(tag, list))), tag, list, traffic)
  {
    hide PlusAll, Taken, CounterNames, At, Counted, Reports, Uploaded, Downloaded;
    var names := CounterNames(tag, list);
    var after := PlusAll(acked, Taken(counters, names));
    forall name ensures At(after, name) == At(acked, name) + if name in names then At(counters, name) else 0 {
      AckedAt(acked, counters, names, name);
    }
    forall s | s in list
      ensures Counted(after, tag, s).0 == Counted(acked, tag, s).0 + Uploaded(traffic, s.id)
      ensures Counted(after, tag, s).1 == Counted(acked, tag, s).1 + Downloaded(traffic, s.id)
    {
      hide UpName, DownName, Key, ReportedAs, Used, TrafficOf;
      SumsAreCounted(counters, tag, list, traffic, s);
      CountedIs(after, tag, s);
      CountedIs(acked, tag, s);
      CountedIs(counters, tag, s);
      NamesListed(tag, list, s);
    }
  }

  /** From any idle state of the ledger a round without traffic, once acknowledged,
      acknowledges exactly what the report says, which is what the listed counters held,
      loses nothing, and leaves the counters as `ReportTraffic` does. */
  lemma QuietRoundIsARun(s: State, tag: string, list: seq<Subscription>) returns (steps: seq<Step>)
    requires s.phase == Idle && s.taken == map[] && UniqueIds(list)
    requires TrafficList(s.counters, tag, list) != []
    ensures NoTraffic(steps)
    ensures var s' := Run(s, steps);
            && s'.phase == Idle
            && s'.counters == AfterReport(s.counters, tag, list)
            && s'.acked == PlusAll(s.acked, Taken(s.counters, CounterNames(tag, list)))
            && Billed(s.acked, s'.acked, tag, list, TrafficList(s.counters, tag, list))
            && forall name :: At(s'.lost, name) == At(s.lost, name)
  {
    hide Apply, Run, Scanned, PartlyReset, PlusAll, Taken, CounterNames, TrafficList, Billed, Reports;
    ReportIsExact(s.counters, tag, list);
    AckedIsBilled(s.acked, s.counters, tag, list, TrafficList(s.counters, tag, list));
    var names, order := CounterNames(tag, list), ResetList(s.counters, tag, list);
    ResetListMembers(s.counters, tag, list);
    ResetListDistinct(s.counters, tag, list);
    SomethingUsed(s.counters, tag, list);
    var scan := Scan(s, names, |names|);
    SendAll(s, Run(s, scan), names, order);
    RunOne(s, scan, Send(true, order));
    var sent := scan + [Send(true, order)];
    var reset := ResetMany(s, sent, order, |order|);
    ResetEnd(Run(s, sent), Run(s, reset), order);
    RunOne(s, reset, Reset);
    steps := reset + [Reset];
    ZeroedInTurn(s.counters, UsedUps(s.counters, tag, list), UsedDowns(s.counters, tag, list));
  }

  lemma ZeroedInTurn(counters: Amounts, a: seq<string>, b: seq<string>)
    ensures Zeroed(Zeroed(counters, a), b) == Zeroed(counters, a + b)
  {
  }

  lemma {:induction false} SomethingUsed(counters: Amounts, tag: string, list: seq<Subscription>)
    ensures TrafficList(counters, tag, list) != [] ==> ResetList(counters, tag, list) != []
  {
    if list != [] {
      SomethingUsed(counters, tag, list[..|list| - 1]);
    }
  }
}
