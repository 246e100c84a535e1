/** `subscription.Manager`: users of an inbound, and the periodic usage report. */
module SubscriptionManager {
  import opened Decimal
  import opened Api
  import opened UserKey
  import opened Node
  import opened Xray
  import opened Users
  import opened Ledger
  import L = Limiter
  import Maps
  import LimiterSpec
  import NodeManager
  import OnlineReport

  /** One entry of a traffic report. */
  datatype Traffic = Traffic(id: int, upload: nat, download: nat)

  function TrafficOf(counters: Amounts, tag: string, s: Subscription): Traffic {
    Traffic(s.id, At(counters, UpName(Key(tag, s.email, s.id))), At(counters, DownName(Key(tag, s.email, s.id))))
  }

  predicate Used(t: Traffic) {
    t.upload > 0 || t.download > 0
  }

  /** The report: every listed subscription that used something, in list order. */
  function TrafficList(counters: Amounts, tag: string, list: seq<Subscription>): seq<Traffic> {
    if list == [] then [] else
      var t := TrafficOf(counters, tag, list[|list| - 1]);
      TrafficList(counters, tag, list[..|list| - 1]) + if Used(t) then [t] else []
  }

  /** The uplink counters that were not zero, and likewise the downlink ones. */
  function UsedUps(counters: Amounts, tag: string, list: seq<Subscription>): seq<string> {
    if list == [] then [] else
      var s := list[|list| - 1];
      UsedUps(counters, tag, list[..|list| - 1]) +
          if TrafficOf(counters, tag, s).upload > 0 then [UpName(Key(tag, s.email, s.id))] else []
  }

  function UsedDowns(counters: Amounts, tag: string, list: seq<Subscription>): seq<string> {
    if list == [] then [] else
      var s := list[|list| - 1];
      UsedDowns(counters, tag, list[..|list| - 1]) +
          if TrafficOf(counters, tag, s).download > 0 then [DownName(Key(tag, s.email, s.id))] else []
  }

  lemma NothingReported(counters: Amounts, tag: string)
    ensures TrafficList(counters, tag, []) == [] && UsedUps(counters, tag, []) == [] == UsedDowns(counters, tag, [])
  {
  }

  /** What the next subscription of a list adds to the report. */
  lemma OneMoreReported(counters: Amounts, tag: string, list: seq<Subscription>, i: nat)
    requires i < |list|
    ensures var t := TrafficOf(counters, tag, list[i]);
            && TrafficList(counters, tag, list[..i + 1]) ==
                 TrafficList(counters, tag, list[..i]) + (if t.upload > 0 || t.download > 0 then [t] else [])
            && UsedUps(counters, tag, list[..i + 1]) ==
                 UsedUps(counters, tag, list[..i]) +
                 (if t.upload > 0 then [UpName(Key(tag, list[i].email, list[i].id))] else [])
            && UsedDowns(counters, tag, list[..i + 1]) ==
                 UsedDowns(counters, tag, list[..i]) +
                 (if t.download > 0 then [DownName(Key(tag, list[i].email, list[i].id))] else [])
  {
    assert list[..i + 1][..i] == list[..i];
    hide Key, UpName, DownName, At;
  }

  /** All named counters set to zero. */
  function Zeroed(counters: Amounts, names: seq<string>): Amounts {
    counters + map name | name in names :: 0
  }

  /** What a round leaves when its report was acknowledged. */
  function AfterReport(counters: Amounts, tag: string, list: seq<Subscription>): Amounts {
    Zeroed(Zeroed(counters, UsedUps(counters, tag, list)), UsedDowns(counters, tag, list))
  }

  lemma {:induction false} Listed(counters: Amounts, tag: string, list: seq<Subscription>)
    ensures forall s :: s in list && Used(TrafficOf(counters, tag, s)) ==>
              TrafficOf(counters, tag, s) in TrafficList(counters, tag, list)
    ensures forall t :: t in TrafficList(counters, tag, list) ==>
              Used(t) && exists s :: s in list && t == TrafficOf(counters, tag, s)
  {
    if list != [] {
      var init, last := list[..|list| - 1], list[|list| - 1];
      Listed(counters, tag, init);
      assert list == init + [last];
      forall t | t in TrafficList(counters, tag, list)
        ensures Used(t) && exists s :: s in list && t == TrafficOf(counters, tag, s)
      {
        if t in TrafficList(counters, tag, init) {
          var s :| s in init && t == TrafficOf(counters, tag, s);
          assert s in list;
        } else {
          assert last in list;
        }
      }
    }
  }

  lemma {:induction false} UsedNames(counters: Amounts, tag: string, list: seq<Subscription>, s: Subscription)
    requires s in list
    ensures TrafficOf(counters, tag, s).upload > 0 ==> UpName(Key(tag, s.email, s.id)) in UsedUps(counters, tag, list)
    ensures TrafficOf(counters, tag, s).download > 0 ==>
              DownName(Key(tag, s.email, s.id)) in UsedDowns(counters, tag, list)
  {
    var init := list[..|list| - 1];
    if s != list[|list| - 1] {
      assert list == init + [list[|list| - 1]];
      UsedNames(counters, tag, init, s);
    }
  }

  lemma ZeroedAt(counters: Amounts, names: seq<string>, name: string)
    ensures At(Zeroed(counters, names), name) == if name in names then 0 else At(counters, name)
  {
  }

  /** A round with no traffic while it runs loses nothing: what a listed counter
      held is in the report, and after the acknowledgement the counter is zero. */
  lemma QuietRoundConserves(counters: Amounts, tag: string, list: seq<Subscription>, s: Subscription)
    requires s in list
    ensures var up, down := UpName(Key(tag, s.email, s.id)), DownName(Key(tag, s.email, s.id));
            && (At(counters, up) > 0 || At(counters, down) > 0 ==>
                  Traffic(s.id, At(counters, up), At(counters, down)) in TrafficList(counters, tag, list))
            && At(AfterReport(counters, tag, list), up) == 0 && At(AfterReport(counters, tag, list), down) == 0
  {
    Listed(counters, tag, list);
    UsedNames(counters, tag, list, s);
    var ups, downs := UsedUps(counters, tag, list), UsedDowns(counters, tag, list);
    var up, down := UpName(Key(tag, s.email, s.id)), DownName(Key(tag, s.email, s.id));
    ZeroedAt(counters, ups, up);
    ZeroedAt(counters, ups, down);
    ZeroedAt(Zeroed(counters, ups), downs, up);
    ZeroedAt(Zeroed(counters, ups), downs, down);
    assert TrafficOf(counters, tag, s) == Traffic(s.id, At(counters, up), At(counters, down));
    hide At, Zeroed, UpName, DownName;
  }

  // The report in terms of the counters.

  /** What xray has counted for a subscription's user, as (uplink, downlink). */
  function Counted(counters: Amounts, tag: string, s: Subscription): (nat, nat) {
    var user := "user>>>" + tag + "|" + s.email + "|" + Dec(s.id);
    (At(counters, user + ">>>traffic>>>uplink"), At(counters, user + ">>>traffic>>>downlink"))
  }

  /** Element t reports this subscription, with the amounts counted for it. */
  ghost predicate ReportedAs(counters: Amounts, tag: string, s: Subscription, t: Traffic) {
    t.id == s.id && t.upload == Counted(counters, tag, s).0 && t.download == Counted(counters, tag, s).1
  }

  ghost predicate DistinctIds(traffic: seq<Traffic>) {
    forall i, j :: 0 <= i < j < |traffic| ==> traffic[i].id != traffic[j].id
  }

  /** One element for each listed subscription that used something, and no other. */
  ghost predicate Reports(counters: Amounts, tag: string, list: seq<Subscription>, traffic: seq<Traffic>) {
    && DistinctIds(traffic)
    && (forall s :: s in list && Counted(counters, tag, s) != (0, 0) ==>
          exists t :: t in traffic && ReportedAs(counters, tag, s, t))
    && (forall t :: t in traffic ==>
          exists s :: s in list && Counted(counters, tag, s) != (0, 0) && ReportedAs(counters, tag, s, t))
  }

  lemma CountedIs(counters: Amounts, tag: string, s: Subscription)
    ensures var key := Key(tag, s.email, s.id);
            Counted(counters, tag, s) == (At(counters, UpName(key)), At(counters, DownName(key)))
    ensures ReportedAs(counters, tag, s, TrafficOf(counters, tag, s))
    ensures Used(TrafficOf(counters, tag, s)) <==> Counted(counters, tag, s) != (0, 0)
  {
    var key := Key(tag, s.email, s.id);
    assert "user>>>" + tag + "|" + s.email + "|" + Dec(s.id) == "user>>>" + key;
  }

  /** With unique Ids the report says of each subscription what was counted for it, once. */
  lemma {:induction false} ReportIsExact(counters: Amounts, tag: string, list: seq<Subscription>)
    requires UniqueIds(list)
    ensures Reports(counters, tag, list, TrafficList(counters, tag, list))
  {
    Listed(counters, tag, list);
    forall s ensures ReportedAs(counters, tag, s, TrafficOf(counters, tag, s)) {
      CountedIs(counters, tag, s);
    }
    forall s ensures Used(TrafficOf(counters, tag, s)) <==> Counted(counters, tag, s) != (0, 0) {
      CountedIs(counters, tag, s);
    }
    ReportedOnce(counters, tag, list);
    hide Used, Counted, TrafficList, TrafficOf;
  }

  lemma {:induction false} ReportedOnce(counters: Amounts, tag: string, list: seq<Subscription>)
    requires UniqueIds(list)
    ensures DistinctIds(TrafficList(counters, tag, list))
  {
    hide UpName, DownName, Key;
    if list != [] {
      var init, last := list[..|list| - 1], list[|list| - 1];
      ReportedOnce(counters, tag, init);
      Listed(counters, tag, init);
      var before := TrafficList(counters, tag, init);
      forall i | 0 <= i < |before| ensures before[i].id != last.id {
        assert before[i] in before;
        var s :| s in init && before[i] == TrafficOf(counters, tag, s);
        var k :| 0 <= k < |init| && init[k] == s;
        assert list[k].id != list[|list| - 1].id;
      }
      var t := TrafficOf(counters, tag, last);
      assert t.id == last.id;
      var traffic := before + if Used(t) then [t] else [];
      assert TrafficList(counters, tag, list) == traffic;
      forall i, j | 0 <= i < j < |traffic| ensures traffic[i].id != traffic[j].id {
        assert traffic[i] == before[i];
        assert j < |before| ==> traffic[j] == before[j];
      }
    }
  }

  /** The counters of the listed users are zero, all others as they were. */
  ghost predicate ZeroFor(before: Amounts, after: Amounts, tag: string, list: seq<Subscription>) {
    && (forall s :: s in list ==> Counted(after, tag, s) == (0, 0))
    && forall name :: name !in CounterNames(tag, list) ==> At(after, name) == At(before, name)
  }

  lemma {:induction false} UsedAreListed(counters: Amounts, tag: string, list: seq<Subscription>)
    ensures forall name :: name in UsedUps(counters, tag, list) || name in UsedDowns(counters, tag, list) ==>
              name in CounterNames(tag, list)
  {
    hide UpName, DownName;
    if list != [] {
      UsedAreListed(counters, tag, list[..|list| - 1]);
    }
  }

  lemma AfterReportIs(counters: Amounts, tag: string, list: seq<Subscription>)
    ensures ZeroFor(counters, AfterReport(counters, tag, list), tag, list)
  {
    hide UpName, DownName;
    var ups, downs := UsedUps(counters, tag, list), UsedDowns(counters, tag, list);
    forall s | s in list ensures Counted(AfterReport(counters, tag, list), tag, s) == (0, 0) {
      QuietRoundConserves(counters, tag, list, s);
      CountedIs(AfterReport(counters, tag, list), tag, s);
    }
    UsedAreListed(counters, tag, list);
    forall name | name !in CounterNames(tag, list)
      ensures At(AfterReport(counters, tag, list), name) == At(counters, name)
    {
      ZeroedAt(counters, ups, name);
      ZeroedAt(Zeroed(counters, ups), downs, name);
    }
  }

  /** An empty report leaves nothing to reset. */
  lemma {:induction false} NothingUsed(counters: Amounts, tag: string, list: seq<Subscription>)
    requires TrafficList(counters, tag, list) == []
    ensures UsedUps(counters, tag, list) == [] && UsedDowns(counters, tag, list) == []
  {
    if list != [] {
      NothingUsed(counters, tag, list[..|list| - 1]);
    }
  }

  /** `stats.Manager`: the registered traffic counters. */
  class Stats {
    var counters: Amounts

    constructor ()
      ensures counters == map[]
    {
      counters := map[];
    }

    method Set0(name: string)
      modifies this
      ensures counters == old(counters)[name := 0]
    {
      counters := counters[name := 0];
    }
  }

  /** Nothing but the users of one inbound differs. */
  ghost predicate OnlyUsers(before: CoreState, after: CoreState, tag: string) {
    && tag in before.inbounds && tag in after.inbounds
    && after == before.(inbounds := before.inbounds[tag := after.inbounds[tag]])
  }

  class Manager {
    const core: NodeManager.Instance
    const stats: Stats
    const limiter: L.Limiter
    const client: OnlineReport.Client

    constructor (core: NodeManager.Instance, stats: Stats, limiter: L.Limiter, client: OnlineReport.Client)
      ensures this.core == core && this.stats == stats && this.limiter == limiter && this.client == client
    {
      this.core, this.stats, this.limiter, this.client := core, stats, limiter, client;
    }

    // Users.

    method AddNewSubscription(list: seq<Subscription>, n: NodeInfo, tag: string) returns (ok: bool)
      requires tag in core.inbounds
      modifies core`inbounds
      ensures OnlyUsers(old(core.State()), core.State(), tag)
      ensures list == [] ==> ok
      ensures n.nodeType in ["vless", "vmess", "trojan", "shadowsocks"] ==>
                Can(old(core.State()), AddUsers(tag, BuildUsers(n, tag, list))) ==> ok
      ensures ok && list != [] ==> n.nodeType in ["vless", "vmess", "trojan", "shadowsocks"]
      // Every subscription gets the account of its node type, if it can have one.
      ensures ok && UniqueIds(list) ==> forall s :: s in list ==> Installed(n, tag, core.inbounds[tag], s)
      ensures ok ==> core.State() == Do(old(core.State()), AddUsers(tag, BuildUsers(n, tag, list)))
    {
      hide Installed;
      if list == [] {
        assert core.inbounds[tag := core.inbounds[tag]] == core.inbounds;
        return true;
      }
      if !Supported(n) {
        return false;
      }
      var users := BuildUsers(n, tag, list);
      ok := AddInboundSubscriptions(users, tag);
      if ok && UniqueIds(list) {
        AddedAccounts(n, tag, old(core.inbounds[tag]), list);
      }
    }

    method AddInboundSubscriptions(users: seq<User>, tag: string) returns (ok: bool)
      requires tag in core.inbounds
      modifies core`inbounds
      ensures OnlyUsers(old(core.State()), core.State(), tag)
      ensures Can(old(core.State()), AddUsers(tag, users)) ==> ok
      ensures ok ==> core.State() == Do(old(core.State()), AddUsers(tag, users))
    {
      assert core.inbounds[tag := core.inbounds[tag]] == core.inbounds;
      ghost var clear := Can(core.State(), AddUsers(tag, users));
      for i := 0 to |users|
        invariant core.outbounds == old(core.outbounds) && core.rules == old(core.rules)
        invariant core.inbounds == old(core.inbounds)[tag := AddAll(old(core.inbounds)[tag], users[..i])]
      {
        assert users[..i + 1][..i] == users[..i];
        if clear {
          AddAllHolds(old(core.inbounds)[tag], users[..i]);
          assert users[i] in users;
        }
        ok := core.AddUser(tag, users[i]);
        if !ok {
          return false;
        }
      }
      assert users[..|users|] == users;
      ok := true;
    }

    method Remove(keys: seq<string>, tag: string) returns (ok: bool)
      requires tag in core.inbounds
      modifies core`inbounds
      ensures OnlyUsers(old(core.State()), core.State(), tag)
      ensures core.inbounds[tag] == LeftAfter(old(core.inbounds[tag]), keys)
      ensures ok <==> Can(old(core.State()), RemoveUsers(tag, keys))
      ensures ok ==> core.State() == Do(old(core.State()), RemoveUsers(tag, keys))
    {
      ghost var users := core.inbounds[tag];
      assert core.inbounds[tag := users] == core.inbounds && keys[0..] == keys;
      AllCut(users, keys);
      for i := 0 to |keys|
        invariant core.outbounds == old(core.outbounds) && core.rules == old(core.rules)
        invariant tag in core.inbounds && core.inbounds == old(core.inbounds)[tag := core.inbounds[tag]]
        invariant LeftAfter(users, keys) == LeftAfter(core.inbounds[tag], keys[i..])
        invariant AllPresent(users, keys) <==> AllPresent(core.inbounds[tag], keys[i..])
      {
        assert keys[i..][1..] == keys[i + 1..];
        ok := core.RemoveUser(tag, keys[i]);
        if !ok {
          return false;
        }
      }
      ok := true;
    }

    // Usage.

    method ResetTraffic(ups: seq<string>, downs: seq<string>)
      modifies stats
      ensures stats.counters == Zeroed(Zeroed(old(stats.counters), ups), downs)
    {
      ZeroAll(ups);
      ZeroAll(downs);
    }

    method ZeroAll(names: seq<string>)
      modifies stats
      ensures stats.counters == Zeroed(old(stats.counters), names)
    {
      assert Zeroed(stats.counters, []) == stats.counters;
      for i := 0 to |names|
        invariant stats.counters == Zeroed(old(stats.counters), names[..i])
      {
        assert names[..i + 1] == names[..i] + [names[i]];
        stats.Set0(names[i]);
      }
      assert names[..|names|] == names;
    }

    /** The first loop of `SubscriptionMonitor`. */
    method CollectTraffic(list: seq<Subscription>, tag: string)
      returns (traffic: seq<Traffic>, ups: seq<string>, downs: seq<string>)
      ensures traffic == TrafficList(stats.counters, tag, list)
      ensures ups == UsedUps(stats.counters, tag, list) && downs == UsedDowns(stats.counters, tag, list)
      ensures UniqueIds(list) ==> Reports(stats.counters, tag, list, traffic)
    {
      hide Reports;
      if UniqueIds(list) {
        ReportIsExact(stats.counters, tag, list);
      }
      hide UniqueIds, TrafficList, UsedUps, UsedDowns, Key, UpName, DownName, At;
      NothingReported(stats.counters, tag);
      traffic, ups, downs := [], [], [];
      for i := 0 to |list|
        invariant traffic == TrafficList(stats.counters, tag, list[..i])
        invariant ups == UsedUps(stats.counters, tag, list[..i]) && downs == UsedDowns(stats.counters, tag, list[..i])
      {
        OneMoreReported(stats.counters, tag, list, i);
        var key := Key(tag, list[i].email, list[i].id);
        var up, down := At(stats.counters, UpName(key)), At(stats.counters, DownName(key));
        if up > 0 || down > 0 {
          traffic := traffic + [Traffic(list[i].id, up, down)];
          if up > 0 {
            ups := ups + [UpName(key)];
          }
          if down > 0 {
            downs := downs + [DownName(key)];
          }
        }
      }
      assert list[..|list|] == list;
    }

    /** The traffic half of `SubscriptionMonitor`; `accepted` is the panel's answer. */
    method ReportTraffic(list: seq<Subscription>, tag: string, accepted: bool) returns (traffic: seq<Traffic>)
      modifies stats
      ensures traffic == TrafficList(old(stats.counters), tag, list)
      ensures stats.counters == if accepted then AfterReport(old(stats.counters), tag, list) else old(stats.counters)
      // Each listed subscription is billed what was counted for it.
      ensures UniqueIds(list) ==> Reports(old(stats.counters), tag, list, traffic)
      ensures accepted ==> ZeroFor(old(stats.counters), stats.counters, tag, list)
    {
      hide Reports, ZeroFor;
      AfterReportIs(stats.counters, tag, list);
      var ups, downs;
      traffic, ups, downs := CollectTraffic(list, tag);
      if |traffic| > 0 {
        if accepted {
          ResetTraffic(ups, downs);
        }
      } else {
        NothingUsed(stats.counters, tag, list);
      }
    }

    /** The online half: an empty or missing report is not sent. */
    method ReportOnline(tag: string) returns (onlineList: seq<OnlineIP>, ghost order: seq<(string, string)>)
      requires limiter.Valid() && client !in limiter.Repr
      modifies client, limiter.Repr
      ensures limiter.Valid() && limiter.Repr == old(limiter.Repr)
      ensures tag in old(limiter.View()) ==>
                && limiter.View() == old(limiter.View())[tag := LimiterSpec.ReportStep(old(limiter.View())[tag])]
                && L.Enumerates(old(limiter.View())[tag].online, onlineList, order)
      ensures tag !in old(limiter.View()) ==> onlineList == [] && limiter.View() == old(limiter.View())
      ensures if onlineList == [] then client.lastReportOnline == old(client.lastReportOnline)
              else OnlineReport.CountsOf(onlineList, client.lastReportOnline)
    {
      var ok;
      ok, onlineList, order := limiter.GetOnlineDevice(tag);
      if !ok {
        return [], [];
      }
      if |onlineList| > 0 {
        label drained:
        var data := client.ReportOnlineIPs(onlineList);
        limiter.Undisturbed@drained();
      }
    }

    /** One monitor run; no traffic arrives while it runs (`Ledger` has the
        interleaved case). */
    method SubscriptionMonitor(list: seq<Subscription>, tag: string, accepted: bool)
      returns (traffic: seq<Traffic>, onlineList: seq<OnlineIP>, ghost order: seq<(string, string)>)
      requires limiter.Valid() && client !in limiter.Repr && stats !in limiter.Repr
      modifies stats, client, limiter.Repr
      ensures limiter.Valid() && limiter.Repr == old(limiter.Repr)
      ensures traffic == TrafficList(old(stats.counters), tag, list)
      ensures stats.counters == if accepted then AfterReport(old(stats.counters), tag, list) else old(stats.counters)
      // Each listed subscription is billed what was counted for it.
      ensures UniqueIds(list) ==> Reports(old(stats.counters), tag, list, traffic)
      ensures accepted ==> ZeroFor(old(stats.counters), stats.counters, tag, list)
      ensures tag in old(limiter.View()) ==>
                && limiter.View() == old(limiter.View())[tag := LimiterSpec.ReportStep(old(limiter.View())[tag])]
                && L.Enumerates(old(limiter.View())[tag].online, onlineList, order)
      ensures tag !in old(limiter.View()) ==> onlineList == [] && limiter.View() == old(limiter.View())
    {
      hide AfterReport, TrafficList, L.Enumerates, LimiterSpec.ReportStep, Reports, ZeroFor;
      traffic := ReportTraffic(list, tag, accepted);
      limiter.Undisturbed();
      onlineList, order := ReportOnline(tag);
    }
  }
}
