/** The limiter of one inbound as a state machine on values: what admissions,
    subscription updates and online reports do to it, and what holds after any
    sequence of them. `Limiter.dfy` proves that the limiter's methods take
    these steps. */
module LimiterSpec {
  import opened Basics
  import opened Decimal
  import opened Api
  import opened UserKey

  datatype SubscriptionInfo = SubscriptionInfo(id: int, speedLimit: uint64, ipLimit: int)

  /** A rate bucket; the serial number tells one bucket object from another. */
  datatype BucketView = BucketView(serial: nat, rate: uint64, burst: int)

  datatype InboundView = InboundView(
    tag: string,
    nodeLimit: uint64,
    global: bool,                             // the shared IP cache is enabled
    subs: map<string, SubscriptionInfo>,
    buckets: map<string, BucketView>,
    online: map<string, map<string, int>>,    // user key -> IP -> Id
    issued: nat)                              // buckets created so far

  datatype Decision = Rejected | Unlimited | Limited(serial: nat)

  datatype Event =
    | Admit(key: string, ip: string, globalReject: bool)
    | Update(subs: seq<Subscription>)
    | Report

  // Rates.

  function DetermineRate(nodeLimit: uint64, subLimit: uint64): (r: uint64)
    ensures r <= nodeLimit && r <= subLimit && (r == nodeLimit || r == subLimit)
  {
    if nodeLimit == 0 && subLimit == 0 then 0
    else if nodeLimit > subLimit then subLimit
    else if nodeLimit < subLimit then nodeLimit
    else subLimit
  }

  /** What the function's own comment announces. */
  function MinimumNonZero(nodeLimit: uint64, subLimit: uint64): uint64 {
    if nodeLimit == 0 then subLimit
    else if subLimit == 0 then nodeLimit
    else if nodeLimit < subLimit then nodeLimit else subLimit
  }

  /** The comment is right exactly when both sides or neither are unlimited:
      otherwise the side that says "unlimited" lifts the other side's limit. */
  lemma RateIsMinimumNonZero(nodeLimit: uint64, subLimit: uint64)
    ensures DetermineRate(nodeLimit, subLimit) == MinimumNonZero(nodeLimit, subLimit)
       <==> (nodeLimit == 0 <==> subLimit == 0)
    ensures DetermineRate(nodeLimit, subLimit) == 0 <==> nodeLimit == 0 || subLimit == 0
  {
  }

  /** Go's conversion `int(limit)` of a uint64. */
  function ToInt(x: uint64): int {
    if x < 0x8000_0000_0000_0000 then x else x - 0x1_0000_0000_0000_0000
  }

  function Lookup(info: InboundView, key: string): SubscriptionInfo {
    if key in info.subs then info.subs[key] else SubscriptionInfo(0, 0, 0)
  }

  function RateOf(info: InboundView, key: string): uint64 {
    DetermineRate(info.nodeLimit, Lookup(info, key).speedLimit)
  }

  // Steps.

  function Info(s: Subscription): SubscriptionInfo {
    SubscriptionInfo(s.id, s.speedLimit, s.ipLimit)
  }

  function StoreAll(subs: map<string, SubscriptionInfo>, tag: string,
                    list: seq<Subscription>): map<string, SubscriptionInfo> {
    if list == [] then subs else
      var s := list[|list| - 1];
      StoreAll(subs, tag, list[..|list| - 1])[Key(tag, s.email, s.id) := Info(s)]
  }

  function NewInbound(tag: string, nodeLimit: uint64, list: seq<Subscription>, global: bool): InboundView {
    InboundView(tag, nodeLimit, global, StoreAll(map[], tag, list), map[], map[], 0)
  }

  /** The local test: a new IP is refused when more than `ipLimit` are online. */
  predicate OverLimit(info: InboundView, key: string, ip: string) {
    var limit := Lookup(info, key).ipLimit;
    key in info.online && ip !in info.online[key] && limit > 0 && |info.online[key]| > limit
  }

  predicate Refused(info: InboundView, key: string, ip: string, globalReject: bool) {
    (info.global && globalReject) || OverLimit(info, key, ip)
  }

  function MarkOnline(info: InboundView, key: string, ip: string): InboundView {
    var ips := if key in info.online then info.online[key] else map[];
    if ip in ips then info else info.(online := info.online[key := ips[ip := Lookup(info, key).id]])
  }

  function TakeBucket(info: InboundView, key: string): (InboundView, Decision) {
    var rate := RateOf(info, key);
    if rate == 0 then (info, Unlimited)
    else if key in info.buckets then (info, Limited(info.buckets[key].serial))
    else (info.(buckets := info.buckets[key := BucketView(info.issued, rate, ToInt(rate))], issued := info.issued + 1),
          Limited(info.issued))
  }

  function AdmitStep(info: InboundView, key: string, ip: string, globalReject: bool): (InboundView, Decision) {
    if Refused(info, key, ip, globalReject) then (info, Rejected) else TakeBucket(MarkOnline(info, key, ip), key)
  }

  function UpdateOne(info: InboundView, s: Subscription): InboundView {
    var key := Key(info.tag, s.email, s.id);
    var rate := DetermineRate(info.nodeLimit, s.speedLimit);
    info.(subs := info.subs[key := Info(s)],
          buckets := if rate == 0 then info.buckets - {key}
                     else if key in info.buckets then
                       info.buckets[key := BucketView(info.buckets[key].serial, rate, ToInt(rate))]
                     else info.buckets)
  }

  function UpdateAll(info: InboundView, list: seq<Subscription>): InboundView {
    if list == [] then info else UpdateOne(UpdateAll(info, list[..|list| - 1]), list[|list| - 1])
  }

  function ReportStep(info: InboundView): InboundView {
    info.(buckets := map key | key in info.buckets && key in info.online :: info.buckets[key], online := map[])
  }

  function Next(info: InboundView, e: Event): InboundView {
    match e
    case Admit(key, ip, globalReject) => AdmitStep(info, key, ip, globalReject).0
    case Update(list) => UpdateAll(info, list)
    case Report => ReportStep(info)
  }

  function Run(info: InboundView, events: seq<Event>): InboundView {
    if events == [] then info else Next(Run(info, events[..|events| - 1]), events[|events| - 1])
  }

  // Buckets: every bucket carries its key's current rate.

  ghost predicate Current(b: BucketView, rate: uint64, issued: nat) {
    b.rate == rate > 0 && b.burst == ToInt(rate) && b.serial < issued
  }

  ghost predicate BucketInv(info: InboundView) {
    && (forall key :: key in info.buckets ==> Current(info.buckets[key], RateOf(info, key), info.issued))
    && (forall k, k' :: k in info.buckets && k' in info.buckets && k != k' ==>
          info.buckets[k].serial != info.buckets[k'].serial)
  }

  lemma UpdateOneKeepsBuckets(info: InboundView, s: Subscription)
    requires BucketInv(info)
    ensures BucketInv(UpdateOne(info, s))
  {
  }

  lemma {:induction false} UpdateKeepsBuckets(info: InboundView, list: seq<Subscription>)
    requires BucketInv(info)
    ensures BucketInv(UpdateAll(info, list))
  {
    if list != [] {
      UpdateKeepsBuckets(info, list[..|list| - 1]);
      UpdateOneKeepsBuckets(UpdateAll(info, list[..|list| - 1]), list[|list| - 1]);
    }
  }

  lemma TakeKeepsBuckets(info: InboundView, key: string)
    requires BucketInv(info)
    ensures BucketInv(TakeBucket(info, key).0)
  {
    var next := TakeBucket(info, key).0;
    forall k | k in next.buckets ensures Current(next.buckets[k], RateOf(next, k), next.issued) {
      assert RateOf(next, k) == RateOf(info, k);
    }
  }

  lemma AdmitKeepsBuckets(info: InboundView, key: string, ip: string, globalReject: bool)
    requires BucketInv(info)
    ensures BucketInv(AdmitStep(info, key, ip, globalReject).0)
  {
    var marked := MarkOnline(info, key, ip);
    assert forall k :: RateOf(marked, k) == RateOf(info, k);
    TakeKeepsBuckets(marked, key);
  }

  lemma ReportKeepsBuckets(info: InboundView)
    requires BucketInv(info)
    ensures BucketInv(ReportStep(info))
  {
    assert forall k :: RateOf(ReportStep(info), k) == RateOf(info, k);
  }

  /** In every reachable state each stored bucket has the rate and the burst that
      the node limit and its key's current speed limit determine, and two keys
      never share a bucket. */
  lemma {:induction false} BucketsCarryCurrentRates(info: InboundView, events: seq<Event>)
    requires BucketInv(info)
    ensures BucketInv(Run(info, events))
  {
    if events != [] {
      var mid, e := Run(info, events[..|events| - 1]), events[|events| - 1];
      BucketsCarryCurrentRates(info, events[..|events| - 1]);
      match e
      case Admit(key, ip, globalReject) => AdmitKeepsBuckets(mid, key, ip, globalReject);
      case Update(list) => UpdateKeepsBuckets(mid, list);
      case Report => ReportKeepsBuckets(mid);
    }
  }

  /** A burst is positive, as a token bucket needs, exactly when its rate fits in an int. */
  lemma BurstPositive(info: InboundView, key: string)
    requires BucketInv(info) && key in info.buckets
    ensures info.buckets[key].burst > 0 <==> RateOf(info, key) < 0x8000_0000_0000_0000
    ensures info.buckets[key].burst > 0 <==> info.buckets[key].burst == info.buckets[key].rate
    ensures var b := info.buckets[key];
            && -0x8000_0000_0000_0000 <= b.burst < 0x8000_0000_0000_0000
            && (b.rate - b.burst) % 0x1_0000_0000_0000_0000 == 0
  {
  }

  lemma {:induction false} UpdateKeepsSerials(info: InboundView, list: seq<Subscription>)
    ensures var u := UpdateAll(info, list);
            && u.buckets.Keys <= info.buckets.Keys && u.issued == info.issued && u.online == info.online
            && forall key :: key in u.buckets ==> u.buckets[key].serial == info.buckets[key].serial
  {
    if list != [] {
      UpdateKeepsSerials(info, list[..|list| - 1]);
    }
  }

  /** One step keeps a key's bucket object, unless it evicts it. */
  lemma SerialStep(info: InboundView, e: Event, key: string)
    ensures info.issued <= Next(info, e).issued
    ensures key in Next(info, e).buckets ==>
              Next(info, e).buckets[key].serial == if key in info.buckets then info.buckets[key].serial else info.issued
  {
    if e.Update? {
      UpdateKeepsSerials(info, e.subs);
    }
  }

  /** Between two moments at which a key has a bucket it is the same object
      exactly when the bucket was never evicted in between. */
  lemma {:induction false} SameBucketUntilEvicted(info: InboundView, events: seq<Event>, key: string)
    requires BucketInv(info) && key in info.buckets && key in Run(info, events).buckets
    ensures Run(info, events).buckets[key].serial == info.buckets[key].serial
       <==> forall i :: 0 <= i <= |events| ==> key in Run(info, events[..i]).buckets
  {
    if forall i :: 0 <= i <= |events| ==> key in Run(info, events[..i]).buckets {
      KeptBucket(info, events, key);
    } else {
      var i :| 0 <= i <= |events| && key !in Run(info, events[..i]).buckets;
      IssuedGrows(info, events[..i]);
      FreshBucket(info, events, i, key);
    }
  }

  lemma {:induction false} KeptBucket(info: InboundView, events: seq<Event>, key: string)
    requires forall i :: 0 <= i <= |events| ==> key in Run(info, events[..i]).buckets
    ensures key in info.buckets && key in Run(info, events).buckets
    ensures Run(info, events).buckets[key].serial == info.buckets[key].serial
  {
    assert events[..0] == [] && events[..|events|] == events;
    if events != [] {
      var init := events[..|events| - 1];
      forall i | 0 <= i <= |init| ensures key in Run(info, init[..i]).buckets {
        assert init[..i] == events[..i];
      }
      KeptBucket(info, init, key);
      SerialStep(Run(info, init), events[|events| - 1], key);
    }
  }

  lemma {:induction false} IssuedGrows(info: InboundView, events: seq<Event>)
    ensures info.issued <= Run(info, events).issued
  {
    if events != [] {
      IssuedGrows(info, events[..|events| - 1]);
      SerialStep(Run(info, events[..|events| - 1]), events[|events| - 1], "");
    }
  }

  lemma {:induction false} FreshBucket(info: InboundView, events: seq<Event>, i: nat, key: string)
    requires i <= |events| && key !in Run(info, events[..i]).buckets
    ensures Run(info, events[..i]).issued <= Run(info, events).issued
    ensures key in Run(info, events).buckets ==> Run(info, events).buckets[key].serial >= Run(info, events[..i]).issued
  {
    assert events[..|events|] == events;
    if i < |events| {
      var init := events[..|events| - 1];
      assert init[..i] == events[..i];
      FreshBucket(info, init, i, key);
      SerialStep(Run(info, init), events[|events| - 1], key);
    }
  }

  lemma LimitedIsStored(info: InboundView, key: string, ip: string, globalReject: bool)
    requires AdmitStep(info, key, ip, globalReject).1.Limited?
    ensures AdmitStep(info, key, ip, globalReject).1.serial ==
            if key in info.buckets then info.buckets[key].serial else info.issued
    ensures var next, d := AdmitStep(info, key, ip, globalReject).0, AdmitStep(info, key, ip, globalReject).1;
            key in next.buckets && next.buckets[key].serial == d.serial
  {
  }

  /** Two admissions of one key that are both rate limited get the same bucket
      object exactly when the key was not evicted between them. */
  lemma AdmissionsShareBucket(info: InboundView, key: string, ip: string, globalReject: bool, events: seq<Event>,
                              ip': string, globalReject': bool)
    requires BucketInv(info)
    requires AdmitStep(info, key, ip, globalReject).1.Limited?
    requires AdmitStep(Run(AdmitStep(info, key, ip, globalReject).0, events), key, ip', globalReject').1.Limited?
    ensures var first := AdmitStep(info, key, ip, globalReject).0;
            (AdmitStep(info, key, ip, globalReject).1 == AdmitStep(Run(first, events), key, ip', globalReject').1
             <==> forall i :: 0 <= i <= |events| ==> key in Run(first, events[..i]).buckets)
  {
    hide AdmitStep, RateOf;
    var first := AdmitStep(info, key, ip, globalReject).0;
    var last := Run(first, events);
    AdmitKeepsBuckets(info, key, ip, globalReject);
    LimitedIsStored(info, key, ip, globalReject);
    LimitedIsStored(last, key, ip', globalReject');
    if key in last.buckets {
      SameBucketUntilEvicted(first, events, key);
    } else {
      IssuedGrows(first, events);
      assert events[..|events|] == events;
    }
  }

  // Online IPs: the state is the history of the current report window.

  /** The (key, IP) pairs admitted since the last report. */
  ghost function Admitted(info: InboundView, events: seq<Event>): set<(string, string)> {
    if events == [] then {} else
      var init, e := events[..|events| - 1], events[|events| - 1];
      match e
      case Admit(key, ip, g) =>
        if AdmitStep(Run(info, init), key, ip, g).1 == Rejected then Admitted(info, init)
        else Admitted(info, init) + {(key, ip)}
      case Update(_) => Admitted(info, init)
      case Report => {}
  }

  ghost predicate IsOnline(info: InboundView, key: string, ip: string) {
    key in info.online && ip in info.online[key]
  }

  ghost predicate NoEmptyEntry(info: InboundView) {
    forall key :: key in info.online ==> info.online[key] != map[]
  }

  lemma MarkMarks(info: InboundView, key: string, ip: string)
    ensures var next := MarkOnline(info, key, ip);
            && (NoEmptyEntry(info) ==> NoEmptyEntry(next))
            && forall k, p :: IsOnline(next, k, p) <==> IsOnline(info, k, p) || (k == key && p == ip)
  {
    var next := MarkOnline(info, key, ip);
    assert IsOnline(next, key, ip);
    if NoEmptyEntry(info) {
      forall k | k in next.online ensures next.online[k] != map[] {
        assert k == key ==> ip in next.online[k];
      }
    }
  }

  lemma AdmitMarks(info: InboundView, key: string, ip: string, globalReject: bool)
    ensures var next := AdmitStep(info, key, ip, globalReject).0;
            && (NoEmptyEntry(info) ==> NoEmptyEntry(next))
            && forall k, p :: IsOnline(next, k, p) <==>
                IsOnline(info, k, p) || (!Refused(info, key, ip, globalReject) && k == key && p == ip)
    ensures AdmitStep(info, key, ip, globalReject).1 == Rejected <==> Refused(info, key, ip, globalReject)
  {
    hide MarkOnline, Refused;
    var marked := MarkOnline(info, key, ip);
    MarkMarks(info, key, ip);
    if !Refused(info, key, ip, globalReject) {
      var next := TakeBucket(marked, key).0;
      assert next.online == marked.online;
      assert forall k, p :: IsOnline(next, k, p) <==> IsOnline(marked, k, p);
    }
  }

  /** What is stored is exactly what was admitted since the last report. */
  lemma {:induction false} OnlineIsHistory(info: InboundView, events: seq<Event>)
    requires info.online == map[]
    ensures NoEmptyEntry(Run(info, events))
    ensures forall key, ip :: IsOnline(Run(info, events), key, ip) <==> (key, ip) in Admitted(info, events)
  {
    if events != [] {
      var init, e := events[..|events| - 1], events[|events| - 1];
      OnlineIsHistory(info, init);
      match e
      case Admit(key, ip, globalReject) => AdmitMarks(Run(info, init), key, ip, globalReject);
      case Update(list) => UpdateKeepsSerials(Run(info, init), list);
      case Report =>
    }
  }

  ghost function WindowIps(info: InboundView, events: seq<Event>, key: string): set<string> {
    set p | p in Admitted(info, events) && p.0 == key :: p.1
  }

  lemma WindowIsEntry(info: InboundView, events: seq<Event>, key: string)
    requires info.online == map[]
    ensures var r := Run(info, events);
            WindowIps(info, events, key) == if key in r.online then r.online[key].Keys else {}
  {
    OnlineIsHistory(info, events);
    var r := Run(info, events);
    forall ip ensures ip in WindowIps(info, events, key) <==> IsOnline(r, key, ip) {
      assert (key, ip) in Admitted(info, events) <==> ip in WindowIps(info, events, key);
    }
  }

  /** The decision in terms of the window alone: an IP admitted in this window is
      never refused locally, a new one is refused exactly when more than
      `ipLimit` others of its key were admitted. */
  lemma RefusalIsAboutTheWindow(info: InboundView, events: seq<Event>, key: string, ip: string)
    requires info.online == map[]
    ensures var limit, ips := Lookup(Run(info, events), key).ipLimit, WindowIps(info, events, key);
            OverLimit(Run(info, events), key, ip) <==> ip !in ips && 0 < limit < |ips|
  {
    WindowIsEntry(info, events, key);
    OnlineIsHistory(info, events);
  }

  /** One connection at a time, a user whose limit stays within 1..L has at most
      L + 1 IPs in a window. */
  lemma {:induction false} SequentialBound(info: InboundView, events: seq<Event>, key: string, L: nat)
    requires info.online == map[]
    requires forall i :: 0 <= i <= |events| ==> 0 < Lookup(Run(info, events[..i]), key).ipLimit <= L
    ensures |WindowIps(info, events, key)| <= L + 1
  {
    assert events[..|events|] == events;
    if events != [] {
      var init, e := events[..|events| - 1], events[|events| - 1];
      forall i | 0 <= i <= |init| ensures 0 < Lookup(Run(info, init[..i]), key).ipLimit <= L {
        assert init[..i] == events[..i];
      }
      SequentialBound(info, init, key, L);
      assert init[..|init|] == events[..|init|];
      if e.Admit? {
        RefusalIsAboutTheWindow(info, init, e.key, e.ip);
        WindowStep(info, events, key);
      } else if e.Update? {
        assert WindowIps(info, events, key) == WindowIps(info, init, key);
      }
    }
  }

  lemma WindowStep(info: InboundView, events: seq<Event>, key: string)
    requires events != [] && events[|events| - 1].Admit?
    ensures var init, e := events[..|events| - 1], events[|events| - 1];
            WindowIps(info, events, key) ==
            WindowIps(info, init, key) +
              if e.key == key && !Refused(Run(info, init), e.key, e.ip, e.globalReject) then {e.ip} else {}
  {
    var init, e := events[..|events| - 1], events[|events| - 1];
    AdmitMarks(Run(info, init), e.key, e.ip, e.globalReject);
    forall ip ensures ip in WindowIps(info, events, key) <==> (key, ip) in Admitted(info, events) {
    }
    forall ip ensures ip in WindowIps(info, init, key) <==> (key, ip) in Admitted(info, init) {
    }
  }

  /** The IPs of a key that reached the local test since the last report: all that were
      offered, less those that the shared cache refused. */
  ghost function Offered(global: bool, events: seq<Event>, key: string): set<string> {
    if events == [] then {} else
      var before, e := Offered(global, events[..|events| - 1], key), events[|events| - 1];
      match e
      case Admit(k, ip, g) => if k == key && !(global && g) then before + {ip} else before
      case Update(_) => before
      case Report => {}
  }

  lemma {:induction false} GlobalStays(info: InboundView, events: seq<Event>)
    ensures Run(info, events).global == info.global
  {
    if events != [] {
      GlobalStays(info, events[..|events| - 1]);
      var mid, e := Run(info, events[..|events| - 1]), events[|events| - 1];
      if e.Update? {
        UpdateAllStores(mid, e.subs);
      }
    }
  }

  /** All that was offered is in the window, or L + 1 of it once more than L were offered. */
  ghost predicate Filled(window: set<string>, offered: set<string>, L: int) {
    window <= offered && |window| == if L <= 0 || |offered| <= L then |offered| else L + 1
  }

  /** One more IP is offered; the local test sees only the window. */
  lemma FilledStep(window: set<string>, offered: set<string>, L: int, ip: string)
    requires Filled(window, offered, L)
    ensures Filled(if ip !in window && 0 < L < |window| then window else window + {ip}, offered + {ip}, L)
  {
    if L <= 0 || |offered| <= L {
      SameSize(window, offered);
    } else if ip in window {
      assert window + {ip} == window && offered + {ip} == offered;
    } else if ip in offered {
      assert offered + {ip} == offered;
    }
  }

  /** Under a constant limit L > 0 a window holds more than L IPs exactly when more than L
      different IPs were offered in it, and then it holds L + 1. */
  lemma {:induction false} WindowCount(info: InboundView, events: seq<Event>, key: string, L: int)
    requires info.online == map[]
    requires forall i :: 0 <= i <= |events| ==> Lookup(Run(info, events[..i]), key).ipLimit == L
    ensures Filled(WindowIps(info, events, key), Offered(info.global, events, key), L)
    ensures L > 0 ==> (|WindowIps(info, events, key)| > L <==> |Offered(info.global, events, key)| > L)
  {
    assert events[..|events|] == events;
    if events != [] {
      var init, e := events[..|events| - 1], events[|events| - 1];
      forall i | 0 <= i <= |init| ensures Lookup(Run(info, init[..i]), key).ipLimit == L {
        assert init[..i] == events[..i];
      }
      WindowCount(info, init, key, L);
      assert init[..|init|] == events[..|init|];
      if e.Admit? {
        GlobalStays(info, init);
        RefusalIsAboutTheWindow(info, init, e.key, e.ip);
        WindowStep(info, events, key);
        FilledStep(WindowIps(info, init, key), Offered(info.global, init, key), L, e.ip);
      } else if e.Update? {
        assert WindowIps(info, events, key) == WindowIps(info, init, key);
      }
    }
  }

  /** After a report only keys of the window it closed still own a bucket. */
  lemma ReportEvictsIdle(info: InboundView, events: seq<Event>, key: string)
    requires info.online == map[]
    ensures key in Run(info, events + [Report]).buckets
       <==> key in Run(info, events).buckets && WindowIps(info, events, key) != {}
    ensures Run(info, events + [Report]).online == map[]
  {
    assert (events + [Report])[..|events|] == events;
    WindowIsEntry(info, events, key);
    OnlineIsHistory(info, events);
  }

  /** Two reports with no admission between them leave no bucket at all. */
  lemma QuietWindowLeavesNoBuckets(info: InboundView, before: seq<Event>, quiet: seq<Event>)
    requires info.online == map[]
    requires forall i :: 0 <= i < |quiet| ==> !quiet[i].Admit?
    ensures Run(info, before + [Report] + quiet + [Report]).buckets == map[]
  {
    var events := before + [Report] + quiet;
    QuietWindow(info, before, quiet);
    forall key ensures key !in Run(info, events + [Report]).buckets {
      ReportEvictsIdle(info, events, key);
    }
  }

  lemma {:induction false} QuietWindow(info: InboundView, before: seq<Event>, quiet: seq<Event>)
    requires forall i :: 0 <= i < |quiet| ==> !quiet[i].Admit?
    ensures Admitted(info, before + [Report] + quiet) == {}
  {
    var events := before + [Report] + quiet;
    if quiet == [] {
      assert events[|events| - 1] == Report;
    } else {
      var init := quiet[..|quiet| - 1];
      QuietWindow(info, before, init);
      assert events[..|events| - 1] == before + [Report] + init;
      assert events[|events| - 1] == quiet[|quiet| - 1];
    }
  }

  // The Id recorded with an IP is the Id in its user key.

  ghost predicate HasId(tag: string, key: string, id: int) {
    exists email :: key == Key(tag, email, id)
  }

  lemma HasOneId(tag: string, key: string, id: int, id': int)
    requires HasId(tag, key, id) && HasId(tag, key, id')
    ensures id == id'
  {
    var email :| key == Key(tag, email, id);
    var email' :| key == Key(tag, email', id');
    KeyInjective(tag, email, id, email', id');
  }

  ghost predicate TrueIds(info: InboundView) {
    && (forall key :: key in info.subs ==> HasId(info.tag, key, info.subs[key].id))
    && (forall key, ip :: IsOnline(info, key, ip) ==> HasId(info.tag, key, info.online[key][ip]))
  }

  lemma UpdateOneKeepsIds(info: InboundView, s: Subscription)
    requires TrueIds(info)
    ensures TrueIds(UpdateOne(info, s))
  {
    var next := UpdateOne(info, s);
    assert HasId(info.tag, Key(info.tag, s.email, s.id), s.id);
    assert forall key, ip :: IsOnline(next, key, ip) ==> IsOnline(info, key, ip);
  }

  lemma {:induction false} UpdateKeepsIds(info: InboundView, list: seq<Subscription>)
    requires TrueIds(info)
    ensures TrueIds(UpdateAll(info, list)) && UpdateAll(info, list).tag == info.tag
  {
    if list != [] {
      UpdateKeepsIds(info, list[..|list| - 1]);
      UpdateOneKeepsIds(UpdateAll(info, list[..|list| - 1]), list[|list| - 1]);
    }
  }

  lemma MarkKeepsOthers(info: InboundView, key: string, ip: string, k: string, p: string)
    requires IsOnline(MarkOnline(info, key, ip), k, p)
    ensures var id := MarkOnline(info, key, ip).online[k][p];
            (IsOnline(info, k, p) && id == info.online[k][p]) || (k == key && id == Lookup(info, key).id)
  {
  }

  lemma MarkKeepsIds(info: InboundView, key: string, ip: string)
    requires TrueIds(info) && key in info.subs
    ensures TrueIds(MarkOnline(info, key, ip))
  {
    hide HasId, MarkOnline;
    var next := MarkOnline(info, key, ip);
    assert next.tag == info.tag && next.subs == info.subs by {
      MarkChangesOnline(info, key, ip);
    }
    forall k, p | IsOnline(next, k, p) ensures HasId(info.tag, k, next.online[k][p]) {
      MarkKeepsOthers(info, key, ip, k, p);
    }
  }

  lemma MarkChangesOnline(info: InboundView, key: string, ip: string)
    ensures MarkOnline(info, key, ip).tag == info.tag && MarkOnline(info, key, ip).subs == info.subs
  {
  }

  lemma AdmitKeepsIds(info: InboundView, key: string, ip: string, globalReject: bool)
    requires TrueIds(info) && key in info.subs
    ensures TrueIds(AdmitStep(info, key, ip, globalReject).0)
    ensures AdmitStep(info, key, ip, globalReject).0.tag == info.tag
  {
    hide HasId, MarkOnline;
    MarkChangesOnline(info, key, ip);
    MarkKeepsIds(info, key, ip);
    var marked := MarkOnline(info, key, ip);
    var next := TakeBucket(marked, key).0;
    assert next.subs == marked.subs && next.online == marked.online && next.tag == marked.tag;
    assert forall k, p :: IsOnline(next, k, p) <==> IsOnline(marked, k, p);
  }

  lemma {:induction false} NewInboundIds(tag: string, nodeLimit: uint64, list: seq<Subscription>, global: bool)
    ensures TrueIds(NewInbound(tag, nodeLimit, list, global))
  {
    if list != [] {
      var s := list[|list| - 1];
      NewInboundIds(tag, nodeLimit, list[..|list| - 1], global);
      assert NewInbound(tag, nodeLimit, list[..|list| - 1], global).subs == StoreAll(map[], tag, list[..|list| - 1]);
      assert HasId(tag, Key(tag, s.email, s.id), s.id);
    }
  }

  /** In every run that admits listed users only, the Id a report gives for an IP
      is the Id inside the user key it was admitted under. */
  lemma {:induction false} ReportedIdIsTheUsers(info: InboundView, events: seq<Event>)
    requires TrueIds(info)
    requires forall i :: 0 <= i < |events| && events[i].Admit? ==> events[i].key in Run(info, events[..i]).subs
    ensures TrueIds(Run(info, events)) && Run(info, events).tag == info.tag
  {
    if events != [] {
      var init, e := events[..|events| - 1], events[|events| - 1];
      forall i | 0 <= i < |init| && init[i].Admit? ensures init[i].key in Run(info, init[..i]).subs {
        assert init[..i] == events[..i];
      }
      ReportedIdIsTheUsers(info, init);
      var mid := Run(info, init);
      match e
      case Admit(key, ip, globalReject) => AdmitKeepsIds(mid, key, ip, globalReject);
      case Update(list) => UpdateKeepsIds(mid, list);
      case Report => assert forall k, p :: !IsOnline(ReportStep(mid), k, p);
    }
  }

  // Subscriptions as the reconciler relies on them.

  /** The entry holds each listed subscription's current Id and limits. */
  ghost predicate Lists(info: InboundView, list: seq<Subscription>) {
    forall s :: s in list ==> Records(info.subs, info.tag, s)
  }

  /** The record under the subscription's key has its Id and its limits. */
  ghost predicate Records(subs: map<string, SubscriptionInfo>, tag: string, s: Subscription) {
    var key := tag + "|" + s.email + "|" + Dec(s.id);
    key in subs && subs[key].id == s.id && subs[key].speedLimit == s.speedLimit && subs[key].ipLimit == s.ipLimit
  }

  lemma {:induction false} StoreAllLists(subs: map<string, SubscriptionInfo>, tag: string, list: seq<Subscription>)
    requires UniqueIds(list)
    ensures forall s :: s in list ==> Records(StoreAll(subs, tag, list), tag, s)
    ensures forall key :: key in subs && (forall s :: s in list ==> key != Key(tag, s.email, s.id)) ==>
              key in StoreAll(subs, tag, list) && StoreAll(subs, tag, list)[key] == subs[key]
  {
    if list != [] {
      var init, last := list[..|list| - 1], list[|list| - 1];
      StoreAllLists(subs, tag, init);
      forall s | s in init ensures Key(tag, s.email, s.id) != Key(tag, last.email, last.id) {
        if Key(tag, s.email, s.id) == Key(tag, last.email, last.id) {
          KeyInjective(tag, s.email, s.id, last.email, last.id);
        }
      }
      assert list == init + [last];
    }
  }

  lemma {:induction false} UpdateAllStores(info: InboundView, list: seq<Subscription>)
    ensures UpdateAll(info, list).subs == StoreAll(info.subs, info.tag, list)
    ensures UpdateAll(info, list).tag == info.tag && UpdateAll(info, list).nodeLimit == info.nodeLimit
    ensures UpdateAll(info, list).online == info.online && UpdateAll(info, list).global == info.global
  {
    if list != [] {
      UpdateAllStores(info, list[..|list| - 1]);
    }
  }

  // Admissions in the terms of the lists given.

  /** All subscriptions stored so far: the first list and then the updates. */
  function Given(list: seq<Subscription>, events: seq<Event>): seq<Subscription> {
    if events == [] then list else
      var before, e := Given(list, events[..|events| - 1]), events[|events| - 1];
      if e.Update? then before + e.subs else before
  }

  /** Element i is the last one stored under its key. */
  ghost predicate LastGiven(tag: string, given: seq<Subscription>, i: nat) {
    && i < |given|
    && forall j :: i < j < |given| ==>
         Key(tag, given[j].email, given[j].id) != Key(tag, given[i].email, given[i].id)
  }

  lemma {:induction false} StoreAllAppend(subs: map<string, SubscriptionInfo>, tag: string, a: seq<Subscription>,
                                          b: seq<Subscription>)
    ensures StoreAll(StoreAll(subs, tag, a), tag, b) == StoreAll(subs, tag, a + b)
  {
    hide Info, Key;
    if b == [] {
      assert a + b == a;
    } else {
      StoreAllAppend(subs, tag, a, b[..|b| - 1]);
      assert (a + b)[..|a + b| - 1] == a + b[..|b| - 1];
    }
  }

  /** What is stored last under a key is what is there. */
  lemma {:induction false} LastIsRecorded(subs: map<string, SubscriptionInfo>, tag: string, given: seq<Subscription>,
                                          i: nat)
    requires LastGiven(tag, given, i)
    ensures Records(StoreAll(subs, tag, given), tag, given[i])
  {
    if i < |given| - 1 {
      LastIsRecorded(subs, tag, given[..|given| - 1], i);
    }
  }

  lemma {:induction false} RunStores(tag: string, nodeLimit: uint64, list: seq<Subscription>, global: bool,
                                     events: seq<Event>)
    ensures var info := Run(NewInbound(tag, nodeLimit, list, global), events);
            && info.tag == tag && info.nodeLimit == nodeLimit && info.global == global
            && info.subs == StoreAll(map[], tag, Given(list, events))
  {
    hide Next, StoreAll, UpdateAll;
    if events == [] {
      hide NewInbound;
      NothingRun(tag, nodeLimit, list, global);
    } else {
      var init, e := events[..|events| - 1], events[|events| - 1];
      RunStores(tag, nodeLimit, list, global, init);
      hide NewInbound;
      StepStores(Run(NewInbound(tag, nodeLimit, list, global), init), e);
      if e.Update? {
        StoreAllAppend(map[], tag, Given(list, init), e.subs);
      }
    }
  }

  lemma NothingRun(tag: string, nodeLimit: uint64, list: seq<Subscription>, global: bool)
    ensures var info := Run(NewInbound(tag, nodeLimit, list, global), []);
            && info.tag == tag && info.nodeLimit == nodeLimit && info.global == global
            && info.subs == StoreAll(map[], tag, Given(list, []))
  {
  }

  lemma StepStores(info: InboundView, e: Event)
    ensures var next := Next(info, e);
            && next.tag == info.tag && next.nodeLimit == info.nodeLimit && next.global == info.global
            && next.subs == if e.Update? then StoreAll(info.subs, info.tag, e.subs) else info.subs
  {
    if e.Update? {
      UpdateAllStores(info, e.subs);
    }
  }

  /** Over any run of a fresh entry, for a subscription whose record is the last one given
      under its key: an IP is refused exactly if the shared cache refuses it, or it is new
      in this window, and the IP limit is positive and exceeded by the IPs admitted in it;
      and an admission is rate limited exactly if both speed limits are positive, with the
      lesser of the two. */
  lemma AdmittedByTheList(tag: string, nodeLimit: uint64, list: seq<Subscription>, global: bool, events: seq<Event>,
                          i: nat, ip: string, globalReject: bool)
    requires LastGiven(tag, Given(list, events), i)
    ensures var start, s := NewInbound(tag, nodeLimit, list, global), Given(list, events)[i];
            var key := tag + "|" + s.email + "|" + Dec(s.id);
            var ips, (next, decision) := WindowIps(start, events, key),
                                         AdmitStep(Run(start, events), key, ip, globalReject);
            && Records(Run(start, events).subs, tag, s)
            && (decision == Rejected <==> (global && globalReject) || (ip !in ips && 0 < s.ipLimit < |ips|))
            && (decision.Limited? <==> decision != Rejected && nodeLimit > 0 && s.speedLimit > 0)
            && (decision.Limited? ==>
                  && key in next.buckets && next.buckets[key].serial == decision.serial
                  && next.buckets[key].rate == if nodeLimit <= s.speedLimit then nodeLimit else s.speedLimit)
  {
    var start, s := NewInbound(tag, nodeLimit, list, global), Given(list, events)[i];
    var key, info := Key(tag, s.email, s.id), Run(start, events);
    RunStores(tag, nodeLimit, list, global, events);
    LastIsRecorded(map[], tag, Given(list, events), i);
    RefusalIsAboutTheWindow(start, events, key, ip);
    BucketsCarryCurrentRates(start, events);
    AdmitKeepsBuckets(info, key, ip, globalReject);
    ListedDecision(info, s, ip, globalReject);
  }

  /** One admission under a recorded key. */
  lemma ListedDecision(info: InboundView, s: Subscription, ip: string, globalReject: bool)
    requires Records(info.subs, info.tag, s)
    ensures var key := Key(info.tag, s.email, s.id);
            var (next, decision) := AdmitStep(info, key, ip, globalReject);
            && (decision == Rejected <==> (info.global && globalReject) || OverLimit(info, key, ip))
            && (decision.Limited? <==> decision != Rejected && info.nodeLimit > 0 && s.speedLimit > 0)
            && (decision.Limited? ==>
                  && key in next.buckets && next.buckets[key].serial == decision.serial
                  && RateOf(next, key) == if info.nodeLimit <= s.speedLimit then info.nodeLimit else s.speedLimit)
    ensures Lookup(info, Key(info.tag, s.email, s.id)) == SubscriptionInfo(s.id, s.speedLimit, s.ipLimit)
  {
  }

  /** If all subscriptions given under a listed key have the limit L > 0, a window holds more
      than L IPs exactly when more than L were offered in it, and then it holds L + 1. */
  lemma WindowOfTheList(tag: string, nodeLimit: uint64, list: seq<Subscription>, global: bool, events: seq<Event>,
                        s: Subscription, L: int)
    requires s in list && L > 0
    requires forall t :: t in Given(list, events) && Key(tag, t.email, t.id) == Key(tag, s.email, s.id) ==>
               t.ipLimit == L
    ensures var start, key := NewInbound(tag, nodeLimit, list, global), tag + "|" + s.email + "|" + Dec(s.id);
            var held, offered := |WindowIps(start, events, key)|, |Offered(global, events, key)|;
            held == if offered <= L then offered else L + 1
  {
    var start, key := NewInbound(tag, nodeLimit, list, global), Key(tag, s.email, s.id);
    forall k | 0 <= k <= |events| ensures Lookup(Run(start, events[..k]), key).ipLimit == L {
      GivenGrows(list, events, k);
      RunStores(tag, nodeLimit, list, global, events[..k]);
      var i := LastWith(tag, Given(list, events[..k]), s);
      LastIsRecorded(map[], tag, Given(list, events[..k]), i);
      assert Given(list, events[..k])[i] in Given(list, events);
    }
    WindowCount(start, events, key, L);
  }

  lemma {:induction false} GivenGrows(list: seq<Subscription>, events: seq<Event>, k: nat)
    requires k <= |events|
    ensures list <= Given(list, events[..k]) <= Given(list, events)
  {
    if k < |events| {
      GivenGrows(list, events[..|events| - 1], k);
      assert events[..|events| - 1][..k] == events[..k];
    } else {
      assert events[..k] == events;
      if events != [] {
        GivenGrows(list, events[..|events| - 1], |events| - 1);
        assert events[..|events| - 1][..|events| - 1] == events[..|events| - 1];
      }
    }
  }

  lemma {:induction false} LastWith(tag: string, given: seq<Subscription>, s: Subscription) returns (i: nat)
    requires s in given
    ensures LastGiven(tag, given, i) && Key(tag, given[i].email, given[i].id) == Key(tag, s.email, s.id)
  {
    hide Key;
    var last := given[|given| - 1];
    if Key(tag, last.email, last.id) == Key(tag, s.email, s.id) {
      i := |given| - 1;
    } else {
      assert given == given[..|given| - 1] + [last];
      i := LastWith(tag, given[..|given| - 1], s);
    }
  }

  /** An update drops a bucket exactly if some updated subscription under its key is
      unlimited, by itself or by its node. */
  lemma {:induction false} UpdateEvictsIff(info: InboundView, list: seq<Subscription>, key: string)
    ensures UpdateAll(info, list).nodeLimit == info.nodeLimit && UpdateAll(info, list).tag == info.tag
    ensures key in UpdateAll(info, list).buckets <==>
              && key in info.buckets
              && forall s :: s in list && Key(info.tag, s.email, s.id) == key ==> info.nodeLimit > 0 && s.speedLimit > 0
  {
    if list != [] {
      var init, last := list[..|list| - 1], list[|list| - 1];
      UpdateEvictsIff(info, init, key);
      assert list == init + [last];
      assert forall s :: s in list <==> s in init || s == last;
    }
  }
}
