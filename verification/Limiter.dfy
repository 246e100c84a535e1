/** The connection limiter of `helper/limiter`: nested maps from inbound tag to
    user key to online IPs, and one rate bucket object per user key. Each method
    takes one step of `LimiterSpec`. */
module Limiter {
  import opened Basics
  import opened Api
  import opened Decimal
  import opened UserKey
  import G = GlobalLimit
  import Maps
  import Spec = LimiterSpec

  type IpMap = map<string, int>

  class Bucket {
    ghost const serial: nat
    var rate: uint64
    var burst: int

    constructor (rate: uint64, burst: int, ghost serial: nat)
      ensures this.rate == rate && this.burst == burst && this.serial == serial
    {
      this.rate, this.burst, this.serial := rate, burst, serial;
    }

    ghost function View(): Spec.BucketView
      reads this
    {
      Spec.BucketView(serial, rate, burst)
    }
  }

  // The shared cache, as one connection meets it.

  /** What the chained cache answers at the moment, or that it fails. */
  datatype Cache = Working(stored: map<string, IpMap>) | Broken

  /** A set to be stored in the background. */
  datatype Push = Push(key: string, ips: IpMap)

  function Stored(cache: Cache, key: string): Option<IpMap> {
    if cache.Working? && key in cache.stored then Some(cache.stored[key]) else None
  }

  function KeyOf(info: Spec.InboundView, email: string): string {
    GlobalKey(info.tag, email, Spec.Lookup(info, email).ipLimit)
  }

  predicate GlobalReject(info: Spec.InboundView, cache: Cache, email: string, ip: string) {
    cache.Working? && G.Rejects(Stored(cache, KeyOf(info, email)), ip, Spec.Lookup(info, email).ipLimit)
  }

  function GlobalPush(info: Spec.InboundView, cache: Cache, email: string, ip: string): Option<Push> {
    var u := Spec.Lookup(info, email);
    var push := G.Pushed(Stored(cache, KeyOf(info, email)), ip, u.id, u.ipLimit);
    if info.global && cache.Working? && push.Some? then Some(Push(KeyOf(info, email), push.value)) else None
  }

  // One connection in the terms of its subscription.

  /** The shared cache refuses a new IP when the set under the subscription's global key holds
      as many as its limit. */
  ghost predicate CacheRefuses(s: Subscription, cache: Cache, ip: string) {
    var k := Dec(s.ipLimit) + "|" + s.email + "|" + Dec(s.id);
    && cache.Working? && k in cache.stored
    && ip !in cache.stored[k] && s.ipLimit > 0 && |cache.stored[k]| >= s.ipLimit
  }

  /** What is stored there in the background. */
  ghost function CacheStores(s: Subscription, cache: Cache, ip: string): Option<Push> {
    var k := Dec(s.ipLimit) + "|" + s.email + "|" + Dec(s.id);
    if cache.Broken? then None
    else if k !in cache.stored then Some(Push(k, map[ip := s.id]))
    else if ip in cache.stored[k] || CacheRefuses(s, cache, ip) then None
    else Some(Push(k, cache.stored[k][ip := s.id]))
  }

  /** The verdict on a connection of this subscription from this IP. */
  ghost predicate Verdict(info: Spec.InboundView, s: Subscription, ip: string, cache: Cache,
                          isSpeedLimited: bool, reject: bool, push: Option<Push>) {
    var key := info.tag + "|" + s.email + "|" + Dec(s.id);
    var ips := if key in info.online then info.online[key].Keys else {};
    && (reject <==> (info.global && CacheRefuses(s, cache, ip)) || (ip !in ips && 0 < s.ipLimit < |ips|))
    && (isSpeedLimited <==> !reject && info.nodeLimit > 0 && s.speedLimit > 0)
    && push == if info.global then CacheStores(s, cache, ip) else None
  }

  /** All nodes look under one key. */
  lemma GlobalKeyOf(info: Spec.InboundView, s: Subscription)
    requires Spec.Records(info.subs, info.tag, s)
    ensures var key := Key(info.tag, s.email, s.id);
            && KeyOf(info, key) == Dec(s.ipLimit) + "|" + s.email + "|" + Dec(s.id)
            && KeyOf(info, key) == G.UserGlobalKey(G.User(info.tag, s.email, s.id), s.ipLimit)
  {
    GlobalKeySharedByNodes(info.tag, s.email, s.id, s.ipLimit);
  }

  lemma VerdictIs(info: Spec.InboundView, s: Subscription, ip: string, cache: Cache)
    requires Spec.Records(info.subs, info.tag, s)
    ensures var key := Key(info.tag, s.email, s.id);
            var decision := Spec.AdmitStep(info, key, ip, GlobalReject(info, cache, key, ip)).1;
            Verdict(info, s, ip, cache, decision.Limited?, decision == Spec.Rejected,
                    GlobalPush(info, cache, key, ip))
  {
    var key := Key(info.tag, s.email, s.id);
    Spec.ListedDecision(info, s, ip, GlobalReject(info, cache, key, ip));
    GlobalKeyOf(info, s);
    hide Spec.AdmitStep, KeyOf, Dec;
  }

  lemma AllRecorded(subs: map<string, Spec.SubscriptionInfo>, tag: string, list: seq<Subscription>)
    ensures forall i: nat :: Spec.LastGiven(tag, list, i) ==>
              Spec.Records(Spec.StoreAll(subs, tag, list), tag, list[i])
  {
    forall i: nat | Spec.LastGiven(tag, list, i) ensures Spec.Records(Spec.StoreAll(subs, tag, list), tag, list[i]) {
      Spec.LastIsRecorded(subs, tag, list, i);
    }
  }

  // What a report lists.

  ghost predicate Lists(online: map<string, IpMap>, list: seq<OnlineIP>, order: seq<(string, string)>) {
    |list| == |order| &&
    forall i :: 0 <= i < |order| ==> IsEntry(online, order[i], list[i])
  }

  ghost predicate IsEntry(online: map<string, IpMap>, pair: (string, string), e: OnlineIP) {
    pair.0 in online && pair.1 in online[pair.0] && e == OnlineIP(online[pair.0][pair.1], pair.1)
  }

  ghost predicate NoRepeats(order: seq<(string, string)>) {
    forall i, j :: 0 <= i < j < |order| ==> order[i] != order[j]
  }

  /** The list has one element for each online (user key, IP) pair; `order` names
      the pair behind each element. */
  ghost predicate Enumerates(online: map<string, IpMap>, list: seq<OnlineIP>, order: seq<(string, string)>) {
    && Lists(online, list, order) && NoRepeats(order)
    && forall pair :: pair in order <==> pair.0 in online && pair.1 in online[pair.0]
  }

  ghost function DecisionOf(limiter: Bucket?, reject: bool): Spec.Decision {
    if reject then Spec.Rejected else if limiter == null then Spec.Unlimited else Spec.Limited(limiter.serial)
  }

  class InboundInfo {
    const tag: string
    const nodeSpeedLimit: uint64
    const global: bool
    var subscriptionInfo: map<string, Spec.SubscriptionInfo>
    var bucketHub: map<string, Bucket>
    var onlineIP: map<string, IpMap>
    ghost var issued: nat

    ghost function BucketViews(): map<string, Spec.BucketView>
      reads this, bucketHub.Values
    {
      map key | key in bucketHub :: bucketHub[key].View()
    }

    ghost function View(): Spec.InboundView
      reads this, bucketHub.Values
    {
      Spec.InboundView(tag, nodeSpeedLimit, global, subscriptionInfo, BucketViews(), onlineIP, issued)
    }

    /** Two keys never share a bucket object. */
    ghost predicate Valid()
      reads this
    {
      forall k, k' :: k in bucketHub && k' in bucketHub && k != k' ==> bucketHub[k] != bucketHub[k']
    }

    constructor (tag: string, nodeSpeedLimit: uint64, global: bool, subs: map<string, Spec.SubscriptionInfo>)
      ensures Valid() && View() == Spec.InboundView(tag, nodeSpeedLimit, global, subs, map[], map[], 0)
      ensures bucketHub == map[] && this.tag == tag
    {
      this.tag, this.nodeSpeedLimit, this.global := tag, nodeSpeedLimit, global;
      subscriptionInfo, bucketHub, onlineIP, issued := subs, map[], map[], 0;
    }

    /** One subscription of `UpdateInboundLimiter`. */
    method Update(u: Subscription)
      requires Valid()
      modifies this, bucketHub.Values
      ensures Valid() && View() == Spec.UpdateOne(old(View()), u)
      ensures bucketHub.Values <= old(bucketHub.Values)
    {
      var key := Key(tag, u.email, u.id);
      subscriptionInfo := subscriptionInfo[key := Spec.Info(u)];
      var limit := Spec.DetermineRate(nodeSpeedLimit, u.speedLimit);
      if limit > 0 {
        if key in bucketHub {
          var bucket := bucketHub[key];
          bucket.rate := limit;
          bucket.burst := Spec.ToInt(limit);
          assert BucketViews() == old(BucketViews())[key := Spec.BucketView(bucket.serial, limit, Spec.ToInt(limit))];
        } else {
          assert BucketViews() == old(BucketViews());
        }
      } else {
        bucketHub := bucketHub - {key};
        assert BucketViews() == old(BucketViews()) - {key};
      }
    }

    method UpdateAll(list: seq<Subscription>)
      requires Valid()
      modifies this, bucketHub.Values
      ensures Valid() && View() == Spec.UpdateAll(old(View()), list)
      ensures bucketHub.Values <= old(bucketHub.Values)
    {
      for i := 0 to |list|
        invariant Valid() && View() == Spec.UpdateAll(old(View()), list[..i])
        invariant bucketHub.Values <= old(bucketHub.Values)
      {
        assert list[..i + 1][..i] == list[..i];
        Update(list[i]);
      }
      assert list[..|list|] == list;
    }

    /** The first loop of `GetOnlineDevice`: drop the buckets of offline keys. */
    method EvictIdle()
      modifies `bucketHub
      ensures bucketHub == map key | key in old(bucketHub) && key in onlineIP :: old(bucketHub)[key]
    {
      var todo: set<string> := bucketHub.Keys;
      while todo != {}
        invariant todo <= bucketHub.Keys <= old(bucketHub).Keys
        invariant bucketHub == map key | key in old(bucketHub) && (key in onlineIP || key in todo) ::
                  old(bucketHub)[key]
        decreases todo
      {
        var email := Pick(todo);
        if email !in onlineIP {
          bucketHub := bucketHub - {email};
        }
        todo := todo - {email};
      }
    }

    /** The inner range over one user's IPs. */
    method AppendIps(email: string, ipMap: IpMap, ghost online: map<string, IpMap>,
                     list: seq<OnlineIP>, ghost order: seq<(string, string)>)
      returns (list': seq<OnlineIP>, ghost order': seq<(string, string)>)
      requires email in online && online[email] == ipMap
      requires Lists(online, list, order) && NoRepeats(order)
      requires forall pair :: pair in order ==> pair.0 != email
      ensures Lists(online, list', order') && NoRepeats(order')
      ensures forall pair :: pair in order' <==> pair in order || (pair.0 == email && pair.1 in ipMap)
      ensures list <= list' && |list'| == |list| + |ipMap|
    {
      list', order' := list, order;
      var todo: set<string> := ipMap.Keys;
      while todo != {}
        invariant todo <= ipMap.Keys
        invariant Lists(online, list', order') && NoRepeats(order')
        invariant forall pair :: pair in order' <==>
                  pair in order || (pair.0 == email && pair.1 in ipMap && pair.1 !in todo)
        invariant list <= list' && |list'| == |list| + |ipMap| - |todo|
        decreases todo
      {
        var ip := Pick(todo);
        assert (email, ip) !in order';
        list', order' := list' + [OnlineIP(ipMap[ip], ip)], order' + [(email, ip)];
        todo := todo - {ip};
      }
    }

    /** The second loop of `GetOnlineDevice`: list every online pair and forget it. */
    method Drain() returns (list: seq<OnlineIP>, ghost order: seq<(string, string)>)
      modifies `onlineIP
      ensures onlineIP == map[]
      ensures Enumerates(old(onlineIP), list, order)
    {
      list, order := [], [];
      var todo: set<string> := onlineIP.Keys;
      while todo != {}
        invariant onlineIP == map k | k in old(onlineIP) && k in todo :: old(onlineIP)[k]
        invariant todo <= old(onlineIP).Keys
        invariant Lists(old(onlineIP), list, order) && NoRepeats(order)
        invariant forall pair :: pair in order <==>
                  pair.0 in old(onlineIP) && pair.0 !in todo && pair.1 in old(onlineIP)[pair.0]
        decreases todo
      {
        var email := Pick(todo);
        list, order := AppendIps(email, onlineIP[email], old(onlineIP), list, order);
        onlineIP := onlineIP - {email};
        todo := todo - {email};
      }
    }

    method GetOnlineDevice() returns (list: seq<OnlineIP>, ghost order: seq<(string, string)>)
      requires Valid()
      modifies `bucketHub, `onlineIP
      ensures Valid() && View() == Spec.ReportStep(old(View()))
      ensures bucketHub.Values <= old(bucketHub.Values)
      ensures Enumerates(old(onlineIP), list, order)
    {
      EvictIdle();
      list, order := Drain();
      assert BucketViews() == Spec.ReportStep(old(View())).buckets;
    }

    /** The local device limit: `LoadOrStore` of the key's IP map, the count, the test and the store. */
    method LocalLimit(email: string, ip: string, uid: int, ipLimit: int) returns (reject: bool)
      requires uid == Spec.Lookup(View(), email).id && ipLimit == Spec.Lookup(View(), email).ipLimit
      modifies `onlineIP
      ensures reject == Spec.OverLimit(old(View()), email, ip)
      ensures View() == if reject then old(View()) else Spec.MarkOnline(old(View()), email, ip)
    {
      if email in onlineIP {
        var ipMap := onlineIP[email];
        if ip !in ipMap {
          var counter := |ipMap|;
          if ipLimit > 0 && counter > ipLimit {
            return true;
          }
          onlineIP := onlineIP[email := ipMap[ip := uid]];
        }
      } else {
        onlineIP := onlineIP[email := map[ip := uid]];
      }
      reject := false;
    }

    /** The speed limit: `LoadOrStore` of a candidate bucket. */
    method SpeedLimit(email: string, speedLimit: uint64) returns (limiter: Bucket?)
      requires Valid() && speedLimit == Spec.Lookup(View(), email).speedLimit
      modifies `bucketHub, `issued
      ensures Valid()
      ensures (View(), DecisionOf(limiter, false)) == Spec.TakeBucket(old(View()), email)
      ensures limiter != null ==> email in bucketHub && bucketHub[email] == limiter
      ensures limiter != null && email in old(bucketHub) ==> limiter == old(bucketHub)[email]
      ensures forall b :: b in bucketHub.Values ==> b in old(bucketHub).Values || fresh(b)
    {
      var limit := Spec.DetermineRate(nodeSpeedLimit, speedLimit);
      if limit > 0 {
        var candidate := new Bucket(limit, Spec.ToInt(limit), issued);
        if email in bucketHub {
          return bucketHub[email];
        }
        bucketHub, issued := bucketHub[email := candidate], issued + 1;
        assert BucketViews() == Spec.TakeBucket(old(View()), email).0.buckets;
        return candidate;
      }
      return null;
    }

    /** `globalLimit`. */
    method GlobalLimit(email: string, uid: int, ip: string, ipLimit: int, cache: Cache)
      returns (reject: bool, push: Option<Push>)
      requires global && uid == Spec.Lookup(View(), email).id && ipLimit == Spec.Lookup(View(), email).ipLimit
      ensures reject == GlobalReject(View(), cache, email, ip) && push == GlobalPush(View(), cache, email, ip)
    {
      var uniqueKey := ReplaceFirst(email, tag, Dec(ipLimit));
      if cache.Broken? {
        return false, None;
      }
      if uniqueKey !in cache.stored {
        return false, Some(Push(uniqueKey, map[ip := uid]));
      }
      var ipMap := cache.stored[uniqueKey];
      if ip in ipMap {
        return false, None;
      }
      if ipLimit > 0 && |ipMap| >= ipLimit {
        return true, None;
      }
      return false, Some(Push(uniqueKey, ipMap[ip := uid]));
    }

    /** `GetSubscriptionLimiter` once the inbound was found. */
    method Admit(email: string, ip: string, cache: Cache)
      returns (limiter: Bucket?, isSpeedLimited: bool, reject: bool, push: Option<Push>)
      requires Valid()
      modifies `bucketHub, `issued, `onlineIP
      ensures Valid()
      ensures (View(), DecisionOf(limiter, reject)) ==
                Spec.AdmitStep(old(View()), email, ip, old(GlobalReject(View(), cache, email, ip)))
      ensures push == old(GlobalPush(View(), cache, email, ip))
      ensures isSpeedLimited == (limiter != null) && (reject ==> limiter == null)
      ensures limiter != null ==> email in bucketHub && bucketHub[email] == limiter
      ensures limiter != null && email in old(bucketHub) ==> limiter == old(bucketHub)[email]
      ensures forall b :: b in bucketHub.Values ==> b in old(bucketHub).Values || fresh(b)
    {
      var speedLimit: uint64, ipLimit, uid := 0, 0, 0;
      if email in subscriptionInfo {
        var u := subscriptionInfo[email];
        uid, speedLimit, ipLimit := u.id, u.speedLimit, u.ipLimit;
      }
      push := None;
      if global {
        reject, push := GlobalLimit(email, uid, ip, ipLimit, cache);
        if reject {
          return null, false, true, push;
        }
      }
      reject := LocalLimit(email, ip, uid, ipLimit);
      if reject {
        return null, false, true, push;
      }
      limiter := SpeedLimit(email, speedLimit);
      isSpeedLimited := limiter != null;
    }
  }

  class Limiter {
    var inboundInfo: map<string, InboundInfo>
    ghost var Repr: set<object>   // the limiter, its inbounds and their buckets

    ghost predicate Has(tag: string)
      reads this, Repr
    {
      && tag in inboundInfo && inboundInfo[tag] in Repr && inboundInfo[tag].bucketHub.Values <= Repr
      && inboundInfo[tag].tag == tag && inboundInfo[tag].Valid()
    }

    /** Inbounds are stored under their own tags and share no object. */
    ghost predicate Valid()
      reads this, Repr
      ensures Valid() ==> this in Repr
    {
      && this in Repr && (forall tag :: tag in inboundInfo ==> Has(tag))
      && (forall t, t' :: t in inboundInfo && t' in inboundInfo && t != t' ==>
            inboundInfo[t].bucketHub.Values !! inboundInfo[t'].bucketHub.Values)
    }

    ghost function View(): map<string, Spec.InboundView>
      requires Valid()
      reads this, Repr
    {
      map tag | tag in inboundInfo :: ViewOf(tag)
    }

    ghost function ViewOf(tag: string): Spec.InboundView
      requires Has(tag)
      reads this, Repr
    {
      inboundInfo[tag].View()
    }

    constructor ()
      ensures Valid() && View() == map[] && fresh(Repr)
    {
      inboundInfo, Repr := map[], {this};
    }

    // Framing.

    /** Changes elsewhere do not show in the limiter. */
    twostate lemma Undisturbed()
      requires old(Valid()) && forall o :: o in old(Repr) ==> unchanged(o)
      ensures Valid() && Repr == old(Repr) && View() == old(View())
    {
      assert this in old(Repr);
      forall t | t in inboundInfo
        ensures Has(t) && ViewOf(t) == old(ViewOf(t)) && inboundInfo[t].bucketHub == old(inboundInfo[t].bucketHub)
      {
        assert old(Has(t));
        KeptIf(t);
      }
    }

    twostate lemma KeptIf(t: string)
      requires old(Has(t)) && Repr >= old(Repr) && Kept(t)
      ensures Has(t) && ViewOf(t) == old(ViewOf(t)) && inboundInfo[t].bucketHub == old(inboundInfo[t].bucketHub)
    {
      assert inboundInfo[t].BucketViews() == old(inboundInfo[t].BucketViews());
    }

    /** The inbound is the same object, and neither it nor its buckets changed. */
    twostate predicate Kept(t: string)
      reads this, inboundInfo.Values, if t in inboundInfo then inboundInfo[t].bucketHub.Values else {}
    {
      && t in inboundInfo && t in old(inboundInfo) && inboundInfo[t] == old(inboundInfo[t])
      && unchanged(inboundInfo[t])
      && forall b :: b in inboundInfo[t].bucketHub.Values ==> old(allocated(b)) && unchanged(b)
    }

    /** All inbounds but one are kept. */
    twostate predicate AllButKept(tag: string)
      reads this, inboundInfo.Values, Repr
    {
      && Repr >= old(Repr) && inboundInfo.Keys - {tag} == old(inboundInfo).Keys - {tag}
      && forall t :: t in inboundInfo && t != tag ==> inboundInfo[t].bucketHub.Values <= Repr && Kept(t)
    }

    twostate lemma OthersStay(tag: string)
      requires old(Valid()) && AllButKept(tag)
      ensures forall t :: t in inboundInfo && t != tag ==>
                Has(t) && ViewOf(t) == old(ViewOf(t)) && inboundInfo[t].bucketHub == old(inboundInfo[t].bucketHub)
    {
      forall t | t in inboundInfo && t != tag
        ensures Has(t) && ViewOf(t) == old(ViewOf(t)) && inboundInfo[t].bucketHub == old(inboundInfo[t].bucketHub)
      {
        assert old(Has(t));
        KeptIf(t);
      }
    }

    /** One inbound was stored anew, stepped or was deleted: the others are unaffected. */
    twostate lemma Changed(tag: string)
      requires old(Valid()) && AllButKept(tag) && this in Repr
      requires tag in inboundInfo ==>
                 && Has(tag)
                 && forall b :: b in inboundInfo[tag].bucketHub.Values ==>
                     fresh(b) || (tag in old(inboundInfo) && b in old(inboundInfo[tag].bucketHub).Values)
      ensures Valid()
      ensures View() == if tag in inboundInfo then old(View())[tag := inboundInfo[tag].View()] else old(View()) - {tag}
    {
      OthersStay(tag);
      forall t | t in inboundInfo && t != tag && tag in inboundInfo
        ensures inboundInfo[t].bucketHub.Values !! inboundInfo[tag].bucketHub.Values
      {
        assert old(Has(t));
      }
      ChangedView(tag);
    }

    twostate lemma ChangedView(tag: string)
      requires old(Valid()) && Valid() && AllButKept(tag)
      requires forall t :: t in inboundInfo && t != tag ==> Has(t) && ViewOf(t) == old(ViewOf(t))
      ensures View() == if tag in inboundInfo then old(View())[tag := inboundInfo[tag].View()] else old(View()) - {tag}
    {
      hide Has, Kept;
      var now, before := View(), old(View());
      forall t | t != tag
        ensures t in now <==> t in before
        ensures t in now ==> now[t] == before[t]
      {
        assert t in inboundInfo.Keys - {tag} <==> t in old(inboundInfo).Keys - {tag};
      }
      Maps.SameButOne(now, before, tag);
    }

    // The limiter's methods.

    method SubscriptionMap(tag: string, list: seq<Subscription>) returns (subs: map<string, Spec.SubscriptionInfo>)
      ensures subs == Spec.StoreAll(map[], tag, list)
    {
      subs := map[];
      for i := 0 to |list|
        invariant subs == Spec.StoreAll(map[], tag, list[..i])
      {
        assert list[..i + 1][..i] == list[..i];
        subs := subs[Key(tag, list[i].email, list[i].id) := Spec.Info(list[i])];
      }
      assert list[..|list|] == list;
    }

    method AddInboundLimiter(tag: string, nodeSpeedLimit: uint64, list: seq<Subscription>, redisEnabled: bool)
      requires Valid()
      modifies this
      ensures Valid() && fresh(Repr - old(Repr))
      ensures View() == old(View())[tag := Spec.NewInbound(tag, nodeSpeedLimit, list, redisEnabled)]
      // The entry has the node's limit and, under each key, what the list says last.
      ensures View()[tag].nodeLimit == nodeSpeedLimit && View()[tag].global == redisEnabled
      ensures forall i: nat :: Spec.LastGiven(tag, list, i) ==> Spec.Records(View()[tag].subs, tag, list[i])
    {
      hide Spec.StoreAll, Spec.LastGiven, Spec.Records;
      AllRecorded(map[], tag, list);
      var subs := SubscriptionMap(tag, list);
      var info := new InboundInfo(tag, nodeSpeedLimit, redisEnabled, subs);
      inboundInfo := inboundInfo[tag := info];
      Repr := Repr + {info};
      Changed(tag);
    }

    method UpdateInboundLimiter(tag: string, list: seq<Subscription>) returns (ok: bool)
      requires Valid()
      modifies Repr
      ensures Valid() && Repr == old(Repr)
      ensures ok == (tag in old(View()))
      ensures View() == if ok then old(View())[tag := Spec.UpdateAll(old(View())[tag], list)] else old(View())
      ensures ok ==> forall i: nat :: Spec.LastGiven(tag, list, i) ==> Spec.Records(View()[tag].subs, tag, list[i])
    {
      hide Spec.LastGiven, Spec.Records;
      if tag !in inboundInfo {
        return false;
      }
      assert Has(tag);
      UpdateRecords(tag, list);
      inboundInfo[tag].UpdateAll(list);
      Changed(tag);
      ok := true;
    }

    lemma UpdateRecords(tag: string, list: seq<Subscription>)
      requires Valid() && tag in inboundInfo
      ensures var next := Spec.UpdateAll(View()[tag], list);
              forall i: nat :: Spec.LastGiven(tag, list, i) ==> Spec.Records(next.subs, tag, list[i])
    {
      assert Has(tag);
      var info := View()[tag];
      Spec.UpdateAllStores(info, list);
      AllRecorded(info.subs, tag, list);
    }

    method DeleteInboundLimiter(tag: string)
      requires Valid()
      modifies this
      ensures Valid() && Repr == old(Repr)
      ensures View() == old(View()) - {tag}
    {
      inboundInfo := inboundInfo - {tag};
      Changed(tag);
    }

    method GetOnlineDevice(tag: string) returns (ok: bool, list: seq<OnlineIP>, ghost order: seq<(string, string)>)
      requires Valid()
      modifies Repr
      ensures Valid() && Repr == old(Repr)
      ensures ok == (tag in old(View()))
      ensures View() == if ok then old(View())[tag := Spec.ReportStep(old(View())[tag])] else old(View())
      ensures ok ==> Enumerates(old(View())[tag].online, list, order)
    {
      if tag !in inboundInfo {
        return false, [], [];
      }
      assert Has(tag);
      list, order := inboundInfo[tag].GetOnlineDevice();
      Changed(tag);
      ok := true;
    }

    /** The work on an inbound that was found. */
    method AdmitOn(tag: string, email: string, ip: string, cache: Cache)
      returns (limiter: Bucket?, isSpeedLimited: bool, reject: bool, push: Option<Push>)
      requires Valid() && tag in inboundInfo
      modifies Repr
      ensures Valid() && fresh(Repr - old(Repr)) && tag in inboundInfo
      ensures View() == old(View())[tag := inboundInfo[tag].View()]
      ensures var info := old(inboundInfo[tag].View());
              && (inboundInfo[tag].View(), DecisionOf(limiter, reject)) ==
                   Spec.AdmitStep(info, email, ip, GlobalReject(info, cache, email, ip))
              && push == GlobalPush(info, cache, email, ip)
      ensures isSpeedLimited == (limiter != null) && (reject ==> limiter == null)
    {
      hide Spec.AdmitStep, DecisionOf, GlobalReject, GlobalPush;
      assert Has(tag);
      limiter, isSpeedLimited, reject, push := inboundInfo[tag].Admit(email, ip, cache);
      Repr := Repr + inboundInfo[tag].bucketHub.Values;
      Changed(tag);
    }

    lemma ListedVerdicts(tag: string, email: string, ip: string, cache: Cache)
      requires Valid() && tag in inboundInfo
      ensures var info := View()[tag];
              var decision := Spec.AdmitStep(info, email, ip, GlobalReject(info, cache, email, ip)).1;
              forall s: Subscription ::
                email == tag + "|" + s.email + "|" + Dec(s.id) && Spec.Records(info.subs, tag, s) ==>
                  Verdict(info, s, ip, cache, decision.Limited?, decision == Spec.Rejected,
                          GlobalPush(info, cache, email, ip))
    {
      assert Has(tag);
      var info := View()[tag];
      forall s: Subscription | email == Key(tag, s.email, s.id) && Spec.Records(info.subs, tag, s)
        ensures Verdict(info, s, ip, cache,
                        Spec.AdmitStep(info, email, ip, GlobalReject(info, cache, email, ip)).1.Limited?,
                        Spec.AdmitStep(info, email, ip, GlobalReject(info, cache, email, ip)).1 == Spec.Rejected,
                        GlobalPush(info, cache, email, ip))
      {
        VerdictIs(info, s, ip, cache);
      }
    }

    /** `cache` is what the shared cache answers at this moment; `GlobalLimit` and
        `SettledCache` follow the pushes. */
    method GetSubscriptionLimiter(tag: string, email: string, ip: string, address: string, cache: Cache)
      returns (limiter: Bucket?, isSpeedLimited: bool, reject: bool, push: Option<Push>)
      requires Valid()
      modifies Repr
      ensures Valid() && fresh(Repr - old(Repr))
      ensures tag !in old(View()) ==>
                View() == old(View()) && limiter == null && !isSpeedLimited && !reject && push == None
      ensures tag in old(View()) ==>
                var info, source := old(View())[tag], if ip == "" then address else ip;
                var (next, decision) := Spec.AdmitStep(info, email, source, GlobalReject(info, cache, email, source));
                && View() == old(View())[tag := next] && DecisionOf(limiter, reject) == decision
                && isSpeedLimited == (limiter != null) && push == GlobalPush(info, cache, email, source)
      // For a subscription that the entry lists: the verdict in its own terms.
      ensures forall s: Subscription ::
                tag in old(View()) && email == tag + "|" + s.email + "|" + Dec(s.id) &&
                Spec.Records(old(View())[tag].subs, tag, s) ==>
                  Verdict(old(View())[tag], s, if ip == "" then address else ip, cache, isSpeedLimited, reject, push)
    {
      if tag !in inboundInfo {
        return null, false, false, None;
      }
      ListedVerdicts(tag, email, if ip == "" then address else ip, cache);
      hide Spec.AdmitStep, GlobalReject, GlobalPush, Verdict, Spec.Records;
      limiter, isSpeedLimited, reject, push := AdmitOn(tag, email, if ip == "" then address else ip, cache);
    }
  }
}
