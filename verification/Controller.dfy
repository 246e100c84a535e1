/** The reconciler: `Start` and repeated `nodeInfoMonitor` polls keep the xray core
    and the limiter in step with what the panel says. */
module Controller {
  import opened Basics
  import opened Decimal
  import opened Api
  import opened UserKey
  import opened Routing
  import opened Node
  import opened Xray
  import opened Users
  import opened Footprint
  import opened Shares
  import C = Compare
  import L = Limiter
  import LimiterSpec
  import Ledger
  import NM = NodeManager
  import SM = SubscriptionManager
  import Maps

  datatype Reply<+T> = Fetched(value: T) | NotModified | Failed

  /** The panel's answers to one poll; `relay` is asked for only when needed. */
  datatype Poll = Poll(node: Reply<NodeInfo>, list: Reply<seq<Subscription>>, relay: RelayNodeInfo)

  function NewNode(p: Poll, current: NodeInfo): NodeInfo {
    if p.node.Fetched? then p.node.value else current
  }

  function NewList(p: Poll, current: seq<Subscription>): seq<Subscription> {
    if p.list.Fetched? then p.list.value else current
  }

  /** Neither request failed and at least one brought something. */
  predicate Updates(p: Poll) {
    !p.node.Failed? && !p.list.Failed? && (p.node.Fetched? || p.list.Fetched?)
  }

  predicate Rebuilds(p: Poll, current: NodeInfo) {
    !p.node.Failed? && !p.list.Failed? && p.node.Fetched? && p.node.value != current
  }

  // Assumptions about the surroundings.

  /** The node's tags are its own: neither a relay's nor those of other nodes or of the file configuration. */
  ghost predicate OwnTags(n: NodeInfo, base: CoreState, others: set<string>) {
    MainTag(NodeTag(n)) && NodeTagsFree(base, NodeTag(n)) && NodeTag(n) !in others
  }

  /** The answers of a poll to a controller with this node and list: Ids are unique, and
      the tags it is about to install are its own. Nothing in the panel's protocol rules out
      that another relayed node uses the same transit server, see `Transit`. */
  ghost predicate Distinct(p: Poll, n: NodeInfo, list: seq<Subscription>, base: CoreState, others: set<string>) {
    Updates(p) ==>
      && (Rebuilds(p, n) ==> OwnTags(p.node.value, base, others))
      && (p.list.Fetched? ==> UniqueIds(p.list.value))
      && (HasRelay(NewNode(p, n)) ==> RelayTagsFree(base, RelayTagOf(p.relay), NewList(p, list)))
  }

  /** The builders accept the node. */
  predicate GoodNode(n: NodeInfo) {
    Supported(n) && n.builds && BlockRules(n.blocking, NodeTag(n)).Ok?
  }

  predicate GoodRelayInfo(r: RelayNodeInfo) {
    r.nodeType != PLUGIN && r.builds
  }

  /** The subscriptions whose Id leaves the list, in the order in which they are visited. */
  ghost predicate LeaversOf(prev: seq<Subscription>, next: seq<Subscription>, order: seq<Subscription>) {
    UniqueIds(order) && forall s :: s in order <==> s in prev && forall t :: t in next ==> t.id != s.id
  }

  lemma LeaversOfDiff(prev: seq<Subscription>, next: seq<Subscription>,
                      deleted: seq<Subscription>, added: seq<Subscription>, modified: seq<Subscription>)
    requires UniqueIds(prev) && UniqueIds(next) && ListDiff(prev, next, deleted, added, modified)
    ensures LeaversOf(prev, next, deleted)
  {
    DeletedFromPrev(prev, next, deleted, added, modified);
    forall s ensures s in deleted <==> s in prev && forall t :: t in next ==> t.id != s.id {
      DiffOfUnique(prev, next, deleted, added, modified, s);
    }
  }

  lemma NobodyLeaves(n: NodeInfo, list: seq<Subscription>)
    ensures LeaversOf(list, list, []) && !Strands(n, [])
  {
  }

  // The default outbound.

  /** It after the relay in place is dropped. */
  function AfterDrop(fallback: Option<string>, relay: Option<RelayInstall>): Option<string> {
    if relay.Some? then CutFrom(fallback, SubTags(relay.value.tag, relay.value.list)) else fallback
  }

  /** It after a new relay, if the node has one. */
  function AfterRelay(fallback: Option<string>, n: NodeInfo, r: RelayNodeInfo,
                      list: seq<Subscription>): Option<string> {
    if HasRelay(n) then RelaysAdded(fallback, r, RelayTagOf(r), list) else fallback
  }

  function AfterRebuild(fallback: Option<string>, oldTag: string, newTag: string): Option<string> {
    AddedTo(CutFrom(CutFrom(fallback, {oldTag}), {BlackholeTag(oldTag)}), BlackholeTag(newTag))
  }

  /** It after a poll of a controller with this relay, tag, node and list. */
  function PollFallback(fallback: Option<string>, relay: Option<RelayInstall>, tag: string, p: Poll, n: NodeInfo,
                        list: seq<Subscription>): Option<string> {
    if !Updates(p) then fallback else
      var relayed := AfterRelay(AfterDrop(fallback, relay), NewNode(p, n), p.relay, NewList(p, list));
      if Rebuilds(p, n) then AfterRebuild(relayed, tag, NodeTag(p.node.value)) else relayed
  }

  /** After `Start` it is the one from before, the first usable relay outbound, or else the blackhole. */
  function StartFallback(fallback: Option<string>, n: NodeInfo, r: RelayNodeInfo,
                         list: seq<Subscription>): Option<string> {
    AddedTo(AfterRelay(fallback, n, r, list), BlackholeTag(NodeTag(n)))
  }

  lemma NodeFallback(fallback: Option<string>, n: NodeInfo, tag: string)
    ensures FallbackAfter(FallbackAfter(fallback, AddBlock(n, tag)), AddMain(n, tag)) ==
            AddedTo(fallback, BlackholeTag(tag))
    ensures FallbackAfter(FallbackAfter(fallback, RemoveMain(tag)), RemoveBlock(tag)) ==
            CutFrom(CutFrom(fallback, {tag}), {BlackholeTag(tag)})
  {
  }

  lemma RelayFallback(fallback: Option<string>, r: RelayNodeInfo, relayTag: string, mainTag: string,
                      list: seq<Subscription>)
    ensures FallbackAfter(fallback, AddRelay(r, relayTag, mainTag, list)) == RelaysAdded(fallback, r, relayTag, list)
    ensures FallbackAfter(FallbackAfter(fallback, DropRelayRules(relayTag, list)), DropRelayOuts(relayTag, list)) ==
            CutFrom(fallback, SubTags(relayTag, list))
  {
  }

  // The limiter's entry.

  /** The entry has the node's limit, uses the shared cache if it is configured, and holds the
      limits of every listed subscription. */
  ghost predicate Current(info: LimiterSpec.InboundView, tag: string, speed: uint64, redis: bool,
                          list: seq<Subscription>) {
    info.tag == tag && info.nodeLimit == speed && info.global == redis && LimiterSpec.Lists(info, list)
  }

  lemma FreshCurrent(tag: string, speed: uint64, list: seq<Subscription>, redis: bool)
    requires UniqueIds(list)
    ensures Current(LimiterSpec.NewInbound(tag, speed, list, redis), tag, speed, redis, list)
  {
    LimiterSpec.StoreAllLists(map[], tag, list);
  }

  /** Storing added and modified subscriptions brings the entry up to date, even
      for those whose email, and so whose key, changed. */
  lemma PatchedCurrent(info: LimiterSpec.InboundView, tag: string, speed: uint64, redis: bool,
                       prev: seq<Subscription>, next: seq<Subscription>,
                       deleted: seq<Subscription>, added: seq<Subscription>, modified: seq<Subscription>)
    requires Current(info, tag, speed, redis, prev) && UniqueIds(prev) && UniqueIds(next)
    requires ListDiff(prev, next, deleted, added, modified)
    ensures Current(LimiterSpec.UpdateAll(LimiterSpec.UpdateAll(info, added), modified), tag, speed, redis, next)
  {
    var mid := LimiterSpec.UpdateAll(info, added);
    LimiterSpec.UpdateAllStores(info, added);
    LimiterSpec.UpdateAllStores(mid, modified);
    LimiterSpec.StoreAllLists(info.subs, tag, added);
    LimiterSpec.StoreAllLists(mid.subs, tag, modified);
    var last := LimiterSpec.UpdateAll(mid, modified);
    forall s | s in next
      ensures LimiterSpec.Records(last.subs, tag, s)
    {
      StoredInPatch(tag, prev, next, deleted, added, modified, s);
    }
  }

  lemma StoredInPatch(tag: string, prev: seq<Subscription>, next: seq<Subscription>,
                      deleted: seq<Subscription>, added: seq<Subscription>, modified: seq<Subscription>,
                      s: Subscription)
    requires UniqueIds(prev) && UniqueIds(next) && ListDiff(prev, next, deleted, added, modified) && s in next
    ensures s in prev || s in added || s in modified
    ensures s !in modified ==> forall t :: t in modified ==> Key(tag, s.email, s.id) != Key(tag, t.email, t.id)
    ensures s !in added ==> forall t :: t in added ==> Key(tag, s.email, s.id) != Key(tag, t.email, t.id)
  {
    DiffOfUnique(prev, next, deleted, added, modified, s);
    forall t | (t in modified || t in added) && t != s ensures Key(tag, s.email, s.id) != Key(tag, t.email, t.id) {
      DiffOfUnique(prev, next, deleted, added, modified, t);
      if Key(tag, s.email, s.id) == Key(tag, t.email, t.id) {
        KeyInjective(tag, s.email, s.id, t.email, t.id);
        UniqueId(next, s, t);
      }
    }
  }

  /** What is no longer listed keeps the limits it had: neither a deletion nor a changed
      email removes an entry. */
  lemma StaleEntryStays(info: LimiterSpec.InboundView, tag: string, speed: uint64, redis: bool,
                        prev: seq<Subscription>, next: seq<Subscription>,
                        deleted: seq<Subscription>, added: seq<Subscription>, modified: seq<Subscription>,
                        s: Subscription)
    requires Current(info, tag, speed, redis, prev) && UniqueIds(prev) && UniqueIds(next)
    requires ListDiff(prev, next, deleted, added, modified)
    requires s in prev && Key(tag, s.email, s.id) !in KeysOf(tag, next)
    ensures LimiterSpec.Records(LimiterSpec.UpdateAll(LimiterSpec.UpdateAll(info, added), modified).subs, tag, s)
  {
    var mid, k := LimiterSpec.UpdateAll(info, added), Key(tag, s.email, s.id);
    KeysOfIs(tag, next);
    forall t | t in added || t in modified ensures k != Key(tag, t.email, t.id) {
      DiffOfUnique(prev, next, deleted, added, modified, t);
      assert t in next;
    }
    LimiterSpec.UpdateAllStores(info, added);
    LimiterSpec.UpdateAllStores(mid, modified);
    LimiterSpec.StoreAllLists(info.subs, tag, added);
    LimiterSpec.StoreAllLists(mid.subs, tag, modified);
  }

  // Installed users and what is kept for them.

  /** The entry holds the current limits of the listed subscription with this key. */
  ghost predicate HasCurrentEntry(info: LimiterSpec.InboundView, tag: string, list: seq<Subscription>, k: string) {
    exists s :: s in list && k == Key(tag, s.email, s.id) && LimiterSpec.Records(info.subs, tag, s)
  }

  /** A monitor run over this list reads the user's counters. */
  ghost predicate IsMetered(tag: string, list: seq<Subscription>, k: string) {
    var names := Ledger.CounterNames(tag, list);
    Ledger.UpName(k) in names && Ledger.DownName(k) in names
  }

  lemma EntryIffListed(info: LimiterSpec.InboundView, tag: string, speed: uint64, redis: bool,
                       list: seq<Subscription>, k: string)
    requires Current(info, tag, speed, redis, list) && UniqueIds(list)
    ensures HasCurrentEntry(info, tag, list, k) <==> k in KeysOf(tag, list)
  {
    KeysOfIs(tag, list);
    if s :| s in list && k == Key(tag, s.email, s.id) {
      assert LimiterSpec.Records(info.subs, tag, s);
    }
  }

  lemma MeteredIffListed(tag: string, list: seq<Subscription>, k: string)
    requires UniqueIds(list)
    ensures IsMetered(tag, list, k) <==> k in KeysOf(tag, list)
  {
    KeysOfIs(tag, list);
    if s :| s in list && k == Key(tag, s.email, s.id) {
      Ledger.NamesListed(tag, list, s);
    }
    if IsMetered(tag, list, k) {
      Ledger.NamesOfList(tag, list, Ledger.UpName(k));
      var s :| s in list && Ledger.UpName(k) in
        [Ledger.UpName(Key(tag, s.email, s.id)), Ledger.DownName(Key(tag, s.email, s.id))];
      Ledger.NamesDiffer(k, Key(tag, s.email, s.id));
    }
  }

  const NO_NODE := NodeInfo("", 0, 0, 0, 0, "", "", "", BlockingRules([], [], "", [], false), "", false)
  const NO_RELAY := RelayNodeInfo("", 0, 0, "", "", "", false)

  class Controller {
    const core: NM.Instance
    const limiter: L.Limiter
    const nodeManager: NM.Manager
    const subManager: SM.Manager
    const redisEnabled: bool
    var nodeInfo: NodeInfo
    var tag: string
    var relayInfo: RelayNodeInfo
    var relayTag: string
    var relay: bool
    var subscriptionList: seq<Subscription>
    ghost var relayList: seq<Subscription>   // the list the relay was installed for
    ghost var bound: string                  // the inbound its rules name
    ghost var relayFirst: bool               // its rules stand before the node's

    /** `New`. */
    constructor (core: NM.Instance, limiter: L.Limiter, nodeManager: NM.Manager, subManager: SM.Manager,
                 redisEnabled: bool)
      requires nodeManager.core == core && nodeManager.limiter == limiter && subManager.core == core
      requires subManager.limiter == limiter
      ensures this.core == core && this.limiter == limiter && this.redisEnabled == redisEnabled && Wired() && !relay
    {
      this.core, this.limiter, this.redisEnabled := core, limiter, redisEnabled;
      this.nodeManager, this.subManager := nodeManager, subManager;
      nodeInfo, relayInfo := NO_NODE, NO_RELAY;
      tag, relayTag, relay, subscriptionList := "", "", false, [];
      relayList, bound, relayFirst := [], "", false;
    }

    ghost function RelayNow(): Option<RelayInstall>
      reads `relay, `relayInfo, `relayTag, `bound, `relayList
    {
      if relay then Some(RelayInstall(relayInfo, relayTag, bound, relayList)) else None
    }

    ghost predicate Wired() {
      && nodeManager.core == core && nodeManager.limiter == limiter
      && subManager.core == core && subManager.limiter == limiter
    }

    /** The core holds exactly what others installed and this controller's footprint. */
    ghost predicate Holds(base: CoreState)
      reads `nodeInfo, `tag, `relay, `relayInfo, `relayTag, `bound, `relayList, `relayFirst, core
    {
      && Wired() && MainTag(tag) && NodeTagsFree(base, tag) && nodeInfo.nodeType != PLUGIN
      && (relay ==> RelayTag(relayTag) && RelayTagsFree(base, relayTag, relayList))
      && tag in core.inbounds
      && Extends(core.State(), base, Own(core.inbounds[tag], nodeInfo, tag, RelayNow(), relayFirst))
    }

    ghost predicate LimiterApart()
      reads limiter, limiter.Repr
    {
      limiter.Valid() && core !in limiter.Repr && this !in limiter.Repr
    }

    lemma KeepsInbound(base: CoreState, users: UserMap)
      requires NodeTagsFree(base, tag) && Extends(core.State(), base, Own(users, nodeInfo, tag, RelayNow(), relayFirst))
      ensures tag in core.inbounds && core.inbounds[tag] == users
    {
      UsersChanged(core.State(), base, users, nodeInfo, tag, RelayNow(), relayFirst, users);
    }

    /** The relay part of `nodeInfoMonitor`: drop the relay in place, install the
        new one. It is installed for the tag from before a rebuild. */
    method RefreshRelay(n: NodeInfo, list: seq<Subscription>, r: RelayNodeInfo, infoUpdated: bool,
                        ghost base: CoreState)
      returns (ok: bool)
      requires Holds(base) && UniqueIds(list)
      requires (infoUpdated && HasRelay(n) ==> RelayTagsFree(base, RelayTagOf(r), list))
      requires relay ==> relayList == subscriptionList
      modifies this, core
      ensures nodeInfo == old(nodeInfo) && tag == old(tag) && subscriptionList == old(subscriptionList)
      ensures (infoUpdated && HasRelay(n) ==> GoodRelayInfo(r)) ==> ok
      ensures ok ==> Holds(base) && core.inbounds[tag] == old(core.inbounds[tag])
      ensures ok && !infoUpdated ==> RelayNow() == old(RelayNow()) && relay == old(relay)
      ensures ok && !infoUpdated ==> relayFirst == old(relayFirst)
      ensures ok && infoUpdated ==> relay == HasRelay(n)
      ensures ok && infoUpdated && relay ==> !relayFirst
      ensures ok && infoUpdated && relay ==> RelayNow() == Some(RelayInstall(r, RelayTagOf(r), tag, list))
      ensures ok ==>
                core.fallback ==
                  if infoUpdated then AfterRelay(AfterDrop(old(core.fallback), old(RelayNow())), n, r, list)
                  else old(core.fallback)
      ensures old(core.FallbackThere()) ==> core.FallbackThere()
    {
      hide Can, Do, Extends, NodeTagsFree, RelayTagsFree, RelayTagOf, UniqueIds, RelayTag, Own, FallbackAfter, CutFrom,
           RelaysAdded, SubTags;
      ok := true;
      ghost var users := core.inbounds[tag];
      if relay && infoUpdated {
        RelayFallback(core.fallback, relayInfo, relayTag, bound, subscriptionList);
        RelayDropped(core.State(), base, users, nodeInfo, tag, RelayNow().value, relayFirst);
        ok := nodeManager.RemoveRelayRules(relayTag, subscriptionList);
        ok := nodeManager.RemoveRelayTag(relayTag, subscriptionList);
        relay, relayFirst := false, false;
        KeepsInbound(base, users);
      }
      if n.relayType == 1 && n.relayNodeId > 0 && infoUpdated {
        ok := InstallRelay(r, list, base);
      }
    }

    method InstallRelay(r: RelayNodeInfo, list: seq<Subscription>, ghost base: CoreState) returns (ok: bool)
      requires Holds(base) && !relay && UniqueIds(list) && RelayTagsFree(base, RelayTagOf(r), list)
      modifies this, core
      ensures nodeInfo == old(nodeInfo) && tag == old(tag) && subscriptionList == old(subscriptionList)
      ensures GoodRelayInfo(r) ==> ok
      ensures ok ==> Holds(base) && core.inbounds[tag] == old(core.inbounds[tag])
      ensures ok ==> relay && !relayFirst && RelayNow() == Some(RelayInstall(r, RelayTagOf(r), tag, list))
      ensures ok ==> core.fallback == RelaysAdded(old(core.fallback), r, RelayTagOf(r), list)
      ensures old(core.FallbackThere()) ==> core.FallbackThere()
    {
      hide Can, Do, Extends, NodeTagsFree, RelayTagsFree, RelayTagOf, UniqueIds, RelayTag, Own, Supported,
           FallbackAfter, RelaysAdded;
      RelayFallback(core.fallback, r, RelayTagOf(r), tag, list);
      ghost var users := core.inbounds[tag];
      TagKinds(nodeInfo, r);
      RelayAdded(core.State(), base, users, nodeInfo, tag, RelayInstall(r, RelayTagOf(r), tag, list), relayFirst);
      relayInfo := r;
      relayTag := RelayTagOf(r);
      ok := nodeManager.AddRelayTag(r, relayTag, tag, list);
      if !ok {
        return false;
      }
      relay, relayList, bound, relayFirst := true, list, tag, false;
      KeepsInbound(base, users);
    }

    /** The rebuild part of `nodeInfoMonitor`: remove the node under its old tag,
        install the new one, without users, under the new tag, and forget the old
        limiter entry. The relay's rules now come first. */
    method Rebuild(n: NodeInfo, ghost base: CoreState) returns (ok: bool)
      requires Holds(base) && MainTag(NodeTag(n)) && NodeTagsFree(base, NodeTag(n))
      requires LimiterApart()
      modifies this, core, limiter
      ensures subscriptionList == old(subscriptionList) && RelayNow() == old(RelayNow()) && relay == old(relay)
      ensures GoodNode(n) ==> ok
      ensures ok ==> nodeInfo == n && tag == NodeTag(n) && relayFirst && Holds(base) && core.inbounds[tag] == map[]
      ensures ok ==> BlockRules(n.blocking, tag).Ok?
      ensures ok ==> core.fallback == AfterRebuild(old(core.fallback), old(tag), tag)
      ensures LimiterApart() && limiter.Repr == old(limiter.Repr)
      ensures limiter.View() == if ok then old(limiter.View()) - {old(tag)} else old(limiter.View())
      ensures old(core.FallbackThere()) ==> core.FallbackThere()
    {
      hide Holds, GoodNode, OwnTags, MainTag, NodeTag, AfterRebuild;
      var oldTag := tag;
      ok := SwapNode(n, base);
      limiter.Undisturbed();
      if !ok {
        return false;
      }
      limiter.DeleteInboundLimiter(oldTag);
    }

    /** The xray half of a rebuild. */
    method SwapNode(n: NodeInfo, ghost base: CoreState) returns (ok: bool)
      requires Holds(base) && MainTag(NodeTag(n)) && NodeTagsFree(base, NodeTag(n))
      modifies this, core
      ensures subscriptionList == old(subscriptionList) && RelayNow() == old(RelayNow()) && relay == old(relay)
      ensures GoodNode(n) ==> ok
      ensures ok ==> nodeInfo == n && tag == NodeTag(n) && relayFirst && Holds(base) && core.inbounds[tag] == map[]
      ensures ok ==> BlockRules(n.blocking, tag).Ok?
      ensures ok ==> core.fallback == AfterRebuild(old(core.fallback), old(tag), tag)
      ensures old(core.FallbackThere()) ==> core.FallbackThere()
    {
      hide Can, Do, Extends, NodeTagsFree, RelayTagsFree, NodeTag, RelayTag, Own, RelayOnly, Supported, BlockRules,
           AddedTo, CutFrom, BlackholeTag;
      TakeNodeDown(base);
      if nodeInfo.nodeType == PLUGIN {
        assert false;   // no such node is ever installed
      }
      nodeInfo := n;
      tag := NodeTag(n);
      relayFirst := true;
      ok := PutNodeUp(base);
    }

    /** The old node and its blocking rule go; the relay stays. */
    method TakeNodeDown(ghost base: CoreState)
      requires Holds(base)
      modifies core
      ensures Extends(core.State(), base, RelayOnly(RelayNow()))
      ensures core.fallback == CutFrom(CutFrom(old(core.fallback), {tag}), {BlackholeTag(tag)})
      ensures old(core.FallbackThere()) ==> core.FallbackThere()
    {
      hide Can, Do, Extends, NodeTagsFree, RelayTagsFree, RelayTag, Own, RelayOnly, FallbackAfter, CutFrom,
           BlackholeTag;
      NodeFallback(core.fallback, nodeInfo, tag);
      NodeRemoved(core.State(), base, core.inbounds[tag], nodeInfo, tag, RelayNow(), relayFirst);
      var removed := nodeManager.RemoveTag(tag);
      removed := nodeManager.RemoveBlockingRules(tag);
    }

    /** The current node comes into a core that holds only the relay in place. */
    method PutNodeUp(ghost base: CoreState) returns (ok: bool)
      requires Wired() && tag == NodeTag(nodeInfo) && MainTag(tag) && NodeTagsFree(base, tag) && relayFirst
      requires relay ==> RelayTag(relayTag) && RelayTagsFree(base, relayTag, relayList)
      requires Extends(core.State(), base, RelayOnly(RelayNow()))
      modifies core
      ensures GoodNode(nodeInfo) ==> ok
      ensures ok ==> Holds(base) && core.inbounds[tag] == map[] && BlockRules(nodeInfo.blocking, tag).Ok?
      ensures ok ==> core.fallback == AddedTo(old(core.fallback), BlackholeTag(tag))
      ensures old(core.FallbackThere()) ==> core.FallbackThere()
    {
      hide Can, Do, Extends, NodeTagsFree, RelayTagsFree, NodeTag, RelayTag, Own, RelayOnly, FallbackAfter, AddedTo,
           BlackholeTag;
      NodeFallback(core.fallback, nodeInfo, tag);
      NodeAdded(core.State(), base, nodeInfo, tag, RelayNow());
      PluginUnsupported(nodeInfo);
      ok := nodeManager.AddRuleTag(nodeInfo, tag);
      if !ok {
        return false;
      }
      ok := nodeManager.AddTag(nodeInfo, tag);
      if !ok {
        return false;
      }
      KeepsInbound(base, map[]);
    }

    // Users.

    lemma AfterUserChange(before: CoreState, base: CoreState, users: UserMap)
      requires NodeTagsFree(base, tag) && Extends(before, base, Own(users, nodeInfo, tag, RelayNow(), relayFirst))
      requires SM.OnlyUsers(before, core.State(), tag)
      ensures tag in core.inbounds
      ensures Extends(core.State(), base, Own(core.inbounds[tag], nodeInfo, tag, RelayNow(), relayFirst))
    {
      UsersChanged(before, base, users, nodeInfo, tag, RelayNow(), relayFirst, core.inbounds[tag]);
    }

    /** `AddNewSubscription` on the current inbound. */
    method AddUsersFor(list: seq<Subscription>, ghost base: CoreState) returns (ok: bool)
      requires Holds(base) && UniqueIds(list)
      modifies core`inbounds
      ensures Holds(base)
      ensures list == [] ==> ok
      ensures Supported(nodeInfo) ==>
                (forall u :: u in BuildUsers(nodeInfo, tag, list) ==> u.key !in old(core.inbounds[tag])) ==> ok
      ensures ok ==> core.inbounds[tag] == AddAll(old(core.inbounds[tag]), BuildUsers(nodeInfo, tag, list))
    {
      hide Extends, NodeTagsFree, RelayTagsFree, MainTag, RelayTag, Own, UniqueIds, SM.OnlyUsers, Installed;
      ghost var before := core.State();
      BuiltDistinct(nodeInfo, tag, list);
      ok := subManager.AddNewSubscription(list, nodeInfo, tag);
      AfterUserChange(before, base, before.inbounds[tag]);
    }

    /** `FormatEmails` and `Remove` on the current inbound. */
    method RemoveUsersOf(deleted: seq<Subscription>, ghost base: CoreState) returns (ok: bool)
      requires Holds(base)
      modifies core`inbounds
      ensures Holds(base)
      ensures core.inbounds[tag] == LeftAfter(old(core.inbounds[tag]), KeysOf(tag, deleted))
    {
      hide Extends, NodeTagsFree, RelayTagsFree, MainTag, RelayTag, Own, KeysOf, SM.OnlyUsers;
      ghost var before := core.State();
      ok := subManager.Remove(KeysOf(tag, deleted), tag);
      AfterUserChange(before, base, before.inbounds[tag]);
    }

    /** The users and the limiter entry of a freshly built inbound. */
    method InstallUsers(list: seq<Subscription>, ghost base: CoreState) returns (ok: bool)
      requires Holds(base) && core.inbounds[tag] == map[] && UniqueIds(list) && LimiterApart()
      modifies core`inbounds, limiter
      ensures Holds(base) && LimiterApart() && fresh(limiter.Repr - old(limiter.Repr))
      ensures list == [] || Supported(nodeInfo) ==> ok
      ensures ok ==> core.inbounds[tag] == UsersOf(nodeInfo, tag, list)
      ensures limiter.View() ==
                if ok then
                  old(limiter.View())[tag := LimiterSpec.NewInbound(tag, nodeInfo.speedLimit, list, redisEnabled)]
                else old(limiter.View())
    {
      hide Holds, UniqueIds, BuildUsers, AddAll;
      ok := AddUsersFor(list, base);
      limiter.Undisturbed();
      if !ok {
        return false;
      }
      limiter.AddInboundLimiter(tag, nodeInfo.speedLimit, list, redisEnabled);
    }

    /** The user part of a patch. A removal that stops halfway is logged and the patch
        goes on. */
    method PatchUsers(deleted: seq<Subscription>, added: seq<Subscription>, ghost base: CoreState)
      returns (addedOk: bool)
      requires Holds(base) && UniqueIds(added)
      modifies core`inbounds
      ensures Holds(base)
      ensures Supported(nodeInfo) && CleanAdd(nodeInfo, tag, old(core.inbounds[tag]), added) ==> addedOk
      ensures addedOk ==>
                core.inbounds[tag] ==
                  AddAll(LeftAfter(old(core.inbounds[tag]), KeysOf(tag, deleted)), BuildUsers(nodeInfo, tag, added))
    {
      hide Extends, NodeTagsFree, RelayTagsFree, MainTag, RelayTag, Own, UniqueIds, Supported, AddAll;
      addedOk := true;
      LeftWithin(core.inbounds[tag], KeysOf(tag, deleted));
      if |deleted| > 0 {
        var removed := RemoveUsersOf(deleted, base);
      }
      AddNothing(nodeInfo, tag, core.inbounds[tag]);
      if |added| > 0 {
        addedOk := AddUsersFor(added, base);
      }
    }

    /** `UpdateInboundLimiter`, if there is something to store. */
    method UpdateLimiter(list: seq<Subscription>) returns (ok: bool)
      requires LimiterApart() && tag in limiter.View()
      modifies limiter.Repr
      ensures ok && LimiterApart() && limiter.Repr == old(limiter.Repr)
      ensures limiter.View() == old(limiter.View())[tag := LimiterSpec.UpdateAll(old(limiter.View())[tag], list)]
    {
      ok := true;
      if |list| > 0 {
        ok := limiter.UpdateInboundLimiter(tag, list);
      } else {
        Maps.PutSame(limiter.View(), tag);
      }
    }

    /** The limiter part of a patch. */
    method PatchLimiter(added: seq<Subscription>, modified: seq<Subscription>) returns (ok: bool)
      requires LimiterApart() && tag in limiter.View()
      modifies limiter.Repr
      ensures ok && LimiterApart() && limiter.Repr == old(limiter.Repr)
      ensures limiter.View() ==
                old(limiter.View())[tag :=
                  LimiterSpec.UpdateAll(LimiterSpec.UpdateAll(old(limiter.View())[tag], added), modified)]
    {
      hide LimiterSpec.UpdateAll;
      ghost var before := limiter.View();
      var addedOk := UpdateLimiter(added);
      var modifiedOk := UpdateLimiter(modified);
      ok := addedOk && modifiedOk;
      Maps.PutTwice(before, tag, LimiterSpec.UpdateAll(before[tag], added),
                    LimiterSpec.UpdateAll(LimiterSpec.UpdateAll(before[tag], added), modified));
    }

    /** The patch part of `nodeInfoMonitor`; `deleted` is in the order of removal. */
    method Patch(list: seq<Subscription>, ghost base: CoreState)
      returns (ok: bool, ghost deleted: seq<Subscription>, ghost added: seq<Subscription>,
               ghost modified: seq<Subscription>)
      requires Holds(base) && UniqueIds(list) && UniqueIds(subscriptionList)
      requires LimiterApart() && tag in limiter.View()
      modifies core`inbounds, limiter.Repr
      ensures Holds(base) && LimiterApart() && limiter.Repr == old(limiter.Repr)
      ensures ListDiff(subscriptionList, list, deleted, added, modified)
      ensures Supported(nodeInfo) && CleanAdd(nodeInfo, tag, old(core.inbounds[tag]), added) ==> ok
      ensures ok ==>
                core.inbounds[tag] ==
                  AddAll(LeftAfter(old(core.inbounds[tag]), KeysOf(tag, deleted)), BuildUsers(nodeInfo, tag, added))
      ensures ok ==> limiter.View() == old(limiter.View())[tag :=
                       LimiterSpec.UpdateAll(LimiterSpec.UpdateAll(old(limiter.View())[tag], added), modified)]
    {
      hide Holds, CleanAdd, Supported;
      var del, add, mod := C.Compare(Some(subscriptionList), Some(list));
      deleted, added, modified := del, add, mod;
      ok := PatchUsers(del, add, base);
      limiter.Undisturbed();
      var limiterOk := PatchLimiter(if ok then add else [], mod);
      ok := ok && limiterOk;
    }

    lemma InboundPresent(base: CoreState)
      requires Holds(base)
      ensures tag in core.inbounds
    {
    }

    // Polls.

    ghost predicate LimiterCurrent(list: seq<Subscription>)
      reads `tag, `nodeInfo, limiter, limiter.Repr
    {
      && limiter.Valid() && tag in limiter.View()
      && Current(limiter.View()[tag], tag, nodeInfo.speedLimit, redisEnabled, list)
    }

    /** The users on the inbound are those of the list. */
    ghost predicate UsersInSync(list: seq<Subscription>)
      reads `tag, `nodeInfo, core
    {
      tag in core.inbounds && core.inbounds[tag] == UsersOf(nodeInfo, tag, list)
    }

    /** Every user on the inbound has a key of the list. */
    ghost predicate UsersListed(list: seq<Subscription>)
      reads `tag, core
    {
      tag in core.inbounds && AllListed(tag, core.inbounds[tag], list)
    }

    /** The inbound holds exactly the accounts of the list, as the node type asks for them. */
    ghost predicate ServesList()
      reads `tag, `nodeInfo, `subscriptionList, core
    {
      tag in core.inbounds && Serves(nodeInfo, tag, core.inbounds[tag], subscriptionList)
    }

    lemma SyncServes()
      requires UsersInSync(subscriptionList) && UniqueIds(subscriptionList)
      ensures ServesList()
    {
      hide UsersOf, Serves;
      UsersOfServes(nodeInfo, tag, subscriptionList);
    }

    lemma SyncIsListed(list: seq<Subscription>)
      requires UsersInSync(list) && UniqueIds(list)
      ensures UsersListed(list)
    {
      hide UsersOf;
      var users := core.inbounds[tag];
      KeysOfIs(tag, list);
      forall k | k in users ensures k in KeysOf(tag, list) {
        UsersOfIs(nodeInfo, tag, list, User(k, users[k]));
      }
    }

    /** The core and the limiter hold this controller's footprint and nothing else
        of its own: the inbound, outbounds and rules of the current node and of the
        relay in place, and a limiter entry with the limits of the list. */
    ghost predicate Synced(base: CoreState, others: set<string>, list: seq<Subscription>)
      reads `nodeInfo, `tag, `relay, `relayInfo, `relayTag, `bound, `relayList, `relayFirst
      reads core, limiter, limiter.Repr
    {
      && Holds(base) && tag == NodeTag(nodeInfo) && BlockRules(nodeInfo.blocking, tag).Ok? && UniqueIds(list)
      && LimiterApart() && LimiterCurrent(list) && limiter.View().Keys == others + {tag} && tag !in others
    }

    /** The relay in place is the one the node asks for, for the current list. */
    ghost predicate RelayMatches()
      reads `nodeInfo, `relay, `relayInfo, `relayTag, `relayList, `subscriptionList
    {
      relay == HasRelay(nodeInfo) && (relay ==> relayTag == RelayTagOf(relayInfo) && relayList == subscriptionList)
    }

    /** Between two polls. */
    ghost predicate Ready(base: CoreState, others: set<string>)
      reads this, core, limiter, limiter.Repr
    {
      Synced(base, others, subscriptionList) && RelayMatches()
    }

    /** The limiter entries of other nodes are as they were. */
    ghost predicate OthersKept(others: set<string>, before: map<string, LimiterSpec.InboundView>)
      reads limiter, limiter.Repr
    {
      && limiter.Valid()
      && forall t :: t in others ==> t in before && t in limiter.View() && limiter.View()[t] == before[t]
    }

    /** They list the same subscriptions as before. */
    ghost predicate OthersListed(others: set<string>, before: map<string, LimiterSpec.InboundView>)
      reads limiter, limiter.Repr
    {
      && limiter.Valid()
      && forall t :: t in others ==> t in before && t in limiter.View() && SameListing(before[t], limiter.View()[t])
    }

    /** A changed node: rebuild it and install the users and the limiter entry. */
    method ReplaceNode(n: NodeInfo, list: seq<Subscription>, ghost base: CoreState) returns (ok: bool)
      requires Holds(base) && MainTag(NodeTag(n)) && NodeTagsFree(base, NodeTag(n)) && UniqueIds(list) && LimiterApart()
      modifies this, core, limiter
      ensures subscriptionList == old(subscriptionList) && RelayNow() == old(RelayNow()) && relay == old(relay)
      ensures LimiterApart() && fresh(limiter.Repr - old(limiter.Repr))
      ensures GoodNode(n) ==> ok
      ensures ok ==> nodeInfo == n && tag == NodeTag(n) && relayFirst && BlockRules(n.blocking, tag).Ok? && Holds(base)
      ensures ok ==> core.inbounds[tag] == UsersOf(n, tag, list)
      ensures ok ==> core.fallback == AfterRebuild(old(core.fallback), old(tag), tag)
      ensures ok ==>
                limiter.View() ==
                  (old(limiter.View()) - {old(tag)})[tag :=
                    LimiterSpec.NewInbound(tag, n.speedLimit, list, redisEnabled)]
      ensures old(core.FallbackThere()) ==> core.FallbackThere()
    {
      hide Holds, NodeTagsFree, MainTag, UniqueIds, NodeTag, BlockRules, UsersOf, GoodNode, Supported,
           LimiterSpec.NewInbound, AfterRebuild;
      SupportedIfGood(n);
      ghost var r0 := limiter.Repr;
      ok := Rebuild(n, base);
      ghost var r1 := limiter.Repr;
      if !ok {
        return false;
      }
      ok := InstallUsers(list, base);
      assert limiter.Repr - r0 <= limiter.Repr - r1;
      if ok {
        InboundPresent(base);
      }
    }

    lemma PatchIsClean(list: seq<Subscription>, deleted: seq<Subscription>, added: seq<Subscription>,
                       modified: seq<Subscription>)
      requires UniqueIds(subscriptionList) && UniqueIds(list)
      requires ListDiff(subscriptionList, list, deleted, added, modified)
      ensures CleanAdd(nodeInfo, tag, UsersOf(nodeInfo, tag, subscriptionList), added)
    {
      CanPatch(nodeInfo, tag, subscriptionList, list, deleted, added, modified);
    }

    /** An unchanged node with a changed list: patch users and limiter. `leavers` is the
        order in which the leaving subscriptions were visited. */
    method PatchList(list: seq<Subscription>, ghost base: CoreState)
      returns (ok: bool, ghost leavers: seq<Subscription>)
      requires Holds(base) && UniqueIds(list) && UniqueIds(subscriptionList) && LimiterApart()
      requires LimiterCurrent(subscriptionList)
      modifies core`inbounds, limiter.Repr
      ensures Holds(base) && LimiterApart() && limiter.Repr == old(limiter.Repr)
      ensures old(UsersInSync(subscriptionList)) && Supported(nodeInfo) ==> ok
      ensures LeaversOf(subscriptionList, list, leavers)
      ensures ok && old(UsersInSync(subscriptionList)) ==>
                (UsersInSync(list) <==>
                 KeptUsersSame(nodeInfo, tag, subscriptionList, list) && !Strands(nodeInfo, leavers))
      ensures ok && old(UsersInSync(subscriptionList)) ==>
                (UsersListed(list) <==>
                 EmailsKept(nodeInfo, subscriptionList, list) && !Strands(nodeInfo, leavers))
      ensures ok ==> LimiterCurrent(list) && limiter.View() == old(limiter.View())[tag := limiter.View()[tag]]
    {
      hide Holds, Supported, CleanAdd, UniqueIds, KeptUsersSame, UsersOf, Current, AddAll, BuildUsers, KeysOf,
           LeftAfter, ListDiff, LeaversOf, Strands, EmailsKept, AllListed;
      InboundPresent(base);
      ghost var view := limiter.View();
      ghost var added, modified;
      ok, leavers, added, modified := Patch(list, base);
      InboundPresent(base);
      LeaversOfDiff(subscriptionList, list, leavers, added, modified);
      PatchedCurrent(view[tag], tag, nodeInfo.speedLimit, redisEnabled, subscriptionList, list, leavers, added,
                     modified);
      PatchIsClean(list, leavers, added, modified);
      PatchSynchronises(nodeInfo, tag, subscriptionList, list, leavers, added, modified);
      PatchedListed(nodeInfo, tag, subscriptionList, list, leavers, added, modified);
    }

    // The three stages of a poll, each keeping `Synced`.

    method RelayStage(n: NodeInfo, list: seq<Subscription>, r: RelayNodeInfo, infoUpdated: bool,
                      ghost base: CoreState, ghost others: set<string>)
      returns (ok: bool)
      requires Synced(base, others, subscriptionList) && UniqueIds(list)
      requires infoUpdated && HasRelay(n) ==> RelayTagsFree(base, RelayTagOf(r), list)
      requires relay ==> relayList == subscriptionList
      modifies this, core
      ensures nodeInfo == old(nodeInfo) && tag == old(tag) && subscriptionList == old(subscriptionList)
      ensures limiter.Repr == old(limiter.Repr) && limiter.View() == old(limiter.View()) && LimiterApart()
      ensures (infoUpdated && HasRelay(n) ==> GoodRelayInfo(r)) ==> ok
      ensures ok ==> Synced(base, others, subscriptionList)
      ensures ok ==> UsersInSync(subscriptionList) == old(UsersInSync(subscriptionList))
      ensures ok && !infoUpdated ==> RelayNow() == old(RelayNow()) && relay == old(relay)
      ensures ok && !infoUpdated ==> relayFirst == old(relayFirst)
      ensures ok && infoUpdated ==> relay == HasRelay(n)
      ensures ok && infoUpdated && relay ==> !relayFirst
      ensures ok && infoUpdated && relay ==> RelayNow() == Some(RelayInstall(r, RelayTagOf(r), tag, list))
      ensures ok ==>
                core.fallback ==
                  if infoUpdated then AfterRelay(AfterDrop(old(core.fallback), old(RelayNow())), n, r, list)
                  else old(core.fallback)
      ensures old(core.FallbackThere()) ==> core.FallbackThere()
    {
      hide Holds, UsersOf, NodeTag, BlockRules, UniqueIds, RelayTagsFree, RelayTagOf, Current, AfterDrop, AfterRelay;
      InboundPresent(base);
      ok := RefreshRelay(n, list, r, infoUpdated, base);
      limiter.Undisturbed();
      if ok {
        InboundPresent(base);
      }
    }

    method NodeStage(n: NodeInfo, list: seq<Subscription>, ghost base: CoreState, ghost others: set<string>)
      returns (ok: bool)
      requires Synced(base, others, subscriptionList) && UniqueIds(list) && OwnTags(n, base, others)
      modifies this, core, limiter.Repr
      ensures subscriptionList == old(subscriptionList) && RelayNow() == old(RelayNow()) && relay == old(relay)
      ensures LimiterApart() && fresh(limiter.Repr - old(limiter.Repr))
      ensures GoodNode(n) ==> ok
      ensures ok ==> Synced(base, others, list) && OthersKept(others, old(limiter.View())) && UsersInSync(list)
      ensures ok ==> nodeInfo == n && relayFirst
      ensures ok ==> core.fallback == AfterRebuild(old(core.fallback), old(tag), NodeTag(n))
      ensures old(core.FallbackThere()) ==> core.FallbackThere()
    {
      hide Holds, UsersOf, NodeTag, BlockRules, UniqueIds, NodeTagsFree, MainTag, Current, GoodNode,
           LimiterSpec.NewInbound, AfterRebuild;
      ghost var oldTag, view := tag, limiter.View();
      ok := ReplaceNode(n, list, base);
      if !ok {
        return false;
      }
      InboundPresent(base);
      FreshCurrent(tag, n.speedLimit, list, redisEnabled);
      ReplacedEntry(view, others, oldTag, tag, LimiterSpec.NewInbound(tag, n.speedLimit, list, redisEnabled));
    }

    method ListStage(list: seq<Subscription>, ghost base: CoreState, ghost others: set<string>)
      returns (ok: bool, ghost leavers: seq<Subscription>)
      requires Synced(base, others, subscriptionList) && UniqueIds(list)
      modifies core`inbounds, limiter.Repr
      ensures LimiterApart() && limiter.Repr == old(limiter.Repr)
      ensures old(UsersInSync(subscriptionList)) && Supported(nodeInfo) ==> ok
      ensures LeaversOf(subscriptionList, list, leavers)
      ensures ok && old(UsersInSync(subscriptionList)) ==>
                (UsersInSync(list) <==>
                 KeptUsersSame(nodeInfo, tag, subscriptionList, list) && !Strands(nodeInfo, leavers))
      ensures ok && old(UsersInSync(subscriptionList)) ==>
                (UsersListed(list) <==>
                 EmailsKept(nodeInfo, subscriptionList, list) && !Strands(nodeInfo, leavers))
      ensures ok ==> Synced(base, others, list) && OthersKept(others, old(limiter.View()))
    {
      hide Holds, UsersOf, NodeTag, BlockRules, UniqueIds, Current, Supported, LeaversOf, KeptUsersSame, EmailsKept,
           Strands, AllListed;
      ok, leavers := PatchList(list, base);
    }

    /** What the poll decided to do after the relay. */
    method Reconcile(n: NodeInfo, list: seq<Subscription>, rebuild: bool, patch: bool, ghost base: CoreState,
                     ghost others: set<string>)
      returns (ok: bool, ghost leavers: seq<Subscription>)
      requires Synced(base, others, subscriptionList) && UniqueIds(list)
      requires if rebuild then OwnTags(n, base, others) else n == nodeInfo && (!patch ==> list == subscriptionList)
      modifies this, core, limiter.Repr
      ensures subscriptionList == old(subscriptionList) && RelayNow() == old(RelayNow()) && relay == old(relay)
      ensures LimiterApart() && fresh(limiter.Repr - old(limiter.Repr))
      ensures ok ==> Synced(base, others, list) && OthersKept(others, old(limiter.View())) && nodeInfo == n
      ensures rebuild && GoodNode(n) ==> ok
      ensures !rebuild && !patch ==> ok
      ensures !rebuild && old(UsersInSync(subscriptionList)) && Supported(n) ==> ok
      ensures ok && rebuild ==> UsersInSync(list) && relayFirst
      ensures ok && !rebuild ==> nodeInfo == old(nodeInfo) && tag == old(tag) && relayFirst == old(relayFirst)
      ensures !rebuild ==> LeaversOf(subscriptionList, list, leavers)
      ensures ok && !rebuild && old(UsersInSync(subscriptionList)) ==>
                (UsersInSync(list) <==> KeptUsersSame(n, tag, subscriptionList, list) && !Strands(n, leavers))
      ensures ok && !rebuild && old(UsersInSync(subscriptionList)) ==>
                (UsersListed(list) <==> EmailsKept(n, subscriptionList, list) && !Strands(n, leavers))
      ensures ok ==>
                core.fallback ==
                  if rebuild then AfterRebuild(old(core.fallback), old(tag), NodeTag(n)) else old(core.fallback)
      ensures old(core.FallbackThere()) ==> core.FallbackThere()
    {
      hide AfterRebuild;
      hide Synced, UsersInSync, OthersKept, OwnTags, Supported, LeaversOf, KeptUsersSame, EmailsKept, Strands, GoodNode,
           UniqueIds, LimiterApart, UsersListed;
      SyncedFacts(base, others);
      NobodyLeaves(n, subscriptionList);
      ok, leavers := true, [];
      if rebuild {
        ok := NodeStage(n, list, base, others);
      } else if patch {
        ok, leavers := ListStage(list, base, others);
      } else if UsersInSync(list) {
        SyncIsListed(list);
      }
    }

    /** What follows the relay: rebuild or patch, then remember the list. */
    method Finish(n: NodeInfo, list: seq<Subscription>, rebuild: bool, patch: bool, ghost base: CoreState,
                  ghost others: set<string>)
      returns (ok: bool, ghost leavers: seq<Subscription>)
      requires Synced(base, others, subscriptionList) && UniqueIds(list)
      requires if rebuild then OwnTags(n, base, others) else n == nodeInfo && (!patch ==> list == subscriptionList)
      modifies this, core, limiter.Repr
      ensures RelayNow() == old(RelayNow()) && relay == old(relay)
      ensures LimiterApart() && fresh(limiter.Repr - old(limiter.Repr))
      ensures ok ==> Synced(base, others, list) && OthersKept(others, old(limiter.View())) && nodeInfo == n
      ensures ok ==> subscriptionList == list
      ensures rebuild && GoodNode(n) ==> ok
      ensures !rebuild && !patch ==> ok
      ensures !rebuild && old(UsersInSync(subscriptionList)) && Supported(n) ==> ok
      ensures ok && rebuild ==> UsersInSync(list) && relayFirst
      ensures ok && !rebuild ==> nodeInfo == old(nodeInfo) && tag == old(tag) && relayFirst == old(relayFirst)
      ensures !rebuild ==> LeaversOf(old(subscriptionList), list, leavers)
      ensures ok && !rebuild && old(UsersInSync(subscriptionList)) ==>
                (UsersInSync(list) <==> KeptUsersSame(n, tag, old(subscriptionList), list) && !Strands(n, leavers))
      ensures ok && !rebuild && old(UsersInSync(subscriptionList)) ==>
                (UsersListed(list) <==> EmailsKept(n, old(subscriptionList), list) && !Strands(n, leavers))
      ensures ok ==>
                core.fallback ==
                  if rebuild then AfterRebuild(old(core.fallback), old(tag), NodeTag(n)) else old(core.fallback)
      ensures old(core.FallbackThere()) ==> core.FallbackThere()
    {
      hide AfterRebuild;
      hide Synced, OthersKept, OwnTags, Supported, LeaversOf, KeptUsersSame, EmailsKept, Strands, GoodNode, UniqueIds,
           LimiterApart, UsersInSync, UsersListed;
      SyncedFacts(base, others);
      ghost var view := limiter.View();
      ok, leavers := Reconcile(n, list, rebuild, patch, base, others);
      if !ok && rebuild {
        return false, leavers;
      }
      StoreList(list, base, others, view);
    }

    /** One poll. `ok` says that every call into the core and the limiter succeeded, apart
        from removals of users, whose failures are only logged; `leavers` is the order in
        which a patch visited the leaving subscriptions. */
    method NodeInfoMonitor(poll: Poll, ghost base: CoreState, ghost others: set<string>)
      returns (ok: bool, ghost leavers: seq<Subscription>)
      requires Ready(base, others) && Distinct(poll, nodeInfo, subscriptionList, base, others)
      modifies this, core, limiter.Repr
      ensures LimiterApart() && fresh(limiter.Repr - old(limiter.Repr))
      // The footprint and the limiter follow the poll, and others are left alone.
      ensures ok ==> Ready(base, others) && OthersKept(others, old(limiter.View()))
      ensures ok ==>
                nodeInfo ==
                  if !poll.list.Failed? && poll.node.Fetched? then poll.node.value else old(nodeInfo)
      ensures ok ==>
                subscriptionList ==
                  if !poll.node.Failed? && poll.list.Fetched? then poll.list.value else old(subscriptionList)
      // It cannot fail on good input from a synchronised state.
      ensures GoodPoll(poll, old(nodeInfo)) && old(UsersInSync(subscriptionList)) ==> ok
      // The users: a rebuild always synchronises, a patch exactly when no kept user changed
      // and no leaving one was stranded behind an unusable key.
      ensures ok && nodeInfo != old(nodeInfo) ==> UsersInSync(subscriptionList)
      ensures ok && nodeInfo == old(nodeInfo) ==> LeaversOf(old(subscriptionList), subscriptionList, leavers)
      ensures ok && nodeInfo == old(nodeInfo) && old(UsersInSync(subscriptionList)) ==>
                (UsersInSync(subscriptionList) <==>
                 KeptUsersSame(nodeInfo, tag, old(subscriptionList), subscriptionList) && !Strands(nodeInfo, leavers))
      ensures ok && nodeInfo == old(nodeInfo) && old(UsersInSync(subscriptionList)) ==>
                (UsersListed(subscriptionList) <==>
                 EmailsKept(nodeInfo, old(subscriptionList), subscriptionList) && !Strands(nodeInfo, leavers))
      // In sync means that each subscription has the account that the node type asks for.
      ensures ok && UsersInSync(subscriptionList) ==> ServesList()
      // The relay's rules name the inbound from before the poll that installed them,
      // and stand before the node's own exactly if that poll rebuilt the node.
      ensures ok && relay ==> bound == if Updates(poll) then old(tag) else old(bound)
      ensures ok && relay ==> relayFirst == if Updates(poll) then Rebuilds(poll, old(nodeInfo)) else old(relayFirst)
      // The relay in place is the one of the last answer.
      ensures ok && relay ==> relayInfo == if Updates(poll) then poll.relay else old(relayInfo)
      // The default outbound changes with the controller's own outbounds only.
      ensures ok ==>
                core.fallback ==
                  PollFallback(old(core.fallback), old(RelayNow()), old(tag), poll, old(nodeInfo),
                               old(subscriptionList))
      ensures old(core.FallbackThere()) ==> core.FallbackThere()
    {
      hide AfterDrop, AfterRelay, AfterRebuild;
      hide Synced, UsersInSync, OthersKept, OwnTags, RelayTagsFree, RelayTagOf, Supported, LeaversOf, EmailsKept,
           Strands, KeptUsersSame, GoodRelayInfo, GoodNode, UniqueIds, LimiterApart, UsersListed, ServesList;
      SyncedFacts(base, others);
      if poll.node.Failed? || poll.list.Failed? {
        NobodyLeaves(nodeInfo, subscriptionList);
        if UsersInSync(subscriptionList) {
          SyncIsListed(subscriptionList);
          SyncServes();
        }
        return true, [];
      }
      var nodeInfoChanged := poll.node.Fetched?;
      var newNodeInfo := if nodeInfoChanged then poll.node.value else nodeInfo;
      var subscriptionChanged := poll.list.Fetched?;
      var newSubscriptionInfo := if subscriptionChanged then poll.list.value else subscriptionList;
      var infoUpdated := subscriptionChanged || nodeInfoChanged;
      ok := RelayStage(newNodeInfo, newSubscriptionInfo, poll.relay, infoUpdated, base, others);
      if !ok {
        return false, [];
      }
      if nodeInfoChanged && nodeInfo == newNodeInfo {
        nodeInfoChanged := false;
      }
      ok, leavers := Finish(newNodeInfo, newSubscriptionInfo, nodeInfoChanged, subscriptionChanged, base, others);
      if ok && UsersInSync(subscriptionList) {
        SyncServes();
      }
    }

    /** The last assignment of a poll touches nothing else. */
    method StoreList(list: seq<Subscription>, ghost base: CoreState, ghost others: set<string>,
                     ghost view: map<string, LimiterSpec.InboundView>)
      requires LimiterApart()
      modifies `subscriptionList
      ensures subscriptionList == list
      ensures LimiterApart() && limiter.Repr == old(limiter.Repr)
      ensures Synced(base, others, list) == old(Synced(base, others, list))
      ensures OthersKept(others, view) == old(OthersKept(others, view))
    {
      hide Holds, Current, NodeTag, BlockRules, UniqueIds;
      subscriptionList := list;
      limiter.Undisturbed();
    }

    lemma SyncedFacts(base: CoreState, others: set<string>)
      requires Synced(base, others, subscriptionList)
      ensures UniqueIds(subscriptionList) && LimiterApart() && limiter.Valid()
      ensures KeptUsersSame(nodeInfo, tag, subscriptionList, subscriptionList)
      ensures EmailsKept(nodeInfo, subscriptionList, subscriptionList)
      ensures OthersKept(others, limiter.View())
    {
      KeptByItself(nodeInfo, tag, subscriptionList);
    }

    // Start.

    /** The relay's part of `Start`, into a core that holds nothing of this controller. */
    method FirstRelayFor(n: NodeInfo, list: seq<Subscription>, r: RelayNodeInfo, ghost base: CoreState)
      returns (ok: bool)
      requires Wired() && Extends(core.State(), base, NOTHING)
      requires MainTag(NodeTag(n)) && NodeTagsFree(base, NodeTag(n)) && UniqueIds(list)
      requires HasRelay(n) ==> RelayTagsFree(base, RelayTagOf(r), list)
      modifies this, core
      ensures (HasRelay(n) ==> GoodRelayInfo(r)) ==> ok
      ensures nodeInfo == n && tag == NodeTag(n) && subscriptionList == list
      ensures ok ==> Extends(core.State(), base, RelayOnly(RelayNow())) && relayFirst
      ensures ok ==> relay == HasRelay(n) && (relay ==> RelayNow() == Some(RelayInstall(r, RelayTagOf(r), tag, list)))
      ensures ok ==> core.fallback == AfterRelay(old(core.fallback), n, r, list)
      ensures old(core.FallbackThere()) ==> core.FallbackThere()
    {
      hide Can, Do, Extends, NodeTagsFree, RelayTagsFree, NodeTag, RelayTag, RelayTagOf, MainTag, RelayOnly, UniqueIds,
           FallbackAfter, RelaysAdded;
      nodeInfo, tag, subscriptionList, relay := n, NodeTag(n), list, false;
      relayList, bound, relayFirst := list, tag, true;
      NothingIsRelayOnly();
      ok := true;
      if n.relayType == 1 && n.relayNodeId > 0 {
        relayInfo := r;
        relayTag := RelayTagOf(r);
        RelayFallback(core.fallback, r, relayTag, tag, list);
        FirstRelayAdded(core.State(), base, RelayInstall(r, relayTag, tag, list));
        ok := nodeManager.AddRelayTag(r, relayTag, tag, list);
        if !ok {
          return false;
        }
        relay := true;
      }
    }

    /** The node's and the relay's part of `Start`. */
    method Install(n: NodeInfo, list: seq<Subscription>, r: RelayNodeInfo, ghost base: CoreState) returns (ok: bool)
      requires Wired() && Extends(core.State(), base, NOTHING)
      requires MainTag(NodeTag(n)) && NodeTagsFree(base, NodeTag(n)) && UniqueIds(list)
      requires HasRelay(n) ==> RelayTagsFree(base, RelayTagOf(r), list)
      modifies this, core
      ensures GoodNode(n) && (HasRelay(n) ==> GoodRelayInfo(r)) ==> ok
      ensures ok ==> Holds(base) && nodeInfo == n && tag == NodeTag(n) && subscriptionList == list
      ensures ok ==> core.inbounds[tag] == map[] && BlockRules(n.blocking, tag).Ok? && relayFirst
      ensures ok ==> relay == HasRelay(n) && (relay ==> RelayNow() == Some(RelayInstall(r, RelayTagOf(r), tag, list)))
      ensures ok ==> core.fallback == StartFallback(old(core.fallback), n, r, list)
      ensures old(core.FallbackThere()) ==> core.FallbackThere()
    {
      hide Can, Do, Extends, NodeTagsFree, RelayTagsFree, NodeTag, RelayTag, RelayTagOf, MainTag, Own, RelayOnly,
           UniqueIds, BlockRules, FallbackAfter, AfterRelay, AddedTo, BlackholeTag;
      TagKinds(n, r);
      ok := FirstRelayFor(n, list, r, base);
      if !ok {
        return false;
      }
      NodeFallback(core.fallback, n, tag);
      NodeAdded(core.State(), base, n, tag, RelayNow());
      PluginUnsupported(n);
      ok := nodeManager.AddRuleTag(n, tag);
      if !ok {
        return false;
      }
      ok := nodeManager.AddTag(n, tag);
      if !ok {
        return false;
      }
      KeepsInbound(base, map[]);
    }

    lemma KeptByEntry(others: set<string>, before: map<string, LimiterSpec.InboundView>, entry: LimiterSpec.InboundView)
      requires limiter.Valid() && limiter.View() == before[tag := entry] && before.Keys == others && tag !in others
      ensures OthersKept(others, before)
    {
    }

    method Start(n: NodeInfo, list: seq<Subscription>, r: RelayNodeInfo, ghost base: CoreState,
                 ghost others: set<string>)
      returns (ok: bool)
      requires Wired() && Extends(core.State(), base, NOTHING) && LimiterApart() && limiter.View().Keys == others
      requires OwnTags(n, base, others) && UniqueIds(list)
      requires HasRelay(n) ==> RelayTagsFree(base, RelayTagOf(r), list)
      modifies this, core, limiter.Repr
      ensures LimiterApart() && fresh(limiter.Repr - old(limiter.Repr))
      ensures GoodNode(n) && (HasRelay(n) ==> GoodRelayInfo(r)) ==> ok
      ensures ok ==> Ready(base, others) && UsersInSync(list) && nodeInfo == n && subscriptionList == list
      ensures ok ==> ServesList()
      ensures ok ==> OthersKept(others, old(limiter.View()))
      ensures ok && relay ==> relayInfo == r && bound == tag && relayFirst
      ensures ok ==> core.fallback == StartFallback(old(core.fallback), n, r, list)
      ensures old(core.FallbackThere()) ==> core.FallbackThere()
    {
      hide Holds, UsersOf, NodeTag, BlockRules, UniqueIds, NodeTagsFree, RelayTagsFree, MainTag, Current, Extends,
           RelayTagOf, LimiterSpec.NewInbound, GoodNode, GoodRelayInfo, OthersKept, StartFallback;
      ghost var view, r0 := limiter.View(), limiter.Repr;
      ok := Install(n, list, r, base);
      limiter.Undisturbed();
      if !ok {
        return false;
      }
      SupportedIfGood(n);
      assert limiter.Repr == r0;
      ok := InstallUsers(list, base);
      assert fresh(limiter.Repr - r0);
      if !ok {
        return false;
      }
      InboundPresent(base);
      FreshCurrent(tag, n.speedLimit, list, redisEnabled);
      NewEntry(view, others, tag, LimiterSpec.NewInbound(tag, n.speedLimit, list, redisEnabled));
      KeptByEntry(others, view, LimiterSpec.NewInbound(tag, n.speedLimit, list, redisEnabled));
      SyncServes();
    }

    // Next to other controllers.

    /** This controller's part of the core. */
    ghost function OwnNow(): CoreState
      reads `nodeInfo, `tag, `relay, `relayInfo, `relayTag, `bound, `relayList, `relayFirst, core
    {
      Own(if tag in core.inbounds then core.inbounds[tag] else map[], nodeInfo, tag, RelayNow(), relayFirst)
    }

    /** The tags that this controller's node and relay use are `me`'s. */
    ghost predicate OwnsTags(owner: Owner, me: int)
      reads `nodeInfo, `relayInfo, `subscriptionList
    {
      OwnedNode(owner, me, nodeInfo) && (HasRelay(nodeInfo) ==> OwnedRelay(owner, me, relayInfo, subscriptionList))
    }

    lemma OwnPart(base: CoreState, others: set<string>, owner: Owner, me: int)
      requires Ready(base, others) && OwnsTags(owner, me)
      ensures Extends(core.State(), base, OwnNow()) && OwnedBy(owner, me, OwnNow())
    {
      hide Extends, RelayTagOf, NodeTag, LimiterCurrent, LimiterApart, Own, OwnedBy;
      OwnedFootprint(owner, me, core.inbounds[tag], nodeInfo, tag, RelayNow(), relayFirst);
    }

    /** What readiness says of the controller's own fields. */
    ghost predicate FieldsReady()
      reads this
    {
      && Wired() && MainTag(tag) && nodeInfo.nodeType != PLUGIN && tag == NodeTag(nodeInfo)
      && BlockRules(nodeInfo.blocking, tag).Ok? && UniqueIds(subscriptionList) && RelayMatches()
    }

    lemma ReadyFacts(base: CoreState, others: set<string>)
      requires Ready(base, others)
      ensures FieldsReady() && tag in core.inbounds && Extends(core.State(), base, OwnNow())
      ensures LimiterApart() && LimiterCurrent(subscriptionList) && limiter.View().Keys == others + {tag}
      ensures tag !in others
    {
      hide Extends, MainTag, NodeTag, BlockRules, UniqueIds, RelayMatches, Own, Current;
    }

    /** In whatever core this controller's part is, next to whatever else, it is ready
        as long as the rest uses none of its tags and its limiter entry is current. */
    lemma StillReady(base: CoreState, others: set<string>, owner: Owner, me: int)
      requires FieldsReady() && tag in core.inbounds
      requires Extends(core.State(), base, OwnNow()) && NoneOf(owner, me, base) && OwnsTags(owner, me)
      requires LimiterApart() && LimiterCurrent(subscriptionList) && limiter.View().Keys == others + {tag}
      requires tag !in others
      ensures Ready(base, others)
    {
      hide Extends, MainTag, NodeTag, BlockRules, UniqueIds, Own, Current;
    }

    /** In every ready state every installed user has a current limiter entry exactly if all
        their keys are listed, and counters that the monitor reads exactly then; see
        `NodeInfoMonitor` for when that is so after a poll. */
    lemma ServedIffListed(base: CoreState, others: set<string>)
      requires Ready(base, others)
      ensures UsersListed(subscriptionList) <==>
              forall k :: k in core.inbounds[tag] ==>
                HasCurrentEntry(limiter.View()[tag], tag, subscriptionList, k)
      ensures UsersListed(subscriptionList) <==>
              forall k :: k in core.inbounds[tag] ==> IsMetered(tag, subscriptionList, k)
    {
      hide Extends, Own, NodeTag, BlockRules, MainTag, IsMetered, HasCurrentEntry, KeysOf;
      forall k
        ensures HasCurrentEntry(limiter.View()[tag], tag, subscriptionList, k) <==> k in KeysOf(tag, subscriptionList)
        ensures IsMetered(tag, subscriptionList, k) <==> k in KeysOf(tag, subscriptionList)
      {
        EntryIffListed(limiter.View()[tag], tag, nodeInfo.speedLimit, redisEnabled, subscriptionList, k);
        MeteredIffListed(tag, subscriptionList, k);
      }
    }

    // Routing between two polls.

    /** Where this core sends traffic. */
    ghost function ExitNow(m: Matchers, c: Context): Option<string>
      reads core
    {
      Exit(m, core.rules, core.outbounds.Keys, core.fallback, c)
    }

    lemma OwnPick(base: CoreState, others: set<string>, m: Matchers, c: Context)
      requires Ready(base, others) && forall r :: r in base.rules ==> !Matches(m, r, c)
      ensures var route := PickRoute(m, core.rules, c);
              && (route.Some? ==> route.value in OwnNow().outbounds)
              && ExitNow(m, c) == if route.Some? then route else core.fallback
    {
      ReadyFacts(base, others);
      OwnRulesLead(if tag in core.inbounds then core.inbounds[tag] else map[], nodeInfo, tag, RelayNow(), relayFirst);
      hide Extends, Own, Matches, PickRoute, FieldsReady, LimiterCurrent, LimiterApart;
      OwnRoute(m, core.State(), base, OwnNow(), c);
    }

    /** Traffic that no rule of others matches leaves through an outbound of somebody else
        exactly if no own rule matches it either and the default outbound is somebody
        else's; it is closed exactly if there is no default outbound then. */
    lemma LeavesElsewhere(base: CoreState, others: set<string>, owner: Owner, me: int, m: Matchers, c: Context)
      requires Ready(base, others) && OwnsTags(owner, me) && forall r :: r in base.rules ==> !Matches(m, r, c)
      ensures var exit, route := ExitNow(m, c), PickRoute(m, core.rules, c);
              && (exit.Some? && owner(exit.value) != me <==>
                  route.None? && core.fallback.Some? && owner(core.fallback.value) != me)
              && (exit.None? <==> route.None? && core.fallback.None?)
    {
      OwnPart(base, others, owner, me);
      OwnPick(base, others, m, c);
      hide PickRoute, Exit, Extends, Own;
    }

    /** In every ready state traffic of a node without relay goes to the blackhole
        exactly when the node's blocking rule matches, and to its own outbound
        otherwise, unless a rule of others matches it. */
    lemma RouteOfOwn(base: CoreState, others: set<string>, m: Matchers, c: Context)
      requires Ready(base, others) && (nodeInfo.relayType == 0 || nodeInfo.relayNodeId == 0)
      requires c.inboundTag == tag && forall r :: r in base.rules ==> !Matches(m, r, c)
      ensures PickRoute(m, core.rules, c) == Some(if Blocks(nodeInfo.blocking, m, c) then tag + "_blackhole" else tag)
      ensures ExitNow(m, c) == PickRoute(m, core.rules, c)
    {
      OwnPick(base, others, m, c);
      hide Blocks, BlockRules, NodeTag, MainTag;
      hide Extends, Own, Matches, PickRoute, LimiterCurrent, Exit;
      RouteOfNode(m, core.State(), base, core.inbounds[tag], nodeInfo, tag, relayFirst, c);
    }

    /** A node that asks for neither a relay nor a default rule, such as one of relay
        type 2 with a relay node, has no route for traffic that is not blocked, which takes
        the default outbound of the core. */
    lemma RouteOfNeither(base: CoreState, others: set<string>, m: Matchers, c: Context)
      requires Ready(base, others) && nodeInfo.relayType != 0 && nodeInfo.relayNodeId != 0
      requires !(nodeInfo.relayType == 1 && nodeInfo.relayNodeId > 0)
      requires c.inboundTag == tag && forall r :: r in base.rules ==> !Matches(m, r, c)
      ensures var blocked := Blocks(nodeInfo.blocking, m, c);
              && PickRoute(m, core.rules, c) == (if blocked then Some(tag + "_blackhole") else None)
              && ExitNow(m, c) == if blocked then Some(tag + "_blackhole") else core.fallback
    {
      OwnPick(base, others, m, c);
      hide Blocks, BlockRules, NodeTag, MainTag;
      hide Extends, Own, Matches, PickRoute, LimiterCurrent, Exit;
      RouteOfStranded(m, core.State(), base, core.inbounds[tag], nodeInfo, tag, relayFirst, c);
    }

    /** Traffic of one subscription on this inbound that no rule of others matches. */
    ghost predicate OwnTraffic(base: CoreState, m: Matchers, s: Subscription, c: Context)
      reads `tag
    {
      c.inboundTag == tag && c.user == Key(tag, s.email, s.id) && forall r :: r in base.rules ==> !Matches(m, r, c)
    }

    ghost function RelayedRoute(m: Matchers, s: Subscription, c: Context): Option<string>
      reads `nodeInfo, `tag, `relayTag, `bound, `relayFirst
    {
      var blocked := Blocks(nodeInfo.blocking, m, c);
      if bound == tag && (relayFirst || !blocked) then Some(relayTag + "_" + Dec(s.id))
      else if blocked then Some(tag + "_blackhole")
      else None
    }

    /** In every ready state a listed user's traffic on a relayed node reaches the
        user's relay outbound exactly when the relay was installed for the current
        tag and no blocking rule both matches and stands first; if the tag changed
        since, the user has no route of its own at all and takes the core's default outbound. */
    lemma RouteOfRelay(base: CoreState, others: set<string>, m: Matchers, s: Subscription, c: Context)
      requires Ready(base, others) && nodeInfo.relayType == 1 && nodeInfo.relayNodeId > 0
      ensures s in subscriptionList && RelayKeyOf(relayInfo, s).Some? && OwnTraffic(base, m, s, c) ==>
                var route := RelayedRoute(m, s, c);
                && PickRoute(m, core.rules, c) == route
                && ExitNow(m, c) == if route.Some? then route else core.fallback
    {
      hide Blocks, BlockRules, NodeTag, MainTag;
      hide Extends, Own, Matches, PickRoute, LimiterCurrent, RelayKeyOf, Exit;
      if s in subscriptionList && RelayKeyOf(relayInfo, s).Some? && OwnTraffic(base, m, s, c) {
        OwnPick(base, others, m, c);
        RouteOfRelayed(m, core.State(), base, core.inbounds[tag], nodeInfo, tag, RelayNow().value, relayFirst, s, c);
      }
    }

    lemma ServesIfReady(base: CoreState, others: set<string>)
      requires Ready(base, others)
      ensures UsersInSync(subscriptionList) ==> ServesList()
    {
      hide UsersInSync, ServesList, Holds, RelayMatches, LimiterCurrent, LimiterApart;
      if UsersInSync(subscriptionList) {
        SyncServes();
      }
    }

    /** What the outbounds are in every ready state. */
    lemma Handlers(base: CoreState, others: set<string>)
      requires Ready(base, others)
      ensures tag in core.outbounds && core.outbounds[tag] == Direct
      ensures tag + "_blackhole" in core.outbounds && core.outbounds[tag + "_blackhole"] == Blackhole
      ensures relay <==> nodeInfo.relayType == 1 && nodeInfo.relayNodeId > 0
      ensures relay ==> forall s :: s in subscriptionList ==>
                RelaysFor(RelayInstall(relayInfo, relayTag, bound, subscriptionList), core.outbounds, s)
    {
      hide Extends, Own, MainTag, RelayTag, NodeTag, BlockRules, LimiterCurrent, LimiterApart, UniqueIds, RelaysFor,
           RelayTagsFree, RelayTagOf;
      MainOutsAre(core.State(), base, core.inbounds[tag], nodeInfo, tag, RelayNow(), relayFirst);
      if relay {
        forall s | s in subscriptionList
          ensures RelaysFor(RelayInstall(relayInfo, relayTag, bound, subscriptionList), core.outbounds, s)
        {
          RelaysInCore(core.State(), base, core.inbounds[tag], nodeInfo, tag, RelayNow().value, relayFirst, s);
        }
      }
    }

    // Whole runs.

    /** What readiness says apart from the limiter. */
    ghost predicate Rested(base: CoreState)
      reads this, core
    {
      && Holds(base) && tag == NodeTag(nodeInfo) && BlockRules(nodeInfo.blocking, tag).Ok?
      && UniqueIds(subscriptionList) && RelayMatches()
    }

    /** What it says of the limiter's entries. */
    ghost predicate Entered(view: map<string, LimiterSpec.InboundView>, others: set<string>)
      reads this
    {
      && tag in view && Current(view[tag], tag, nodeInfo.speedLimit, redisEnabled, subscriptionList)
      && view.Keys == others + {tag} && tag !in others
    }

    /** The limiter lists what it did. */
    ghost predicate ListsAs(view: map<string, LimiterSpec.InboundView>)
      reads limiter, limiter.Repr
    {
      && limiter.Valid() && limiter.View().Keys == view.Keys
      && forall t :: t in view ==> SameListing(view[t], limiter.View()[t])
    }

    lemma ReadyParts(base: CoreState, others: set<string>)
      requires Ready(base, others)
      ensures Rested(base) && LimiterApart() && Entered(limiter.View(), others)
    {
      hide Holds, UsersOf, NodeTag, BlockRules, UniqueIds, RelayMatches, Current;
    }

    lemma ReadyAgain(base: CoreState, others: set<string>, view: map<string, LimiterSpec.InboundView>)
      requires Rested(base) && LimiterApart() && Entered(view, others) && ListsAs(view)
      ensures Ready(base, others) && OthersListed(others, view)
    {
      SameListingCurrent(view[tag], limiter.View()[tag], tag, nodeInfo.speedLimit, redisEnabled, subscriptionList);
      hide Holds, UsersOf, NodeTag, BlockRules, UniqueIds, RelayMatches, Current, SameListing;
    }

    /** At most one entry changed, and it lists what it did. */
    lemma OneChanged(view: map<string, LimiterSpec.InboundView>, inbound: string)
      requires limiter.Valid() && limiter.View().Keys == view.Keys
      requires forall t :: t in view && t != inbound ==> limiter.View()[t] == view[t]
      requires inbound in view ==> SameListing(view[inbound], limiter.View()[inbound])
      ensures ListsAs(view)
    {
    }

    /** A connection on any inbound. */
    method Connect(inbound: string, email: string, ip: string, address: string, cache: L.Cache,
                   ghost base: CoreState, ghost others: set<string>)
      requires Ready(base, others)
      modifies limiter.Repr
      ensures Ready(base, others) && fresh(limiter.Repr - old(limiter.Repr))
      ensures unchanged(this) && OthersListed(others, old(limiter.View()))
      ensures UsersInSync(subscriptionList) == old(UsersInSync(subscriptionList))
    {
      hide Ready, Rested, Entered, OthersListed, UsersInSync, LimiterSpec.AdmitStep, L.GlobalReject, L.GlobalPush,
           L.DecisionOf, SameListing, Current, ListsAs;
      ReadyParts(base, others);
      ghost var view := limiter.View();
      var bucket, limited, reject, push := limiter.GetSubscriptionLimiter(inbound, email, ip, address, cache);
      if inbound in view {
        var source := if ip == "" then address else ip;
        AdmitKeepsListing(view[inbound], email, source, L.GlobalReject(view[inbound], cache, email, source));
      }
      assert LimiterApart();
      OneChanged(view, inbound);
      ReadyAgain(base, others, view);
    }

    /** The online half of a monitor run on any inbound. */
    method Report(inbound: string, ghost base: CoreState, ghost others: set<string>)
      requires Ready(base, others)
      modifies limiter.Repr
      ensures Ready(base, others) && limiter.Repr == old(limiter.Repr)
      ensures unchanged(this) && OthersListed(others, old(limiter.View()))
      ensures UsersInSync(subscriptionList) == old(UsersInSync(subscriptionList))
    {
      hide Ready, Rested, Entered, OthersListed, UsersInSync, LimiterSpec.ReportStep, SameListing, Current,
           L.Enumerates, ListsAs;
      ReadyParts(base, others);
      ghost var view := limiter.View();
      ghost var order;
      var ok, list;
      ok, list, order := limiter.GetOnlineDevice(inbound);
      if inbound in view {
        ReportKeepsListing(view[inbound]);
      }
      OneChanged(view, inbound);
      ReadyAgain(base, others, view);
    }

    lemma KeptIsListed(others: set<string>, before: map<string, LimiterSpec.InboundView>)
      requires OthersKept(others, before)
      ensures OthersListed(others, before)
    {
    }

    /** One event of a run. Under steady input a poll succeeds and leaves the users in sync. */
    method Handle(e: Event, ghost base: CoreState, ghost others: set<string>, ghost book: Book) returns (ok: bool)
      requires Ready(base, others) && (e.Polled? ==> Distinct(e.poll, nodeInfo, subscriptionList, base, others))
      modifies this, core, limiter.Repr
      ensures LimiterApart() && fresh(limiter.Repr - old(limiter.Repr))
      ensures ok ==> Ready(base, others)
      ensures ok ==> Told(nodeInfo, subscriptionList) == Hear(old(Told(nodeInfo, subscriptionList)), e)
      ensures ok ==> OthersListed(others, old(limiter.View()))
      ensures ok && relay ==> relayInfo == if e.Polled? && Updates(e.poll) then e.poll.relay else old(relayInfo)
      ensures ok ==>
                core.fallback ==
                  if e.Polled? then
                    PollFallback(old(core.fallback), old(RelayNow()), old(tag), e.poll, old(nodeInfo),
                                 old(subscriptionList))
                  else old(core.fallback)
      ensures && Calm(book, old(nodeInfo), old(subscriptionList))
              && old(UsersInSync(subscriptionList)) && SteadyEvent(e, book) ==>
                ok && Calm(book, nodeInfo, subscriptionList) && UsersInSync(subscriptionList)
      ensures old(core.FallbackThere()) ==> core.FallbackThere()
    {
      hide Synced, RelayMatches, UsersInSync, Distinct, GoodPoll, LeaversOf, KeptUsersSame, UsersOf, LimiterApart,
           OthersKept, GoodNode, Strands, EmailsKept, UsersListed, PollFallback, RelayNow;
      ok := true;
      SyncedFacts(base, others);
      match e {
        case Polled(poll) =>
          ghost var n, list := nodeInfo, subscriptionList;
          if Calm(book, n, list) && SteadyEvent(e, book) {
            SteadyPollIsGood(book, poll, n, list);
          }
          ghost var view := limiter.View();
          ghost var leavers;
          ok, leavers := NodeInfoMonitor(poll, base, others);
          if ok {
            KeptIsListed(others, view);
          }
          if Calm(book, n, list) && SteadyEvent(e, book) && ok {
            if !Rebuilds(poll, n) {
              SteadyListsAgree(book, nodeInfo, tag, list, subscriptionList, leavers);
            }
          }
        case Connected(inbound, email, ip, address, cache) =>
          Connect(inbound, email, ip, address, cache, base, others);
          SyncedFacts(base, others);
        case Reported(inbound) =>
          Report(inbound, base, others);
          SyncedFacts(base, others);
      }
    }

    /** Any run of polls, connections and reports after a successful `Start`: as long
        as every call succeeds, the core holds exactly this controller's footprint on
        top of what others installed, and the limiter entry is current. If the panel
        never changes the email or password of an Id and hands out usable keys, every
        poll succeeds and the users on the inbound are always those of the list. */
    method Serve(events: seq<Event>, ghost base: CoreState, ghost others: set<string>, ghost book: Book)
      returns (ok: bool)
      requires Ready(base, others)
      requires Sound(events, Told(nodeInfo, subscriptionList), base, others)
      modifies this, core, limiter.Repr
      ensures LimiterApart() && fresh(limiter.Repr - old(limiter.Repr))
      ensures ok ==> Ready(base, others)
      ensures ok ==> Told(nodeInfo, subscriptionList) == HeardFrom(old(Told(nodeInfo, subscriptionList)), events)
      ensures && Calm(book, old(nodeInfo), old(subscriptionList))
              && old(UsersInSync(subscriptionList)) && Steady(events, book) ==>
                ok && UsersInSync(subscriptionList) && ServesList()
      ensures old(core.FallbackThere()) ==> core.FallbackThere()
    {
      hide Ready, UsersInSync, Distinct, LimiterApart, Calm, SteadyEvent, Hear;
      ghost var calm := Calm(book, nodeInfo, subscriptionList) && UsersInSync(subscriptionList) && Steady(events, book);
      ghost var r0, told := limiter.Repr, Told(nodeInfo, subscriptionList);
      assert LimiterApart() by {
        ReadyFacts(base, others);
      }
      for i := 0 to |events|
        invariant Ready(base, others) && LimiterApart() && fresh(limiter.Repr - r0)
        invariant old(core.FallbackThere()) ==> core.FallbackThere()
        invariant calm ==> Calm(book, nodeInfo, subscriptionList) && UsersInSync(subscriptionList)
        invariant Told(nodeInfo, subscriptionList) == HeardFrom(told, events[..i])
      {
        assert events[..i + 1][..i] == events[..i];
        ghost var r1 := limiter.Repr;
        ok := Handle(events[i], base, others, book);
        if !ok {
          return false;
        }
        assert limiter.Repr - r0 <= (limiter.Repr - r1) + (r1 - r0);
      }
      assert events[..|events|] == events;
      ServesIfReady(base, others);
      ok := true;
    }
  }

  /** Traffic and reports do not change what an entry lists. */
  ghost predicate SameListing(a: LimiterSpec.InboundView, b: LimiterSpec.InboundView) {
    b.tag == a.tag && b.nodeLimit == a.nodeLimit && b.global == a.global && b.subs == a.subs
  }

  lemma SameListingCurrent(a: LimiterSpec.InboundView, b: LimiterSpec.InboundView, tag: string, speed: uint64,
                           redis: bool, list: seq<Subscription>)
    requires SameListing(a, b) && Current(a, tag, speed, redis, list)
    ensures Current(b, tag, speed, redis, list)
  {
  }

  // Tags with owners.

  ghost predicate OwnedNode(owner: Owner, me: int, n: NodeInfo) {
    var tag := NodeTag(n);
    owner(tag) == me && owner(BlackholeTag(tag)) == me && owner(DefaultTag(tag)) == me
  }

  lemma OwnedFootprint(owner: Owner, me: int, users: UserMap, n: NodeInfo, tag: string, relay: Option<RelayInstall>,
                       relayFirst: bool)
    requires owner(tag) == me && owner(BlackholeTag(tag)) == me && owner(DefaultTag(tag)) == me
    requires relay.Some? ==> forall s :: s in relay.value.list ==> owner(SubTag(relay.value.tag, s.id)) == me
    ensures OwnedBy(owner, me, Own(users, n, tag, relay, relayFirst))
  {
    hide RelayOuts, RelayRules, BlackholeTag, DefaultTag, MainRules;
    MainRuleTags(n, tag);
    if relay.Some? {
      var r := relay.value;
      RelayTagsOfList(r.info, r.tag, r.bound, r.list);
      forall t | t in SubTags(r.tag, r.list) ensures owner(t) == me {
        var s :| s in r.list && t == SubTag(r.tag, s.id);
      }
    }
  }

  ghost predicate OwnedRelay(owner: Owner, me: int, r: RelayNodeInfo, list: seq<Subscription>) {
    forall s :: s in list ==> owner(SubTag(RelayTagOf(r), s.id)) == me
  }

  /** A default outbound of others stays; otherwise there is none, or one of this
      controller's. */
  ghost predicate Minds(owner: Owner, me: int, before: Option<string>, after: Option<string>) {
    if before.Some? && owner(before.value) != me then after == before
    else after.Some? ==> owner(after.value) == me
  }

  lemma MindsBoth(owner: Owner, me: int, a: Option<string>, b: Option<string>, c: Option<string>)
    requires Minds(owner, me, a, b) && Minds(owner, me, b, c)
    ensures Minds(owner, me, a, c)
  {
  }

  lemma {:induction false} RelaysMind(owner: Owner, me: int, fallback: Option<string>, r: RelayNodeInfo,
                                      relayTag: string, list: seq<Subscription>)
    requires forall s :: s in list ==> owner(SubTag(relayTag, s.id)) == me
    ensures Minds(owner, me, fallback, RelaysAdded(fallback, r, relayTag, list))
  {
    if list != [] {
      RelaysMind(owner, me, fallback, r, relayTag, list[..|list| - 1]);
    }
  }

  /** A relay and a node whose tags are this controller's. */
  ghost predicate OwnedInstall(owner: Owner, me: int, relay: Option<RelayInstall>) {
    relay.Some? ==> forall s :: s in relay.value.list ==> owner(SubTag(relay.value.tag, s.id)) == me
  }

  lemma DropMinds(owner: Owner, me: int, fallback: Option<string>, relay: Option<RelayInstall>)
    requires OwnedInstall(owner, me, relay)
    ensures Minds(owner, me, fallback, AfterDrop(fallback, relay))
  {
  }

  lemma RebuildMinds(owner: Owner, me: int, fallback: Option<string>, tag: string, tag': string)
    requires owner(tag) == me && owner(BlackholeTag(tag)) == me && owner(BlackholeTag(tag')) == me
    ensures Minds(owner, me, fallback, AfterRebuild(fallback, tag, tag'))
  {
    hide BlackholeTag;
  }

  /** A poll minds the default outbound of others. */
  lemma PollMinds(owner: Owner, me: int, fallback: Option<string>, relay: Option<RelayInstall>, p: Poll, n: NodeInfo,
                  list: seq<Subscription>)
    requires OwnedInstall(owner, me, relay) && OwnedNode(owner, me, n)
    requires Rebuilds(p, n) ==> OwnedNode(owner, me, p.node.value)
    requires Updates(p) && HasRelay(NewNode(p, n)) ==> OwnedRelay(owner, me, p.relay, NewList(p, list))
    ensures Minds(owner, me, fallback, PollFallback(fallback, relay, NodeTag(n), p, n, list))
  {
    hide NodeTag, BlackholeTag, RelayTagOf, SubTag, RelaysAdded, AfterDrop, AfterRebuild, OwnedInstall, Minds;
    assert Minds(owner, me, fallback, fallback) by {
      MindsItself(owner, me, fallback);
    }
    if Updates(p) {
      var dropped := AfterDrop(fallback, relay);
      var relayed := AfterRelay(dropped, NewNode(p, n), p.relay, NewList(p, list));
      DropMinds(owner, me, fallback, relay);
      MindsItself(owner, me, dropped);
      if HasRelay(NewNode(p, n)) {
        RelaysMind(owner, me, dropped, p.relay, RelayTagOf(p.relay), NewList(p, list));
      }
      MindsBoth(owner, me, fallback, dropped, relayed);
      if Rebuilds(p, n) {
        RebuildMinds(owner, me, relayed, NodeTag(n), NodeTag(p.node.value));
        MindsBoth(owner, me, fallback, relayed, AfterRebuild(relayed, NodeTag(n), NodeTag(p.node.value)));
      }
    }
  }

  lemma QuietPoll(fallback: Option<string>, relay: Option<RelayInstall>, tag: string, p: Poll, n: NodeInfo,
                  list: seq<Subscription>)
    requires !Updates(p)
    ensures PollFallback(fallback, relay, tag, p, n, list) == fallback
  {
  }

  lemma MindsItself(owner: Owner, me: int, fallback: Option<string>)
    ensures Minds(owner, me, fallback, fallback)
  {
  }

  // Steady input.

  /** What the panel says of each Id, once and for all: its email and password. */
  type Book = map<int, (string, string)>

  ghost predicate Agrees(book: Book, list: seq<Subscription>) {
    forall s :: s in list ==> s.id in book && book[s.id] == (s.email, s.passwd)
  }

  /** A node that the builders accept and for which every key in the book is usable. */
  ghost predicate Usable(book: Book, n: NodeInfo) {
    && GoodNode(n)
    && forall s: Subscription :: s.id in book && book[s.id] == (s.email, s.passwd) ==> CredentialOf(n, s).Some?
  }

  ghost predicate Calm(book: Book, n: NodeInfo, list: seq<Subscription>) {
    Agrees(book, list) && Usable(book, n)
  }

  ghost predicate SteadyEvent(e: Event, book: Book) {
    e.Polled? ==>
      && (e.poll.node.Fetched? ==> Usable(book, e.poll.node.value))
      && (e.poll.list.Fetched? ==> Agrees(book, e.poll.list.value))
      && GoodRelayInfo(e.poll.relay)
  }

  ghost predicate Steady(events: seq<Event>, book: Book) {
    forall i :: 0 <= i < |events| ==> SteadyEvent(events[i], book)
  }

  lemma SteadyPollIsGood(book: Book, p: Poll, n: NodeInfo, list: seq<Subscription>)
    requires Calm(book, n, list) && SteadyEvent(Polled(p), book)
    ensures GoodPoll(p, n)
    ensures Calm(book, if Rebuilds(p, n) then p.node.value else n, if Updates(p) then NewList(p, list) else list)
  {
    SupportedIfGood(n);
    assert forall s :: s in list ==> CredentialOf(n, s).Some?;
  }

  /** Lists that agree with one book keep every user they share. */
  lemma SteadyListsAgree(book: Book, n: NodeInfo, tag: string, prev: seq<Subscription>, next: seq<Subscription>,
                         leavers: seq<Subscription>)
    requires Agrees(book, prev) && Agrees(book, next) && Usable(book, n) && LeaversOf(prev, next, leavers)
    ensures KeptUsersSame(n, tag, prev, next) && EmailsKept(n, prev, next) && !Strands(n, leavers)
  {
    assert forall s :: s in leavers ==> s in prev && CredentialOf(n, s).Some?;
  }

  /** What happens to a running controller. */
  datatype Event =
    | Polled(poll: Poll)
    | Connected(inbound: string, email: string, ip: string, address: string, cache: L.Cache)
    | Reported(inbound: string)

  /** The node and the list that a controller goes by. */
  datatype Told = Told(node: NodeInfo, list: seq<Subscription>)

  function Hear(told: Told, e: Event): Told {
    if e.Polled? then
      Told(if Rebuilds(e.poll, told.node) then e.poll.node.value else told.node,
           if Updates(e.poll) then NewList(e.poll, told.list) else told.list)
    else told
  }

  /** After an event a controller goes by whatever the poll brought, unless one of its two
      requests failed. */
  lemma HearIs(told: Told, e: Event)
    ensures Hear(told, e).node ==
            if e.Polled? && !e.poll.list.Failed? && e.poll.node.Fetched? then e.poll.node.value else told.node
    ensures Hear(told, e).list ==
            if e.Polled? && !e.poll.node.Failed? && e.poll.list.Fetched? then e.poll.list.value else told.list
  {
  }

  function HeardFrom(told: Told, events: seq<Event>): Told {
    if events == [] then told else Hear(HeardFrom(told, events[..|events| - 1]), events[|events| - 1])
  }

  /** Every poll of the run brings answers that are distinct for what was told before it. */
  ghost predicate Sound(events: seq<Event>, told: Told, base: CoreState, others: set<string>) {
    forall i :: 0 <= i < |events| && events[i].Polled? ==>
      Distinct(events[i].poll, HeardFrom(told, events[..i]).node, HeardFrom(told, events[..i]).list, base, others)
  }

  /** Traffic changes neither the limits nor the list of an entry. */
  lemma AdmitKeepsListing(info: LimiterSpec.InboundView, key: string, ip: string, globalReject: bool)
    ensures SameListing(info, LimiterSpec.AdmitStep(info, key, ip, globalReject).0)
  {
  }

  lemma ReportKeepsListing(info: LimiterSpec.InboundView)
    ensures SameListing(info, LimiterSpec.ReportStep(info))
  {
  }

  lemma SupportedIfGood(n: NodeInfo)
    ensures GoodNode(n) ==> Supported(n)
  {
  }

  lemma NothingIsRelayOnly()
    ensures RelayOnly(None) == NOTHING
  {
  }

  lemma NewEntry<V>(view: map<string, V>, others: set<string>, tag: string, entry: V)
    requires view.Keys == others
    ensures var next := view[tag := entry]; next.Keys == others + {tag} && next[tag] == entry
  {
  }

  lemma ReplacedEntry<V>(view: map<string, V>, others: set<string>, oldTag: string, tag: string, entry: V)
    requires view.Keys == others + {oldTag} && oldTag !in others && tag !in others
    ensures var next := (view - {oldTag})[tag := entry];
            next.Keys == others + {tag} && next[tag] == entry && forall t :: t in others ==> next[t] == view[t]
  {
  }

  /** The answers of a poll that cannot make it fail. */
  ghost predicate GoodPoll(p: Poll, n: NodeInfo) {
    && (Rebuilds(p, n) ==> GoodNode(p.node.value))
    && (Updates(p) && HasRelay(NewNode(p, n)) ==> GoodRelayInfo(p.relay))
    && (Updates(p) && !Rebuilds(p, n) && p.list.Fetched? ==> Supported(n))
  }

  lemma KeptByItself(n: NodeInfo, tag: string, list: seq<Subscription>)
    requires UniqueIds(list)
    ensures KeptUsersSame(n, tag, list, list) && EmailsKept(n, list, list)
  {
    forall s, t | s in list && t in list && s.id == t.id ensures s == t {
      UniqueId(list, s, t);
    }
  }

  lemma AddNothing(n: NodeInfo, tag: string, users: UserMap)
    ensures AddAll(users, BuildUsers(n, tag, [])) == users
  {
  }

  /** No user to add is there already. */
  ghost predicate CleanAdd(n: NodeInfo, tag: string, users: UserMap, added: seq<Subscription>) {
    forall u :: u in BuildUsers(n, tag, added) ==> u.key !in users
  }

  lemma PluginUnsupported(n: NodeInfo)
    ensures Supported(n) ==> n.nodeType != PLUGIN
  {
  }
}
