/** Two relayed nodes of one process. A relay's tags name the transit server and
    the subscription Ids, not the relaying node, so nodes that use the same
    transit server for a common Id are in each other's way. */
module Transit {
  import opened Basics
  import opened Decimal
  import opened Api
  import opened UserKey
  import opened Routing
  import opened Node
  import opened Xray
  import opened Footprint

  lemma NoUnderscore(n: int)
    ensures '_' !in Dec(n)
  {
    DecChars(n);
  }

  /** The tag of a relayed subscription determines the relay tag and the Id. */
  lemma SubTagParts(relayTag: string, id: int, relayTag': string, id': int)
    ensures SubTag(relayTag, id) == SubTag(relayTag', id') <==> relayTag == relayTag' && id == id'
  {
    if SubTag(relayTag, id) == SubTag(relayTag', id') {
      NoUnderscore(id);
      NoUnderscore(id');
      CutLast(relayTag, '_', Dec(id), relayTag', Dec(id'));
      DecInjective(id, id');
    }
  }

  predicate SameServer(r: RelayNodeInfo, r': RelayNodeInfo) {
    r.nodeType == r'.nodeType && r.listeningPort == r'.listeningPort && r.nodeId == r'.nodeId
  }

  /** Relay tags agree exactly when the transit servers do. */
  lemma RelayTagParts(r: RelayNodeInfo, r': RelayNodeInfo)
    ensures RelayTagOf(r) == RelayTagOf(r') <==> SameServer(r, r')
  {
    if RelayTagOf(r) == RelayTagOf(r') {
      hide Dec;
      var a, b := "Relay_" + r.nodeType, "Relay_" + r'.nodeType;
      NoUnderscore(r.nodeId);
      NoUnderscore(r'.nodeId);
      NoUnderscore(r.listeningPort);
      NoUnderscore(r'.listeningPort);
      CutLast(a + "_" + Dec(r.listeningPort), '_', Dec(r.nodeId), b + "_" + Dec(r'.listeningPort), Dec(r'.nodeId));
      CutLast(a, '_', Dec(r.listeningPort), b, Dec(r'.listeningPort));
      assert a[6..] == r.nodeType && b[6..] == r'.nodeType;
      DecInjective(r.nodeId, r'.nodeId);
      DecInjective(r.listeningPort, r'.listeningPort);
    }
  }

  // What a relay has installed.

  /** The relay has an outbound and a rule for this Id. */
  ghost predicate Installs(relay: RelayInstall, id: int) {
    exists s :: s in relay.list && s.id == id && RelayKeyOf(relay.info, s).Some?
  }

  lemma {:induction false} OutsAre(r: RelayNodeInfo, relayTag: string, list: seq<Subscription>, tag: string)
    ensures tag in RelayOuts(r, relayTag, list) <==>
              exists s :: s in list && RelayKeyOf(r, s).Some? && tag == SubTag(relayTag, s.id)
  {
    hide SubTag, RelayKeyOf;
    if list != [] {
      var init, last := list[..|list| - 1], list[|list| - 1];
      OutsAre(r, relayTag, init, tag);
      assert list == init + [last];
      assert last in list;
      assert forall s :: s in init ==> s in list;
    }
  }

  lemma InstalledTags(relay: RelayInstall, relayTag: string, id: int)
    ensures SubTag(relayTag, id) in OutsOf(Some(relay)) <==> relayTag == relay.tag && Installs(relay, id)
    ensures HasRule(RulesOf(Some(relay)), SubTag(relayTag, id)) <==> relayTag == relay.tag && Installs(relay, id)
  {
    var tag := SubTag(relayTag, id);
    OutsAre(relay.info, relay.tag, relay.list, tag);
    RelayRulesAre(relay.info, relay.tag, relay.bound, relay.list);
    forall s: Subscription ensures tag == SubTag(relay.tag, s.id) <==> relayTag == relay.tag && s.id == id {
      SubTagParts(relayTag, id, relay.tag, s.id);
    }
    if s :| s in relay.list && s.id == id && RelayKeyOf(relay.info, s).Some? {
      assert RelayRule(relay.bound, relay.tag, s.email, s.id) in RulesOf(Some(relay));
    }
  }

  // Adding a relay next to another node's.

  /** Both relays serve a common Id through the same tag. */
  ghost predicate Collide(a: RelayInstall, b: RelayInstall) {
    a.tag == b.tag && exists id :: Installs(a, id) && Installs(b, id)
  }

  ghost predicate GoodInstall(relay: RelayInstall) {
    RelayTag(relay.tag) && relay.info.nodeType != PLUGIN && relay.info.builds && UniqueIds(relay.list)
  }

  lemma InOwn(users: UserMap, n: NodeInfo, tag: string, other: RelayInstall, relayFirst: bool, relayTag: string,
              id: int)
    requires MainTag(tag) && RelayTag(relayTag)
    ensures var own := Own(users, n, tag, Some(other), relayFirst);
            && (SubTag(relayTag, id) in own.outbounds <==> relayTag == other.tag && Installs(other, id))
            && (HasRule(own.rules, SubTag(relayTag, id)) <==> relayTag == other.tag && Installs(other, id))
  {
    hide Installs;
    var own, s := Own(users, n, tag, Some(other), relayFirst), Subscription(id, "", "", 0, 0);
    InstalledTags(other, relayTag, id);
    TagsApart(tag, relayTag, [s]);
    assert s in [s] && SubTag(relayTag, s.id) in SubTags(relayTag, [s]);
    MainRuleTags(n, tag);
    assert forall r :: r in own.rules <==> r in MainRules(n, tag) || r in RulesOf(Some(other));
  }

  /** A relay can be installed next to another node's exactly when they do not collide. */
  lemma RelayNextToRelay(users: UserMap, n: NodeInfo, tag: string, other: RelayInstall, relayFirst: bool,
                         mine: RelayInstall)
    requires MainTag(tag) && GoodInstall(mine)
    ensures Can(Own(users, n, tag, Some(other), relayFirst), AddRelay(mine.info, mine.tag, mine.bound, mine.list))
       <==> !Collide(mine, other)
  {
    hide Own, RelayTag, MainTag, UniqueIds, RelayKeyOf, HasRule;
    var own := Own(users, n, tag, Some(other), relayFirst);
    forall s | s in mine.list && RelayKeyOf(mine.info, s).Some?
      ensures Installs(mine, s.id)
      ensures SubTag(mine.tag, s.id) in own.outbounds <==> mine.tag == other.tag && Installs(other, s.id)
      ensures HasRule(own.rules, SubTag(mine.tag, s.id)) <==> mine.tag == other.tag && Installs(other, s.id)
    {
      InOwn(users, n, tag, other, relayFirst, mine.tag, s.id);
    }
  }

  /** In terms of what the panel said: the second node's relay is refused exactly if
      it uses the same transit server for a subscription Id that both relay. */
  lemma RefusedByServer(users: UserMap, n: NodeInfo, tag: string, relayFirst: bool,
                        r: RelayNodeInfo, bound: string, list: seq<Subscription>,
                        r': RelayNodeInfo, bound': string, list': seq<Subscription>)
    requires MainTag(tag) && r'.nodeType != PLUGIN && r'.builds && UniqueIds(list')
    ensures var other := RelayInstall(r, RelayTagOf(r), bound, list);
            var mine := RelayInstall(r', RelayTagOf(r'), bound', list');
            Can(Own(users, n, tag, Some(other), relayFirst), AddRelay(r', RelayTagOf(r'), bound', list')) <==>
              !(SameServer(r, r') && exists id :: Installs(mine, id) && Installs(other, id))
  {
    var other, mine := RelayInstall(r, RelayTagOf(r), bound, list), RelayInstall(r', RelayTagOf(r'), bound', list');
    TagKinds(n, r');
    RelayTagParts(r, r');
    RelayNextToRelay(users, n, tag, other, relayFirst, mine);
  }

  /** The failing input: one transit server, one subscription, two relaying nodes. */
  lemma SharedServerRefused(users: UserMap, n: NodeInfo, tag: string, relayFirst: bool,
                            r: RelayNodeInfo, bound: string, bound': string, s: Subscription)
    requires MainTag(tag) && RelayKeyOf(r, s).Some?
    ensures !Can(Own(users, n, tag, Some(RelayInstall(r, RelayTagOf(r), bound, [s])), relayFirst),
                 AddRelay(r, RelayTagOf(r), bound', [s]))
  {
    if r.nodeType != PLUGIN && r.builds {
      RefusedByServer(users, n, tag, relayFirst, r, bound, [s], r, bound', [s]);
      assert s in [s];
      assert Installs(RelayInstall(r, RelayTagOf(r), bound, [s]), s.id);
      assert Installs(RelayInstall(r, RelayTagOf(r), bound', [s]), s.id);
    } else {
      assert s in [s];
    }
  }

  // Dropping a relay next to another node's.

  /** Dropping a relay leaves another node's footprint alone exactly if it drops no
      tag that the other node has installed. */
  lemma DropNextToRelay(users: UserMap, n: NodeInfo, tag: string, other: RelayInstall, relayFirst: bool,
                        mine: RelayInstall)
    requires MainTag(tag) && RelayTag(mine.tag)
    ensures var own := Own(users, n, tag, Some(other), relayFirst);
            (Do(Do(own, DropRelayRules(mine.tag, mine.list)), DropRelayOuts(mine.tag, mine.list)) == own
             <==> mine.tag != other.tag || forall s :: s in mine.list ==> !Installs(other, s.id))
  {
    hide Own, Installs, RelayTag, MainTag;
    var own, tags := Own(users, n, tag, Some(other), relayFirst), SubTags(mine.tag, mine.list);
    forall s | s in mine.list
      ensures SubTag(mine.tag, s.id) in own.outbounds <==> mine.tag == other.tag && Installs(other, s.id)
      ensures HasRule(own.rules, SubTag(mine.tag, s.id)) <==> mine.tag == other.tag && Installs(other, s.id)
    {
      InOwn(users, n, tag, other, relayFirst, mine.tag, s.id);
    }
    if s :| s in mine.list && mine.tag == other.tag && Installs(other, s.id) {
      assert SubTag(mine.tag, s.id) in tags && SubTag(mine.tag, s.id) in own.outbounds;
      assert SubTag(mine.tag, s.id) !in own.outbounds - tags;
    } else {
      forall r | r in own.rules ensures r.ruleTag !in tags {
        assert HasRule(own.rules, r.ruleTag);
      }
      DropNone(own.rules, tags);
      assert own.outbounds - tags == own.outbounds;
    }
  }
}
