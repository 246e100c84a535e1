/** What one controller has installed in the core, and how the steps of a poll
    turn one footprint into the next. */
module Footprint {
  import opened Basics
  import opened Decimal
  import opened Api
  import opened UserKey
  import opened Routing
  import opened Node
  import opened Xray
  import Maps

  function MainOuts(tag: string): map<string, Outbound> {
    map[tag := Direct, BlackholeTag(tag) := Blackhole]
  }

  function MainRules(n: NodeInfo, tag: string): seq<Rule> {
    BlockRulesOrNone(n, tag) + DefaultRules(n, tag)
  }

  /** A relay in place; its rules name the inbound `bound`. */
  datatype RelayInstall = RelayInstall(info: RelayNodeInfo, tag: string, bound: string, list: seq<Subscription>)

  function OutsOf(relay: Option<RelayInstall>): map<string, Outbound> {
    if relay.Some? then RelayOuts(relay.value.info, relay.value.tag, relay.value.list) else map[]
  }

  function RulesOf(relay: Option<RelayInstall>): seq<Rule> {
    if relay.Some? then RelayRules(relay.value.info, relay.value.tag, relay.value.bound, relay.value.list) else []
  }

  /** The controller's whole part of the core: one inbound with its users, the
      node's and the relay's outbounds, and their rules, the relay's in front of
      or behind the node's. */
  function Own(users: UserMap, n: NodeInfo, tag: string, relay: Option<RelayInstall>, relayFirst: bool): CoreState {
    CoreState(map[tag := users], MainOuts(tag) + OutsOf(relay),
              if relayFirst then RulesOf(relay) + MainRules(n, tag) else MainRules(n, tag) + RulesOf(relay))
  }

  // Tags never collide within a footprint.

  predicate MainTag(tag: string) {
    tag != "" && tag[0] != 'R'
  }

  predicate RelayTag(tag: string) {
    tag != "" && tag[0] == 'R'
  }

  lemma TagKinds(n: NodeInfo, r: RelayNodeInfo)
    ensures Supported(n) ==> MainTag(NodeTag(n))
    ensures RelayTag(RelayTagOf(r))
  {
    if Supported(n) {
      assert NodeTag(n)[0] == n.nodeType[0];
    }
    assert RelayTagOf(r)[0] == 'R';
  }

  /** Two nodes have one tag exactly if type, port text and Id agree. */
  lemma NodeTagParts(n: NodeInfo, n': NodeInfo)
    requires Supported(n) && Supported(n')
    ensures NodeTag(n) == NodeTag(n') <==>
              n.nodeType == n'.nodeType && n.listeningPort == n'.listeningPort && n.nodeId == n'.nodeId
  {
    if NodeTag(n) == NodeTag(n') {
      var a, b := n.listeningPort + "_" + Dec(n.nodeId), n'.listeningPort + "_" + Dec(n'.nodeId);
      assert NodeTag(n) == n.nodeType + ['_'] + a && NodeTag(n') == n'.nodeType + ['_'] + b;
      hide Dec;
      CutFirst(n.nodeType, '_', a, n'.nodeType, b);
      DecChars(n.nodeId);
      DecChars(n'.nodeId);
      CutLast(n.listeningPort, '_', Dec(n.nodeId), n'.listeningPort, Dec(n'.nodeId));
      DecInjective(n.nodeId, n'.nodeId);
    }
  }

  /** And otherwise none of their tags meet. */
  lemma NodesApart(n: NodeInfo, n': NodeInfo)
    requires Supported(n) && Supported(n') && NodeTag(n) != NodeTag(n')
    ensures var a, b := NodeTag(n), NodeTag(n');
            {a, a + "_blackhole", a + "_default"} !! {b, b + "_blackhole", b + "_default"}
  {
    var a, b := NodeTag(n), NodeTag(n');
    LastIsDigit(n);
    LastIsDigit(n');
    hide NodeTag;
    assert (a + "_blackhole")[|a + "_blackhole"| - 1] == 'e' && (b + "_blackhole")[|b + "_blackhole"| - 1] == 'e';
    assert (a + "_default")[|a + "_default"| - 1] == 't' && (b + "_default")[|b + "_default"| - 1] == 't';
    SameStart(a, b, "_blackhole");
    SameStart(a, b, "_default");
  }

  lemma SameStart(a: string, b: string, end: string)
    ensures a + end == b + end ==> a == b
  {
    assert (a + end)[..|a|] == a && (b + end)[..|b|] == b;
  }

  lemma LastIsDigit(n: NodeInfo)
    ensures NodeTag(n) != "" && IsDigit(NodeTag(n)[|NodeTag(n)| - 1])
  {
    var k := if n.nodeId < 0 then -n.nodeId else n.nodeId;
    NaturalRoundTrip(k);
    assert NodeTag(n)[|NodeTag(n)| - 1] == Natural(k)[|Natural(k)| - 1];
  }

  lemma TagsApart(tag: string, relayTag: string, list: seq<Subscription>)
    requires MainTag(tag) && RelayTag(relayTag)
    ensures tag !in SubTags(relayTag, list) && BlackholeTag(tag) !in SubTags(relayTag, list)
    ensures DefaultTag(tag) !in SubTags(relayTag, list)
    ensures tag != BlackholeTag(tag) && DefaultTag(tag) != BlackholeTag(tag)
  {
    forall s | s in list
      ensures SubTag(relayTag, s.id)[0] == 'R'
    {
    }
    assert tag[0] != 'R' && BlackholeTag(tag)[0] == tag[0] && DefaultTag(tag)[0] == tag[0];
    assert |BlackholeTag(tag)| == |tag| + 10 && |DefaultTag(tag)| == |tag| + 8;
  }

  lemma MainRuleTags(n: NodeInfo, tag: string)
    ensures forall r :: r in MainRules(n, tag) ==> r.ruleTag == BlackholeTag(tag) || r.ruleTag == DefaultTag(tag)
  {
    BlockRuleTags(n, tag);
  }

  predicate GoodRelay(relay: Option<RelayInstall>) {
    relay.Some? ==> RelayTag(relay.value.tag)
  }

  // Steps of a poll, on the controller's own part.

  lemma CutRules(main: seq<Rule>, extra: seq<Rule>, tags: set<string>)
    requires (forall r :: r in main ==> r.ruleTag !in tags) && (forall r :: r in extra ==> r.ruleTag in tags)
    ensures Drop(main + extra, tags) == main && Drop(extra + main, tags) == main
  {
    DropNone(main, tags);
    DropEvery(extra, tags);
    Split(main, extra, tags);
    Split(extra, main, tags);
    assert main + [] == main && [] + main == main;
  }

  lemma RelayAmong(n: NodeInfo, tag: string, relay: RelayInstall)
    requires MainTag(tag) && RelayTag(relay.tag)
    ensures var tags, main, extra := SubTags(relay.tag, relay.list), MainRules(n, tag), RulesOf(Some(relay));
            && Drop(main + extra, tags) == main && Drop(extra + main, tags) == main
            && (MainOuts(tag) + OutsOf(Some(relay))) - tags == MainOuts(tag)
  {
    var tags := SubTags(relay.tag, relay.list);
    RelayTagsOfList(relay.info, relay.tag, relay.bound, relay.list);
    TagsApart(tag, relay.tag, relay.list);
    MainRuleTags(n, tag);
    CutRules(MainRules(n, tag), RulesOf(Some(relay)), tags);
    Maps.Cut(MainOuts(tag), OutsOf(Some(relay)), tags);
  }

  /** Dropping the relay leaves exactly the node's own part. */
  lemma DropRelay(users: UserMap, n: NodeInfo, tag: string, relay: RelayInstall, relayFirst: bool)
    requires MainTag(tag) && RelayTag(relay.tag)
    ensures Do(Do(Own(users, n, tag, Some(relay), relayFirst), DropRelayRules(relay.tag, relay.list)),
               DropRelayOuts(relay.tag, relay.list))
         == Own(users, n, tag, None, false)
  {
    RelayAmong(n, tag, relay);
    Maps.PutOnTop(MainOuts(tag), map[], tag, Direct);
    var main := MainRules(n, tag);
    assert main + [] == main;
  }

  /** With unique Ids no relay tag meets one of the node's own. */
  lemma AddRelayOwn(users: UserMap, n: NodeInfo, tag: string, relay: RelayInstall)
    requires MainTag(tag) && RelayTag(relay.tag)
    requires relay.info.nodeType != PLUGIN && relay.info.builds && UniqueIds(relay.list)
    ensures var op := AddRelay(relay.info, relay.tag, relay.bound, relay.list);
            Can(Own(users, n, tag, None, false), op)
  {
    TagsApart(tag, relay.tag, relay.list);
    MainRuleTags(n, tag);
    forall s | s in relay.list
      ensures SubTag(relay.tag, s.id) !in MainOuts(tag) && !HasRule(MainRules(n, tag), SubTag(relay.tag, s.id))
    {
      assert SubTag(relay.tag, s.id) in SubTags(relay.tag, relay.list);
    }
    assert MainRules(n, tag) + [] == MainRules(n, tag);
  }

  lemma AddRelayGives(users: UserMap, n: NodeInfo, tag: string, relay: RelayInstall)
    ensures Do(Own(users, n, tag, None, false), AddRelay(relay.info, relay.tag, relay.bound, relay.list))
         == Own(users, n, tag, Some(relay), false)
  {
    assert MainOuts(tag) + map[] + OutsOf(Some(relay)) == MainOuts(tag) + OutsOf(Some(relay));
    assert MainRules(n, tag) + [] == MainRules(n, tag);
  }

  /** The relay alone, between removing and adding the node's own part. */
  function RelayOnly(relay: Option<RelayInstall>): CoreState {
    CoreState(map[], OutsOf(relay), RulesOf(relay))
  }

  const NOTHING := CoreState(map[], map[], [])

  lemma FirstRelay(relay: RelayInstall)
    requires relay.info.nodeType != PLUGIN && relay.info.builds && UniqueIds(relay.list)
    ensures Can(NOTHING, AddRelay(relay.info, relay.tag, relay.bound, relay.list))
  {
  }

  lemma FirstRelayGives(relay: RelayInstall)
    ensures Do(NOTHING, AddRelay(relay.info, relay.tag, relay.bound, relay.list)) == RelayOnly(Some(relay))
  {
    var outs: map<string, Outbound> := map[];
    assert outs + OutsOf(Some(relay)) == OutsOf(Some(relay));
    assert [] + RulesOf(Some(relay)) == RulesOf(Some(relay));
  }

  lemma RemoveNode(users: UserMap, n: NodeInfo, tag: string, relay: Option<RelayInstall>, relayFirst: bool)
    requires MainTag(tag) && GoodRelay(relay)
    ensures Can(Own(users, n, tag, relay, relayFirst), RemoveMain(tag))
    ensures Do(Do(Own(users, n, tag, relay, relayFirst), RemoveMain(tag)), RemoveBlock(tag)) == RelayOnly(relay)
  {
    hide MainTag, MainRules, RulesOf, OutsOf, Drop, DefaultTag, BlackholeTag;
    var main, extra, both := MainRules(n, tag), RulesOf(relay), {DefaultTag(tag)} + {BlackholeTag(tag)};
    RelayApart(tag, relay);
    MainRuleTags(n, tag);
    CutRules(extra, main, both);
    DropTwice(main + extra, {DefaultTag(tag)}, {BlackholeTag(tag)});
    DropTwice(extra + main, {DefaultTag(tag)}, {BlackholeTag(tag)});
    CutOwnMaps(users, tag, relay);
  }

  lemma CutOwnMaps(users: UserMap, tag: string, relay: Option<RelayInstall>)
    requires tag !in OutsOf(relay) && BlackholeTag(tag) !in OutsOf(relay)
    ensures map[tag := users] - {tag} == map[]
    ensures MainOuts(tag) + OutsOf(relay) - {tag} - {BlackholeTag(tag)} == OutsOf(relay)
  {
    Maps.OverwriteOnly(tag, users, users);
    Maps.Cut(OutsOf(relay), MainOuts(tag), {tag, BlackholeTag(tag)});
    Maps.CutTwo(MainOuts(tag) + OutsOf(relay), tag, BlackholeTag(tag));
  }

  lemma RelayApart(tag: string, relay: Option<RelayInstall>)
    requires MainTag(tag) && GoodRelay(relay)
    ensures tag !in OutsOf(relay) && BlackholeTag(tag) !in OutsOf(relay)
    ensures forall r :: r in RulesOf(relay) ==> r.ruleTag != DefaultTag(tag) && r.ruleTag != BlackholeTag(tag)
    ensures tag != BlackholeTag(tag) && DefaultTag(tag) != BlackholeTag(tag)
  {
    TagsApart(tag, "R", []);
    if relay.Some? {
      TagsApart(tag, relay.value.tag, relay.value.list);
      RelayTagsOfList(relay.value.info, relay.value.tag, relay.value.bound, relay.value.list);
    }
  }

  lemma AddNode(n: NodeInfo, tag: string, relay: Option<RelayInstall>)
    requires MainTag(tag) && GoodRelay(relay)
    ensures n.nodeType != PLUGIN && n.builds && BlockRules(n.blocking, tag).Ok? ==>
              Can(RelayOnly(relay), AddBlock(n, tag)) && Can(Do(RelayOnly(relay), AddBlock(n, tag)), AddMain(n, tag))
    ensures Do(Do(RelayOnly(relay), AddBlock(n, tag)), AddMain(n, tag)) == Own(map[], n, tag, relay, true)
  {
    RelayApart(tag, relay);
    BlockRuleTags(n, tag);
    var start := RelayOnly(relay);
    assert !HasRule(start.rules, BlackholeTag(tag));
    assert !HasRule(start.rules + BlockRulesOrNone(n, tag), DefaultTag(tag));
    assert start.inbounds[tag := map[]] == map[tag := map[]];
    Maps.PutBelow(OutsOf(relay), tag, Direct, BlackholeTag(tag), Blackhole);
    assert RulesOf(relay) + BlockRulesOrNone(n, tag) + DefaultRules(n, tag) == RulesOf(relay) + MainRules(n, tag);
  }

  // Tags that others do not use.

  /** None of a node's own tags belongs to others. */
  ghost predicate NodeTagsFree(base: CoreState, tag: string) {
    && tag !in base.inbounds && tag !in base.outbounds && BlackholeTag(tag) !in base.outbounds
    && BlackholeTag(tag) !in Tags(base.rules) && DefaultTag(tag) !in Tags(base.rules)
  }

  /** None of the tags that a relay uses for the listed subscriptions belongs to others. */
  ghost predicate RelayTagsFree(base: CoreState, relayTag: string, list: seq<Subscription>) {
    forall s :: s in list ==> SubTag(relayTag, s.id) !in base.outbounds && SubTag(relayTag, s.id) !in Tags(base.rules)
  }

  lemma RelayAvoids(base: CoreState, r: RelayNodeInfo, relayTag: string, mainTag: string, list: seq<Subscription>)
    requires RelayTagsFree(base, relayTag, list)
    ensures Avoids(AddRelay(r, relayTag, mainTag, list), base)
    ensures Avoids(DropRelayRules(relayTag, list), base) && Avoids(DropRelayOuts(relayTag, list), base)
  {
  }

  // The same steps in a shared core.

  lemma RelayDropped(st: CoreState, base: CoreState, users: UserMap, n: NodeInfo, tag: string, relay: RelayInstall,
                     relayFirst: bool)
    requires MainTag(tag) && RelayTag(relay.tag) && RelayTagsFree(base, relay.tag, relay.list)
    requires Extends(st, base, Own(users, n, tag, Some(relay), relayFirst))
    ensures Extends(Do(Do(st, DropRelayRules(relay.tag, relay.list)), DropRelayOuts(relay.tag, relay.list)), base,
                    Own(users, n, tag, None, false))
  {
    var op1, op2 := DropRelayRules(relay.tag, relay.list), DropRelayOuts(relay.tag, relay.list);
    var own := Own(users, n, tag, Some(relay), relayFirst);
    RelayAvoids(base, relay.info, relay.tag, relay.bound, relay.list);
    Frame(st, base, own, op1);
    Frame(Do(st, op1), base, Do(own, op1), op2);
    DropRelay(users, n, tag, relay, relayFirst);
  }

  lemma RelayAdded(st: CoreState, base: CoreState, users: UserMap, n: NodeInfo, tag: string, relay: RelayInstall,
                   relayFirst: bool)
    requires MainTag(tag) && RelayTag(relay.tag) && RelayTagsFree(base, relay.tag, relay.list) && UniqueIds(relay.list)
    requires Extends(st, base, Own(users, n, tag, None, relayFirst))
    ensures relay.info.nodeType != PLUGIN && relay.info.builds ==>
              Can(st, AddRelay(relay.info, relay.tag, relay.bound, relay.list))
    ensures Extends(Do(st, AddRelay(relay.info, relay.tag, relay.bound, relay.list)), base,
                    Own(users, n, tag, Some(relay), false))
  {
    SameOrder(users, n, tag, relayFirst);
    RelayAvoids(base, relay.info, relay.tag, relay.bound, relay.list);
    Frame(st, base, Own(users, n, tag, None, false), AddRelay(relay.info, relay.tag, relay.bound, relay.list));
    if relay.info.nodeType != PLUGIN && relay.info.builds {
      AddRelayOwn(users, n, tag, relay);
    }
    AddRelayGives(users, n, tag, relay);
  }

  lemma SameOrder(users: UserMap, n: NodeInfo, tag: string, first: bool)
    ensures Own(users, n, tag, None, first) == Own(users, n, tag, None, false)
  {
    var main := MainRules(n, tag);
    assert main + [] == main && [] + main == main;
  }

  lemma NodeRemoved(st: CoreState, base: CoreState, users: UserMap, n: NodeInfo, tag: string,
                    relay: Option<RelayInstall>, relayFirst: bool)
    requires MainTag(tag) && NodeTagsFree(base, tag) && GoodRelay(relay)
    requires Extends(st, base, Own(users, n, tag, relay, relayFirst))
    ensures Can(st, RemoveMain(tag))
    ensures Extends(Do(Do(st, RemoveMain(tag)), RemoveBlock(tag)), base, RelayOnly(relay))
  {
    var own := Own(users, n, tag, relay, relayFirst);
    Frame(st, base, own, RemoveMain(tag));
    Frame(Do(st, RemoveMain(tag)), base, Do(own, RemoveMain(tag)), RemoveBlock(tag));
    RemoveNode(users, n, tag, relay, relayFirst);
  }

  lemma NodeAdded(st: CoreState, base: CoreState, n: NodeInfo, tag: string, relay: Option<RelayInstall>)
    requires MainTag(tag) && NodeTagsFree(base, tag) && GoodRelay(relay)
    requires Extends(st, base, RelayOnly(relay))
    ensures n.nodeType != PLUGIN && n.builds && BlockRules(n.blocking, tag).Ok? ==>
              Can(st, AddBlock(n, tag)) && Can(Do(st, AddBlock(n, tag)), AddMain(n, tag))
    ensures Extends(Do(Do(st, AddBlock(n, tag)), AddMain(n, tag)), base, Own(map[], n, tag, relay, true))
  {
    Frame(st, base, RelayOnly(relay), AddBlock(n, tag));
    Frame(Do(st, AddBlock(n, tag)), base, Do(RelayOnly(relay), AddBlock(n, tag)), AddMain(n, tag));
    AddNode(n, tag, relay);
  }

  lemma FirstRelayAdded(st: CoreState, base: CoreState, relay: RelayInstall)
    requires RelayTagsFree(base, relay.tag, relay.list) && UniqueIds(relay.list) && Extends(st, base, NOTHING)
    ensures relay.info.nodeType != PLUGIN && relay.info.builds ==>
              Can(st, AddRelay(relay.info, relay.tag, relay.bound, relay.list))
    ensures Extends(Do(st, AddRelay(relay.info, relay.tag, relay.bound, relay.list)), base, RelayOnly(Some(relay)))
  {
    RelayAvoids(base, relay.info, relay.tag, relay.bound, relay.list);
    Frame(st, base, NOTHING, AddRelay(relay.info, relay.tag, relay.bound, relay.list));
    if relay.info.nodeType != PLUGIN && relay.info.builds {
      FirstRelay(relay);
    }
    FirstRelayGives(relay);
  }

  /** Whatever happens to the users of the inbound, the rest of the footprint stays. */
  lemma UsersChanged(st: CoreState, base: CoreState, users: UserMap, n: NodeInfo, tag: string,
                     relay: Option<RelayInstall>, relayFirst: bool,
                     users': UserMap)
    requires NodeTagsFree(base, tag) && Extends(st, base, Own(users, n, tag, relay, relayFirst))
    ensures tag in st.inbounds && st.inbounds[tag] == users
    ensures Extends(st.(inbounds := st.inbounds[tag := users']), base, Own(users', n, tag, relay, relayFirst))
  {
    SetInbound(st, base, Own(users, n, tag, relay, relayFirst), tag, users');
    Maps.OverwriteOnly(tag, users, users');
  }

  // What the outbounds are.

  /** The relay outbound of a subscription, in the terms of the panel: its own key to the
      relay's server, or none if the subscription has no usable key. */
  ghost predicate RelaysFor(relay: RelayInstall, outs: map<string, Outbound>, s: Subscription) {
    var tag := relay.tag + "_" + Dec(s.id);
    exists key ::
      && RelayAccount(relay.info, s, key)
      && match key
         case None => tag !in outs
         case Some(k) => tag in outs && outs[tag] == Relay(relay.info, s.id, s.email, k)
  }

  lemma {:induction false} RelayOutsAre(relay: RelayInstall, list: seq<Subscription>)
    requires UniqueIds(list)
    ensures forall s :: s in list ==> RelaysFor(relay, RelayOuts(relay.info, relay.tag, list), s)
  {
    if list != [] {
      var init, last := list[..|list| - 1], list[|list| - 1];
      RelayOutsAre(relay, init);
      assert list == init + [last];
      forall s | s in list ensures RelaysFor(relay, RelayOuts(relay.info, relay.tag, list), s) {
        RelayOutsStep(relay, init, last, s);
      }
    }
  }

  lemma RelayOutsStep(relay: RelayInstall, init: seq<Subscription>, last: Subscription, s: Subscription)
    requires UniqueIds(init + [last]) && s in init + [last]
    requires s in init ==> RelaysFor(relay, RelayOuts(relay.info, relay.tag, init), s)
    ensures RelaysFor(relay, RelayOuts(relay.info, relay.tag, init + [last]), s)
  {
    hide RelayAccount, RelayKeyOf;
    assert (init + [last])[..|init|] == init;
    RelayKeyIs(relay.info, last);
    forall t | t in init ensures SubTag(relay.tag, t.id) != SubTag(relay.tag, last.id) {
      var i :| 0 <= i < |init| && init[i] == t;
      assert (init + [last])[i].id != (init + [last])[|init|].id;
      if SubTag(relay.tag, t.id) == SubTag(relay.tag, last.id) {
        SubTagInjective(relay.tag, t.id, last.id);
      }
    }
    RelayTagsOfList(relay.info, relay.tag, "", init);
    assert SubTag(relay.tag, last.id) !in SubTags(relay.tag, init);
  }

  lemma MainOutsAre(st: CoreState, base: CoreState, users: UserMap, n: NodeInfo, tag: string,
                    relay: Option<RelayInstall>, relayFirst: bool)
    requires Extends(st, base, Own(users, n, tag, relay, relayFirst)) && MainTag(tag) && GoodRelay(relay)
    ensures tag in st.outbounds && st.outbounds[tag] == Direct
    ensures tag + "_blackhole" in st.outbounds && st.outbounds[tag + "_blackhole"] == Blackhole
  {
    hide RelayTag, OutsOf, RulesOf, MainRules, Drop, Keep;
    RelayApart(tag, relay);
    assert tag in MainOuts(tag) && BlackholeTag(tag) in MainOuts(tag);
  }

  lemma RelaysInCore(st: CoreState, base: CoreState, users: UserMap, n: NodeInfo, tag: string,
                     relay: RelayInstall, relayFirst: bool, s: Subscription)
    requires Extends(st, base, Own(users, n, tag, Some(relay), relayFirst)) && MainTag(tag) && RelayTag(relay.tag)
    requires UniqueIds(relay.list) && RelayTagsFree(base, relay.tag, relay.list) && s in relay.list
    ensures RelaysFor(relay, st.outbounds, s)
  {
    hide RelayTag, MainTag, RelayOuts, RulesOf, MainRules, Drop, Keep, RelayAccount;
    RelayOutsAre(relay, relay.list);
    TagsApart(tag, relay.tag, relay.list);
    var t := SubTag(relay.tag, s.id);
    assert t in SubTags(relay.tag, relay.list);
    var outs := RelayOuts(relay.info, relay.tag, relay.list);
    assert t in st.outbounds <==> t in outs;
    assert t in outs ==> st.outbounds[t] == outs[t];
    hide Extends, Own;
  }

  // Own rules lead to own outbounds.

  lemma {:induction false} RelayRulesLead(r: RelayNodeInfo, relayTag: string, bound: string, list: seq<Subscription>)
    ensures forall rule :: rule in RelayRules(r, relayTag, bound, list) ==>
              rule.outboundTag in RelayOuts(r, relayTag, list)
  {
    hide RelayKeyOf, SubTag;
    if list != [] {
      RelayRulesLead(r, relayTag, bound, list[..|list| - 1]);
    }
  }

  lemma MainRulesLead(n: NodeInfo, tag: string)
    ensures forall r :: r in MainRules(n, tag) ==> r.outboundTag in MainOuts(tag)
  {
  }

  lemma OwnRulesLead(users: UserMap, n: NodeInfo, tag: string, relay: Option<RelayInstall>, relayFirst: bool)
    ensures var own := Own(users, n, tag, relay, relayFirst);
            forall r :: r in own.rules ==> r.outboundTag in own.outbounds
  {
    hide MainRules, MainOuts, RelayRules, RelayOuts;
    MainRulesLead(n, tag);
    if relay.Some? {
      RelayRulesLead(relay.value.info, relay.value.tag, relay.value.bound, relay.value.list);
    }
  }

  /** Traffic that no rule of others matches takes an own outbound or none. */
  lemma OwnRoute(m: Matchers, st: CoreState, base: CoreState, own: CoreState, c: Context)
    requires Extends(st, base, own) && forall r :: r in base.rules ==> !Matches(m, r, c)
    requires forall r :: r in own.rules ==> r.outboundTag in own.outbounds
    ensures var route := PickRoute(m, st.rules, c);
            route.Some? ==> route.value in own.outbounds && route.value in st.outbounds
  {
    PickFrom(m, st.rules, c);
    DropElements(st.rules, Tags(base.rules));
    forall r | r in st.rules && r.ruleTag in Tags(base.rules) ensures !Matches(m, r, c) {
      assert r in Keep(st.rules, Tags(base.rules));
    }
    if PickRoute(m, st.rules, c).Some? {
      var r :| r in st.rules && Matches(m, r, c) && PickRoute(m, st.rules, c) == Some(r.outboundTag);
      assert r in own.rules;
    }
  }

  // Routing of a node without relay.

  /** First-match routing of a footprint without relay: the node's blocking rule
      comes first, then its default rule. */
  lemma RouteOfNode(m: Matchers, st: CoreState, base: CoreState, users: UserMap, n: NodeInfo, tag: string,
                    relayFirst: bool, c: Context)
    requires Extends(st, base, Own(users, n, tag, None, relayFirst)) && BlockRules(n.blocking, tag).Ok?
    requires n.relayType == 0 || n.relayNodeId == 0
    requires c.inboundTag == tag && forall r :: r in base.rules ==> !Matches(m, r, c)
    ensures PickRoute(m, st.rules, c) == Some(if Blocks(n.blocking, m, c) then tag + "_blackhole" else tag)
  {
    hide Blocks;
    var main := MainRules(n, tag);
    assert [] + main == main && main + [] == main;
    DropElements(st.rules, Tags(base.rules));
    forall r | r in st.rules && r.ruleTag in Tags(base.rules) ensures !Matches(m, r, c) {
      assert r in Keep(st.rules, Tags(base.rules));
    }
    BlockedOrDefault(m, st.rules, Tags(base.rules), n.blocking, tag, c);
  }

  // Routing of a relayed node.

  lemma RelayRuleNames(m: Matchers, bound: string, relayTag: string, s: Subscription, c: Context)
    requires Matches(m, RelayRule(bound, relayTag, s.email, s.id), c)
    ensures c.inboundTag == bound && c.user == Key(bound, s.email, s.id)
  {
    assert c.user in [Key(bound, s.email, s.id)];
  }

  /** The relay's rules alone send a relayed user's traffic to that user's relay
      outbound if they were built for its inbound, and match nothing otherwise. */
  lemma RelayRulesPick(m: Matchers, relay: RelayInstall, tag: string, s: Subscription, c: Context)
    requires UniqueIds(relay.list) && s in relay.list && RelayKeyOf(relay.info, s).Some?
    requires c.inboundTag == tag && c.user == Key(tag, s.email, s.id)
    ensures PickRoute(m, RulesOf(Some(relay)), c) == if relay.bound == tag then Some(SubTag(relay.tag, s.id)) else None
  {
    hide RelayKeyOf, RelayRules;
    var rules := RulesOf(Some(relay));
    RelayRulesAre(relay.info, relay.tag, relay.bound, relay.list);
    forall r | r in rules && Matches(m, r, c) ensures relay.bound == tag && r.outboundTag == SubTag(relay.tag, s.id) {
      var t :| t in relay.list && r == RelayRule(relay.bound, relay.tag, t.email, t.id);
      assert Matches(m, RelayRule(relay.bound, relay.tag, t.email, t.id), c);
      RelayRuleNames(m, relay.bound, relay.tag, t, c);
      KeyInjective(tag, s.email, s.id, t.email, t.id);
    }
    PickAgreed(m, rules, c, SubTag(relay.tag, s.id));
    RelayRuleMatches(m, relay.bound, relay.tag, s.email, s.id, tag, c);
    assert RelayRule(relay.bound, relay.tag, s.email, s.id) in rules;
  }

  lemma {:induction false} RelayRulesAre(r: RelayNodeInfo, relayTag: string, bound: string, list: seq<Subscription>)
    ensures forall s :: s in list && RelayKeyOf(r, s).Some? ==>
              RelayRule(bound, relayTag, s.email, s.id) in RelayRules(r, relayTag, bound, list)
    ensures forall rule :: rule in RelayRules(r, relayTag, bound, list) ==>
              exists s :: s in list && RelayKeyOf(r, s).Some? && rule == RelayRule(bound, relayTag, s.email, s.id)
  {
    hide RelayRule, RelayKeyOf;
    if list != [] {
      var init, last := list[..|list| - 1], list[|list| - 1];
      RelayRulesAre(r, relayTag, bound, init);
      assert list == init + [last];
      forall rule | rule in RelayRules(r, relayTag, bound, list)
        ensures exists s :: s in list && RelayKeyOf(r, s).Some? && rule == RelayRule(bound, relayTag, s.email, s.id)
      {
        if rule in RelayRules(r, relayTag, bound, init) {
          var s :| s in init && RelayKeyOf(r, s).Some? && rule == RelayRule(bound, relayTag, s.email, s.id);
          assert s in list;
        } else {
          assert last in list && rule == RelayRule(bound, relayTag, last.email, last.id);
        }
      }
    }
  }

  /** Where a relayed user's traffic goes: to its relay outbound if the relay was
      installed for the inbound's tag, nowhere in particular otherwise; and a
      blocking rule that matches wins exactly if no such relay rule precedes it. */
  lemma RouteOfRelayed(m: Matchers, st: CoreState, base: CoreState, users: UserMap, n: NodeInfo, tag: string,
                       relay: RelayInstall, relayFirst: bool, s: Subscription, c: Context)
    requires Extends(st, base, Own(users, n, tag, Some(relay), relayFirst)) && n.relayType == 1 && n.relayNodeId > 0
    requires UniqueIds(relay.list) && s in relay.list && RelayKeyOf(relay.info, s).Some?
    requires c.inboundTag == tag && c.user == Key(tag, s.email, s.id)
    requires forall r :: r in base.rules ==> !Matches(m, r, c)
    requires BlockRules(n.blocking, tag).Ok?
    ensures var blocked := Blocks(n.blocking, m, c);
            PickRoute(m, st.rules, c) ==
              if relay.bound == tag && (relayFirst || !blocked) then Some(SubTag(relay.tag, s.id))
              else if blocked then Some(tag + "_blackhole")
              else None
  {
    hide Blocks;
    var main, extra := MainRules(n, tag), RulesOf(Some(relay));
    assert main == BlockRulesOrNone(n, tag);
    RelayRulesPick(m, relay, tag, s, c);
    PickAppend(m, main, extra, c);
    PickAppend(m, extra, main, c);
    BlockPick(m, n, tag, c);
    DropElements(st.rules, Tags(base.rules));
    forall r | r in st.rules && r.ruleTag in Tags(base.rules) ensures !Matches(m, r, c) {
      assert r in Keep(st.rules, Tags(base.rules));
    }
    PickIgnoring(m, st.rules, Tags(base.rules), c);
  }

  lemma BlockPick(m: Matchers, n: NodeInfo, tag: string, c: Context)
    requires BlockRules(n.blocking, tag).Ok? && c.inboundTag == tag
    ensures PickRoute(m, BlockRulesOrNone(n, tag), c) ==
            if Blocks(n.blocking, m, c) then Some(tag + "_blackhole") else None
  {
    var block := BlockRulesOrNone(n, tag);
    BlockRulesAre(n.blocking, tag);
    BlockingRuleBlocks(n.blocking, tag, block, m, c);
    hide Blocks;
    if block != [] {
      assert block[1..] == [];
    }
  }

  // Routing of a node with neither.

  lemma RouteOfStranded(m: Matchers, st: CoreState, base: CoreState, users: UserMap, n: NodeInfo, tag: string,
                        relayFirst: bool, c: Context)
    requires Extends(st, base, Own(users, n, tag, None, relayFirst)) && n.relayType != 0 && n.relayNodeId != 0
    requires BlockRules(n.blocking, tag).Ok?
    requires c.inboundTag == tag && forall r :: r in base.rules ==> !Matches(m, r, c)
    ensures PickRoute(m, st.rules, c) == if Blocks(n.blocking, m, c) then Some(tag + "_blackhole") else None
  {
    hide Blocks;
    var main := MainRules(n, tag);
    assert [] + main == main && main + [] == main && main == BlockRulesOrNone(n, tag);
    BlockPick(m, n, tag, c);
    DropElements(st.rules, Tags(base.rules));
    forall r | r in st.rules && r.ruleTag in Tags(base.rules) ensures !Matches(m, r, c) {
      assert r in Keep(st.rules, Tags(base.rules));
    }
    PickIgnoring(m, st.rules, Tags(base.rules), c);
  }
}
