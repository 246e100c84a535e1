/** `node.Manager`: inbounds, outbounds and rules of a node in the xray core. */
module NodeManager {
  import opened Basics
  import opened Api
  import opened Routing
  import opened Node
  import opened Xray
  import L = Limiter
  import Maps

  /** The xray instance: its handler managers and its router. */
  class Instance {
    var inbounds: map<string, UserMap>
    var outbounds: map<string, Outbound>
    var rules: seq<Rule>
    var fallback: Option<string>   // tag of the default outbound

    /** What the file configuration holds; its first outbound is the default. */
    constructor (config: CoreState, first: Option<string>)
      ensures State() == config && fallback == first
    {
      inbounds, outbounds, rules, fallback := config.inbounds, config.outbounds, config.rules, first;
    }

    ghost function State(): CoreState
      reads this
    {
      CoreState(inbounds, outbounds, rules)
    }

    /** The default outbound is one that is there. */
    ghost predicate FallbackThere()
      reads `outbounds, `fallback
    {
      fallback.Some? ==> fallback.value in outbounds
    }

    method AddInbound(tag: string) returns (ok: bool)
      modifies `inbounds
      ensures ok == (tag !in old(inbounds))
      ensures inbounds == if ok then old(inbounds)[tag := map[]] else old(inbounds)
    {
      ok := tag !in inbounds;
      if ok {
        inbounds := inbounds[tag := map[]];
      }
    }

    method RemoveInbound(tag: string) returns (ok: bool)
      modifies `inbounds
      ensures ok == (tag in old(inbounds)) && inbounds == old(inbounds) - {tag}
    {
      ok := tag in inbounds;
      inbounds := inbounds - {tag};
    }

    method AddOutbound(tag: string, handler: Outbound) returns (ok: bool)
      modifies `outbounds, `fallback
      ensures ok == (tag !in old(outbounds)) && fallback == AddedTo(old(fallback), tag)
      ensures outbounds == if ok then old(outbounds)[tag := handler] else old(outbounds)
      ensures old(FallbackThere()) ==> FallbackThere()
    {
      if fallback == None {
        fallback := Some(tag);
      }
      ok := tag !in outbounds;
      if ok {
        outbounds := outbounds[tag := handler];
      }
    }

    /** Removing an absent outbound is no error, removing the empty tag is. */
    method RemoveOutbound(tag: string) returns (ok: bool)
      modifies `outbounds, `fallback
      ensures ok == (tag != "") && outbounds == if ok then old(outbounds) - {tag} else old(outbounds)
      ensures fallback == if ok then CutFrom(old(fallback), {tag}) else old(fallback)
      ensures old(FallbackThere()) ==> FallbackThere()
    {
      ok := tag != "";
      if ok {
        outbounds := outbounds - {tag};
        if fallback == Some(tag) {
          fallback := None;
        }
      }
    }

    /** Append the rules of a router configuration, none or one here. */
    method AddRule(config: seq<Rule>) returns (ok: bool)
      requires |config| <= 1
      modifies `rules
      ensures ok == (config != [] ==> !HasRule(old(rules), config[0].ruleTag))
      ensures rules == if ok then old(rules) + config else old(rules)
    {
      ok := true;
      if config != [] {
        for i := 0 to |rules|
          invariant ok && rules == old(rules)
          invariant forall j :: 0 <= j < i ==> rules[j].ruleTag != config[0].ruleTag
        {
          if rules[i].ruleTag == config[0].ruleTag {
            return false;
          }
        }
      }
      rules := rules + config;
    }

    /** The user manager of an inbound refuses a user that is present. */
    method AddUser(tag: string, u: User) returns (ok: bool)
      requires tag in inbounds
      modifies `inbounds
      ensures ok == (u.key !in old(inbounds)[tag])
      ensures inbounds == if ok then old(inbounds)[tag := old(inbounds)[tag][u.key := u.credential]] else old(inbounds)
    {
      ok := u.key !in inbounds[tag];
      if ok {
        inbounds := inbounds[tag := inbounds[tag][u.key := u.credential]];
      }
    }

    /** It cannot remove a user that is absent. */
    method RemoveUser(tag: string, key: string) returns (ok: bool)
      requires tag in inbounds
      modifies `inbounds
      ensures ok == (key in old(inbounds)[tag])
      ensures inbounds == if ok then old(inbounds)[tag := old(inbounds)[tag] - {key}] else old(inbounds)
    {
      ok := key in inbounds[tag];
      if ok {
        inbounds := inbounds[tag := inbounds[tag] - {key}];
      }
    }

    method RemoveRule(tag: string) returns (ok: bool)
      modifies `rules
      ensures ok == (tag != "") && rules == if ok then Drop(old(rules), {tag}) else old(rules)
    {
      ok := tag != "";
      if ok {
        rules := Drop(rules, {tag});
      }
    }
  }

  lemma SubTagsStep(relayTag: string, list: seq<Subscription>, i: nat)
    requires i < |list|
    ensures SubTags(relayTag, list[..i + 1]) == SubTags(relayTag, list[..i]) + {SubTag(relayTag, list[i].id)}
  {
    assert list[..i + 1] == list[..i] + [list[i]];
  }

  /** With unique Ids the next relay tag is not among those already installed. */
  lemma NextSubTagFresh(r: RelayNodeInfo, relayTag: string, mainTag: string, list: seq<Subscription>, i: nat)
    requires i < |list| && UniqueIds(list)
    ensures SubTag(relayTag, list[i].id) !in RelayOuts(r, relayTag, list[..i])
    ensures !HasRule(RelayRules(r, relayTag, mainTag, list[..i]), SubTag(relayTag, list[i].id))
  {
    RelayTagsOfList(r, relayTag, mainTag, list[..i]);
    if SubTag(relayTag, list[i].id) in SubTags(relayTag, list[..i]) {
      var s :| s in list[..i] && SubTag(relayTag, s.id) == SubTag(relayTag, list[i].id);
      SubTagInjective(relayTag, s.id, list[i].id);
      assert false;
    }
  }

  /** The relay outbound and rule of a subscription can be added. */
  ghost predicate Free(r: RelayNodeInfo, relayTag: string, s: Subscription, st: CoreState) {
    r.builds && SubTag(relayTag, s.id) !in st.outbounds && !HasRule(st.rules, SubTag(relayTag, s.id))
  }

  /** The core with the relays of these subscriptions on top. */
  ghost function WithRelays(st: CoreState, r: RelayNodeInfo, relayTag: string, mainTag: string,
                            list: seq<Subscription>): CoreState {
    CoreState(st.inbounds, st.outbounds + RelayOuts(r, relayTag, list),
              st.rules + RelayRules(r, relayTag, mainTag, list))
  }

  /** The core with one more relay, if the subscription has a usable key. */
  ghost function OneRelay(st: CoreState, r: RelayNodeInfo, relayTag: string, mainTag: string,
                          s: Subscription): CoreState {
    match RelayKeyOf(r, s)
    case None => st
    case Some(key) =>
      CoreState(st.inbounds, st.outbounds[SubTag(relayTag, s.id) := Relay(r, s.id, s.email, key)],
                st.rules + [RelayRule(mainTag, relayTag, s.email, s.id)])
  }

  /** What one more turn of the loop meets and does. */
  lemma NextRelay(st: CoreState, r: RelayNodeInfo, relayTag: string, mainTag: string, list: seq<Subscription>, i: nat)
    requires i < |list|
    ensures var s, before, after := list[i], WithRelays(st, r, relayTag, mainTag, list[..i]),
                                    WithRelays(st, r, relayTag, mainTag, list[..i + 1]);
            && (UniqueIds(list) ==> Free(r, relayTag, s, before) == Free(r, relayTag, s, st))
            && (Free(r, relayTag, s, before) ==> Free(r, relayTag, s, st))
            && after == OneRelay(before, r, relayTag, mainTag, s)
  {
    hide RelayKeyOf, SubTag, RelayRule;
    assert list[..i + 1][..i] == list[..i];
    if UniqueIds(list) {
      NextSubTagFresh(r, relayTag, mainTag, list, i);
    }
    if RelayKeyOf(r, list[i]).Some? {
      Maps.PutOnTop(st.outbounds, RelayOuts(r, relayTag, list[..i]), SubTag(relayTag, list[i].id),
                    Relay(r, list[i].id, list[i].email, RelayKeyOf(r, list[i]).value));
    }
  }

  lemma NextAdded(fallback: Option<string>, r: RelayNodeInfo, relayTag: string, list: seq<Subscription>, i: nat)
    requires i < |list|
    ensures RelaysAdded(fallback, r, relayTag, list[..i + 1]) ==
            RelaysAdded(RelaysAdded(fallback, r, relayTag, list[..i]), r, relayTag, [list[i]])
  {
    assert list[..i + 1][..i] == list[..i] && [list[i]][..0] == [];
  }

  lemma NoRelays(st: CoreState, fallback: Option<string>, r: RelayNodeInfo, relayTag: string, mainTag: string)
    ensures WithRelays(st, r, relayTag, mainTag, []) == st && RelaysAdded(fallback, r, relayTag, []) == fallback
  {
    Maps.PutOnTop(st.outbounds, map[], "", Direct);
  }

  /** All turns of the loop together. */
  lemma AllFree(st: CoreState, r: RelayNodeInfo, relayTag: string, mainTag: string, list: seq<Subscription>)
    ensures r.nodeType != PLUGIN && UniqueIds(list) ==>
              (Can(st, AddRelay(r, relayTag, mainTag, list)) <==>
               forall i :: 0 <= i < |list| && RelayKeyOf(r, list[i]).Some? ==> Free(r, relayTag, list[i], st))
    ensures WithRelays(st, r, relayTag, mainTag, list) == Do(st, AddRelay(r, relayTag, mainTag, list))
  {
    hide RelayKeyOf, SubTag, RelayRule, UniqueIds;
    assert forall i :: 0 <= i < |list| ==> list[i] in list;
  }

  lemma PluginNever(st: CoreState, r: RelayNodeInfo, relayTag: string, mainTag: string, list: seq<Subscription>)
    requires r.nodeType == PLUGIN
    ensures !Can(st, AddRelay(r, relayTag, mainTag, list))
  {
  }

  class Manager {
    const core: Instance
    const limiter: L.Limiter

    constructor (core: Instance, limiter: L.Limiter)
      ensures this.core == core && this.limiter == limiter
    {
      this.core, this.limiter := core, limiter;
    }

    method AddTag(n: NodeInfo, tag: string) returns (ok: bool)
      modifies core
      ensures ok <==> Can(old(core.State()), AddMain(n, tag))
      ensures ok ==> n.nodeType != PLUGIN
      ensures ok ==> core.State() == Do(old(core.State()), AddMain(n, tag))
      ensures ok ==> core.fallback == FallbackAfter(old(core.fallback), AddMain(n, tag))
      ensures old(core.FallbackThere()) ==> core.FallbackThere()
    {
      if n.nodeType == PLUGIN {
        return false;
      }
      if !n.builds {
        return false;
      }
      ok := core.AddInbound(tag);
      if !ok {
        return false;
      }
      ok := core.AddOutbound(tag, Direct);
      if !ok {
        return false;
      }
      if n.relayType == 0 || n.relayNodeId == 0 {
        ok := core.AddRule([DefaultRule(tag)]);
        if !ok {
          return false;
        }
      } else {
        assert core.rules + [] == core.rules;
      }
    }

    method RemoveTag(tag: string) returns (ok: bool)
      requires tag != ""
      modifies core
      ensures ok <==> Can(old(core.State()), RemoveMain(tag))
      ensures ok ==> core.State() == Do(old(core.State()), RemoveMain(tag))
      ensures ok ==> core.fallback == FallbackAfter(old(core.fallback), RemoveMain(tag))
      ensures old(core.FallbackThere()) ==> core.FallbackThere()
    {
      ok := core.RemoveInbound(tag);
      if !ok {
        return false;
      }
      ok := core.RemoveOutbound(tag);
      ok := core.RemoveRule(DefaultTag(tag));
    }

    method AddRuleTag(n: NodeInfo, tag: string) returns (ok: bool)
      modifies core
      ensures ok <==> Can(old(core.State()), AddBlock(n, tag))
      ensures ok ==> BlockRules(n.blocking, tag).Ok?
      // The rule says what the panel says, condition by condition.
      ensures ok ==>
                && tag + "_blackhole" in core.outbounds && core.outbounds[tag + "_blackhole"] == Blackhole
                && exists config ::
                     BlockingRule(n.blocking, tag, config) && core.rules == old(core.rules) + config
      ensures ok ==> core.State() == Do(old(core.State()), AddBlock(n, tag))
      ensures ok ==> core.fallback == FallbackAfter(old(core.fallback), AddBlock(n, tag))
      ensures old(core.FallbackThere()) ==> core.FallbackThere()
    {
      BlockRulesAre(n.blocking, tag);
      hide BlockingRule;
      ok := core.AddOutbound(BlackholeTag(tag), Blackhole);
      if !ok {
        return false;
      }
      var config := BlockRules(n.blocking, tag);
      if config.Invalid? {
        return false;
      }
      ok := core.AddRule(config.value);
    }

    method RemoveBlockingRules(tag: string) returns (ok: bool)
      modifies core
      ensures ok && core.State() == Do(old(core.State()), RemoveBlock(tag))
      ensures core.fallback == FallbackAfter(old(core.fallback), RemoveBlock(tag))
      ensures old(core.FallbackThere()) ==> core.FallbackThere()
    {
      ok := core.RemoveRule(BlackholeTag(tag));
      ok := core.RemoveOutbound(BlackholeTag(tag));
    }

    /** One turn of the loop: a subscription whose relay key is unusable is skipped. */
    method AddRelayFor(r: RelayNodeInfo, relayTag: string, mainTag: string, s: Subscription) returns (ok: bool)
      modifies core
      ensures ok <==> (RelayKeyOf(r, s).Some? ==> Free(r, relayTag, s, old(core.State())))
      ensures ok ==> core.State() == OneRelay(old(core.State()), r, relayTag, mainTag, s)
      ensures ok ==> core.fallback == RelaysAdded(old(core.fallback), r, relayTag, [s])
      ensures old(core.FallbackThere()) ==> core.FallbackThere()
    {
      assert [s][..0] == [];
      var key := RelayKeyOf(r, s);
      if key.None? {
        return true;
      }
      if !r.builds {
        return false;
      }
      ok := core.AddOutbound(SubTag(relayTag, s.id), Relay(r, s.id, s.email, key.value));
      if !ok {
        return false;
      }
      ok := core.AddRule([RelayRule(mainTag, relayTag, s.email, s.id)]);
    }

    method AddRelayTag(r: RelayNodeInfo, relayTag: string, mainTag: string, list: seq<Subscription>) returns (ok: bool)
      modifies core
      ensures UniqueIds(list) ==> (ok <==> Can(old(core.State()), AddRelay(r, relayTag, mainTag, list)))
      ensures ok ==> core.State() == Do(old(core.State()), AddRelay(r, relayTag, mainTag, list))
      ensures ok ==> core.fallback == FallbackAfter(old(core.fallback), AddRelay(r, relayTag, mainTag, list))
      ensures old(core.FallbackThere()) ==> core.FallbackThere()
    {
      if r.nodeType == PLUGIN {
        PluginNever(core.State(), r, relayTag, mainTag, list);
        return false;
      }
      hide RelayKeyOf, SubTag, RelayRule, UniqueIds, Free, AddedTo, RelaysAdded, WithRelays, OneRelay, Can, Do;
      ghost var st := core.State();
      NoRelays(st, core.fallback, r, relayTag, mainTag);
      AllFree(st, r, relayTag, mainTag, list);
      for i := 0 to |list|
        invariant core.State() == WithRelays(st, r, relayTag, mainTag, list[..i])
        invariant core.fallback == RelaysAdded(old(core.fallback), r, relayTag, list[..i])
        invariant old(core.FallbackThere()) ==> core.FallbackThere()
        invariant forall j :: 0 <= j < i && RelayKeyOf(r, list[j]).Some? ==> Free(r, relayTag, list[j], st)
      {
        NextRelay(st, r, relayTag, mainTag, list, i);
        NextAdded(old(core.fallback), r, relayTag, list, i);
        ok := AddRelayFor(r, relayTag, mainTag, list[i]);
        if !ok {
          return false;
        }
      }
      assert list[..|list|] == list;
      ok := true;
    }

    method RemoveRelayTag(relayTag: string, list: seq<Subscription>) returns (ok: bool)
      modifies core
      ensures ok && core.State() == Do(old(core.State()), DropRelayOuts(relayTag, list))
      ensures core.fallback == FallbackAfter(old(core.fallback), DropRelayOuts(relayTag, list))
      ensures old(core.FallbackThere()) ==> core.FallbackThere()
    {
      assert core.outbounds - {} == core.outbounds;
      for i := 0 to |list|
        invariant core.inbounds == old(core.inbounds) && core.rules == old(core.rules)
        invariant core.outbounds == old(core.outbounds) - SubTags(relayTag, list[..i])
        invariant core.fallback == CutFrom(old(core.fallback), SubTags(relayTag, list[..i]))
        invariant old(core.FallbackThere()) ==> core.FallbackThere()
      {
        SubTagsStep(relayTag, list, i);
        ok := core.RemoveOutbound(SubTag(relayTag, list[i].id));
      }
      assert list[..|list|] == list;
      ok := true;
    }

    method RemoveRelayRules(relayTag: string, list: seq<Subscription>) returns (ok: bool)
      modifies core
      ensures ok && core.State() == Do(old(core.State()), DropRelayRules(relayTag, list))
      ensures core.fallback == FallbackAfter(old(core.fallback), DropRelayRules(relayTag, list))
      ensures old(core.FallbackThere()) ==> core.FallbackThere()
    {
      DropNone(core.rules, SubTags(relayTag, []));
      for i := 0 to |list|
        invariant core.inbounds == old(core.inbounds) && core.outbounds == old(core.outbounds)
        invariant core.fallback == old(core.fallback)
        invariant core.rules == Drop(old(core.rules), SubTags(relayTag, list[..i]))
      {
        SubTagsStep(relayTag, list, i);
        DropTwice(old(core.rules), SubTags(relayTag, list[..i]), {SubTag(relayTag, list[i].id)});
        ok := core.RemoveRule(SubTag(relayTag, list[i].id));
      }
      assert list[..|list|] == list;
      ok := true;
    }
  }
}
