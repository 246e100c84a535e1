/** The running xray core as the controllers see it: inbounds with their users,
    outbounds, and an ordered rule list. Adding a tag that is present fails;
    removing an absent inbound or user fails; removing an absent outbound or rule
    does nothing. `Extends` and `Frame` let one controller's part of a shared core
    be followed as if it were alone. */
module Xray {
  import opened Basics
  import opened Api
  import opened Routing
  import opened Node
  import Maps

  type UserMap = map<string, Credential>

  datatype Outbound = Direct | Blackhole | Relay(relay: RelayNodeInfo, id: int, email: string, key: RelayKey)

  datatype CoreState = CoreState(inbounds: map<string, UserMap>, outbounds: map<string, Outbound>, rules: seq<Rule>)

  /** What the node and subscription managers do to the core. */
  datatype Op =
    | AddMain(node: NodeInfo, tag: string)
    | RemoveMain(tag: string)
    | AddBlock(node: NodeInfo, tag: string)
    | RemoveBlock(tag: string)
    | AddRelay(relay: RelayNodeInfo, relayTag: string, mainTag: string, list: seq<Subscription>)
    | DropRelayRules(relayTag: string, list: seq<Subscription>)
    | DropRelayOuts(relayTag: string, list: seq<Subscription>)
    | AddUsers(tag: string, users: seq<User>)
    | RemoveUsers(tag: string, keys: seq<string>)

  ghost predicate HasRule(rules: seq<Rule>, tag: string) {
    exists r :: r in rules && r.ruleTag == tag
  }

  function DefaultRules(n: NodeInfo, tag: string): seq<Rule> {
    if HasDefault(n) then [DefaultRule(tag)] else []
  }

  /** The relay outbounds of a list; later subscriptions come last. */
  function RelayOuts(r: RelayNodeInfo, relayTag: string, list: seq<Subscription>): map<string, Outbound> {
    if list == [] then map[] else
      var init, s := list[..|list| - 1], list[|list| - 1];
      match RelayKeyOf(r, s)
      case None => RelayOuts(r, relayTag, init)
      case Some(key) => RelayOuts(r, relayTag, init)[SubTag(relayTag, s.id) := Relay(r, s.id, s.email, key)]
  }

  function RelayRules(r: RelayNodeInfo, relayTag: string, mainTag: string, list: seq<Subscription>): seq<Rule> {
    if list == [] then [] else
      var s := list[|list| - 1];
      RelayRules(r, relayTag, mainTag, list[..|list| - 1]) +
          if RelayKeyOf(r, s).Some? then [RelayRule(mainTag, relayTag, s.email, s.id)] else []
  }

  function SubTags(relayTag: string, list: seq<Subscription>): set<string> {
    set s | s in list :: SubTag(relayTag, s.id)
  }

  function AddAll(users: UserMap, more: seq<User>): UserMap {
    if more == [] then users else AddAll(users, more[..|more| - 1])[more[|more| - 1].key := more[|more| - 1].credential]
  }

  /** What removing these users in turn leaves: the loop stops at the first absent one. */
  function LeftAfter(users: UserMap, keys: seq<string>): UserMap {
    if keys == [] || keys[0] !in users then users else LeftAfter(users - {keys[0]}, keys[1..])
  }

  function KeySet(keys: seq<string>): set<string> {
    set k | k in keys
  }

  predicate DistinctKeys(users: seq<User>) {
    forall i, j :: 0 <= i < j < |users| ==> users[i].key != users[j].key
  }

  predicate DistinctTexts(keys: seq<string>) {
    forall i, j :: 0 <= i < j < |keys| ==> keys[i] != keys[j]
  }

  /** When an operation meets no tag or user that is in its way. */
  ghost predicate Can(st: CoreState, op: Op) {
    match op
    case AddMain(n, tag) =>
      && n.nodeType != PLUGIN && n.builds && tag !in st.inbounds && tag !in st.outbounds
      && (HasDefault(n) ==> !HasRule(st.rules, DefaultTag(tag)))
    case RemoveMain(tag) => tag in st.inbounds
    case AddBlock(n, tag) =>
      && BlockRules(n.blocking, tag).Ok? && BlackholeTag(tag) !in st.outbounds
      && (HasBlockingRules(n.blocking) ==> !HasRule(st.rules, BlackholeTag(tag)))
    case AddRelay(r, relayTag, mainTag, list) =>
      && r.nodeType != PLUGIN && UniqueIds(list)
      && forall s :: s in list && RelayKeyOf(r, s).Some? ==>
           r.builds && SubTag(relayTag, s.id) !in st.outbounds && !HasRule(st.rules, SubTag(relayTag, s.id))
    case AddUsers(tag, users) =>
      && tag in st.inbounds && DistinctKeys(users)
      && forall u :: u in users ==> u.key !in st.inbounds[tag]
    case RemoveUsers(tag, keys) =>
      && tag in st.inbounds && DistinctTexts(keys)
      && forall k :: k in keys ==> k in st.inbounds[tag]
    case _ => true
  }

  ghost function Do(st: CoreState, op: Op): CoreState {
    match op
    case AddMain(n, tag) =>
      CoreState(st.inbounds[tag := map[]], st.outbounds[tag := Direct], st.rules + DefaultRules(n, tag))
    case RemoveMain(tag) =>
      CoreState(st.inbounds - {tag}, st.outbounds - {tag}, Drop(st.rules, {DefaultTag(tag)}))
    case AddBlock(n, tag) =>
      st.(outbounds := st.outbounds[BlackholeTag(tag) := Blackhole], rules := st.rules + BlockRulesOrNone(n, tag))
    case RemoveBlock(tag) =>
      st.(outbounds := st.outbounds - {BlackholeTag(tag)}, rules := Drop(st.rules, {BlackholeTag(tag)}))
    case AddRelay(r, relayTag, mainTag, list) =>
      st.(outbounds := st.outbounds + RelayOuts(r, relayTag, list),
          rules := st.rules + RelayRules(r, relayTag, mainTag, list))
    case DropRelayRules(relayTag, list) => st.(rules := Drop(st.rules, SubTags(relayTag, list)))
    case DropRelayOuts(relayTag, list) => st.(outbounds := st.outbounds - SubTags(relayTag, list))
    case AddUsers(tag, users) =>
      if tag in st.inbounds then st.(inbounds := st.inbounds[tag := AddAll(st.inbounds[tag], users)]) else st
    case RemoveUsers(tag, keys) =>
      if tag in st.inbounds then st.(inbounds := st.inbounds[tag := st.inbounds[tag] - KeySet(keys)]) else st
  }

  // The default outbound.

  /** Adding an outbound while there is no default one makes it the default. */
  function AddedTo(fallback: Option<string>, tag: string): Option<string> {
    if fallback.None? then Some(tag) else fallback
  }

  /** Removing the default outbound leaves none. */
  function CutFrom(fallback: Option<string>, tags: set<string>): Option<string> {
    if fallback.Some? && fallback.value in tags then None else fallback
  }

  function RelaysAdded(fallback: Option<string>, r: RelayNodeInfo, relayTag: string,
                       list: seq<Subscription>): Option<string> {
    if list == [] then fallback else
      var before, s := RelaysAdded(fallback, r, relayTag, list[..|list| - 1]), list[|list| - 1];
      if RelayKeyOf(r, s).Some? then AddedTo(before, SubTag(relayTag, s.id)) else before
  }

  /** The default outbound after an operation. */
  function FallbackAfter(fallback: Option<string>, op: Op): Option<string> {
    match op
    case AddMain(_, tag) => AddedTo(fallback, tag)
    case RemoveMain(tag) => CutFrom(fallback, {tag})
    case AddBlock(_, tag) => AddedTo(fallback, BlackholeTag(tag))
    case RemoveBlock(tag) => CutFrom(fallback, {BlackholeTag(tag)})
    case AddRelay(r, relayTag, _, list) => RelaysAdded(fallback, r, relayTag, list)
    case DropRelayRules(_, _) => fallback
    case DropRelayOuts(relayTag, list) => CutFrom(fallback, SubTags(relayTag, list))
    case AddUsers(_, _) => fallback
    case RemoveUsers(_, _) => fallback
  }

  ghost predicate FirstUsable(r: RelayNodeInfo, list: seq<Subscription>, i: int) {
    0 <= i < |list| && RelayKeyOf(r, list[i]).Some? && forall j :: 0 <= j < i ==> RelayKeyOf(r, list[j]).None?
  }

  /** A relay's first usable subscription becomes the default outbound if there is none. */
  lemma {:induction false} RelaysAddedIs(fallback: Option<string>, r: RelayNodeInfo, relayTag: string,
                                         list: seq<Subscription>)
    ensures fallback.Some? ==> RelaysAdded(fallback, r, relayTag, list) == fallback
    ensures fallback.None? ==>
              match RelaysAdded(fallback, r, relayTag, list)
              case None => forall s :: s in list ==> RelayKeyOf(r, s).None?
              case Some(tag) => exists i :: FirstUsable(r, list, i) && tag == SubTag(relayTag, list[i].id)
  {
    if list != [] {
      var init, last := list[..|list| - 1], list[|list| - 1];
      RelaysAddedIs(fallback, r, relayTag, init);
      assert list == init + [last];
      if fallback.None? && RelaysAdded(fallback, r, relayTag, init).None? && RelayKeyOf(r, last).Some? {
        assert forall j :: 0 <= j < |init| ==> list[j] in init;
        assert FirstUsable(r, list, |init|);
      } else if fallback.None? && RelaysAdded(fallback, r, relayTag, init).Some? {
        var before := RelaysAdded(fallback, r, relayTag, init).value;
        var i :| FirstUsable(r, init, i) && before == SubTag(relayTag, init[i].id);
        assert FirstUsable(r, list, i);
      }
    }
  }

  // One controller's part of a shared core.

  /** `st` is what others installed plus this controller's own part: no tag is
      shared, and others' entries, and the order of their rules, are intact. */
  ghost predicate Extends(st: CoreState, base: CoreState, own: CoreState) {
    && st.inbounds == base.inbounds + own.inbounds && base.inbounds.Keys !! own.inbounds.Keys
    && st.outbounds == base.outbounds + own.outbounds && base.outbounds.Keys !! own.outbounds.Keys
    && Keep(st.rules, Tags(base.rules)) == base.rules
    && Drop(st.rules, Tags(base.rules)) == own.rules
  }

  /** The operation names no tag that belongs to others. */
  ghost predicate Avoids(op: Op, base: CoreState) {
    var rules := Tags(base.rules);
    match op
    case AddMain(_, tag) => tag !in base.inbounds && tag !in base.outbounds && DefaultTag(tag) !in rules
    case RemoveMain(tag) => tag !in base.inbounds && tag !in base.outbounds && DefaultTag(tag) !in rules
    case AddBlock(_, tag) => BlackholeTag(tag) !in base.outbounds && BlackholeTag(tag) !in rules
    case RemoveBlock(tag) => BlackholeTag(tag) !in base.outbounds && BlackholeTag(tag) !in rules
    case AddRelay(_, relayTag, _, list) =>
      SubTags(relayTag, list) !! base.outbounds.Keys && SubTags(relayTag, list) !! rules
    case DropRelayRules(relayTag, list) => SubTags(relayTag, list) !! rules
    case DropRelayOuts(relayTag, list) => SubTags(relayTag, list) !! base.outbounds.Keys
    case AddUsers(tag, _) => tag !in base.inbounds
    case RemoveUsers(tag, _) => tag !in base.inbounds
  }

  lemma HasRuleOwn(st: CoreState, base: CoreState, own: CoreState, tag: string)
    requires Extends(st, base, own) && tag !in Tags(base.rules)
    ensures HasRule(st.rules, tag) <==> HasRule(own.rules, tag)
  {
    DropElements(st.rules, Tags(base.rules));
  }

  lemma AppendRules(st: CoreState, base: CoreState, own: CoreState, more: seq<Rule>)
    requires Extends(st, base, own) && forall r :: r in more ==> r.ruleTag !in Tags(base.rules)
    ensures Extends(st.(rules := st.rules + more), base, own.(rules := own.rules + more))
  {
    Split(st.rules, more, Tags(base.rules));
    DropNone(more, Tags(base.rules));
    assert base.rules + [] == base.rules;
  }

  lemma RemoveRules(st: CoreState, base: CoreState, own: CoreState, tags: set<string>)
    requires Extends(st, base, own) && tags !! Tags(base.rules)
    ensures Extends(st.(rules := Drop(st.rules, tags)), base, own.(rules := Drop(own.rules, tags)))
  {
    DropCommutes(st.rules, tags, Tags(base.rules));
  }

  lemma PutOutbounds(st: CoreState, base: CoreState, own: CoreState, more: map<string, Outbound>)
    requires Extends(st, base, own) && more.Keys !! base.outbounds.Keys
    ensures Extends(st.(outbounds := st.outbounds + more), base, own.(outbounds := own.outbounds + more))
  {
    Maps.OnTop(base.outbounds, own.outbounds, more, {});
  }

  lemma CutOutbounds(st: CoreState, base: CoreState, own: CoreState, less: set<string>)
    requires Extends(st, base, own) && less !! base.outbounds.Keys
    ensures Extends(st.(outbounds := st.outbounds - less), base, own.(outbounds := own.outbounds - less))
  {
    Maps.OnTop(base.outbounds, own.outbounds, map[], less);
  }

  lemma SetInbound(st: CoreState, base: CoreState, own: CoreState, tag: string, users: UserMap)
    requires Extends(st, base, own) && tag !in base.inbounds
    ensures tag in st.inbounds <==> tag in own.inbounds
    ensures tag in own.inbounds ==> st.inbounds[tag] == own.inbounds[tag]
    ensures Extends(st.(inbounds := st.inbounds[tag := users]), base, own.(inbounds := own.inbounds[tag := users]))
    ensures Extends(st.(inbounds := st.inbounds - {tag}), base, own.(inbounds := own.inbounds - {tag}))
  {
    assert st.inbounds[tag := users] == base.inbounds + own.inbounds[tag := users];
    assert st.inbounds - {tag} == base.inbounds + (own.inbounds - {tag});
  }

  lemma {:induction false} RelayTagsOfList(r: RelayNodeInfo, relayTag: string, mainTag: string, list: seq<Subscription>)
    ensures RelayOuts(r, relayTag, list).Keys <= SubTags(relayTag, list)
    ensures forall rule :: rule in RelayRules(r, relayTag, mainTag, list) ==> rule.ruleTag in SubTags(relayTag, list)
  {
    if list != [] {
      var init, s := list[..|list| - 1], list[|list| - 1];
      RelayTagsOfList(r, relayTag, mainTag, init);
      assert list == init + [s];
      assert s in list && SubTag(relayTag, s.id) in SubTags(relayTag, list);
      assert SubTags(relayTag, init) <= SubTags(relayTag, list);
    }
  }

  /** Frame: in a shared core a controller's operations succeed, and change its own
      part, exactly as if it were alone; what others installed stays as it is. */
  lemma Frame(st: CoreState, base: CoreState, own: CoreState, op: Op)
    requires Extends(st, base, own) && Avoids(op, base)
    ensures Can(st, op) <==> Can(own, op)
    ensures Extends(Do(st, op), base, Do(own, op))
  {
    match op
    case AddMain(n, tag) => FrameMain(st, base, own, op);
    case RemoveMain(tag) => FrameMain(st, base, own, op);
    case AddBlock(n, tag) => FrameBlock(st, base, own, op);
    case RemoveBlock(tag) => FrameBlock(st, base, own, op);
    case AddUsers(tag, users) =>
      SetInbound(st, base, own, tag, AddAll(if tag in own.inbounds then own.inbounds[tag] else map[], users));
    case RemoveUsers(tag, keys) =>
      SetInbound(st, base, own, tag, if tag in own.inbounds then own.inbounds[tag] - KeySet(keys) else map[]);
    case _ => FrameRelay(st, base, own, op);
  }

  lemma FrameMain(st: CoreState, base: CoreState, own: CoreState, op: Op)
    requires Extends(st, base, own) && Avoids(op, base) && (op.AddMain? || op.RemoveMain?)
    ensures Can(st, op) <==> Can(own, op)
    ensures Extends(Do(st, op), base, Do(own, op))
  {
    var tag := op.tag;
    HasRuleOwn(st, base, own, DefaultTag(tag));
    SetInbound(st, base, own, tag, map[]);
    if op.AddMain? {
      PutMain(st.(inbounds := st.inbounds[tag := map[]]), base, own.(inbounds := own.inbounds[tag := map[]]), tag,
              DefaultRules(op.node, tag));
    } else {
      CutMain(st.(inbounds := st.inbounds - {tag}), base, own.(inbounds := own.inbounds - {tag}), tag, DefaultTag(tag));
    }
  }

  lemma PutMain(st: CoreState, base: CoreState, own: CoreState, tag: string, rules: seq<Rule>)
    requires Extends(st, base, own) && tag !in base.outbounds
    requires forall r :: r in rules ==> r.ruleTag !in Tags(base.rules)
    ensures Extends(CoreState(st.inbounds, st.outbounds[tag := Direct], st.rules + rules), base,
                    CoreState(own.inbounds, own.outbounds[tag := Direct], own.rules + rules))
  {
    PutOutbounds(st, base, own, map[tag := Direct]);
    Maps.PutOnTop(st.outbounds, map[], tag, Direct);
    Maps.PutOnTop(own.outbounds, map[], tag, Direct);
    AppendRules(st.(outbounds := st.outbounds[tag := Direct]), base, own.(outbounds := own.outbounds[tag := Direct]),
                rules);
  }

  lemma CutMain(st: CoreState, base: CoreState, own: CoreState, tag: string, ruleTag: string)
    requires Extends(st, base, own) && tag !in base.outbounds && ruleTag !in Tags(base.rules)
    ensures Extends(CoreState(st.inbounds, st.outbounds - {tag}, Drop(st.rules, {ruleTag})), base,
                    CoreState(own.inbounds, own.outbounds - {tag}, Drop(own.rules, {ruleTag})))
  {
    CutOutbounds(st, base, own, {tag});
    RemoveRules(st.(outbounds := st.outbounds - {tag}), base, own.(outbounds := own.outbounds - {tag}), {ruleTag});
  }

  function BlockRulesOrNone(n: NodeInfo, tag: string): seq<Rule> {
    if BlockRules(n.blocking, tag).Ok? then BlockRules(n.blocking, tag).value else []
  }

  lemma BlockRuleTags(n: NodeInfo, tag: string)
    ensures forall r :: r in BlockRulesOrNone(n, tag) ==> r.ruleTag == BlackholeTag(tag)
  {
  }

  lemma PutBlock(st: CoreState, base: CoreState, own: CoreState, tag: string, rules: seq<Rule>)
    requires Extends(st, base, own) && tag !in base.outbounds
    requires forall r :: r in rules ==> r.ruleTag !in Tags(base.rules)
    ensures Extends(st.(outbounds := st.outbounds[tag := Blackhole], rules := st.rules + rules), base,
                    own.(outbounds := own.outbounds[tag := Blackhole], rules := own.rules + rules))
  {
    PutOutbounds(st, base, own, map[tag := Blackhole]);
    Maps.PutOnTop(st.outbounds, map[], tag, Blackhole);
    Maps.PutOnTop(own.outbounds, map[], tag, Blackhole);
    AppendRules(st.(outbounds := st.outbounds[tag := Blackhole]), base,
                own.(outbounds := own.outbounds[tag := Blackhole]), rules);
  }

  lemma FrameBlock(st: CoreState, base: CoreState, own: CoreState, op: Op)
    requires Extends(st, base, own) && Avoids(op, base) && (op.AddBlock? || op.RemoveBlock?)
    ensures Can(st, op) <==> Can(own, op)
    ensures Extends(Do(st, op), base, Do(own, op))
  {
    var tag := BlackholeTag(op.tag);
    HasRuleOwn(st, base, own, tag);
    if op.AddBlock? {
      BlockRuleTags(op.node, op.tag);
      PutBlock(st, base, own, tag, BlockRulesOrNone(op.node, op.tag));
    } else {
      CutMain(st, base, own, tag, tag);
    }
  }

  lemma FrameRelay(st: CoreState, base: CoreState, own: CoreState, op: Op)
    requires Extends(st, base, own) && Avoids(op, base) && (op.AddRelay? || op.DropRelayRules? || op.DropRelayOuts?)
    ensures Can(st, op) <==> Can(own, op)
    ensures Extends(Do(st, op), base, Do(own, op))
  {
    var tags := SubTags(op.relayTag, op.list);
    match op
    case AddRelay(r, relayTag, mainTag, list) =>
      RelayTagsOfList(r, relayTag, mainTag, list);
      forall s | s in list
        ensures SubTag(relayTag, s.id) !in base.outbounds
        ensures HasRule(st.rules, SubTag(relayTag, s.id)) <==> HasRule(own.rules, SubTag(relayTag, s.id))
      {
        assert SubTag(relayTag, s.id) in tags;
        HasRuleOwn(st, base, own, SubTag(relayTag, s.id));
      }
      var outs := RelayOuts(r, relayTag, list);
      PutOutbounds(st, base, own, outs);
      AppendRules(st.(outbounds := st.outbounds + outs), base, own.(outbounds := own.outbounds + outs),
                  RelayRules(r, relayTag, mainTag, list));
    case DropRelayRules(_, _) => RemoveRules(st, base, own, tags);
    case DropRelayOuts(_, _) => CutOutbounds(st, base, own, tags);
  }
}
