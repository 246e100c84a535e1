/** Routing rules: the three rule builders of `node/router.go` and the
    first-match choice of an outbound. */
module Routing {
  import opened Basics
  import opened Decimal
  import opened PortList
  import opened UserKey

  /** `builds` says whether xray accepts a rule with these domains, addresses and
      protocols; it does not matter when there is no rule to build. */
  datatype BlockingRules = BlockingRules(domain: seq<string>, ip: seq<string>, port: string, protocol: seq<string>,
                                         builds: bool)

  /** A field rule; an empty list puts no condition on its field. */
  datatype Rule = Rule(
    ruleTag: string, outboundTag: string,
    inboundTags: seq<string>, users: seq<string>,
    domains: seq<string>, ips: seq<string>, ports: seq<PortRange>, protocols: seq<string>)

  // Builders.

  function BlackholeTag(tag: string): string {
    tag + "_blackhole"
  }

  function DefaultTag(tag: string): string {
    tag + "_default"
  }

  function SubTag(relayTag: string, id: int): string {
    relayTag + "_" + Dec(id)
  }

  lemma SubTagInjective(relayTag: string, id: int, id': int)
    requires SubTag(relayTag, id) == SubTag(relayTag, id')
    ensures id == id'
  {
    assert SubTag(relayTag, id)[|relayTag| + 1..] == Dec(id);
    assert SubTag(relayTag, id')[|relayTag| + 1..] == Dec(id');
    DecInjective(id, id');
  }

  function DefaultRule(tag: string): Rule {
    Rule(DefaultTag(tag), tag, [tag], [], [], [], [], [])
  }

  function RelayRule(tag: string, relayTag: string, email: string, id: int): Rule {
    Rule(SubTag(relayTag, id), SubTag(relayTag, id), [tag], [Key(tag, email, id)], [], [], [], [])
  }

  predicate HasPorts(b: BlockingRules) {
    b.port != "" && b.port != "0"
  }

  predicate HasBlockingRules(b: BlockingRules) {
    HasPorts(b) || b.domain != [] || b.ip != [] || b.protocol != []
  }

  /** `RouterBuilder`: no rule, or one rule that leads to the blackhole. A rule that
      xray refuses is an error without an offending port text. */
  function BlockRules(b: BlockingRules, tag: string): Parsed<seq<Rule>> {
    if !HasBlockingRules(b) then Ok([])
    else
      match (if HasPorts(b) then Parse(b.port) else Ok([]))
      case Invalid(text) => Invalid(text)
      case Ok(ports) =>
        if !b.builds then Invalid("")
        else Ok([Rule(BlackholeTag(tag), BlackholeTag(tag), [tag], [], b.domain, b.ip, ports, b.protocol)])
  }

  // First match.

  datatype Context = Context(inboundTag: string, user: string, port: nat, traffic: string)

  /** How xray matches what the model keeps abstract: domains, addresses and protocols of the traffic. */
  datatype Matchers = Matchers(domain: (seq<string>, string) -> bool, ip: (seq<string>, string) -> bool,
                               protocol: (seq<string>, string) -> bool)

  predicate InPorts(ports: seq<PortRange>, port: nat) {
    exists i :: 0 <= i < |ports| && ports[i].from <= port <= ports[i].to
  }

  predicate Matches(m: Matchers, r: Rule, c: Context) {
    && (r.inboundTags == [] || c.inboundTag in r.inboundTags)
    && (r.users == [] || c.user in r.users)
    && (r.domains == [] || m.domain(r.domains, c.traffic))
    && (r.ips == [] || m.ip(r.ips, c.traffic))
    && (r.ports == [] || InPorts(r.ports, c.port))
    && (r.protocols == [] || m.protocol(r.protocols, c.traffic))
  }

  function PickRoute(m: Matchers, rules: seq<Rule>, c: Context): Option<string> {
    if rules == [] then None
    else if Matches(m, rules[0], c) then Some(rules[0].outboundTag)
    else PickRoute(m, rules[1..], c)
  }

  /** Where the dispatcher sends traffic: to the outbound its route names if that is there,
      to the default outbound if it has no route; otherwise the connection is closed. */
  function Exit(m: Matchers, rules: seq<Rule>, outbounds: set<string>, fallback: Option<string>,
                c: Context): Option<string> {
    match PickRoute(m, rules, c)
    case Some(tag) => if tag in outbounds then Some(tag) else None
    case None => fallback
  }

  /** The first rule that matches decides: its outbound, or a closed connection if that is
      not there. Only traffic that no rule matches takes the default outbound. */
  lemma {:induction false} FirstMatchDecides(m: Matchers, rules: seq<Rule>, outbounds: set<string>,
                                             fallback: Option<string>, c: Context, i: nat)
    requires i <= |rules| && forall j :: 0 <= j < i ==> !Matches(m, rules[j], c)
    requires i < |rules| ==> Matches(m, rules[i], c)
    ensures Exit(m, rules, outbounds, fallback, c) ==
            if i == |rules| then fallback
            else if rules[i].outboundTag in outbounds then Some(rules[i].outboundTag)
            else None
  {
    if i > 0 {
      FirstMatchDecides(m, rules[1..], outbounds, fallback, c, i - 1);
    }
  }

  // Rules by tag.

  ghost function Tags(rules: seq<Rule>): set<string> {
    set r | r in rules :: r.ruleTag
  }

  function Drop(rules: seq<Rule>, tags: set<string>): seq<Rule> {
    if rules == [] then []
    else (if rules[0].ruleTag in tags then [] else [rules[0]]) + Drop(rules[1..], tags)
  }

  function Keep(rules: seq<Rule>, tags: set<string>): seq<Rule> {
    if rules == [] then []
    else (if rules[0].ruleTag in tags then [rules[0]] else []) + Keep(rules[1..], tags)
  }

  lemma {:induction false} DropSplit(a: seq<Rule>, b: seq<Rule>, tags: set<string>)
    ensures Drop(a + b, tags) == Drop(a, tags) + Drop(b, tags)
  {
    if a == [] {
      assert a + b == b;
    } else {
      DropSplit(a[1..], b, tags);
      assert (a + b)[1..] == a[1..] + b;
      hide Drop;
      DropFirst(a, tags);
      DropFirst(a + b, tags);
      InTheMiddle(if a[0].ruleTag in tags then [] else [a[0]], Drop(a[1..], tags), Drop(b, tags));
    }
  }

  lemma DropFirst(rules: seq<Rule>, tags: set<string>)
    requires rules != []
    ensures Drop(rules, tags) == (if rules[0].ruleTag in tags then [] else [rules[0]]) + Drop(rules[1..], tags)
  {
  }

  lemma {:induction false} KeepSplit(a: seq<Rule>, b: seq<Rule>, tags: set<string>)
    ensures Keep(a + b, tags) == Keep(a, tags) + Keep(b, tags)
  {
    if a == [] {
      assert a + b == b;
    } else {
      KeepSplit(a[1..], b, tags);
      assert (a + b)[1..] == a[1..] + b;
      var kept := if a[0].ruleTag in tags then [a[0]] else [];
      assert kept + (Keep(a[1..], tags) + Keep(b, tags)) == kept + Keep(a[1..], tags) + Keep(b, tags);
    }
  }

  lemma Split(a: seq<Rule>, b: seq<Rule>, tags: set<string>)
    ensures Drop(a + b, tags) == Drop(a, tags) + Drop(b, tags)
    ensures Keep(a + b, tags) == Keep(a, tags) + Keep(b, tags)
  {
    DropSplit(a, b, tags);
    KeepSplit(a, b, tags);
  }

  lemma {:induction false} DropNone(rules: seq<Rule>, tags: set<string>)
    requires forall r :: r in rules ==> r.ruleTag !in tags
    ensures Drop(rules, tags) == rules && Keep(rules, tags) == []
  {
    if rules != [] {
      DropNone(rules[1..], tags);
    }
  }

  lemma {:induction false} DropEvery(rules: seq<Rule>, tags: set<string>)
    requires forall r :: r in rules ==> r.ruleTag in tags
    ensures Drop(rules, tags) == [] && Keep(rules, tags) == rules
  {
    if rules != [] {
      DropEvery(rules[1..], tags);
    }
  }

  /** Removing some tags commutes with looking at the others. */
  lemma {:induction false} DropCommutes(rules: seq<Rule>, tags: set<string>, base: set<string>)
    requires tags !! base
    ensures Drop(Drop(rules, tags), base) == Drop(Drop(rules, base), tags)
    ensures Keep(Drop(rules, tags), base) == Keep(rules, base)
  {
    if rules != [] {
      var head, rest := [rules[0]], rules[1..];
      DropCommutes(rest, tags, base);
      Split(if head[0].ruleTag in tags then [] else head, Drop(rest, tags), base);
      Split(if head[0].ruleTag in base then [] else head, Drop(rest, base), tags);
      assert head[1..] == [];
    }
  }

  lemma {:induction false} DropTwice(rules: seq<Rule>, a: set<string>, b: set<string>)
    ensures Drop(Drop(rules, a), b) == Drop(rules, a + b)
  {
    if rules != [] {
      DropTwice(rules[1..], a, b);
      Split(if rules[0].ruleTag in a then [] else [rules[0]], Drop(rules[1..], a), b);
      assert [rules[0]][1..] == [];
    }
  }

  lemma {:induction false} DropElements(rules: seq<Rule>, tags: set<string>)
    ensures forall r :: r in Drop(rules, tags) <==> r in rules && r.ruleTag !in tags
    ensures forall r :: r in Keep(rules, tags) <==> r in rules && r.ruleTag in tags
  {
    if rules != [] {
      DropElements(rules[1..], tags);
    }
  }

  // What routing does with the rules of one node.

  /** Rules that do not match can be ignored, wherever they stand. */
  lemma {:induction false} PickIgnoring(m: Matchers, rules: seq<Rule>, base: set<string>, c: Context)
    requires forall r :: r in rules && r.ruleTag in base ==> !Matches(m, r, c)
    ensures PickRoute(m, rules, c) == PickRoute(m, Drop(rules, base), c)
  {
    if rules != [] {
      PickIgnoring(m, rules[1..], base, c);
      if rules[0].ruleTag !in base {
        assert Drop(rules, base)[1..] == Drop(rules[1..], base);
      } else {
        assert Drop(rules, base) == Drop(rules[1..], base);
      }
    }
  }

  /** No rule built for one inbound matches the traffic of another. */
  lemma RulesOfOthers(m: Matchers, tag: string, b: BlockingRules, relayTag: string, email: string, id: int, c: Context)
    requires c.inboundTag != tag
    ensures !Matches(m, DefaultRule(tag), c) && !Matches(m, RelayRule(tag, relayTag, email, id), c)
    ensures BlockRules(b, tag).Ok? ==> forall r :: r in BlockRules(b, tag).value ==> !Matches(m, r, c)
  {
  }

  // What a blocking rule blocks, in the terms of the panel.

  /** Some condition is given. */
  predicate GivesCondition(b: BlockingRules) {
    b.domain != [] || b.ip != [] || b.protocol != [] || (b.port != "" && b.port != "0")
  }

  /** The port text gives no condition, lists no port, or lists a range with the port. */
  ghost predicate PortHits(text: string, port: nat) {
    text == "" || text == "0" ||
    exists rs: seq<PortRange> ::
      PortText(text, rs) && (rs == [] || exists i :: 0 <= i < |rs| && rs[i].from <= port <= rs[i].to)
  }

  /** Something is given, and the traffic meets each condition that is. */
  ghost predicate Blocks(b: BlockingRules, m: Matchers, c: Context) {
    && GivesCondition(b)
    && (b.domain == [] || m.domain(b.domain, c.traffic))
    && (b.ip == [] || m.ip(b.ip, c.traffic))
    && (b.protocol == [] || m.protocol(b.protocol, c.traffic))
    && PortHits(b.port, c.port)
  }

  /** The rules installed for blocking: none, or one with each condition in its field. */
  ghost predicate BlockingRule(b: BlockingRules, tag: string, config: seq<Rule>) {
    if GivesCondition(b) then
      && |config| == 1 && config[0].ruleTag == tag + "_blackhole" && config[0].outboundTag == tag + "_blackhole"
      && config[0].inboundTags == [tag] && config[0].users == []
      && config[0].domains == b.domain && config[0].ips == b.ip && config[0].protocols == b.protocol
      && if b.port == "" || b.port == "0" then config[0].ports == [] else PortText(b.port, config[0].ports)
    else config == []
  }

  /** They can be built exactly if nothing is given, or xray accepts the rule and the port
      text, if it gives a condition, is a port list. */
  lemma BlockRulesAre(b: BlockingRules, tag: string)
    ensures BlockRules(b, tag).Ok? <==>
              !GivesCondition(b) || (b.builds && (b.port == "" || b.port == "0" || exists rs :: PortText(b.port, rs)))
    ensures BlockRules(b, tag).Ok? ==> BlockingRule(b, tag, BlockRules(b, tag).value)
  {
    forall rs ensures Parse(b.port) == Ok(rs) <==> PortText(b.port, rs) {
      AcceptedTexts(b.port, rs);
    }
    hide PortText, Parse;
    if Parse(b.port).Ok? {
      assert PortText(b.port, Parse(b.port).value);
    }
  }

  /** A text is one list only. */
  lemma OnePortText(text: string, rs: seq<PortRange>, rs': seq<PortRange>)
    requires PortText(text, rs) && PortText(text, rs')
    ensures rs == rs'
  {
    AcceptedTexts(text, rs);
    AcceptedTexts(text, rs');
  }

  /** The installed rule matches exactly the traffic that is to be blocked. */
  lemma BlockingRuleBlocks(b: BlockingRules, tag: string, config: seq<Rule>, m: Matchers, c: Context)
    requires BlockingRule(b, tag, config) && c.inboundTag == tag
    ensures (config != [] && Matches(m, config[0], c)) <==> Blocks(b, m, c)
  {
    hide PortText;
    if GivesCondition(b) && b.port != "" && b.port != "0" {
      var ports := config[0].ports;
      forall rs | PortText(b.port, rs) ensures rs == ports {
        OnePortText(b.port, rs, ports);
      }
    }
  }

  /** The blocking rule precedes the default rule: the traffic of a node without
      relay goes to its blackhole exactly when it is to be blocked, and to the node's own
      outbound otherwise. */
  lemma BlockedOrDefault(m: Matchers, rules: seq<Rule>, base: set<string>, b: BlockingRules, tag: string, c: Context)
    requires BlockRules(b, tag).Ok?
    requires Drop(rules, base) == BlockRules(b, tag).value + [DefaultRule(tag)]
    requires forall r :: r in rules && r.ruleTag in base ==> !Matches(m, r, c)
    requires c.inboundTag == tag
    ensures PickRoute(m, rules, c) == Some(if Blocks(b, m, c) then tag + "_blackhole" else tag)
  {
    PickIgnoring(m, rules, base, c);
    BlockRulesAre(b, tag);
    BlockingRuleBlocks(b, tag, BlockRules(b, tag).value, m, c);
    hide Blocks, BlockingRule;
    var block := BlockRules(b, tag).value;
    var own := block + [DefaultRule(tag)];
    if block == [] {
      assert own == [DefaultRule(tag)];
    } else {
      assert own[1..] == [DefaultRule(tag)];
    }
  }

  /** A relay rule matches its user's traffic on an inbound exactly when it was
      built for that inbound. */
  lemma RelayRuleMatches(m: Matchers, bound: string, relayTag: string, email: string, id: int, tag: string, c: Context)
    requires c.inboundTag == tag && c.user == Key(tag, email, id)
    ensures Matches(m, RelayRule(bound, relayTag, email, id), c) <==> bound == tag
  {
  }

  /** If all matching rules lead to one outbound, first match finds it. */
  lemma {:induction false} PickAgreed(m: Matchers, rules: seq<Rule>, c: Context, outbound: string)
    requires forall r :: r in rules && Matches(m, r, c) ==> r.outboundTag == outbound
    ensures PickRoute(m, rules, c) == if exists r :: r in rules && Matches(m, r, c) then Some(outbound) else None
  {
    if rules != [] {
      PickAgreed(m, rules[1..], c, outbound);
    }
  }

  /** A route comes from a rule that matches. */
  lemma {:induction false} PickFrom(m: Matchers, rules: seq<Rule>, c: Context)
    ensures PickRoute(m, rules, c).Some? ==>
              exists r :: r in rules && Matches(m, r, c) && PickRoute(m, rules, c) == Some(r.outboundTag)
  {
    if rules != [] && !Matches(m, rules[0], c) {
      PickFrom(m, rules[1..], c);
    }
  }

  lemma {:induction false} PickAppend(m: Matchers, a: seq<Rule>, b: seq<Rule>, c: Context)
    ensures PickRoute(m, a + b, c) == if PickRoute(m, a, c).Some? then PickRoute(m, a, c) else PickRoute(m, b, c)
  {
    if a == [] {
      assert a + b == b;
    } else {
      PickAppend(m, a[1..], b, c);
      assert (a + b)[1..] == a[1..] + b;
    }
  }

  /** A blocking rule with a port text that lists no port (such as ",") and no
      other condition blocks all traffic of its inbound, and only such a rule does. */
  lemma BlankPortTextBlocksAll(b: BlockingRules, tag: string)
    requires BlockRules(b, tag).Ok? && BlockRules(b, tag).value != []
    ensures (forall m, c: Context :: c.inboundTag == tag ==> Matches(m, BlockRules(b, tag).value[0], c))
       <==> b.domain == [] && b.ip == [] && b.protocol == [] && Parse(b.port) == Ok([])
  {
    var r := BlockRules(b, tag).value[0];
    if b.domain == [] && b.ip == [] && b.protocol == [] && Parse(b.port) == Ok([]) {
      assert r.ports == [];
    } else {
      var m := Matchers((_, _) => false, (_, _) => false, (_, _) => false);
      var top := MaxPort(r.ports);
      assert !Matches(m, r, Context(tag, "", top + 1, ""));
    }
  }

  lemma {:induction false} MaxPort(ports: seq<PortRange>) returns (top: nat)
    ensures forall i :: 0 <= i < |ports| ==> ports[i].to <= top
  {
    top := 0;
    if ports != [] {
      var rest := MaxPort(ports[1..]);
      top := if ports[0].to > rest then ports[0].to else rest;
      assert forall i :: 1 <= i < |ports| ==> ports[i] == ports[1..][i - 1];
    }
  }
}
