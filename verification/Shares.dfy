/** Several controllers in one core: what one of them does leaves the parts of
    the others, and their view of what is not theirs, in order. */
module Shares {
  import opened Routing
  import opened Xray

  /** What a core holds apart from one controller's part. */
  ghost function Without(st: CoreState, own: CoreState): CoreState {
    CoreState(st.inbounds - own.inbounds.Keys, st.outbounds - own.outbounds.Keys, Drop(st.rules, Tags(own.rules)))
  }

  /** The part is there, its rules in their order. */
  ghost predicate Contains(st: CoreState, own: CoreState) {
    && (forall t :: t in own.inbounds ==> t in st.inbounds && st.inbounds[t] == own.inbounds[t])
    && (forall t :: t in own.outbounds ==> t in st.outbounds && st.outbounds[t] == own.outbounds[t])
    && Keep(st.rules, Tags(own.rules)) == own.rules
  }

  lemma {:induction false} KeepIsDrop(rules: seq<Rule>, a: set<string>, b: set<string>)
    requires forall r :: r in rules ==> (r.ruleTag in a <==> r.ruleTag !in b)
    ensures Keep(rules, a) == Drop(rules, b)
  {
    if rules != [] {
      KeepIsDrop(rules[1..], a, b);
    }
  }

  lemma {:induction false} KeepKeep(rules: seq<Rule>, a: set<string>, b: set<string>)
    requires b <= a
    ensures Keep(Keep(rules, a), b) == Keep(rules, b)
  {
    if rules != [] {
      KeepKeep(rules[1..], a, b);
      KeepSplit(if rules[0].ruleTag in a then [rules[0]] else [], Keep(rules[1..], a), b);
      assert [rules[0]][1..] == [];
    }
  }

  lemma RestAndPart<V>(m: map<string, V>, part: map<string, V>)
    requires forall t :: t in part ==> t in m && m[t] == part[t]
    ensures m == (m - part.Keys) + part && (m - part.Keys).Keys !! part.Keys
  {
  }

  /** A core that contains a part extends the rest by it. */
  lemma ContainedExtends(st: CoreState, own: CoreState)
    requires Contains(st, own)
    ensures Extends(st, Without(st, own), own)
  {
    hide Keep, Drop;
    var base := Without(st, own);
    DropElements(st.rules, Tags(own.rules));
    forall r | r in st.rules ensures r.ruleTag in Tags(base.rules) <==> r.ruleTag !in Tags(own.rules) {
      if r.ruleTag !in Tags(own.rules) {
        assert r in base.rules;
      }
    }
    KeepIsDrop(st.rules, Tags(base.rules), Tags(own.rules));
    KeepIsDrop(st.rules, Tags(own.rules), Tags(base.rules));
    RestAndPart(st.inbounds, own.inbounds);
    RestAndPart(st.outbounds, own.outbounds);
  }

  /** A rule of an extended core belongs to one side, and so does its tag. */
  lemma SidesOfRules(st: CoreState, base: CoreState, own: CoreState)
    requires Extends(st, base, own)
    ensures forall r :: r in st.rules <==> r in base.rules || r in own.rules
    ensures Tags(base.rules) !! Tags(own.rules)
    ensures forall r :: r in st.rules ==> (r.ruleTag in Tags(base.rules) <==> r.ruleTag !in Tags(own.rules))
  {
    DropElements(st.rules, Tags(base.rules));
    forall r | r in st.rules && r.ruleTag !in Tags(base.rules) ensures r.ruleTag in Tags(own.rules) {
      assert r in own.rules;
    }
  }

  /** And the other way round. */
  lemma ExtendsContains(st: CoreState, base: CoreState, own: CoreState)
    requires Extends(st, base, own)
    ensures Contains(st, own) && Without(st, own) == base
  {
    SidesOfRules(st, base, own);
    KeepIsDrop(st.rules, Tags(base.rules), Tags(own.rules));
    KeepIsDrop(st.rules, Tags(own.rules), Tags(base.rules));
    assert st.inbounds - own.inbounds.Keys == base.inbounds;
    assert st.outbounds - own.outbounds.Keys == base.outbounds;
  }

  /** Neither side of an extended core is special. */
  lemma Symmetric(st: CoreState, base: CoreState, own: CoreState)
    requires Extends(st, base, own)
    ensures Extends(st, own, base)
  {
    SidesOfRules(st, base, own);
    KeepIsDrop(st.rules, Tags(own.rules), Tags(base.rules));
    KeepIsDrop(st.rules, Tags(base.rules), Tags(own.rules));
    assert st.inbounds == own.inbounds + base.inbounds;
    assert st.outbounds == own.outbounds + base.outbounds;
  }

  /** The dual of `Frame`: an operation on tags that are not this controller's leaves
      its part as it is and acts on the rest as if the part were not there. */
  lemma FrameOthers(st: CoreState, base: CoreState, own: CoreState, op: Op)
    requires Extends(st, base, own) && Avoids(op, own)
    ensures Can(st, op) <==> Can(base, op)
    ensures Extends(Do(st, op), Do(base, op), own)
  {
    hide Extends, Can, Do, Avoids;
    Symmetric(st, base, own);
    Frame(st, own, base, op);
    Symmetric(Do(st, op), own, Do(base, op));
  }

  // Tags with owners.

  /** Who may use a tag; tags of the file configuration are nobody's. */
  type Owner = string -> int

  ghost predicate OwnedBy(owner: Owner, i: int, own: CoreState) {
    && (forall t :: t in own.inbounds ==> owner(t) == i)
    && (forall t :: t in own.outbounds ==> owner(t) == i)
    && (forall r :: r in own.rules ==> owner(r.ruleTag) == i)
  }

  ghost predicate NoneOf(owner: Owner, i: int, base: CoreState) {
    && (forall t :: t in base.inbounds ==> owner(t) != i)
    && (forall t :: t in base.outbounds ==> owner(t) != i)
    && (forall r :: r in base.rules ==> owner(r.ruleTag) != i)
  }

  /** Another controller's part lies within what is not this one's. */
  lemma PartOfRest(owner: Owner, st: CoreState, base: CoreState, own: CoreState, a: int, other: CoreState, b: int)
    requires Extends(st, base, own) && OwnedBy(owner, a, own)
    requires Contains(st, other) && OwnedBy(owner, b, other) && a != b
    ensures Contains(base, other)
  {
    SidesOfRules(st, base, own);
    DropElements(st.rules, Tags(other.rules));
    forall r | r in other.rules ensures r.ruleTag in Tags(base.rules) {
      assert r in st.rules && r !in own.rules;
      assert r in base.rules;
    }
    KeepKeep(st.rules, Tags(base.rules), Tags(other.rules));
  }

  lemma PartOfWhole(st: CoreState, base: CoreState, own: CoreState, other: CoreState)
    requires Extends(st, base, own) && Contains(base, other)
    ensures Contains(st, other)
  {
    DropElements(base.rules, Tags(other.rules));
    forall t | t in Tags(other.rules) ensures t in Tags(base.rules) {
      var r :| r in other.rules && r.ruleTag == t;
      assert r in base.rules;
    }
    KeepKeep(st.rules, Tags(base.rules), Tags(other.rules));
  }

  /** One controller goes from `own` to `own'` on its own tags: another one's part
      and the rest around it are in order as before. */
  lemma OthersUndisturbed(owner: Owner, st: CoreState, base: CoreState, own: CoreState, st': CoreState, own': CoreState,
                          a: int, other: CoreState, b: int)
    requires Extends(st, base, own) && Extends(st', base, own')
    requires OwnedBy(owner, a, own) && OwnedBy(owner, a, own') && a != b
    requires Contains(st, other) && OwnedBy(owner, b, other) && NoneOf(owner, b, Without(st, other))
    ensures Contains(st', other) && Extends(st', Without(st', other), other) && NoneOf(owner, b, Without(st', other))
  {
    hide Extends, Contains;
    PartOfRest(owner, st, base, own, a, other, b);
    PartOfWhole(st', base, own', other);
    ContainedExtends(st, other);
    ContainedExtends(st', other);
    RestStaysForeign(owner, st, base, own, st', own', a, other, b);
  }

  lemma RestStaysForeign(owner: Owner, st: CoreState, base: CoreState, own: CoreState, st': CoreState, own': CoreState,
                         a: int, other: CoreState, b: int)
    requires Extends(st, base, own) && Extends(st', base, own')
    requires OwnedBy(owner, a, own') && a != b
    requires Extends(st, Without(st, other), other) && Extends(st', Without(st', other), other)
    requires NoneOf(owner, b, Without(st, other))
    ensures NoneOf(owner, b, Without(st', other))
  {
    SidesOfRules(st, base, own);
    SidesOfRules(st', base, own');
    SidesOfRules(st, Without(st, other), other);
    SidesOfRules(st', Without(st', other), other);
    forall r | r in Without(st', other).rules ensures owner(r.ruleTag) != b {
      assert r in st'.rules && r.ruleTag !in Tags(other.rules);
      if r in base.rules {
        assert r in st.rules;
      }
    }
  }
}
