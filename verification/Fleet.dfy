/** All controllers of one process: they share one core and one limiter, and
    their polls, connections and reports interleave. */
module Fleet {
  import opened Basics
  import opened Api
  import opened Node
  import opened Routing
  import opened Xray
  import opened Footprint
  import opened Shares
  import opened Users
  import C = Controller
  import L = Limiter
  import NM = NodeManager
  import OnlineReport
  import SM = SubscriptionManager

  /** What an event at controller `me` may bring: tags that are that controller's own. */
  ghost predicate Lawful(owner: Owner, me: int, e: C.Event, told: C.Told) {
    e.Polled? && C.Updates(e.poll) ==>
      && (C.Rebuilds(e.poll, told.node) ==>
            MainTag(NodeTag(e.poll.node.value)) && C.OwnedNode(owner, me, e.poll.node.value))
      && (e.poll.list.Fetched? ==> UniqueIds(e.poll.list.value))
      && (HasRelay(C.NewNode(e.poll, told.node)) ==>
            C.OwnedRelay(owner, me, e.poll.relay, C.NewList(e.poll, told.list)))
  }

  /** Lawful answers are distinct in a core whose rest uses none of the controller's tags. */
  lemma LawfulIsDistinct(owner: Owner, me: int, e: C.Event, told: C.Told, base: CoreState, others: set<string>)
    requires Lawful(owner, me, e, told) && e.Polled?
    requires NoneOf(owner, me, base) && forall t :: t in others ==> owner(t) != me
    ensures C.Distinct(e.poll, told.node, told.list, base, others)
  {
    hide NodeTag, RelayTagOf, SubTag, BlackholeTag, DefaultTag, MainTag;
    assert forall t :: t in Tags(base.rules) ==> owner(t) != me;
  }

  /** After a lawful event the tags in use are still the controller's own. */
  lemma LawfulKeepsTags(owner: Owner, me: int, e: C.Event, told: C.Told, relay: RelayNodeInfo, relay': RelayNodeInfo)
    requires Lawful(owner, me, e, told) && C.OwnedNode(owner, me, told.node)
    requires HasRelay(told.node) ==> C.OwnedRelay(owner, me, relay, told.list)
    requires HasRelay(C.Hear(told, e).node) ==> relay' == if e.Polled? && C.Updates(e.poll) then e.poll.relay else relay
    ensures C.OwnedNode(owner, me, C.Hear(told, e).node)
    ensures HasRelay(C.Hear(told, e).node) ==> C.OwnedRelay(owner, me, relay', C.Hear(told, e).list)
  {
    hide C.OwnedNode, C.OwnedRelay;
  }

  /** An event and the controller it happens at. */
  type Happening = (nat, C.Event)

  /** What controller j goes by after these events. */
  function HeardAt(j: nat, told: C.Told, events: seq<Happening>): C.Told {
    if events == [] then told else
      var before, last := HeardAt(j, told, events[..|events| - 1]), events[|events| - 1];
      if last.0 == j then C.Hear(before, last.1) else before
  }

  lemma HeardNothing(j: nat, told: C.Told)
    ensures HeardAt(j, told, []) == told
  {
  }

  lemma HeardMore(j: nat, told: C.Told, events: seq<Happening>, k: nat)
    requires k < |events|
    ensures HeardAt(j, told, events[..k + 1]) ==
            if events[k].0 == j then C.Hear(HeardAt(j, told, events[..k]), events[k].1)
              else HeardAt(j, told, events[..k])
  {
    assert events[..k + 1][..k] == events[..k];
  }

  /** Event k at controller j is a poll that brought a list. */
  ghost predicate BringsList(j: nat, events: seq<Happening>, k: int) {
    && 0 <= k < |events| && events[k].0 == j && events[k].1.Polled?
    && !events[k].1.poll.node.Failed? && events[k].1.poll.list.Fetched?
  }

  ghost predicate BringsNode(j: nat, events: seq<Happening>, k: int) {
    && 0 <= k < |events| && events[k].0 == j && events[k].1.Polled?
    && !events[k].1.poll.list.Failed? && events[k].1.poll.node.Fetched?
  }

  /** A controller goes by the last list that its polls brought. */
  lemma {:induction false} ListHeard(j: nat, told: C.Told, events: seq<Happening>, k: nat)
    requires BringsList(j, events, k) && forall l :: k < l < |events| ==> !BringsList(j, events, l)
    ensures HeardAt(j, told, events).list == events[k].1.poll.list.value
  {
    var init, last := events[..|events| - 1], events[|events| - 1];
    C.HearIs(HeardAt(j, told, init), last.1);
    hide C.Hear;
    if k < |init| {
      assert !BringsList(j, events, |init|);
      forall l | k < l < |init| ensures !BringsList(j, init, l) {
        assert !BringsList(j, events, l);
      }
      ListHeard(j, told, init, k);
    }
  }

  /** Without any it goes by the list it started with. */
  lemma {:induction false} NoListHeard(j: nat, told: C.Told, events: seq<Happening>)
    requires forall l :: 0 <= l < |events| ==> !BringsList(j, events, l)
    ensures HeardAt(j, told, events).list == told.list
  {
    if events != [] {
      var init, last := events[..|events| - 1], events[|events| - 1];
      C.HearIs(HeardAt(j, told, init), last.1);
      hide C.Hear;
      assert !BringsList(j, events, |init|);
      forall l | 0 <= l < |init| ensures !BringsList(j, init, l) {
        assert !BringsList(j, events, l);
      }
      NoListHeard(j, told, init);
    }
  }

  /** The same for the node. */
  lemma {:induction false} NodeHeard(j: nat, told: C.Told, events: seq<Happening>, k: nat)
    requires BringsNode(j, events, k) && forall l :: k < l < |events| ==> !BringsNode(j, events, l)
    ensures HeardAt(j, told, events).node == events[k].1.poll.node.value
  {
    var init, last := events[..|events| - 1], events[|events| - 1];
    C.HearIs(HeardAt(j, told, init), last.1);
    hide C.Hear;
    if k < |init| {
      assert !BringsNode(j, events, |init|);
      forall l | k < l < |init| ensures !BringsNode(j, init, l) {
        assert !BringsNode(j, events, l);
      }
      NodeHeard(j, told, init, k);
    }
  }

  lemma {:induction false} NoNodeHeard(j: nat, told: C.Told, events: seq<Happening>)
    requires forall l :: 0 <= l < |events| ==> !BringsNode(j, events, l)
    ensures HeardAt(j, told, events).node == told.node
  {
    if events != [] {
      var init, last := events[..|events| - 1], events[|events| - 1];
      C.HearIs(HeardAt(j, told, init), last.1);
      hide C.Hear;
      assert !BringsNode(j, events, |init|);
      forall l | 0 <= l < |init| ensures !BringsNode(j, init, l) {
        assert !BringsNode(j, events, l);
      }
      NoNodeHeard(j, told, init);
    }
  }

  /** Neither the core nor the limiter holds a tag of this controller. */
  ghost predicate Unclaimed(owner: Owner, me: int, st: CoreState, tags: set<string>) {
    NoneOf(owner, me, st) && forall t :: t in tags ==> owner(t) != me
  }

  /** What the panel tells a controller at its start. */
  datatype Answers = Answers(node: NodeInfo, list: seq<Subscription>, relay: RelayNodeInfo)

  function ToldBy(a: Answers): C.Told {
    C.Told(a.node, a.list)
  }

  /** Nothing in them that a builder refuses. */
  ghost predicate GoodAnswers(a: Answers) {
    C.GoodNode(a.node) && (HasRelay(a.node) ==> C.GoodRelayInfo(a.relay))
  }

  ghost predicate LawfulStart(owner: Owner, me: int, a: Answers) {
    && MainTag(NodeTag(a.node)) && C.OwnedNode(owner, me, a.node) && UniqueIds(a.list)
    && (HasRelay(a.node) ==> C.OwnedRelay(owner, me, a.relay, a.list))
  }

  /** Every event of a run after these answers happens at one of the controllers and
      brings it tags of its own. */
  ghost predicate LawfulAfter(owner: Owner, answers: seq<Answers>, events: seq<Happening>) {
    forall k :: 0 <= k < |events| ==>
      var i := events[k].0;
      i < |answers| && Lawful(owner, i, events[k].1, HeardAt(i, ToldBy(answers[i]), events[..k]))
  }

  /** The builders accept all answers, and each controller's agree with its book. */
  ghost predicate CalmAnswers(answers: seq<Answers>, books: nat -> C.Book) {
    forall j: nat :: j < |answers| ==>
      GoodAnswers(answers[j]) && C.Calm(books(j), answers[j].node, answers[j].list)
  }

  /** Every event agrees with the book of the controller it happens at. */
  ghost predicate SteadyRun(events: seq<Happening>, books: nat -> C.Book) {
    forall k :: 0 <= k < |events| ==> C.SteadyEvent(events[k].1, books(events[k].0))
  }

  /** A default outbound that is no controller's stays; otherwise there is none, or one of
      some controller's. */
  ghost predicate AllMind(owner: Owner, n: nat, before: Option<string>, after: Option<string>) {
    if before.Some? && !(0 <= owner(before.value) < n) then after == before
    else after.Some? ==> 0 <= owner(after.value) < n
  }

  lemma AllMindItself(owner: Owner, n: nat, fallback: Option<string>)
    ensures AllMind(owner, n, fallback, fallback)
  {
  }

  lemma OneOfAllMinds(owner: Owner, n: nat, i: nat, a: Option<string>, b: Option<string>, c: Option<string>)
    requires i < n && AllMind(owner, n, a, b) && C.Minds(owner, i, b, c)
    ensures AllMind(owner, n, a, c)
  {
  }

  lemma AllMindBoth(owner: Owner, n: nat, a: Option<string>, b: Option<string>, c: Option<string>)
    requires AllMind(owner, n, a, b) && AllMind(owner, n, b, c)
    ensures AllMind(owner, n, a, c)
  {
  }

  /** The default outbound once all controllers have started. */
  function StartedWith(fallback: Option<string>, answers: seq<Answers>): Option<string> {
    if answers == [] then fallback
    else C.StartFallback(fallback, answers[0].node, answers[0].relay, answers[0].list)
  }

  lemma NoneStarted(fallback: Option<string>, answers: seq<Answers>)
    requires answers == []
    ensures StartedWith(fallback, answers) == fallback
  {
  }

  /** Only the first of them can change it. */
  lemma StartedMore(fallback: Option<string>, answers: seq<Answers>, k: nat)
    requires k < |answers|
    ensures C.StartFallback(StartedWith(fallback, answers[..k]), answers[k].node, answers[k].relay, answers[k].list) ==
            StartedWith(fallback, answers[..k + 1])
  {
    if k > 0 {
      var before := StartedWith(fallback, answers[..k]);
      assert before.Some?;
      RelaysAddedIs(before, answers[k].relay, RelayTagOf(answers[k].relay), answers[k].list);
    }
  }

  lemma StartMinds(owner: Owner, me: int, fallback: Option<string>, a: Answers)
    requires LawfulStart(owner, me, a)
    ensures C.Minds(owner, me, fallback, C.StartFallback(fallback, a.node, a.relay, a.list))
  {
    hide NodeTag, RelayTagOf, SubTag, BlackholeTag;
    if HasRelay(a.node) {
      C.RelaysMind(owner, me, fallback, a.relay, RelayTagOf(a.relay), a.list);
    }
  }

  lemma StartsMind(owner: Owner, fallback: Option<string>, answers: seq<Answers>)
    requires forall k: nat :: k < |answers| ==> LawfulStart(owner, k, answers[k])
    ensures AllMind(owner, |answers|, fallback, StartedWith(fallback, answers))
  {
    if answers != [] {
      StartMinds(owner, 0, fallback, answers[0]);
    }
  }

  lemma NothingAdded(st: CoreState)
    ensures Extends(st, st, NOTHING)
  {
    DropEvery(st.rules, Tags(st.rules));
    assert st.inbounds + map[] == st.inbounds && st.outbounds + map[] == st.outbounds;
  }

  class Fleet {
    const core: NM.Instance
    const limiter: L.Limiter
    const controllers: seq<C.Controller>

    constructor (core: NM.Instance, limiter: L.Limiter, controllers: seq<C.Controller>)
      ensures this.core == core && this.limiter == limiter && this.controllers == controllers
    {
      this.core, this.limiter, this.controllers := core, limiter, controllers;
    }

    /** One core, one limiter, distinct controllers. */
    ghost predicate Wired() {
      && (forall i :: 0 <= i < |controllers| ==> controllers[i].core == core && controllers[i].limiter == limiter)
      && (forall i, j :: 0 <= i < |controllers| && 0 <= j < |controllers| && i != j ==>
            controllers[i] != controllers[j])
    }

    /** What the core holds apart from controller i's part. */
    ghost function BaseOf(i: nat): CoreState
      requires Wired() && i < |controllers|
      reads controllers[i], core
    {
      Without(core.State(), controllers[i].OwnNow())
    }

    ghost function OthersOf(i: nat): set<string>
      requires i < |controllers| && limiter.Valid()
      reads controllers[i], limiter, limiter.Repr
    {
      limiter.View().Keys - {controllers[i].tag}
    }

    ghost function ToldOf(i: nat): C.Told
      requires i < |controllers|
      reads controllers[i]
    {
      C.Told(controllers[i].nodeInfo, controllers[i].subscriptionList)
    }

    /** Controller i is ready next to all others, and nobody else uses its tags. */
    ghost predicate InOrder(owner: Owner, i: nat)
      requires Wired() && i < |controllers|
      reads controllers[i], core, limiter, limiter.Repr
    {
      && limiter.Valid() && controllers[i].Ready(BaseOf(i), OthersOf(i)) && controllers[i].OwnsTags(owner, i)
      && NoneOf(owner, i, BaseOf(i)) && forall t :: t in OthersOf(i) ==> owner(t) != i
    }

    ghost predicate World(owner: Owner)
      requires Wired()
      reads controllers, core, limiter, limiter.Repr
    {
      forall i: nat :: i < |controllers| ==> InOrder(owner, i)
    }

    /** The users of controller i in this core are those of its list. */
    ghost predicate InSyncIn(i: nat, st: CoreState)
      requires i < |controllers|
      reads controllers[i]
    {
      var c := controllers[i];
      c.tag in st.inbounds && st.inbounds[c.tag] == UsersOf(c.nodeInfo, c.tag, c.subscriptionList)
    }

    ghost predicate InSync(i: nat)
      requires Wired() && i < |controllers|
      reads controllers[i], core
    {
      InSyncIn(i, core.State())
    }

    /** The controller that acted is in order again. */
    lemma ActorInOrder(owner: Owner, i: nat, base: CoreState, others: set<string>)
      requires Wired() && i < |controllers|
      requires controllers[i].Ready(base, others) && controllers[i].OwnsTags(owner, i)
      requires NoneOf(owner, i, base) && forall t :: t in others ==> owner(t) != i
      ensures InOrder(owner, i) && BaseOf(i) == base && OthersOf(i) == others
    {
      controllers[i].ReadyFacts(base, others);
      ExtendsContains(core.State(), base, controllers[i].OwnNow());
      hide Extends, Contains, Without, NoneOf;
      assert limiter.View().Keys - {controllers[i].tag} == others;
    }

    /** Controller j's part of the core, with these users. */
    ghost function PartOf(j: nat, users: UserMap): CoreState
      requires j < |controllers|
      reads controllers[j]
    {
      var c := controllers[j];
      Own(users, c.nodeInfo, c.tag, c.RelayNow(), c.relayFirst)
    }

    /** The part of a controller that does not act is where it was, and what surrounds
        it uses none of its tags. `st` and `base` are the core before the event and what
        it held apart from the actor's part `own`. */
    lemma OtherPart(owner: Owner, i: nat, j: nat, st: CoreState, base: CoreState, own: CoreState, users: UserMap)
      requires Wired() && i < |controllers| && j < |controllers| && i != j
      requires Extends(st, base, own) && OwnedBy(owner, i, own)
      requires Extends(core.State(), base, controllers[i].OwnNow()) && OwnedBy(owner, i, controllers[i].OwnNow())
      requires Contains(st, PartOf(j, users)) && OwnedBy(owner, j, PartOf(j, users))
      requires NoneOf(owner, j, Without(st, PartOf(j, users)))
      ensures controllers[j].tag in core.inbounds && core.inbounds[controllers[j].tag] == users
      ensures controllers[j].OwnNow() == PartOf(j, users)
      ensures Extends(core.State(), BaseOf(j), controllers[j].OwnNow()) && NoneOf(owner, j, BaseOf(j))
    {
      var other := PartOf(j, users);
      OthersUndisturbed(owner, st, base, own, core.State(), controllers[i].OwnNow(), i, other, j);
      hide Extends, Without, NoneOf, OwnedBy, RelayOuts, RelayRules, MainRules, MainOuts;
      PartHasInbound(core.State(), users, controllers[j].nodeInfo, controllers[j].tag, controllers[j].RelayNow(),
                     controllers[j].relayFirst);
    }

    /** Controller j keeps its fields, and the limiter lists for it what it did in `view`. */
    ghost predicate Aside(owner: Owner, j: nat, view: map<string, L.Spec.InboundView>)
      requires Wired() && j < |controllers|
      reads controllers[j], limiter, limiter.Repr
    {
      var c := controllers[j];
      && c.FieldsReady() && c.OwnsTags(owner, j) && c.LimiterApart()
      && c.tag in view && C.Current(view[c.tag], c.tag, c.nodeInfo.speedLimit, c.redisEnabled, c.subscriptionList)
      && c.tag in limiter.View() && C.SameListing(view[c.tag], limiter.View()[c.tag])
      && forall t :: t in limiter.View() && t != c.tag ==> owner(t) != j
    }

    lemma OtherInOrder(owner: Owner, j: nat, view: map<string, L.Spec.InboundView>)
      requires Wired() && j < |controllers| && Aside(owner, j, view) && controllers[j].tag in core.inbounds
      requires Extends(core.State(), BaseOf(j), controllers[j].OwnNow()) && NoneOf(owner, j, BaseOf(j))
      ensures InOrder(owner, j)
    {
      var c := controllers[j];
      C.SameListingCurrent(view[c.tag], limiter.View()[c.tag], c.tag, c.nodeInfo.speedLimit, c.redisEnabled,
                           c.subscriptionList);
      hide Extends, Without, NoneOf, Own, C.Current, C.SameListing;
      assert limiter.View().Keys == OthersOf(j) + {c.tag};
      c.StillReady(BaseOf(j), OthersOf(j), owner, j);
    }

    /** What is known of controller j while another one acts, `st` and `view` being the
        core and the limiter before. */
    ghost predicate Known(owner: Owner, j: nat, st: CoreState, view: map<string, L.Spec.InboundView>)
      requires Wired() && j < |controllers|
      reads controllers[j]
    {
      var c := controllers[j];
      && c.FieldsReady() && c.OwnsTags(owner, j) && c.tag in st.inbounds
      && Contains(st, PartOf(j, st.inbounds[c.tag])) && OwnedBy(owner, j, PartOf(j, st.inbounds[c.tag]))
      && NoneOf(owner, j, Without(st, PartOf(j, st.inbounds[c.tag])))
      && c.tag in view && C.Current(view[c.tag], c.tag, c.nodeInfo.speedLimit, c.redisEnabled, c.subscriptionList)
      && forall t :: t in view && t != c.tag ==> owner(t) != j
    }

    lemma KnownBefore(owner: Owner, j: nat)
      requires Wired() && j < |controllers| && InOrder(owner, j)
      ensures Known(owner, j, core.State(), limiter.View()) && controllers[j].LimiterApart()
    {
      var c := controllers[j];
      c.ReadyFacts(BaseOf(j), OthersOf(j));
      c.OwnPart(BaseOf(j), OthersOf(j), owner, j);
      ExtendsContains(core.State(), BaseOf(j), c.OwnNow());
      hide Extends, Contains, Without, NoneOf, OwnedBy, Own, C.Current;
    }

    /** The limiter still lists for controller j what it did. */
    lemma KeptAside(owner: Owner, i: nat, j: nat, st: CoreState, view: map<string, L.Spec.InboundView>,
                    others: set<string>)
      requires Wired() && i < |controllers| && j < |controllers| && i != j
      requires Known(owner, j, st, view) && controllers[j].LimiterApart()
      requires controllers[i].OthersListed(others, view) && controllers[j].tag in others && others <= view.Keys
      requires limiter.View().Keys == others + {controllers[i].tag} && owner(controllers[i].tag) == i
      ensures Aside(owner, j, view)
    {
      hide Contains, Without, NoneOf, OwnedBy, Own, C.Current, C.SameListing;
    }

    lemma TagIsOwned(owner: Owner, i: nat)
      requires Wired() && i < |controllers| && controllers[i].FieldsReady() && controllers[i].OwnsTags(owner, i)
      ensures owner(controllers[i].tag) == i
    {
      hide NodeTag;
    }

    /** Controller j after controller i's event. */
    lemma OtherAfter(owner: Owner, i: nat, j: nat, st: CoreState, base: CoreState, own: CoreState,
                     view: map<string, L.Spec.InboundView>, others: set<string>)
      requires Wired() && i < |controllers| && j < |controllers| && i != j
      requires Extends(st, base, own) && OwnedBy(owner, i, own)
      requires controllers[i].Ready(base, others) && controllers[i].OwnsTags(owner, i)
      requires controllers[i].OthersListed(others, view)
      requires Known(owner, j, st, view) && controllers[j].LimiterApart() && controllers[j].tag in others
      requires others <= view.Keys
      ensures InOrder(owner, j) && InSyncIn(j, core.State()) == InSyncIn(j, st)
    {
      var c := controllers[i];
      c.ReadyFacts(base, others);
      c.OwnPart(base, others, owner, i);
      TagIsOwned(owner, i);
      KeptAside(owner, i, j, st, view, others);
      hide Extends, Contains, Without, NoneOf, OwnedBy, Own, C.Current, Aside;
      OtherPart(owner, i, j, st, base, own, st.inbounds[controllers[j].tag]);
      OtherInOrder(owner, j, view);
    }

    /** The event itself, and the controller it happens at. */
    method Act(i: nat, e: C.Event, ghost owner: Owner, ghost book: C.Book) returns (ok: bool)
      requires Wired() && i < |controllers| && InOrder(owner, i) && Lawful(owner, i, e, ToldOf(i))
      modifies controllers[i], core, limiter.Repr
      ensures limiter.Valid() && fresh(limiter.Repr - old(limiter.Repr))
      ensures ok ==> ToldOf(i) == C.Hear(old(ToldOf(i)), e)
      ensures ok ==> controllers[i].Ready(old(BaseOf(i)), old(OthersOf(i))) && controllers[i].OwnsTags(owner, i)
      ensures ok ==> InOrder(owner, i)
      ensures ok ==> controllers[i].OthersListed(old(OthersOf(i)), old(limiter.View()))
      ensures ok ==> C.Minds(owner, i, old(core.fallback), core.fallback)
      ensures forall c :: c in controllers && c != controllers[i] && c !in old(limiter.Repr) ==> unchanged(c)
      ensures C.Calm(book, old(ToldOf(i)).node, old(ToldOf(i)).list) && old(InSync(i)) && C.SteadyEvent(e, book) ==>
                ok && C.Calm(book, ToldOf(i).node, ToldOf(i).list) && InSync(i)
      ensures old(core.FallbackThere()) ==> core.FallbackThere()
    {
      hide InOrder, Lawful, C.Distinct, C.Calm, C.SteadyEvent, C.Hear, NoneOf, OwnedBy, Extends, Without, C.OwnedNode,
           C.OwnedRelay, C.PollFallback, C.Minds, C.Controller.Ready, C.Controller.OwnsTags, C.Controller.RelayNow;
      var c := controllers[i];
      ghost var told, relay := ToldOf(i), c.relayInfo;
      ValidInOrder(owner, i);
      ActorBefore(owner, i, e);
      ActorMinds(owner, i, e);
      ghost var base, others := BaseOf(i), OthersOf(i);
      ok := c.Handle(e, base, others, book);
      if !ok {
        return false;
      }
      ActorAfter(owner, i, e, told, relay, base, others);
    }

    /** The event leaves a default outbound of others alone. */
    lemma ActorMinds(owner: Owner, i: nat, e: C.Event)
      requires Wired() && i < |controllers| && InOrder(owner, i) && Lawful(owner, i, e, ToldOf(i))
      ensures var c := controllers[i];
              C.Minds(owner, i, core.fallback,
                      if e.Polled? then C.PollFallback(core.fallback, c.RelayNow(), c.tag, e.poll, c.nodeInfo,
                                                       c.subscriptionList)
                      else core.fallback)
    {
      var c := controllers[i];
      ActorBefore(owner, i, e);
      c.ReadyFacts(BaseOf(i), OthersOf(i));
      C.MindsItself(owner, i, core.fallback);
      hide NodeTag, RelayTagOf, SubTag, NoneOf, Extends, OwnedBy, C.PollFallback, C.Minds, InOrder;
      if e.Polled? && C.Updates(e.poll) {
        C.PollMinds(owner, i, core.fallback, c.RelayNow(), e.poll, c.nodeInfo, c.subscriptionList);
      } else if e.Polled? {
        C.QuietPoll(core.fallback, c.RelayNow(), c.tag, e.poll, c.nodeInfo, c.subscriptionList);
      }
    }

    /** What is known of all others before. */
    lemma OthersBefore(owner: Owner, i: nat)
      requires Wired() && i < |controllers| && World(owner)
      ensures limiter.Valid()
      ensures OthersKnown(owner, i, core.State(), limiter.View(), OthersOf(i))
    {
      hide InOrder, Known;
      ValidInOrder(owner, i);
      forall j: nat | j < |controllers| && j != i
        ensures Known(owner, j, core.State(), limiter.View()) && controllers[j].LimiterApart()
        ensures controllers[j].tag in OthersOf(i)
      {
        KnownBefore(owner, j);
        TagsDiffer(owner, i, j);
      }
    }

    lemma ValidInOrder(owner: Owner, i: nat)
      requires Wired() && i < |controllers| && InOrder(owner, i)
      ensures limiter.Valid()
    {
    }

    ghost predicate OthersKnown(owner: Owner, i: nat, st: CoreState, view: map<string, L.Spec.InboundView>,
                                others: set<string>)
      requires Wired()
      reads controllers, limiter, limiter.Repr
    {
      forall j: nat :: j < |controllers| && j != i ==>
        Known(owner, j, st, view) && controllers[j].LimiterApart() && controllers[j].tag in others
    }

    /** The event leaves the other objects of the fleet alone. */
    method ActApart(i: nat, e: C.Event, ghost owner: Owner, ghost book: C.Book) returns (ok: bool)
      requires Wired() && i < |controllers| && InOrder(owner, i) && Lawful(owner, i, e, ToldOf(i))
      requires forall j: nat :: j < |controllers| && j != i ==> controllers[j].LimiterApart()
      modifies controllers[i], core, limiter.Repr
      ensures limiter.Valid() && fresh(limiter.Repr - old(limiter.Repr))
      ensures ok ==> ToldOf(i) == C.Hear(old(ToldOf(i)), e)
      ensures ok ==> controllers[i].Ready(old(BaseOf(i)), old(OthersOf(i))) && controllers[i].OwnsTags(owner, i)
      ensures ok ==> InOrder(owner, i)
      ensures ok ==> controllers[i].OthersListed(old(OthersOf(i)), old(limiter.View()))
      ensures ok ==> C.Minds(owner, i, old(core.fallback), core.fallback)
      ensures forall j: nat :: j < |controllers| && j != i ==>
                                 unchanged(controllers[j]) && controllers[j].LimiterApart()
      ensures C.Calm(book, old(ToldOf(i)).node, old(ToldOf(i)).list) && old(InSync(i)) && C.SteadyEvent(e, book) ==>
                ok && C.Calm(book, ToldOf(i).node, ToldOf(i).list) && InSync(i)
      ensures old(core.FallbackThere()) ==> core.FallbackThere()
    {
      hide InOrder, Lawful, C.Calm, C.SteadyEvent, C.Hear, Without, InSyncIn, NoneOf, OwnedBy, Extends, C.Minds;
      ok := Act(i, e, owner, book);
      forall j: nat | j < |controllers| && j != i
        ensures unchanged(controllers[j]) && controllers[j].LimiterApart()
      {
        assert controllers[j] in controllers && controllers[j] != controllers[i];
        assert old(controllers[j].LimiterApart());
      }
    }

    /** The event, seen from the controllers that do not act. */
    method ActAside(i: nat, e: C.Event, ghost owner: Owner, ghost book: C.Book,
                    ghost st: CoreState, ghost view: map<string, L.Spec.InboundView>, ghost others: set<string>)
      returns (ok: bool)
      requires Wired() && i < |controllers| && InOrder(owner, i) && Lawful(owner, i, e, ToldOf(i))
      requires OthersKnown(owner, i, st, view, others) && limiter.Valid() && others == OthersOf(i)
      requires view == limiter.View()
      modifies controllers[i], core, limiter.Repr
      ensures limiter.Valid() && fresh(limiter.Repr - old(limiter.Repr))
      ensures ok ==> ToldOf(i) == C.Hear(old(ToldOf(i)), e)
      ensures ok ==> controllers[i].Ready(old(BaseOf(i)), others) && controllers[i].OwnsTags(owner, i)
      ensures ok ==> InOrder(owner, i)
      ensures ok ==> controllers[i].OthersListed(others, view)
      ensures OthersKnown(owner, i, st, view, others)
      ensures ok ==> C.Minds(owner, i, old(core.fallback), core.fallback)
      ensures forall j: nat :: j < |controllers| && j != i ==> unchanged(controllers[j])
      ensures C.Calm(book, old(ToldOf(i)).node, old(ToldOf(i)).list) && old(InSync(i)) && C.SteadyEvent(e, book) ==>
                ok && C.Calm(book, ToldOf(i).node, ToldOf(i).list) && InSync(i)
      ensures old(core.FallbackThere()) ==> core.FallbackThere()
    {
      hide InOrder, Known, Lawful, C.Calm, C.SteadyEvent, C.Hear, Without, InSyncIn, NoneOf, OwnedBy, Extends;
      hide Wired, BaseOf, OthersOf, ToldOf, InSync, C.Controller.Ready, C.Controller.OwnsTags,
           C.Controller.LimiterApart, C.Controller.OthersListed, C.Minds;
      ok := ActApart(i, e, owner, book);
      forall j: nat | j < |controllers| && j != i
        ensures Known(owner, j, st, view) && controllers[j].tag in others
      {
        assert old(Known(owner, j, st, view)) && unchanged(controllers[j]);
      }
    }

    /** One event at controller i. All controllers are in order again, and those that
        did not act know what they knew and serve whom they served. */
    method Handle(i: nat, e: C.Event, ghost owner: Owner, ghost book: C.Book) returns (ok: bool)
      requires Wired() && World(owner) && i < |controllers| && Lawful(owner, i, e, ToldOf(i))
      modifies controllers[i], core, limiter.Repr
      ensures limiter.Valid() && fresh(limiter.Repr - old(limiter.Repr))
      ensures ok ==> World(owner) && ToldOf(i) == C.Hear(old(ToldOf(i)), e)
      ensures ok ==> C.Minds(owner, i, old(core.fallback), core.fallback)
      ensures forall j: nat :: j < |controllers| && j != i ==> ToldOf(j) == old(ToldOf(j))
      ensures ok ==> forall j: nat :: j < |controllers| && j != i ==> InSync(j) == old(InSync(j))
      ensures C.Calm(book, old(ToldOf(i)).node, old(ToldOf(i)).list) && old(InSync(i)) && C.SteadyEvent(e, book) ==>
                ok && C.Calm(book, ToldOf(i).node, ToldOf(i).list) && InSync(i)
      ensures old(core.FallbackThere()) ==> core.FallbackThere()
    {
      hide InOrder, Known, Lawful, C.Calm, C.SteadyEvent, C.Hear, NoneOf, OwnedBy, Extends, Without, InSyncIn;
      hide OthersKnown, C.Minds;
      OthersBefore(owner, i);
      ghost var st, view := core.State(), limiter.View();
      ghost var base, others, own := BaseOf(i), OthersOf(i), controllers[i].OwnNow();
      ActorBefore(owner, i, e);
      ok := ActAside(i, e, owner, book, st, view, others);
      if !ok {
        return false;
      }
      AllAfter(owner, i, st, base, own, view, others);
    }

    lemma AllAfter(owner: Owner, i: nat, st: CoreState, base: CoreState, own: CoreState,
                   view: map<string, L.Spec.InboundView>, others: set<string>)
      requires Wired() && i < |controllers| && InOrder(owner, i) && Extends(st, base, own) && OwnedBy(owner, i, own)
      requires controllers[i].Ready(base, others) && controllers[i].OwnsTags(owner, i)
      requires controllers[i].OthersListed(others, view)
      requires others <= view.Keys
      requires OthersKnown(owner, i, st, view, others)
      ensures World(owner) && forall j: nat :: j < |controllers| && j != i ==> InSync(j) == InSyncIn(j, st)
    {
      hide InOrder, Known, NoneOf, OwnedBy, Extends, Without, InSyncIn;
      forall j: nat | j < |controllers| && j != i ensures InOrder(owner, j) && InSync(j) == InSyncIn(j, st) {
        OtherAfter(owner, i, j, st, base, own, view, others);
      }
    }

    lemma ActorBefore(owner: Owner, i: nat, e: C.Event)
      requires Wired() && i < |controllers| && InOrder(owner, i) && Lawful(owner, i, e, ToldOf(i))
      ensures controllers[i].Ready(BaseOf(i), OthersOf(i)) && NoneOf(owner, i, BaseOf(i))
      ensures OthersOf(i) <= limiter.View().Keys
      ensures forall t :: t in OthersOf(i) ==> owner(t) != i
      ensures Extends(core.State(), BaseOf(i), controllers[i].OwnNow()) && OwnedBy(owner, i, controllers[i].OwnNow())
      ensures C.OwnedNode(owner, i, ToldOf(i).node)
      ensures HasRelay(ToldOf(i).node) ==> C.OwnedRelay(owner, i, controllers[i].relayInfo, ToldOf(i).list)
      ensures e.Polled? ==> C.Distinct(e.poll, ToldOf(i).node, ToldOf(i).list, BaseOf(i), OthersOf(i))
    {
      var c := controllers[i];
      c.OwnPart(BaseOf(i), OthersOf(i), owner, i);
      if e.Polled? {
        LawfulIsDistinct(owner, i, e, ToldOf(i), BaseOf(i), OthersOf(i));
      }
    }

    lemma TagsDiffer(owner: Owner, i: nat, j: nat)
      requires Wired() && i < |controllers| && j < |controllers| && i != j && InOrder(owner, i) && InOrder(owner, j)
      ensures controllers[j].tag in OthersOf(i)
    {
      controllers[i].ReadyFacts(BaseOf(i), OthersOf(i));
      controllers[j].ReadyFacts(BaseOf(j), OthersOf(j));
      TagIsOwned(owner, i);
      TagIsOwned(owner, j);
    }

    lemma ActorAfter(owner: Owner, i: nat, e: C.Event, told: C.Told, relay: RelayNodeInfo, base: CoreState,
                     others: set<string>)
      requires Wired() && i < |controllers| && controllers[i].Ready(base, others) && NoneOf(owner, i, base)
      requires forall t :: t in others ==> owner(t) != i
      requires ToldOf(i) == C.Hear(told, e) && Lawful(owner, i, e, told) && C.OwnedNode(owner, i, told.node)
      requires HasRelay(told.node) ==> C.OwnedRelay(owner, i, relay, told.list)
      requires controllers[i].relay ==>
                 controllers[i].relayInfo == if e.Polled? && C.Updates(e.poll) then e.poll.relay else relay
      ensures InOrder(owner, i) && controllers[i].OwnsTags(owner, i)
    {
      controllers[i].ReadyFacts(base, others);
      LawfulKeepsTags(owner, i, e, told, relay, controllers[i].relayInfo);
      ActorInOrder(owner, i, base, others);
    }

    /** Every event happens at one of the controllers and brings it tags of its own. */
    ghost predicate LawfulRun(owner: Owner, events: seq<Happening>)
      reads controllers
    {
      forall k :: 0 <= k < |events| ==>
        var i := events[k].0;
        i < |controllers| && Lawful(owner, i, events[k].1, HeardAt(i, ToldOf(i), events[..k]))
    }

    /** Every controller goes by what agrees with its book, and serves exactly its list. */
    ghost predicate AllCalm(books: nat -> C.Book)
      requires Wired()
      reads controllers, core
    {
      forall j: nat :: j < |controllers| ==> C.Calm(books(j), ToldOf(j).node, ToldOf(j).list) && InSync(j)
    }

    /** Every inbound holds exactly the accounts of its controller's list, as its node type
        asks for them. */
    ghost predicate AllServe()
      reads controllers, core
    {
      forall j: nat :: j < |controllers| ==> controllers[j].core == core && controllers[j].ServesList()
    }

    lemma SyncedServe(owner: Owner)
      requires Wired() && World(owner)
      ensures (forall j: nat :: j < |controllers| ==> InSync(j)) ==> AllServe()
    {
      hide InOrder, InSyncIn, C.Controller.ServesList;
      if forall j: nat :: j < |controllers| ==> InSync(j) {
        forall j: nat | j < |controllers| ensures controllers[j].ServesList() {
          OneServes(owner, j);
        }
      }
    }

    lemma OneServes(owner: Owner, j: nat)
      requires Wired() && j < |controllers| && InOrder(owner, j) && InSync(j)
      ensures controllers[j].ServesList()
    {
      hide C.Controller.ServesList, UsersOf, NoneOf, C.Controller.Ready;
      controllers[j].ServesIfReady(BaseOf(j), OthersOf(j));
    }

    /** Any interleaving of events at any controllers: as long as every call succeeds
        all controllers stay ready next to each other. If no panel changes the email or
        password of an Id, every call does succeed, and every inbound always has exactly
        the users of its controller's list. */
    method Serve(events: seq<Happening>, ghost owner: Owner, ghost books: nat -> C.Book) returns (ok: bool)
      requires Wired() && World(owner) && limiter.Valid() && LawfulRun(owner, events)
      modifies controllers, core, limiter.Repr
      ensures limiter.Valid() && fresh(limiter.Repr - old(limiter.Repr))
      ensures ok ==> World(owner) && AllMind(owner, |controllers|, old(core.fallback), core.fallback)
      ensures ok ==> forall j: nat :: j < |controllers| ==> ToldOf(j) == HeardAt(j, old(ToldOf(j)), events)
      ensures old(AllCalm(books)) && SteadyRun(events, books) ==> ok && AllCalm(books) && AllServe()
      ensures old(core.FallbackThere()) ==> core.FallbackThere()
    {
      hide World, Lawful, C.Calm, C.SteadyEvent, C.Hear, InSync, HeardAt, C.Minds, AllMind;
      AllMindItself(owner, |controllers|, core.fallback);
      ghost var calm := AllCalm(books) && SteadyRun(events, books);
      ghost var r0 := limiter.Repr;
      forall j: nat | j < |controllers| ensures ToldOf(j) == HeardAt(j, ToldOf(j), events[..0]) {
        HeardNothing(j, ToldOf(j));
      }
      for k := 0 to |events|
        invariant limiter.Valid() && fresh(limiter.Repr - r0) && World(owner)
        invariant AllMind(owner, |controllers|, old(core.fallback), core.fallback)
        invariant old(core.FallbackThere()) ==> core.FallbackThere()
        invariant forall j: nat :: j < |controllers| ==> ToldOf(j) == HeardAt(j, old(ToldOf(j)), events[..k])
        invariant calm ==> AllCalm(books)
      {
        ghost var r1 := limiter.Repr;
        var (i, e) := events[k];
        forall j: nat | j < |controllers|
          ensures HeardAt(j, old(ToldOf(j)), events[..k + 1]) == if i == j then C.Hear(ToldOf(j), e) else ToldOf(j)
        {
          HeardMore(j, old(ToldOf(j)), events, k);
        }
        ghost var fallback := core.fallback;
        ok := Handle(i, e, owner, books(i));
        if !ok {
          return false;
        }
        OneOfAllMinds(owner, |controllers|, i, old(core.fallback), fallback, core.fallback);
        assert limiter.Repr - r0 <= (limiter.Repr - r1) + (r1 - r0);
      }
      assert events[..|events|] == events;
      SyncedServe(owner);
      ok := true;
    }

    // Starting them one after the other.

    /** Nobody uses the tags of controllers k, k + 1, .. yet. */
    ghost predicate Unused(owner: Owner, k: nat)
      reads core, limiter, limiter.Repr
    {
      limiter.Valid() && LaterUnclaimed(owner, k, core.State(), limiter.View().Keys)
    }

    ghost predicate LaterUnclaimed(owner: Owner, k: nat, st: CoreState, tags: set<string>) {
      forall j: nat :: k <= j < |controllers| ==> Unclaimed(owner, j, st, tags)
    }

    ghost predicate Started(owner: Owner, k: nat)
      requires Wired() && k <= |controllers|
      reads controllers, core, limiter, limiter.Repr
    {
      forall j: nat :: j < k ==> InOrder(owner, j)
    }

    ghost predicate AllApart()
      requires Wired()
      reads limiter, limiter.Repr
    {
      forall j: nat :: j < |controllers| ==> controllers[j].Wired() && controllers[j].LimiterApart()
    }

    lemma StartIsDistinct(owner: Owner, k: nat, a: Answers)
      requires Wired() && k < |controllers| && Unused(owner, k) && LawfulStart(owner, k, a)
      ensures Extends(core.State(), core.State(), NOTHING) && NoneOf(owner, k, core.State())
      ensures forall t :: t in limiter.View() ==> owner(t) != k
      ensures C.OwnTags(a.node, core.State(), limiter.View().Keys) && UniqueIds(a.list)
      ensures HasRelay(a.node) ==> RelayTagsFree(core.State(), RelayTagOf(a.relay), a.list)
    {
      hide NodeTag, RelayTagOf, SubTag, BlackholeTag, DefaultTag, MainTag;
      var st := core.State();
      assert Unclaimed(owner, k, st, limiter.View().Keys);
      forall t | t in Tags(st.rules) ensures owner(t) != k {
        var r :| r in st.rules && r.ruleTag == t;
      }
      NothingAdded(st);
    }

    /** `Start` at controller k, and that controller. */
    method StartActor(k: nat, a: Answers, ghost owner: Owner) returns (ok: bool)
      requires Wired() && k < |controllers| && AllApart() && Unused(owner, k) && LawfulStart(owner, k, a)
      modifies controllers[k], core, limiter.Repr
      ensures limiter.Valid() && fresh(limiter.Repr - old(limiter.Repr))
      ensures C.GoodNode(a.node) && (HasRelay(a.node) ==> C.GoodRelayInfo(a.relay)) ==> ok
      ensures ok ==> controllers[k].Ready(old(core.State()), old(limiter.View()).Keys)
      ensures ok ==> controllers[k].OwnsTags(owner, k)
      ensures ok ==> InOrder(owner, k) && InSync(k) && ToldOf(k) == ToldBy(a)
      ensures ok ==> core.fallback == C.StartFallback(old(core.fallback), a.node, a.relay, a.list)
      ensures ok ==> controllers[k].OthersListed(old(limiter.View()).Keys, old(limiter.View()))
      ensures forall c :: c in controllers && c != controllers[k] && c !in old(limiter.Repr) ==> unchanged(c)
      ensures old(core.FallbackThere()) ==> core.FallbackThere()
    {
      hide Unused, C.OwnTags, NoneOf, Extends, C.GoodNode, C.GoodRelayInfo, RelayTagsFree, Without, C.OwnedNode,
           C.OwnedRelay, InOrder, C.StartFallback;
      var c := controllers[k];
      StartIsDistinct(owner, k, a);
      ghost var base, view := core.State(), limiter.View();
      ok := c.Start(a.node, a.list, a.relay, base, view.Keys);
      if ok {
        c.KeptIsListed(view.Keys, view);
        c.ReadyFacts(base, view.Keys);
        ActorInOrder(owner, k, base, view.Keys);
      }
    }

    /** What is known of those started before. */
    ghost predicate EarlierKnown(owner: Owner, k: nat, st: CoreState, view: map<string, L.Spec.InboundView>)
      requires Wired() && k <= |controllers|
      reads controllers
    {
      forall j: nat :: j < k ==> Known(owner, j, st, view) && controllers[j].tag in view
    }

    lemma EarlierBefore(owner: Owner, k: nat)
      requires Wired() && k <= |controllers| && Started(owner, k) && limiter.Valid()
      ensures EarlierKnown(owner, k, core.State(), limiter.View())
    {
      hide InOrder, Known;
      forall j: nat | j < k
        ensures Known(owner, j, core.State(), limiter.View()) && controllers[j].tag in limiter.View()
      {
        KnownBefore(owner, j);
        controllers[j].ReadyFacts(BaseOf(j), OthersOf(j)) by {
          ReadyIfInOrder(owner, j);
        }
      }
    }

    lemma ReadyIfInOrder(owner: Owner, j: nat)
      requires Wired() && j < |controllers| && InOrder(owner, j)
      ensures limiter.Valid() && controllers[j].Ready(BaseOf(j), OthersOf(j))
    {
    }

    /** Those not yet started still find their tags unused. */
    lemma LaterUnused(owner: Owner, k: nat, st: CoreState, tags: set<string>)
      requires Wired() && k < |controllers| && LaterUnclaimed(owner, k, st, tags)
      requires controllers[k].Ready(st, tags) && controllers[k].OwnsTags(owner, k)
      ensures Unused(owner, k + 1)
    {
      hide Unclaimed, NoneOf, OwnedBy, Extends, Own;
      var c := controllers[k];
      c.ReadyFacts(st, tags);
      c.OwnPart(st, tags, owner, k);
      TagIsOwned(owner, k);
      forall j: nat | k + 1 <= j < |controllers| ensures Unclaimed(owner, j, core.State(), limiter.View().Keys) {
        StillUnclaimed(owner, k, j, core.State(), st, c.OwnNow(), tags, c.tag);
      }
    }

    lemma EarlierAfter(owner: Owner, k: nat, st: CoreState, view: map<string, L.Spec.InboundView>)
      requires Wired() && k < |controllers| && InOrder(owner, k) && AllApart()
      requires controllers[k].Ready(st, view.Keys) && controllers[k].OwnsTags(owner, k)
      requires controllers[k].OthersListed(view.Keys, view)
      requires EarlierKnown(owner, k, st, view)
      ensures Started(owner, k + 1) && forall j: nat :: j < k ==> InSync(j) == InSyncIn(j, st)
    {
      hide InOrder, Known, NoneOf, OwnedBy, Extends, Without, InSyncIn;
      NothingAdded(st);
      assert OwnedBy(owner, k, NOTHING) by {
        NothingOwned(owner, k);
      }
      forall j: nat | j < k ensures InOrder(owner, j) && InSync(j) == InSyncIn(j, st) {
        OtherAfter(owner, k, j, st, st, NOTHING, view, view.Keys);
      }
    }

    /** `Start` leaves the other objects of the fleet alone. */
    method StartApart(k: nat, a: Answers, ghost owner: Owner) returns (ok: bool)
      requires Wired() && k < |controllers| && AllApart() && Unused(owner, k) && LawfulStart(owner, k, a)
      modifies controllers[k], core, limiter.Repr
      ensures limiter.Valid() && fresh(limiter.Repr - old(limiter.Repr)) && AllApart()
      ensures C.GoodNode(a.node) && (HasRelay(a.node) ==> C.GoodRelayInfo(a.relay)) ==> ok
      ensures ok ==> controllers[k].Ready(old(core.State()), old(limiter.View()).Keys)
      ensures ok ==> controllers[k].OwnsTags(owner, k)
      ensures ok ==> InOrder(owner, k) && InSync(k) && ToldOf(k) == ToldBy(a)
      ensures ok ==> core.fallback == C.StartFallback(old(core.fallback), a.node, a.relay, a.list)
      ensures ok ==> controllers[k].OthersListed(old(limiter.View()).Keys, old(limiter.View()))
      ensures forall j: nat :: j < |controllers| && j != k ==> unchanged(controllers[j])
      ensures old(core.FallbackThere()) ==> core.FallbackThere()
    {
      hide InOrder, Known, NoneOf, Extends, Without, InSyncIn, C.GoodNode, C.GoodRelayInfo, LawfulStart, Unused,
           C.StartFallback;
      ok := StartActor(k, a, owner);
      forall j: nat | j < |controllers|
        ensures j != k ==> unchanged(controllers[j])
        ensures controllers[j] !in limiter.Repr && core !in limiter.Repr
      {
        assert controllers[j] in controllers && (j != k ==> controllers[j] != controllers[k]);
        assert old(controllers[j].LimiterApart());
      }
    }

    /** `Start`, seen from the controllers that run already. */
    method StartAside(k: nat, a: Answers, ghost owner: Owner, ghost st: CoreState,
                      ghost view: map<string, L.Spec.InboundView>)
      returns (ok: bool)
      requires Wired() && k < |controllers| && AllApart() && Unused(owner, k) && LawfulStart(owner, k, a)
      requires EarlierKnown(owner, k, st, view) && limiter.Valid() && st == core.State() && view == limiter.View()
      modifies controllers[k], core, limiter.Repr
      ensures limiter.Valid() && fresh(limiter.Repr - old(limiter.Repr)) && AllApart()
      ensures C.GoodNode(a.node) && (HasRelay(a.node) ==> C.GoodRelayInfo(a.relay)) ==> ok
      ensures ok ==> controllers[k].Ready(st, view.Keys) && controllers[k].OwnsTags(owner, k)
      ensures ok ==> InOrder(owner, k) && InSync(k) && ToldOf(k) == ToldBy(a)
      ensures ok ==> core.fallback == C.StartFallback(old(core.fallback), a.node, a.relay, a.list)
      ensures ok ==> controllers[k].OthersListed(view.Keys, view)
      ensures EarlierKnown(owner, k, st, view)
      ensures forall j: nat :: j < |controllers| && j != k ==> unchanged(controllers[j])
      ensures old(core.FallbackThere()) ==> core.FallbackThere()
    {
      hide InOrder, Known, NoneOf, Extends, Without, InSyncIn, C.GoodNode, C.GoodRelayInfo, LawfulStart, Unused,
           C.StartFallback;
      hide Wired, AllApart, ToldOf, InSync, C.Controller.Ready, C.Controller.OwnsTags, C.Controller.OthersListed;
      ok := StartApart(k, a, owner);
      forall j: nat | j < k ensures Known(owner, j, st, view) && controllers[j].tag in view {
        assert old(Known(owner, j, st, view)) && unchanged(controllers[j]);
      }
    }

    /** Controller k starts next to those that run already. */
    method StartOne(k: nat, a: Answers, ghost owner: Owner) returns (ok: bool)
      requires Wired() && k < |controllers| && AllApart() && Unused(owner, k) && Started(owner, k)
      requires LawfulStart(owner, k, a)
      modifies controllers[k], core, limiter.Repr
      ensures limiter.Valid() && fresh(limiter.Repr - old(limiter.Repr)) && AllApart()
      ensures C.GoodNode(a.node) && (HasRelay(a.node) ==> C.GoodRelayInfo(a.relay)) ==> ok
      ensures ok ==> Unused(owner, k + 1) && Started(owner, k + 1)
      ensures ok ==> InSync(k) && ToldOf(k) == ToldBy(a)
      ensures ok ==> core.fallback == C.StartFallback(old(core.fallback), a.node, a.relay, a.list)
      ensures forall j: nat :: j < k ==> ToldOf(j) == old(ToldOf(j))
      ensures ok ==> forall j: nat :: j < k ==> InSync(j) == old(InSync(j))
      ensures old(core.FallbackThere()) ==> core.FallbackThere()
    {
      hide InOrder, Known, NoneOf, Extends, Without, InSyncIn, C.GoodNode, C.GoodRelayInfo, LawfulStart, Unused,
           Started, LaterUnclaimed, EarlierKnown, C.StartFallback;
      ghost var st, view := core.State(), limiter.View();
      EarlierBefore(owner, k);
      UnusedLater(owner, k);
      ok := StartAside(k, a, owner, st, view);
      if ok {
        LaterUnused(owner, k, st, view.Keys);
        EarlierAfter(owner, k, st, view);
      }
    }

    /** The manager starts all controllers in turn, in a core and a limiter that hold
        none of their tags. If all answers are good no call fails, and then all
        controllers are ready next to each other, each serving its list. */
    method Start(answers: seq<Answers>, ghost owner: Owner) returns (ok: bool)
      requires Wired() && AllApart() && Unused(owner, 0) && |answers| == |controllers|
      requires forall k: nat :: k < |answers| ==> LawfulStart(owner, k, answers[k])
      modifies controllers, core, limiter.Repr
      ensures limiter.Valid() && fresh(limiter.Repr - old(limiter.Repr))
      ensures (forall k: nat :: k < |answers| ==> GoodAnswers(answers[k])) ==> ok
      ensures ok ==> World(owner) && AllServe() && core.fallback == StartedWith(old(core.fallback), answers)
      ensures ok ==>
                forall j: nat :: j < |controllers| ==>
                    InSync(j) && ToldOf(j) == ToldBy(answers[j])
      ensures old(core.FallbackThere()) ==> core.FallbackThere()
    {
      hide InOrder, LawfulStart, Unused, AllApart, InSync, C.GoodNode, C.GoodRelayInfo, StartedWith, C.StartFallback;
      ghost var r0 := limiter.Repr;
      NoneStarted(core.fallback, answers[..0]);
      ok := true;
      for k := 0 to |controllers|
        invariant ok && fresh(limiter.Repr - r0) && AllApart() && Unused(owner, k) && Started(owner, k)
        invariant core.fallback == StartedWith(old(core.fallback), answers[..k])
        invariant old(core.FallbackThere()) ==> core.FallbackThere()
        invariant forall j: nat :: j < k ==> InSync(j) && ToldOf(j) == ToldBy(answers[j])
      {
        ghost var r1 := limiter.Repr;
        StartedMore(old(core.fallback), answers, k);
        ok := StartOne(k, answers[k], owner);
        if !ok {
          return false;
        }
        assert limiter.Repr - r0 <= (limiter.Repr - r1) + (r1 - r0);
      }
      assert answers[..|controllers|] == answers;
      UnusedLater(owner, |controllers|);
      SyncedServe(owner);
    }

    /** The whole process: all controllers start, and then any lawful run happens to them.
        As long as every call succeeds they end ready next to each other, each going by
        what its panel said last. With answers the builders accept and panels that never
        change the email or password of an Id, every call succeeds, and every inbound has
        exactly the users of its controller's list. */
    method Run(answers: seq<Answers>, events: seq<Happening>, ghost owner: Owner, ghost books: nat -> C.Book)
      returns (ok: bool)
      requires Wired() && AllApart() && Unused(owner, 0) && |answers| == |controllers|
      requires forall k: nat :: k < |answers| ==> LawfulStart(owner, k, answers[k])
      requires LawfulAfter(owner, answers, events)
      modifies controllers, core, limiter.Repr
      ensures limiter.Valid() && fresh(limiter.Repr - old(limiter.Repr))
      ensures ok ==> World(owner) && AllMind(owner, |controllers|, old(core.fallback), core.fallback)
      ensures ok ==> forall j: nat :: j < |controllers| ==> ToldOf(j) == HeardAt(j, ToldBy(answers[j]), events)
      ensures CalmAnswers(answers, books) && SteadyRun(events, books) ==> ok && AllCalm(books) && AllServe()
      ensures old(core.FallbackThere()) ==> core.FallbackThere()
    {
      hide World, Lawful, C.Calm, C.SteadyEvent, HeardAt, LawfulStart, Unused, AllApart, InSync, GoodAnswers,
           StartedWith, AllMind;
      ghost var r0 := limiter.Repr;
      ok := Start(answers, owner);
      if !ok {
        return false;
      }
      ghost var r1, fallback := limiter.Repr, core.fallback;
      StartsMind(owner, old(core.fallback), answers);
      assert forall j: nat :: j < |controllers| ==> ToldOf(j) == ToldBy(answers[j]);
      ok := Serve(events, owner, books);
      if ok {
        AllMindBoth(owner, |controllers|, old(core.fallback), fallback, core.fallback);
      }
      assert limiter.Repr - r0 <= (limiter.Repr - r1) + (r1 - r0);
    }

    lemma UnusedLater(owner: Owner, k: nat)
      requires Unused(owner, k)
      ensures limiter.Valid() && LaterUnclaimed(owner, k, core.State(), limiter.View().Keys)
    {
    }
  }

  /** `Manager.Start`: a core with the file configuration, one limiter, and a controller for
      each configured node, of which `redis` says whether it uses the shared cache. */
  method Build(config: CoreState, first: Option<string>, redis: seq<bool>) returns (f: Fleet)
    ensures fresh(f) && fresh(f.core) && fresh(f.limiter.Repr) && f.Wired() && f.AllApart()
    ensures f.core.State() == config && f.core.fallback == first && f.limiter.Valid() && f.limiter.View() == map[]
    ensures |f.controllers| == |redis| && forall k :: 0 <= k < |redis| ==> fresh(f.controllers[k])
    ensures forall k :: 0 <= k < |redis| ==> f.controllers[k].redisEnabled == redis[k]
  {
    var core := new NM.Instance(config, first);
    var limiter := new L.Limiter();
    var stats := new SM.Stats();
    var controllers: seq<C.Controller> := [];
    for k := 0 to |redis|
      invariant |controllers| == k && limiter.Valid() && limiter.View() == map[] && fresh(limiter.Repr)
      invariant core.State() == config && core.fallback == first && core !in limiter.Repr
      invariant forall j :: 0 <= j < k ==>
                              && fresh(controllers[j]) && controllers[j] !in limiter.Repr && controllers[j].Wired()
                              && controllers[j].core == core && controllers[j].limiter == limiter
                              && controllers[j].redisEnabled == redis[j]
      invariant forall i, j :: 0 <= i < j < k ==> controllers[i] != controllers[j]
    {
      var client := new OnlineReport.Client();
      var nodeManager := new NM.Manager(core, limiter);
      var subManager := new SM.Manager(core, stats, limiter, client);
      var c := new C.Controller(core, limiter, nodeManager, subManager, redis[k]);
      controllers := controllers + [c];
    }
    f := new Fleet(core, limiter, controllers);
  }

  /** From the configuration on: whatever the panels answer and whatever events follow, as
      long as the tags they bring are each controller's own. */
  method Launch(config: CoreState, first: Option<string>, redis: seq<bool>, answers: seq<Answers>,
                events: seq<Happening>, ghost owner: Owner, ghost books: nat -> C.Book)
    returns (f: Fleet, ok: bool)
    requires |answers| == |redis|
    requires forall k: nat :: k < |answers| ==> LawfulStart(owner, k, answers[k]) && NoneOf(owner, k, config)
    requires LawfulAfter(owner, answers, events) && (first.Some? ==> first.value in config.outbounds)
    ensures f.Wired() && |f.controllers| == |redis|
    ensures ok ==> f.World(owner) && AllMind(owner, |redis|, first, f.core.fallback)
    ensures ok && first.Some? ==> f.core.fallback == first
    ensures f.core.FallbackThere()
    ensures ok ==>
              forall j: nat :: j < |redis| ==> f.ToldOf(j) == HeardAt(j, ToldBy(answers[j]), events)
    ensures CalmAnswers(answers, books) && SteadyRun(events, books) ==> ok && f.AllCalm(books) && f.AllServe()
  {
    hide LawfulStart, NoneOf, AllMind, C.Calm, GoodAnswers, Lawful, HeardAt;
    f := Build(config, first, redis);
    assert forall k: nat :: k < |answers| ==> Unclaimed(owner, k, config, {});
    ok := f.Run(answers, events, owner, books);
    if first.Some? {
      ConfiguredIsKept(owner, config, first.value, |answers|, f.core.fallback);
    }
  }

  /** The configuration's default outbound is nobody's, so it stays. */
  lemma ConfiguredIsKept(owner: Owner, config: CoreState, first: string, n: nat, after: Option<string>)
    requires first in config.outbounds && forall k: nat :: k < n ==> NoneOf(owner, k, config)
    ensures AllMind(owner, n, Some(first), after) ==> after == Some(first)
  {
    assert owner(first) >= 0 ==> !NoneOf(owner, owner(first), config);
  }

  lemma StillUnclaimed(owner: Owner, k: int, j: int, st: CoreState, base: CoreState, own: CoreState, tags: set<string>,
                       tag: string)
    requires Extends(st, base, own) && OwnedBy(owner, k, own) && owner(tag) == k && j != k
    requires Unclaimed(owner, j, base, tags)
    ensures Unclaimed(owner, j, st, tags + {tag})
  {
    SidesOfRules(st, base, own);
  }

  lemma NothingOwned(owner: Owner, k: nat)
    ensures OwnedBy(owner, k, NOTHING)
  {
  }

  lemma PartHasInbound(st: CoreState, users: UserMap, n: NodeInfo, tag: string, relay: Option<RelayInstall>,
                       relayFirst: bool)
    requires Contains(st, Own(users, n, tag, relay, relayFirst))
    ensures tag in st.inbounds && st.inbounds[tag] == users
  {
    assert tag in Own(users, n, tag, relay, relayFirst).inbounds;
  }
}
