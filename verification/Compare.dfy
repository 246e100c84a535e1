/** `Compare`: the difference of two subscription lists by Id. */
module Compare {
  import opened Basics
  import opened Api

  type ById = map<int, Subscription>

  /** The map Go builds from a list: a later entry overwrites an earlier one. */
  function LastWins(subs: seq<Subscription>): ById {
    if subs == [] then map[] else
      var s := subs[|subs| - 1];
      LastWins(subs[..|subs| - 1])[s.id := s]
  }

  function MapOf(subs: Option<seq<Subscription>>): ById {
    if subs.Some? then LastWins(subs.value) else map[]
  }

  predicate Holds(m: ById, s: Subscription) {
    s.id in m && m[s.id] == s
  }

  predicate Keyed(m: ById) {
    forall id :: id in m ==> m[id].id == id
  }

  lemma {:induction false} LastWinsFromList(subs: seq<Subscription>)
    ensures Keyed(LastWins(subs))
    ensures forall s :: s in subs ==> s.id in LastWins(subs)
    ensures forall id :: id in LastWins(subs) ==> LastWins(subs)[id] in subs
  {
    if subs != [] {
      LastWinsFromList(subs[..|subs| - 1]);
      assert subs == subs[..|subs| - 1] + [subs[|subs| - 1]];
    }
  }

  lemma {:induction false} LastWinsUnique(subs: seq<Subscription>)
    requires UniqueIds(subs)
    ensures forall s :: s in subs <==> Holds(LastWins(subs), s)
  {
    LastWinsFromList(subs);
    if subs != [] {
      LastWinsUnique(subs[..|subs| - 1]);
      assert subs == subs[..|subs| - 1] + [subs[|subs| - 1]];
    }
  }

  /** Of entries with one Id the last one in the list counts. */
  lemma {:induction false} LastWinsIs(subs: seq<Subscription>, i: nat)
    requires i < |subs| && forall j :: i < j < |subs| ==> subs[j].id != subs[i].id
    ensures Holds(LastWins(subs), subs[i])
  {
    if i < |subs| - 1 {
      LastWinsIs(subs[..|subs| - 1], i);
    }
  }

  // The three parts of a difference.

  /** The comparison of `Compare`, property by property. */
  predicate Changed(a: Subscription, b: Subscription) {
    a.speedLimit != b.speedLimit || a.ipLimit != b.ipLimit || a.passwd != b.passwd || a.email != b.email
  }

  /** What the nested loops establish, in whatever order the maps are visited. */
  ghost predicate IsDiff(prev: ById, next: ById,
                         deleted: seq<Subscription>, added: seq<Subscription>, modified: seq<Subscription>)
  {
    && UniqueIds(deleted) && UniqueIds(added) && UniqueIds(modified)
    && (forall s :: s in deleted <==> Holds(prev, s) && s.id !in next)
    && (forall s :: s in added <==> Holds(next, s) && s.id !in prev)
    && (forall s :: s in modified <==> Holds(next, s) && s.id in prev && prev[s.id] != s)
  }

  method ToMap(subs: seq<Subscription>) returns (m: ById)
    ensures m == LastWins(subs)
  {
    m := map[];
    for i := 0 to |subs|
      invariant m == LastWins(subs[..i])
    {
      assert subs[..i + 1][..i] == subs[..i];
      m := m[subs[i].id := subs[i]];
    }
    assert subs[..|subs|] == subs;
  }

  /** The loop over the old map: what it holds and the new one does not. */
  method FindDeleted(oldMap: ById, newMap: ById) returns (deleted: seq<Subscription>)
    requires Keyed(oldMap)
    ensures UniqueIds(deleted)
    ensures forall s :: s in deleted <==> Holds(oldMap, s) && s.id !in newMap
  {
    deleted := [];
    var todo: set<int> := oldMap.Keys;
    while todo != {}
      invariant todo <= oldMap.Keys
      invariant UniqueIds(deleted)
      invariant forall s :: s in deleted <==> Holds(oldMap, s) && s.id !in todo && s.id !in newMap
      decreases todo
    {
      var id := Pick(todo);
      if id !in newMap {
        deleted := deleted + [oldMap[id]];
      }
      todo := todo - {id};
    }
  }

  /** The loop over the new map. */
  method FindAddedAndModified(oldMap: ById, newMap: ById)
    returns (added: seq<Subscription>, modified: seq<Subscription>)
    requires Keyed(oldMap) && Keyed(newMap)
    ensures UniqueIds(added) && UniqueIds(modified)
    ensures forall s :: s in added <==> Holds(newMap, s) && s.id !in oldMap
    ensures forall s :: s in modified <==> Holds(newMap, s) && s.id in oldMap && oldMap[s.id] != s
  {
    added, modified := [], [];
    var todo: set<int> := newMap.Keys;
    while todo != {}
      invariant todo <= newMap.Keys
      invariant UniqueIds(added) && UniqueIds(modified)
      invariant forall s :: s in added <==> Holds(newMap, s) && s.id !in todo && s.id !in oldMap
      invariant forall s :: s in modified <==>
                Holds(newMap, s) && s.id !in todo && s.id in oldMap && oldMap[s.id] != s
      decreases todo
    {
      var id := Pick(todo);
      if id !in oldMap {
        added := added + [newMap[id]];
      } else if Changed(oldMap[id], newMap[id]) {
        modified := modified + [newMap[id]];
      }
      todo := todo - {id};
    }
  }

  method Compare(prev: Option<seq<Subscription>>, next: Option<seq<Subscription>>)
    returns (deleted: seq<Subscription>, added: seq<Subscription>, modified: seq<Subscription>)
    ensures prev.Some? && next.Some? ==> IsDiff(MapOf(prev), MapOf(next), deleted, added, modified)
    ensures prev.None? ==> deleted == [] && added == (if next.Some? then next.value else []) && modified == []
    ensures prev.Some? && next.None? ==> deleted == prev.value && added == [] && modified == []
  {
    deleted, added, modified := [], [], [];
    if prev.None? && next.None? {
      return;
    }
    if prev.None? {
      added := next.value;
      return;
    }
    if next.None? {
      deleted := prev.value;
      return;
    }
    var oldMap := ToMap(prev.value);
    var newMap := ToMap(next.value);
    LastWinsFromList(prev.value);
    LastWinsFromList(next.value);
    deleted := FindDeleted(oldMap, newMap);
    added, modified := FindAddedAndModified(oldMap, newMap);
  }

  // Applying a difference.

  /** Remove the deleted, insert the added, overwrite the modified. */
  function Apply(m: ById, deleted: seq<Subscription>, added: seq<Subscription>, modified: seq<Subscription>): ById {
    m - LastWins(deleted).Keys + LastWins(added) + LastWins(modified)
  }

  predicate Disjoint(a: seq<Subscription>, b: seq<Subscription>) {
    forall s, t :: s in a && t in b ==> s.id != t.id
  }

  lemma DiffAt(prev: seq<Subscription>, next: seq<Subscription>,
               deleted: seq<Subscription>, added: seq<Subscription>, modified: seq<Subscription>, id: int)
    requires IsDiff(LastWins(prev), LastWins(next), deleted, added, modified)
    ensures id in LastWins(deleted) <==> id in LastWins(prev) && id !in LastWins(next)
    ensures var r, n := Apply(LastWins(prev), deleted, added, modified), LastWins(next);
            (id in r <==> id in n) && (id in n ==> r[id] == n[id])
  {
    var m, n := LastWins(prev), LastWins(next);
    LastWinsFromList(prev);
    LastWinsFromList(next);
    LastWinsUnique(deleted);
    LastWinsUnique(added);
    LastWinsUnique(modified);
    LastWinsFromList(deleted);
    LastWinsFromList(added);
    LastWinsFromList(modified);
    if id in n {
      assert Holds(n, n[id]);
    }
    if id in m {
      assert Holds(m, m[id]);
    }
  }

  /** `Compare` is an exact difference: its three parts have disjoint Ids, and
      applying them turns the previous list's map into the next one's. */
  lemma DiffIsExact(prev: seq<Subscription>, next: seq<Subscription>,
                    deleted: seq<Subscription>, added: seq<Subscription>, modified: seq<Subscription>)
    requires IsDiff(LastWins(prev), LastWins(next), deleted, added, modified)
    ensures Disjoint(deleted, added) && Disjoint(added, modified) && Disjoint(modified, deleted)
    ensures Apply(LastWins(prev), deleted, added, modified) == LastWins(next)
  {
    forall id
      ensures id in Apply(LastWins(prev), deleted, added, modified) <==> id in LastWins(next)
      ensures id in LastWins(next) ==> Apply(LastWins(prev), deleted, added, modified)[id] == LastWins(next)[id]
    {
      DiffAt(prev, next, deleted, added, modified, id);
    }
  }

  lemma {:induction false} OnceEach(subs: seq<Subscription>, s: Subscription)
    requires UniqueIds(subs)
    ensures multiset(subs)[s] == if s in subs then 1 else 0
  {
    if subs != [] {
      var init, last := subs[..|subs| - 1], subs[|subs| - 1];
      OnceEach(init, s);
      assert subs == init + [last];
    }
  }

  /** The order in which Go visits its maps does not matter: two runs return
      permutations of each other. */
  lemma DiffOrderIrrelevant(prev: ById, next: ById,
                            d: seq<Subscription>, a: seq<Subscription>, m: seq<Subscription>,
                            d': seq<Subscription>, a': seq<Subscription>, m': seq<Subscription>)
    requires IsDiff(prev, next, d, a, m) && IsDiff(prev, next, d', a', m')
    ensures multiset(d) == multiset(d') && multiset(a) == multiset(a') && multiset(m) == multiset(m')
  {
    forall s
      ensures multiset(d)[s] == multiset(d')[s] && multiset(a)[s] == multiset(a')[s]
      ensures multiset(m)[s] == multiset(m')[s]
    {
      OnceEach(d, s);
      OnceEach(d', s);
      OnceEach(a, s);
      OnceEach(a', s);
      OnceEach(m, s);
      OnceEach(m', s);
    }
  }

  /** Without a previous or a next list the difference is the other list whole,
      repeated Ids and all; applying it still gives the next list's map. */
  lemma DiffWithoutList(subs: seq<Subscription>)
    ensures Apply(map[], [], subs, []) == LastWins(subs)
    ensures Apply(LastWins(subs), subs, [], []) == map[]
  {
  }
}
