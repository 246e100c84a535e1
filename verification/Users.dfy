/** The users installed on an inbound: those of a subscription list, and what
    patching them with the difference of two lists leaves. */
module Users {
  import opened Basics
  import opened Decimal
  import opened Api
  import opened UserKey
  import opened Node
  import opened Xray
  import C = Compare

  /** The users a fresh inbound gets for a list. */
  function UsersOf(n: NodeInfo, tag: string, list: seq<Subscription>): UserMap {
    AddAll(map[], BuildUsers(n, tag, list))
  }

  /** `FormatEmails`. */
  function KeysOf(tag: string, list: seq<Subscription>): seq<string> {
    seq(|list|, i requires 0 <= i < |list| => Key(tag, list[i].email, list[i].id))
  }

  lemma {:induction false} BuiltFrom(n: NodeInfo, tag: string, list: seq<Subscription>)
    ensures forall s :: s in list && UserOf(n, tag, s).Some? ==> UserOf(n, tag, s).value in BuildUsers(n, tag, list)
    ensures forall u :: u in BuildUsers(n, tag, list) ==> exists s :: s in list && UserOf(n, tag, s) == Some(u)
  {
    if list != [] {
      var init, last := list[..|list| - 1], list[|list| - 1];
      BuiltFrom(n, tag, init);
      assert list == init + [last];
      forall u | u in BuildUsers(n, tag, list) ensures exists s :: s in list && UserOf(n, tag, s) == Some(u) {
        if u in BuildUsers(n, tag, init) {
          var s :| s in init && UserOf(n, tag, s) == Some(u);
          assert s in list;
        } else {
          assert last in list && UserOf(n, tag, last) == Some(u);
        }
      }
    }
  }

  lemma SameUserKey(n: NodeInfo, tag: string, s: Subscription, t: Subscription)
    requires UserOf(n, tag, s).Some? && UserOf(n, tag, t).Some?
    requires UserOf(n, tag, s).value.key == UserOf(n, tag, t).value.key
    ensures s.id == t.id && s.email == t.email
  {
    KeyInjective(tag, s.email, s.id, t.email, t.id);
  }

  lemma {:induction false} BuiltDistinct(n: NodeInfo, tag: string, list: seq<Subscription>)
    requires UniqueIds(list)
    ensures DistinctKeys(BuildUsers(n, tag, list))
  {
    if list != [] {
      var init, last := list[..|list| - 1], list[|list| - 1];
      BuiltDistinct(n, tag, init);
      BuiltFrom(n, tag, init);
      if UserOf(n, tag, last).Some? {
        var built := BuildUsers(n, tag, init);
        forall i | 0 <= i < |built| ensures built[i].key != UserOf(n, tag, last).value.key {
          assert built[i] in built;
          var s :| s in init && UserOf(n, tag, s) == Some(built[i]);
          if built[i].key == UserOf(n, tag, last).value.key {
            SameUserKey(n, tag, s, last);
          }
        }
      }
    }
  }

  ghost predicate HoldsUser(users: UserMap, u: User) {
    u.key in users && users[u.key] == u.credential
  }

  lemma {:induction false} AddAllHolds(users: UserMap, more: seq<User>)
    requires DistinctKeys(more)
    ensures forall u :: u in more ==> HoldsUser(AddAll(users, more), u)
    ensures forall k :: k in AddAll(users, more) ==>
              (exists u :: u in more && u.key == k) || (k in users && AddAll(users, more)[k] == users[k])
    ensures forall k :: k in users && (forall u :: u in more ==> u.key != k) ==>
              k in AddAll(users, more) && AddAll(users, more)[k] == users[k]
  {
    if more != [] {
      var init, last := more[..|more| - 1], more[|more| - 1];
      AddAllHolds(users, init);
      assert more == init + [last];
      forall k | k in AddAll(users, more)
        ensures (exists u :: u in more && u.key == k) || (k in users && AddAll(users, more)[k] == users[k])
      {
        if k == last.key {
          assert last in more;
        } else if exists u :: u in init && u.key == k {
          var u :| u in init && u.key == k;
          assert u in more;
        }
      }
    }
  }

  /** Adding distinct new users: exactly the old ones and the new ones. */
  lemma AddAllIs(users: UserMap, more: seq<User>, u: User)
    requires DistinctKeys(more) && forall v :: v in more ==> v.key !in users
    ensures HoldsUser(AddAll(users, more), u) <==> u in more || HoldsUser(users, u)
  {
    AddAllHolds(users, more);
    if HoldsUser(AddAll(users, more), u) && !HoldsUser(users, u) {
      if exists v :: v in more && v.key == u.key {
        var v :| v in more && v.key == u.key;
        assert HoldsUser(AddAll(users, more), v);
        assert v == u;
      }
    }
    if HoldsUser(users, u) {
      assert forall v :: v in more ==> v.key != u.key;
    }
  }

  /** A user is installed for a list exactly when a listed subscription builds it. */
  lemma UsersOfIs(n: NodeInfo, tag: string, list: seq<Subscription>, u: User)
    requires UniqueIds(list)
    ensures HoldsUser(UsersOf(n, tag, list), u) <==> exists s :: s in list && UserOf(n, tag, s) == Some(u)
  {
    BuiltDistinct(n, tag, list);
    BuiltFrom(n, tag, list);
    AddAllIs(map[], BuildUsers(n, tag, list), u);
    if s :| s in list && UserOf(n, tag, s) == Some(u) {
      assert UserOf(n, tag, s).value in BuildUsers(n, tag, list);
    }
  }

  // Accounts.

  /** The inbound holds the account that the node type asks for; a subscription whose
      Shadowsocks 2022 key is too short has none of its own. */
  ghost predicate Installed(n: NodeInfo, tag: string, users: UserMap, s: Subscription) {
    var key := tag + "|" + s.email + "|" + Dec(s.id);
    exists account :: AccountOf(n, s, account) && (account.Some? ==> key in users && users[key] == account.value)
  }

  /** And every user is somebody's on the list. */
  ghost predicate Serves(n: NodeInfo, tag: string, users: UserMap, list: seq<Subscription>) {
    && (forall s :: s in list ==> AccountOf(n, s, Lookup(users, tag + "|" + s.email + "|" + Dec(s.id))))
    && forall key :: key in users ==> exists s :: s in list && key == tag + "|" + s.email + "|" + Dec(s.id)
  }

  function Lookup(users: UserMap, key: string): Option<Credential> {
    if key in users then Some(users[key]) else None
  }

  lemma AddedAccounts(n: NodeInfo, tag: string, users: UserMap, list: seq<Subscription>)
    requires UniqueIds(list)
    ensures forall s :: s in list ==> Installed(n, tag, AddAll(users, BuildUsers(n, tag, list)), s)
  {
    BuiltDistinct(n, tag, list);
    BuiltFrom(n, tag, list);
    AddAllHolds(users, BuildUsers(n, tag, list));
    forall s | s in list ensures Installed(n, tag, AddAll(users, BuildUsers(n, tag, list)), s) {
      hide AccountOf, CredentialOf;
      CredentialIs(n, s);
      if CredentialOf(n, s).Some? {
        assert UserOf(n, tag, s).value in BuildUsers(n, tag, list);
      }
    }
  }

  /** The users of a list are exactly the accounts of its subscriptions, type by type. */
  lemma UsersOfServes(n: NodeInfo, tag: string, list: seq<Subscription>)
    requires UniqueIds(list)
    ensures Serves(n, tag, UsersOf(n, tag, list), list)
  {
    hide AccountOf, CredentialOf;
    var users := UsersOf(n, tag, list);
    forall s | s in list ensures AccountOf(n, s, Lookup(users, Key(tag, s.email, s.id))) {
      CredentialIs(n, s);
      KeyInstalled(n, tag, list, s);
      if CredentialOf(n, s).Some? {
        UsersOfIs(n, tag, list, UserOf(n, tag, s).value);
      }
    }
    forall key | key in users ensures exists s :: s in list && key == Key(tag, s.email, s.id) {
      UsersOfIs(n, tag, list, User(key, users[key]));
    }
  }

  lemma SameUsers(a: UserMap, b: UserMap)
    requires forall u :: HoldsUser(a, u) <==> HoldsUser(b, u)
    ensures a == b
  {
    forall k | k in a ensures k in b && b[k] == a[k] {
      assert HoldsUser(a, User(k, a[k]));
    }
    forall k | k in b ensures k in a {
      assert HoldsUser(b, User(k, b[k]));
    }
  }

  // Patching.

  /** No Id that stays in the list changes the user it builds. */
  ghost predicate KeptUsersSame(n: NodeInfo, tag: string, prev: seq<Subscription>, next: seq<Subscription>) {
    forall s, t :: s in prev && t in next && s.id == t.id ==> UserOf(n, tag, s) == UserOf(n, tag, t)
  }

  ghost predicate ListDiff(prev: seq<Subscription>, next: seq<Subscription>,
                           deleted: seq<Subscription>, added: seq<Subscription>, modified: seq<Subscription>) {
    C.IsDiff(C.LastWins(prev), C.LastWins(next), deleted, added, modified)
  }

  lemma DiffOfUnique(prev: seq<Subscription>, next: seq<Subscription>,
                     deleted: seq<Subscription>, added: seq<Subscription>, modified: seq<Subscription>, s: Subscription)
    requires UniqueIds(prev) && UniqueIds(next) && ListDiff(prev, next, deleted, added, modified)
    ensures s in deleted <==> s in prev && forall t :: t in next ==> t.id != s.id
    ensures s in added <==> s in next && forall t :: t in prev ==> t.id != s.id
    ensures s in modified <==> s in next && s !in prev && exists t :: t in prev && t.id == s.id
  {
    C.LastWinsUnique(prev);
    C.LastWinsUnique(next);
    C.LastWinsFromList(prev);
    C.LastWinsFromList(next);
    var m := C.LastWins(prev);
    if s.id in m {
      assert C.Holds(m, m[s.id]) && m[s.id] in prev;
    }
    if s.id in C.LastWins(next) {
      assert C.LastWins(next)[s.id] in next;
    }
  }

  lemma KeysOfIs(tag: string, list: seq<Subscription>)
    requires UniqueIds(list)
    ensures DistinctTexts(KeysOf(tag, list))
    ensures forall k :: k in KeysOf(tag, list) <==> exists s :: s in list && k == Key(tag, s.email, s.id)
  {
    var keys := KeysOf(tag, list);
    forall i, j | 0 <= i < j < |keys| ensures keys[i] != keys[j] {
      if keys[i] == keys[j] {
        KeyInjective(tag, list[i].email, list[i].id, list[j].email, list[j].id);
      }
    }
    forall s | s in list ensures Key(tag, s.email, s.id) in keys {
      var i :| 0 <= i < |list| && list[i] == s;
      assert keys[i] == Key(tag, s.email, s.id);
    }
  }

  // Removing users one after the other.

  /** Each key is there when its turn comes. */
  predicate AllPresent(users: UserMap, keys: seq<string>) {
    keys == [] || (keys[0] in users && AllPresent(users - {keys[0]}, keys[1..]))
  }

  lemma {:induction false} AllCut(users: UserMap, keys: seq<string>)
    ensures AllPresent(users, keys) <==> DistinctTexts(keys) && forall k :: k in keys ==> k in users
    ensures AllPresent(users, keys) ==> LeftAfter(users, keys) == users - KeySet(keys)
  {
    if keys != [] {
      var first, rest := keys[0], keys[1..];
      assert keys == [first] + rest;
      AllCut(users - {first}, rest);
      if AllPresent(users, keys) {
        assert KeySet(keys) == {first} + KeySet(rest);
        assert users - {first} - KeySet(rest) == users - KeySet(keys);
        assert forall i, j :: 0 <= i < j < |keys| ==> keys[i] != keys[j] by {
          forall i, j | 0 <= i < j < |keys| ensures keys[i] != keys[j] {
            assert keys[j] == rest[j - 1] && rest[j - 1] in rest;
          }
        }
      } else if first in users && DistinctTexts(keys) {
        assert forall i, j :: 0 <= i < j < |rest| ==> rest[i] != rest[j] by {
          assert forall i :: 0 <= i < |rest| ==> rest[i] == keys[i + 1];
        }
        var k :| k in rest && k !in users - {first};
        var j :| 0 <= j < |rest| && rest[j] == k;
        assert keys[0] != keys[j + 1];
        assert k in keys && k !in users;
      }
    }
  }

  /** A key before this one in the order is of no user. */
  ghost predicate Spared(users: UserMap, keys: seq<string>, k: string) {
    exists i, j :: 0 <= i < j < |keys| && keys[i] !in users && keys[j] == k
  }

  /** Exactly the keys that are not named, or named after an absent one, stay. */
  lemma {:induction false} LeftAfterIs(users: UserMap, keys: seq<string>, k: string)
    requires DistinctTexts(keys)
    ensures k in LeftAfter(users, keys) <==> k in users && (k in keys ==> Spared(users, keys, k))
    ensures k in LeftAfter(users, keys) ==> LeftAfter(users, keys)[k] == users[k]
  {
    if keys == [] {
    } else if keys[0] !in users {
      if k in users && k in keys {
        var j :| 0 <= j < |keys| && keys[j] == k;
        assert 0 < j && keys[0] !in users;
      }
    } else {
      var first, rest := keys[0], keys[1..];
      assert keys == [first] + rest;
      assert DistinctTexts(rest) by {
        assert forall i :: 0 <= i < |rest| ==> rest[i] == keys[i + 1];
      }
      LeftAfterIs(users - {first}, rest, k);
      if i, j :| 0 <= i < j < |rest| && rest[i] !in users - {first} && rest[j] == k {
        assert keys[0] != keys[i + 1];
        assert keys[i + 1] !in users && keys[j + 1] == k;
      }
      if i, j :| 0 <= i < j < |keys| && keys[i] !in users && keys[j] == k {
        assert rest[i - 1] !in users - {first} && rest[j - 1] == k;
      }
    }
  }

  /** Only subscriptions with a usable key have a user to remove. */
  lemma KeyInstalled(n: NodeInfo, tag: string, list: seq<Subscription>, s: Subscription)
    requires UniqueIds(list) && s in list
    ensures Key(tag, s.email, s.id) in UsersOf(n, tag, list) <==> CredentialOf(n, s).Some?
  {
    var k, users := Key(tag, s.email, s.id), UsersOf(n, tag, list);
    if CredentialOf(n, s).Some? {
      UsersOfIs(n, tag, list, UserOf(n, tag, s).value);
    }
    if k in users {
      UsersOfIs(n, tag, list, User(k, users[k]));
      var t :| t in list && UserOf(n, tag, t) == Some(User(k, users[k]));
      KeyInjective(tag, s.email, s.id, t.email, t.id);
      UniqueId(list, s, t);
    }
  }

  /** The removal order stops at an unusable key with a usable one still to come. */
  ghost predicate Strands(n: NodeInfo, deleted: seq<Subscription>) {
    exists i, j :: 0 <= i < j < |deleted| && CredentialOf(n, deleted[i]).None? && CredentialOf(n, deleted[j]).Some?
  }

  /** This user's turn comes after an unusable key. */
  ghost predicate Stranded(n: NodeInfo, tag: string, deleted: seq<Subscription>, u: User) {
    exists i, j ::
      0 <= i < j < |deleted| && CredentialOf(n, deleted[i]).None? && UserOf(n, tag, deleted[j]) == Some(u)
  }

  /** Whatever order the leaving subscriptions are visited in, nobody is stranded, exactly
      if all of them have a usable key, or none has. */
  lemma NoOrderStrands(n: NodeInfo, deleted: seq<Subscription>)
    ensures (forall order :: multiset(order) == multiset(deleted) ==> !Strands(n, order)) <==>
            (forall s, t :: s in deleted && t in deleted ==> CredentialOf(n, s).Some? == CredentialOf(n, t).Some?)
  {
    hide CredentialOf;
    if s, t :| s in deleted && t in deleted && CredentialOf(n, s).None? && CredentialOf(n, t).Some? {
      var order := StrandingOrder(n, deleted, s, t);
    }
    if order :| multiset(order) == multiset(deleted) && Strands(n, order) {
      var i, j :| 0 <= i < j < |order| && CredentialOf(n, order[i]).None? && CredentialOf(n, order[j]).Some?;
      assert order[i] in multiset(order) && order[j] in multiset(order);
      assert order[i] in deleted && order[j] in deleted;
    }
  }

  lemma StrandingOrder(n: NodeInfo, deleted: seq<Subscription>, s: Subscription, t: Subscription)
    returns (order: seq<Subscription>)
    requires s in deleted && t in deleted && CredentialOf(n, s).None? && CredentialOf(n, t).Some?
    ensures multiset(order) == multiset(deleted) && Strands(n, order)
  {
    hide CredentialOf;
    var i :| 0 <= i < |deleted| && deleted[i] == s;
    var j :| 0 <= j < |deleted| && deleted[j] == t;
    order := deleted;
    if j < i {
      order := deleted[i := t][j := s];
      assert order[j] == s && order[i] == t;
    }
  }

  /** From a synchronised inbound the patch meets no user that it adds. */
  lemma CanPatch(n: NodeInfo, tag: string, prev: seq<Subscription>, next: seq<Subscription>,
                 deleted: seq<Subscription>, added: seq<Subscription>, modified: seq<Subscription>)
    requires UniqueIds(prev) && UniqueIds(next) && ListDiff(prev, next, deleted, added, modified)
    ensures DistinctKeys(BuildUsers(n, tag, added))
    ensures forall u :: u in BuildUsers(n, tag, added) ==> u.key !in UsersOf(n, tag, prev)
  {
    BuiltDistinct(n, tag, added);
    BuiltFrom(n, tag, added);
    forall u | u in BuildUsers(n, tag, added) ensures u.key !in UsersOf(n, tag, prev) {
      var s :| s in added && UserOf(n, tag, s) == Some(u);
      DiffOfUnique(prev, next, deleted, added, modified, s);
      if u.key in UsersOf(n, tag, prev) {
        var v := User(u.key, UsersOf(n, tag, prev)[u.key]);
        UsersOfIs(n, tag, prev, v);
        var t :| t in prev && UserOf(n, tag, t) == Some(v);
        SameUserKey(n, tag, s, t);
      }
    }
  }

  ghost function Patched(n: NodeInfo, tag: string, prev: seq<Subscription>, deleted: seq<Subscription>,
                         added: seq<Subscription>): UserMap {
    AddAll(LeftAfter(UsersOf(n, tag, prev), KeysOf(tag, deleted)), BuildUsers(n, tag, added))
  }

  /** Some subscription of the list, other than the excluded ones, builds the user. */
  ghost predicate Builds(n: NodeInfo, tag: string, list: seq<Subscription>, except: seq<Subscription>, u: User) {
    exists s :: s in list && s !in except && UserOf(n, tag, s) == Some(u)
  }

  lemma SparedIs(n: NodeInfo, tag: string, prev: seq<Subscription>, deleted: seq<Subscription>, j: nat)
    requires UniqueIds(prev) && UniqueIds(deleted) && (forall s :: s in deleted ==> s in prev) && j < |deleted|
    ensures Spared(UsersOf(n, tag, prev), KeysOf(tag, deleted), Key(tag, deleted[j].email, deleted[j].id)) <==>
            exists i :: 0 <= i < j && CredentialOf(n, deleted[i]).None?
  {
    var users, keys := UsersOf(n, tag, prev), KeysOf(tag, deleted);
    forall i | 0 <= i < |deleted| ensures keys[i] in users <==> CredentialOf(n, deleted[i]).Some? {
      assert deleted[i] in deleted;
      KeyInstalled(n, tag, prev, deleted[i]);
    }
    KeysOfIs(tag, deleted);
    if i :| 0 <= i < j && CredentialOf(n, deleted[i]).None? {
      assert keys[i] !in users && keys[j] == Key(tag, deleted[j].email, deleted[j].id);
    }
  }

  /** Who is left after the removals. */
  lemma LeftIs(n: NodeInfo, tag: string, prev: seq<Subscription>, deleted: seq<Subscription>, u: User)
    requires UniqueIds(prev) && UniqueIds(deleted) && forall s :: s in deleted ==> s in prev
    ensures HoldsUser(LeftAfter(UsersOf(n, tag, prev), KeysOf(tag, deleted)), u) <==>
            Builds(n, tag, prev, deleted, u) || Stranded(n, tag, deleted, u)
  {
    var users, keys := UsersOf(n, tag, prev), KeysOf(tag, deleted);
    KeysOfIs(tag, deleted);
    UsersOfIs(n, tag, prev, u);
    LeftAfterIs(users, keys, u.key);
    if s :| s in prev && UserOf(n, tag, s) == Some(u) {
      if s in deleted {
        var j :| 0 <= j < |deleted| && deleted[j] == s;
        SparedIs(n, tag, prev, deleted, j);
        assert keys[j] == u.key;
      }
      ListedKey(tag, prev, deleted, s);
      OnlyBuilder(n, tag, prev, s, u);
    }
  }

  lemma ListedKey(tag: string, prev: seq<Subscription>, deleted: seq<Subscription>, s: Subscription)
    requires UniqueIds(prev) && UniqueIds(deleted) && s in prev && forall t :: t in deleted ==> t in prev
    ensures Key(tag, s.email, s.id) in KeysOf(tag, deleted) <==> s in deleted
  {
    KeysOfIs(tag, deleted);
    if Key(tag, s.email, s.id) in KeysOf(tag, deleted) {
      var t :| t in deleted && Key(tag, s.email, s.id) == Key(tag, t.email, t.id);
      KeyInjective(tag, s.email, s.id, t.email, t.id);
      UniqueId(prev, s, t);
    }
  }

  lemma OnlyBuilder(n: NodeInfo, tag: string, list: seq<Subscription>, s: Subscription, u: User)
    requires UniqueIds(list) && s in list && UserOf(n, tag, s) == Some(u)
    ensures forall t :: t in list && UserOf(n, tag, t) == Some(u) ==> t == s
  {
    forall t | t in list && UserOf(n, tag, t) == Some(u) ensures t == s {
      SameUserKey(n, tag, s, t);
      UniqueId(list, s, t);
    }
  }

  lemma AddedIs(n: NodeInfo, tag: string, added: seq<Subscription>, u: User)
    ensures u in BuildUsers(n, tag, added) <==> Builds(n, tag, added, [], u)
  {
    BuiltFrom(n, tag, added);
    if u in BuildUsers(n, tag, added) {
      var s :| s in added && UserOf(n, tag, s) == Some(u);
      assert s !in [];
    }
  }

  lemma DeletedFromPrev(prev: seq<Subscription>, next: seq<Subscription>,
                        deleted: seq<Subscription>, added: seq<Subscription>, modified: seq<Subscription>)
    requires UniqueIds(prev) && UniqueIds(next) && ListDiff(prev, next, deleted, added, modified)
    ensures UniqueIds(deleted) && forall s :: s in deleted ==> s in prev
  {
    forall s | s in deleted ensures s in prev {
      DiffOfUnique(prev, next, deleted, added, modified, s);
    }
  }

  /** Who is installed after the patch: the users of kept subscriptions as they were
      before, those of the added ones, and those whose removal the loop did not reach. */
  lemma PatchedIs(n: NodeInfo, tag: string, prev: seq<Subscription>, next: seq<Subscription>,
                  deleted: seq<Subscription>, added: seq<Subscription>, modified: seq<Subscription>, u: User)
    requires UniqueIds(prev) && UniqueIds(next) && ListDiff(prev, next, deleted, added, modified)
    ensures HoldsUser(Patched(n, tag, prev, deleted, added), u) <==>
            Builds(n, tag, prev, deleted, u) || Stranded(n, tag, deleted, u) || Builds(n, tag, added, [], u)
  {
    CanPatch(n, tag, prev, next, deleted, added, modified);
    DeletedFromPrev(prev, next, deleted, added, modified);
    LeftIs(n, tag, prev, deleted, u);
    AddedIs(n, tag, added, u);
    LeftWithin(UsersOf(n, tag, prev), KeysOf(tag, deleted));
    AddAllIs(LeftAfter(UsersOf(n, tag, prev), KeysOf(tag, deleted)), BuildUsers(n, tag, added), u);
  }

  lemma {:induction false} LeftWithin(users: UserMap, keys: seq<string>)
    ensures LeftAfter(users, keys).Keys <= users.Keys
  {
    if keys != [] && keys[0] in users {
      LeftWithin(users - {keys[0]}, keys[1..]);
    }
  }

  /** After patching a synchronised inbound its users are those of the new list exactly
      when no kept Id changed the user it builds (modified subscriptions reach the limiter
      only) and no leaving user was stranded behind an unusable key. */
  lemma PatchSynchronises(n: NodeInfo, tag: string, prev: seq<Subscription>, next: seq<Subscription>,
                          deleted: seq<Subscription>, added: seq<Subscription>, modified: seq<Subscription>)
    requires UniqueIds(prev) && UniqueIds(next) && ListDiff(prev, next, deleted, added, modified)
    ensures Patched(n, tag, prev, deleted, added) == UsersOf(n, tag, next) <==>
            KeptUsersSame(n, tag, prev, next) && !Strands(n, deleted)
  {
    if !KeptUsersSame(n, tag, prev, next) {
      var s, t :| s in prev && t in next && s.id == t.id && UserOf(n, tag, s) != UserOf(n, tag, t);
      KeptDiffers(n, tag, prev, next, deleted, added, modified, s, t);
    } else if Strands(n, deleted) {
      var i, j :| 0 <= i < j < |deleted| && CredentialOf(n, deleted[i]).None? && CredentialOf(n, deleted[j]).Some?;
      StrandedDiffers(n, tag, prev, next, deleted, added, modified, i, j);
    } else {
      forall u ensures HoldsUser(Patched(n, tag, prev, deleted, added), u) <==> HoldsUser(UsersOf(n, tag, next), u) {
        SameBuilders(n, tag, prev, next, deleted, added, modified, u);
      }
      SameUsers(Patched(n, tag, prev, deleted, added), UsersOf(n, tag, next));
    }
  }

  lemma StrandedDiffers(n: NodeInfo, tag: string, prev: seq<Subscription>, next: seq<Subscription>,
                        deleted: seq<Subscription>, added: seq<Subscription>, modified: seq<Subscription>,
                        i: nat, j: nat)
    requires UniqueIds(prev) && UniqueIds(next) && ListDiff(prev, next, deleted, added, modified)
    requires i < j < |deleted| && CredentialOf(n, deleted[i]).None? && CredentialOf(n, deleted[j]).Some?
    ensures Patched(n, tag, prev, deleted, added) != UsersOf(n, tag, next)
  {
    var s := deleted[j];
    var u := UserOf(n, tag, s).value;
    PatchedIs(n, tag, prev, next, deleted, added, modified, u);
    UsersOfIs(n, tag, next, u);
    DiffOfUnique(prev, next, deleted, added, modified, s);
    assert Stranded(n, tag, deleted, u);
    if t :| t in next && UserOf(n, tag, t) == Some(u) {
      SameUserKey(n, tag, s, t);
    }
  }

  lemma SameBuilders(n: NodeInfo, tag: string, prev: seq<Subscription>, next: seq<Subscription>,
                     deleted: seq<Subscription>, added: seq<Subscription>, modified: seq<Subscription>, u: User)
    requires UniqueIds(prev) && UniqueIds(next) && ListDiff(prev, next, deleted, added, modified)
    requires KeptUsersSame(n, tag, prev, next) && !Strands(n, deleted)
    ensures HoldsUser(Patched(n, tag, prev, deleted, added), u) <==> HoldsUser(UsersOf(n, tag, next), u)
  {
    PatchedIs(n, tag, prev, next, deleted, added, modified, u);
    UsersOfIs(n, tag, next, u);
    assert !Stranded(n, tag, deleted, u);
    if s :| s in next && UserOf(n, tag, s) == Some(u) {
      DiffOfUnique(prev, next, deleted, added, modified, s);
      if s !in added {
        var t :| t in prev && t.id == s.id;
        DiffOfUnique(prev, next, deleted, added, modified, t);
        assert t !in deleted && UserOf(n, tag, t) == Some(u);
      } else {
        assert s !in [];
      }
    }
    if s :| s in prev && s !in deleted && UserOf(n, tag, s) == Some(u) {
      DiffOfUnique(prev, next, deleted, added, modified, s);
      var t :| t in next && t.id == s.id;
      assert UserOf(n, tag, t) == Some(u);
    }
    if s :| s in added && UserOf(n, tag, s) == Some(u) {
      DiffOfUnique(prev, next, deleted, added, modified, s);
    }
  }

  lemma NotStranded(n: NodeInfo, tag: string, prev: seq<Subscription>, next: seq<Subscription>,
                    deleted: seq<Subscription>, added: seq<Subscription>, modified: seq<Subscription>,
                    t: Subscription)
    requires UniqueIds(prev) && UniqueIds(next) && ListDiff(prev, next, deleted, added, modified)
    requires t in next && UserOf(n, tag, t).Some?
    ensures !Stranded(n, tag, deleted, UserOf(n, tag, t).value)
  {
    var u := UserOf(n, tag, t).value;
    if i, j :| 0 <= i < j < |deleted| && CredentialOf(n, deleted[i]).None? && UserOf(n, tag, deleted[j]) == Some(u) {
      DiffOfUnique(prev, next, deleted, added, modified, deleted[j]);
      SameUserKey(n, tag, deleted[j], t);
    }
  }

  lemma KeptDiffers(n: NodeInfo, tag: string, prev: seq<Subscription>, next: seq<Subscription>,
                    deleted: seq<Subscription>, added: seq<Subscription>, modified: seq<Subscription>,
                    s: Subscription, t: Subscription)
    requires UniqueIds(prev) && UniqueIds(next) && ListDiff(prev, next, deleted, added, modified)
    requires s in prev && t in next && s.id == t.id && UserOf(n, tag, s) != UserOf(n, tag, t)
    ensures Patched(n, tag, prev, deleted, added) != UsersOf(n, tag, next)
  {
    DiffOfUnique(prev, next, deleted, added, modified, s);
    DiffOfUnique(prev, next, deleted, added, modified, t);
    if UserOf(n, tag, s).Some? {
      var u := UserOf(n, tag, s).value;
      PatchedIs(n, tag, prev, next, deleted, added, modified, u);
      UsersOfIs(n, tag, next, u);
      if t' :| t' in next && UserOf(n, tag, t') == Some(u) {
        SameUserKey(n, tag, s, t');
        UniqueId(next, t, t');
      }
    } else {
      var u := UserOf(n, tag, t).value;
      PatchedIs(n, tag, prev, next, deleted, added, modified, u);
      UsersOfIs(n, tag, next, u);
      NotStranded(n, tag, prev, next, deleted, added, modified, t);
      if s' :| s' in prev && s' !in deleted && UserOf(n, tag, s') == Some(u) {
        SameUserKey(n, tag, s', t);
        UniqueId(prev, s, s');
      }
      if s' :| s' in added && UserOf(n, tag, s') == Some(u) {
        SameUserKey(n, tag, s', t);
        DiffOfUnique(prev, next, deleted, added, modified, s');
      }
    }
  }

  // Installed users and what is kept for them.

  /** No kept Id with an installed user changed its email. */
  ghost predicate EmailsKept(n: NodeInfo, prev: seq<Subscription>, next: seq<Subscription>) {
    forall s, t :: s in prev && t in next && s.id == t.id && CredentialOf(n, s).Some? ==> s.email == t.email
  }

  /** Every installed user's key is that of a listed subscription. */
  ghost predicate AllListed(tag: string, users: UserMap, list: seq<Subscription>) {
    forall k :: k in users ==> k in KeysOf(tag, list)
  }

  /** After a patch some installed user has a key that the new list does not have exactly
      if a kept Id changed its email or a leaving user was stranded. */
  lemma PatchedListed(n: NodeInfo, tag: string, prev: seq<Subscription>, next: seq<Subscription>,
                      deleted: seq<Subscription>, added: seq<Subscription>, modified: seq<Subscription>)
    requires UniqueIds(prev) && UniqueIds(next) && ListDiff(prev, next, deleted, added, modified)
    ensures AllListed(tag, Patched(n, tag, prev, deleted, added), next) <==>
            EmailsKept(n, prev, next) && !Strands(n, deleted)
  {
    var users := Patched(n, tag, prev, deleted, added);
    KeysOfIs(tag, next);
    if EmailsKept(n, prev, next) && !Strands(n, deleted) {
      forall k | k in users ensures k in KeysOf(tag, next) {
        PatchedFrom(n, tag, prev, next, deleted, added, modified, User(k, users[k]));
      }
    } else if s, t :| s in prev && t in next && s.id == t.id && CredentialOf(n, s).Some? && s.email != t.email {
      var u := UserOf(n, tag, s).value;
      PatchedIs(n, tag, prev, next, deleted, added, modified, u);
      DiffOfUnique(prev, next, deleted, added, modified, s);
      assert u.key in users;
      NotListed(tag, next, s, t);
    } else {
      var i, j :| 0 <= i < j < |deleted| && CredentialOf(n, deleted[i]).None? && CredentialOf(n, deleted[j]).Some?;
      var u := UserOf(n, tag, deleted[j]).value;
      PatchedIs(n, tag, prev, next, deleted, added, modified, u);
      DiffOfUnique(prev, next, deleted, added, modified, deleted[j]);
      assert Stranded(n, tag, deleted, u) && u.key in users;
      if t :| t in next && u.key == Key(tag, t.email, t.id) {
        KeyInjective(tag, deleted[j].email, deleted[j].id, t.email, t.id);
      }
    }
  }

  lemma PatchedFrom(n: NodeInfo, tag: string, prev: seq<Subscription>, next: seq<Subscription>,
                    deleted: seq<Subscription>, added: seq<Subscription>, modified: seq<Subscription>, u: User)
    requires UniqueIds(prev) && UniqueIds(next) && ListDiff(prev, next, deleted, added, modified)
    requires EmailsKept(n, prev, next) && !Strands(n, deleted)
    requires HoldsUser(Patched(n, tag, prev, deleted, added), u)
    ensures u.key in KeysOf(tag, next)
  {
    PatchedIs(n, tag, prev, next, deleted, added, modified, u);
    KeysOfIs(tag, next);
    assert !Stranded(n, tag, deleted, u);
    if s :| s in prev && s !in deleted && UserOf(n, tag, s) == Some(u) {
      DiffOfUnique(prev, next, deleted, added, modified, s);
      var t :| t in next && t.id == s.id;
      assert u.key == Key(tag, t.email, t.id);
    } else {
      var s :| s in added && UserOf(n, tag, s) == Some(u);
      DiffOfUnique(prev, next, deleted, added, modified, s);
    }
  }

  lemma NotListed(tag: string, next: seq<Subscription>, s: Subscription, t: Subscription)
    requires UniqueIds(next) && t in next && s.id == t.id && s.email != t.email
    ensures Key(tag, s.email, s.id) !in KeysOf(tag, next)
  {
    KeysOfIs(tag, next);
    if t' :| t' in next && Key(tag, s.email, s.id) == Key(tag, t'.email, t'.id) {
      KeyInjective(tag, s.email, s.id, t'.email, t'.id);
      UniqueId(next, t, t');
    }
  }
}
