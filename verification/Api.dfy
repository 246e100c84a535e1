/** What the panel tells a node, as far as the model needs it. */
module Api {
  type uint64 = x: int | 0 <= x < 0x1_0000_0000_0000_0000

  datatype Subscription = Subscription(id: int, email: string, passwd: string, speedLimit: uint64, ipLimit: int)

  datatype OnlineIP = OnlineIP(id: int, ip: string)

  predicate UniqueIds(subs: seq<Subscription>) {
    forall i, j :: 0 <= i < j < |subs| ==> subs[i].id != subs[j].id
  }

  lemma UniqueId(list: seq<Subscription>, s: Subscription, t: Subscription)
    requires UniqueIds(list) && s in list && t in list && s.id == t.id
    ensures s == t
  {
  }
}
