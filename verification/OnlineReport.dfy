/** Online IP reports: what `GetOnlineDevice` hands over, and the per-Id counts
    that `ReportOnlineIPs` keeps of it. */
module OnlineReport {
  import opened Api
  import opened UserKey
  import opened LimiterSpec
  import L = Limiter

  /** Whatever order the maps are ranged in, a report lists every (user key, IP)
      pair admitted since the previous one exactly once, and leaves none behind. */
  lemma ReportIsTheWindow(info: InboundView, events: seq<Event>, list: seq<OnlineIP>, order: seq<(string, string)>)
    requires info.online == map[]
    requires L.Enumerates(Run(info, events).online, list, order)
    ensures |list| == |order| && L.NoRepeats(order)
    ensures forall pair :: pair in order <==> pair in Admitted(info, events)
    ensures forall i :: 0 <= i < |list| ==> list[i].ip == order[i].1
    ensures Admitted(info, events + [Report]) == {}
    ensures |list| == |Admitted(info, events)|
  {
    OnlineIsHistory(info, events);
    forall pair ensures pair in order <==> pair in Admitted(info, events) {
      assert IsOnline(Run(info, events), pair.0, pair.1) <==> (pair.0, pair.1) in Admitted(info, events);
    }
    assert forall i :: 0 <= i < |list| ==> L.IsEntry(Run(info, events).online, order[i], list[i]);
    SizeOfEnumeration(order, Admitted(info, events));
  }

  /** Each listed element carries the Id of the user it was admitted under. */
  lemma ReportNamesTheUser(info: InboundView, list: seq<OnlineIP>, order: seq<(string, string)>, i: nat, email: string,
                           id: int)
    requires TrueIds(info) && L.Enumerates(info.online, list, order)
    requires i < |list| && order[i].0 == Key(info.tag, email, id)
    ensures list[i].id == id
  {
    assert L.IsEntry(info.online, order[i], list[i]);
    assert IsOnline(info, order[i].0, order[i].1);
    HasOneId(info.tag, order[i].0, list[i].id, id);
  }

  lemma {:induction false} SizeOfEnumeration<T>(order: seq<T>, s: set<T>)
    requires forall i, j :: 0 <= i < j < |order| ==> order[i] != order[j]
    requires forall x :: x in order <==> x in s
    ensures |order| == |s|
  {
    if order == [] {
      assert s == {};
    } else {
      var init, last := order[..|order| - 1], order[|order| - 1];
      assert order == init + [last];
      SizeOfEnumeration(init, s - {last});
    }
  }

  // Counting.

  function Count(list: seq<OnlineIP>, id: int): nat {
    if list == [] then 0 else Count(list[..|list| - 1], id) + if list[|list| - 1].id == id then 1 else 0
  }

  ghost function Total<K>(m: map<K, int>): int
    decreases |m|
  {
    if m == map[] then 0 else
      assert m.Keys != {};
      var id :| id in m.Keys;
      assert (m - {id}).Keys == m.Keys - {id};
      m[id] + Total(m - {id})
  }

  lemma {:induction false} TotalWithout<K>(m: map<K, int>, id: K)
    requires id in m
    ensures Total(m) == m[id] + Total(m - {id})
    decreases |m|
  {
    var k :| k in m.Keys && Total(m) == m[k] + Total(m - {k});
    if k != id {
      assert (m - {k}).Keys == m.Keys - {k} && (m - {id}).Keys == m.Keys - {id};
      TotalWithout(m - {k}, id);
      TotalWithout(m - {id}, k);
      assert m - {k} - {id} == m - {id} - {k};
    }
  }

  /** The counts a report leaves behind: for each Id its number of list elements. */
  ghost predicate CountsOf(list: seq<OnlineIP>, counts: map<int, int>) {
    && (forall id :: id in counts <==> Count(list, id) > 0)
    && (forall id :: id in counts ==> counts[id] == Count(list, id))
  }

  lemma {:induction false} CountsAddUp(list: seq<OnlineIP>, counts: map<int, int>)
    requires CountsOf(list, counts)
    ensures Total(counts) == |list|
  {
    if list == [] {
      forall id ensures id !in counts {
        assert Count(list, id) == 0;
      }
      assert counts == map[];
    } else {
      var init, id := list[..|list| - 1], list[|list| - 1].id;
      var before := if Count(init, id) > 0 then counts[id := Count(init, id)] else counts - {id};
      assert forall k :: Count(list, k) == Count(init, k) + if k == id then 1 else 0;
      CountsAddUp(init, before);
      TotalWithout(counts, id);
      assert counts - {id} == before - {id};
      if id in before {
        TotalWithout(before, id);
      } else {
        assert before - {id} == before;
      }
    }
  }

  /** `api.Client`, reduced to what `ReportOnlineIPs` keeps and sends. */
  class Client {
    var lastReportOnline: map<int, int>

    constructor ()
      ensures lastReportOnline == map[]
    {
      lastReportOnline := map[];
    }

    method ReportOnlineIPs(onlineList: seq<OnlineIP>) returns (data: seq<OnlineIP>)
      modifies this
      ensures data == onlineList
      ensures CountsOf(onlineList, lastReportOnline) && Total(lastReportOnline) == |onlineList|
    {
      var reportOnline: map<int, int> := map[];
      data := [];
      for i := 0 to |onlineList|
        invariant data == onlineList[..i]
        invariant CountsOf(onlineList[..i], reportOnline)
      {
        assert onlineList[..i + 1][..i] == onlineList[..i];
        var sub := onlineList[i];
        data := data + [OnlineIP(sub.id, sub.ip)];
        if sub.id in reportOnline {
          reportOnline := reportOnline[sub.id := reportOnline[sub.id] + 1];
        } else {
          reportOnline := reportOnline[sub.id := 1];
        }
      }
      assert onlineList[..|onlineList|] == onlineList;
      lastReportOnline := reportOnline;
      CountsAddUp(onlineList, lastReportOnline);
    }
  }
}
