/** Small laws of maps, stated once so that larger proofs need not rediscover them. */
module Maps {

  lemma OnTop<K, V>(base: map<K, V>, own: map<K, V>, more: map<K, V>, less: set<K>)
    ensures base + own + more == base + (own + more)
    ensures less !! base.Keys ==> (base + own) - less == base + (own - less)
  {
  }

  lemma PutOnTop<K, V>(base: map<K, V>, own: map<K, V>, k: K, v: V)
    ensures (base + own)[k := v] == base + own[k := v]
    ensures base + map[] == base && map[] + base == base
  {
  }

  lemma PutBelow<K, V>(top: map<K, V>, k: K, v: V, k': K, v': V)
    requires k !in top && k' !in top && k != k'
    ensures top[k' := v'][k := v] == map[k := v, k' := v'] + top
  {
  }

  lemma Cut<K, V>(main: map<K, V>, extra: map<K, V>, less: set<K>)
    requires main.Keys !! less && extra.Keys <= less
    ensures (main + extra) - less == main && (extra + main) - less == main
  {
  }

  lemma CutTwo<K, V>(m: map<K, V>, k: K, k': K)
    ensures m - {k} - {k'} == m - {k, k'}
  {
  }

  lemma OverwriteOnly<K, V>(k: K, a: V, b: V)
    ensures map[k := a][k := b] == map[k := b]
    ensures map[k := a] - {k} == map[]
  {
  }

  lemma CutMore<K, V>(m: map<K, V>, less: set<K>, k: K)
    ensures m - less - {k} == m - (less + {k})
    ensures k !in less ==> (k in m <==> k in m - less)
  {
  }

  lemma CutNothing<K, V>(m: map<K, V>, less: set<K>)
    ensures less == {} ==> m - less == m
  {
  }

  lemma PutSame<K, V>(m: map<K, V>, k: K)
    requires k in m
    ensures m[k := m[k]] == m
  {
  }

  lemma PutTwice<K, V>(m: map<K, V>, k: K, a: V, b: V)
    ensures m[k := a][k := b] == m[k := b]
  {
  }

  lemma SameButOne<K, V>(now: map<K, V>, before: map<K, V>, k: K)
    requires forall t :: t != k ==> (t in now <==> t in before) && (t in now ==> now[t] == before[t])
    ensures k in now ==> now == before[k := now[k]]
    ensures k !in now ==> now == before - {k}
  {
  }
}
