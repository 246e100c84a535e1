/** The text keys of subscriptions: the user key `tag|email|id` shared by the
    inbound's user list, the limiter and the traffic counters, and the global
    key `limit|email|id` under which all nodes share one set of IPs. */
module UserKey {
  import opened Decimal

  function Key(tag: string, email: string, id: int): string {
    tag + "|" + email + "|" + Dec(id)
  }

  /** `strings.Replace(s, what, by, 1)`: the leftmost occurrence, if any. */
  function ReplaceFirst(s: string, what: string, with: string): string
    decreases |s|
  {
    if what <= s then with + s[|what|..]
    else if s == "" then s
    else [s[0]] + ReplaceFirst(s[1..], what, with)
  }

  /** The key of `globalLimit`: the user key with its tag replaced by the limit. */
  function GlobalKey(tag: string, userKey: string, ipLimit: int): string {
    ReplaceFirst(userKey, tag, Dec(ipLimit))
  }

  /** Two texts cut at their last separator. */
  lemma CutLast(a: string, c: char, x: string, b: string, y: string)
    requires c !in x && c !in y
    requires a + [c] + x == b + [c] + y
    ensures a == b && x == y
  {
    var s, t := a + [c] + x, b + [c] + y;
    assert forall i :: |a| < i < |s| ==> s[i] == x[i - |a| - 1];
    assert forall i :: |b| < i < |t| ==> t[i] == y[i - |b| - 1];
    assert s[|a|] == t[|b|] == c;
    assert s[..|a|] == a && t[..|b|] == b;
    assert s[|a| + 1..] == x && t[|b| + 1..] == y;
  }

  /** Two texts cut at their first separator. */
  lemma CutFirst(a: string, c: char, x: string, b: string, y: string)
    requires c !in a && c !in b
    requires a + [c] + x == b + [c] + y
    ensures a == b && x == y
  {
    var s, t := a + [c] + x, b + [c] + y;
    assert s[|a|] == t[|b|] == c;
    assert s[..|a|] == a && t[..|b|] == b;
    assert s[|a| + 1..] == x && t[|b| + 1..] == y;
  }

  /** For one tag the user key determines the email and the Id, whatever
      characters (bars and digits included) the email holds. */
  lemma KeyInjective(tag: string, email: string, id: int, email': string, id': int)
    requires Key(tag, email, id) == Key(tag, email', id')
    ensures email == email' && id == id'
  {
    DecChars(id);
    DecChars(id');
    CutLast(tag + "|" + email, '|', Dec(id), tag + "|" + email', Dec(id'));
    assert (tag + "|" + email)[|tag| + 1..] == email;
    assert (tag + "|" + email')[|tag| + 1..] == email';
    DecInjective(id, id');
  }

  /** The global key does not mention the tag: all nodes use the same one. */
  lemma GlobalKeySharedByNodes(tag: string, email: string, id: int, ipLimit: int)
    ensures GlobalKey(tag, Key(tag, email, id), ipLimit) == Key(Dec(ipLimit), email, id)
  {
    var k := Key(tag, email, id);
    assert tag <= k by { assert k[..|tag|] == tag; }
    assert k[|tag|..] == "|" + email + "|" + Dec(id);
  }

  lemma LimitKeyInjective(ipLimit: int, email: string, id: int, ipLimit': int, email': string, id': int)
    requires Key(Dec(ipLimit), email, id) == Key(Dec(ipLimit'), email', id')
    ensures ipLimit == ipLimit' && email == email' && id == id'
  {
    hide Dec;
    DecChars(ipLimit);
    DecChars(ipLimit');
    var rest, rest' := email + "|" + Dec(id), email' + "|" + Dec(id');
    assert Key(Dec(ipLimit), email, id) == Dec(ipLimit) + "|" + rest;
    assert Key(Dec(ipLimit'), email', id') == Dec(ipLimit') + "|" + rest';
    CutFirst(Dec(ipLimit), '|', rest, Dec(ipLimit'), rest');
    DecInjective(ipLimit, ipLimit');
    KeyInjective(Dec(ipLimit), email, id, email', id');
  }

  /** Two nodes meet under one global key exactly when limit, email and Id agree. */
  lemma GlobalKeyInjective(tag: string, email: string, id: int, ipLimit: int,
                           tag': string, email': string, id': int, ipLimit': int)
    ensures GlobalKey(tag, Key(tag, email, id), ipLimit) == GlobalKey(tag', Key(tag', email', id'), ipLimit')
       <==> ipLimit == ipLimit' && email == email' && id == id'
  {
    hide *;
    GlobalKeySharedByNodes(tag, email, id, ipLimit);
    GlobalKeySharedByNodes(tag', email', id', ipLimit');
    if Key(Dec(ipLimit), email, id) == Key(Dec(ipLimit'), email', id') {
      LimitKeyInjective(ipLimit, email, id, ipLimit', email', id');
    }
  }
}
