/** Protocol sniffing: `Sniff` narrows its list of candidates round by round.
    On growing payloads the narrowed list succeeds exactly when the full list
    would, and with the same result. */
module Sniffing {
  import opened Basics

  datatype Network = TCP | UDP | OtherNetwork

  /** The outcome of one protocol sniffer: `Reject` stands for any other error
      and for a missing result. */
  datatype Answer = NoClue | NeedMoreData | Hit(result: string) | Reject

  datatype Candidate = Candidate(sniff: seq<bv8> -> Answer, metadata: bool, network: Network)

  datatype Outcome = Found(result: string) | WantMore | Clueless | Unknown

  // One round of the full list, as a function.

  function Live(c: Candidate, network: Network): bool {
    !c.metadata && c.network == network
  }

  /** The candidates of this network, in order. */
  function Matching(list: seq<Candidate>, network: Network): seq<Candidate> {
    if list == [] then []
    else if Live(list[0], network) then [list[0]] + Matching(list[1..], network)
    else Matching(list[1..], network)
  }

  /** A round is decided by the first live candidate that matches or asks for more. */
  predicate Decides(c: Candidate, network: Network, payload: seq<bv8>) {
    Live(c, network) && (c.sniff(payload).NeedMoreData? || c.sniff(payload).Hit?)
  }

  function FirstDecisive(list: seq<Candidate>, network: Network, payload: seq<bv8>): Option<Candidate> {
    if list == [] then None
    else if Decides(list[0], network, payload) then Some(list[0])
    else FirstDecisive(list[1..], network, payload)
  }

  function PendingOf(list: seq<Candidate>, network: Network, payload: seq<bv8>): seq<Candidate> {
    if list == [] then []
    else
      (if Live(list[0], network) && list[0].sniff(payload).NoClue? then [list[0]] else [])
      + PendingOf(list[1..], network, payload)
  }

  lemma NothingPending(network: Network, payload: seq<bv8>)
    ensures PendingOf([], network, payload) == []
  {
  }

  function OutcomeOf(list: seq<Candidate>, network: Network, payload: seq<bv8>): Outcome {
    match FirstDecisive(list, network, payload)
    case Some(c) => if c.sniff(payload).Hit? then Found(c.sniff(payload).result) else WantMore
    case None => if PendingOf(list, network, payload) != [] then Clueless else Unknown
  }

  /** The list a round leaves for the next one. */
  function Narrowed(list: seq<Candidate>, network: Network, payload: seq<bv8>): seq<Candidate> {
    match OutcomeOf(list, network, payload)
    case WantMore => [FirstDecisive(list, network, payload).value]
    case Clueless => PendingOf(list, network, payload)
    case _ => list
  }

  lemma {:induction false} PendingSnoc(list: seq<Candidate>, c: Candidate, network: Network, payload: seq<bv8>)
    ensures PendingOf(list + [c], network, payload) ==
            PendingOf(list, network, payload) + if Live(c, network) && c.sniff(payload).NoClue? then [c] else []
  {
    if list == [] {
      assert list + [c] == [c];
    } else {
      PendingSnoc(list[1..], c, network, payload);
      assert (list + [c])[1..] == list[1..] + [c];
    }
  }

  lemma {:induction false} FirstIs(list: seq<Candidate>, network: Network, payload: seq<bv8>, i: nat)
    requires i <= |list| && forall j :: 0 <= j < i ==> !Decides(list[j], network, payload)
    requires i < |list| ==> Decides(list[i], network, payload)
    ensures FirstDecisive(list, network, payload) == if i < |list| then Some(list[i]) else None
  {
    if i > 0 {
      FirstIs(list[1..], network, payload, i - 1);
    }
  }

  // What a round decides, candidate by candidate.

  /** Candidate i is asked in this round and gives this answer. */
  ghost predicate Answers(list: seq<Candidate>, network: Network, payload: seq<bv8>, i: int, answer: Answer) {
    0 <= i < |list| && !list[i].metadata && list[i].network == network && list[i].sniff(payload) == answer
  }

  /** Candidate i is the first that recognises the payload or asks for more. */
  ghost predicate DecidesFirst(list: seq<Candidate>, network: Network, payload: seq<bv8>, i: int, answer: Answer) {
    && Answers(list, network, payload, i, answer) && (answer.Hit? || answer.NeedMoreData?)
    && forall j, other :: 0 <= j < i && Answers(list, network, payload, j, other) ==> other.NoClue? || other.Reject?
  }

  lemma {:induction false} FirstExists(list: seq<Candidate>, network: Network, payload: seq<bv8>) returns (i: nat)
    ensures i <= |list| && forall j :: 0 <= j < i ==> !Decides(list[j], network, payload)
    ensures i < |list| ==> Decides(list[i], network, payload)
  {
    i := 0;
    while i < |list| && !Decides(list[i], network, payload)
      invariant i <= |list| && forall j :: 0 <= j < i ==> !Decides(list[j], network, payload)
    {
      i := i + 1;
    }
  }

  lemma {:induction false} PendingIs(list: seq<Candidate>, network: Network, payload: seq<bv8>)
    ensures PendingOf(list, network, payload) != [] <==> exists i :: Answers(list, network, payload, i, NoClue)
  {
    if list != [] {
      PendingIs(list[1..], network, payload);
      if i :| Answers(list, network, payload, i, NoClue) {
        assert i > 0 ==> Answers(list[1..], network, payload, i - 1, NoClue);
      }
      if i :| Answers(list[1..], network, payload, i, NoClue) {
        assert Answers(list, network, payload, i + 1, NoClue);
      }
      if Live(list[0], network) && list[0].sniff(payload).NoClue? {
        assert Answers(list, network, payload, 0, NoClue);
      }
    }
  }

  /** The outcome of a round: what the first candidate that recognises the payload or asks
      for more says; without one, whether somebody has no clue yet. */
  lemma OutcomeIs(list: seq<Candidate>, network: Network, payload: seq<bv8>)
    ensures forall result :: OutcomeOf(list, network, payload) == Found(result) <==>
              exists i :: DecidesFirst(list, network, payload, i, Hit(result))
    ensures OutcomeOf(list, network, payload) == WantMore <==>
              exists i :: DecidesFirst(list, network, payload, i, NeedMoreData)
    ensures OutcomeOf(list, network, payload) == Clueless <==>
              && (forall i, answer :: !DecidesFirst(list, network, payload, i, answer))
              && exists i :: Answers(list, network, payload, i, NoClue)
  {
    var i := FirstExists(list, network, payload);
    FirstIs(list, network, payload, i);
    PendingIs(list, network, payload);
    forall j, answer | DecidesFirst(list, network, payload, j, answer) ensures j == i {
      assert Decides(list[j], network, payload);
      if i < j {
        assert Answers(list, network, payload, i, list[i].sniff(payload));
      }
    }
    if i < |list| {
      assert DecidesFirst(list, network, payload, i, list[i].sniff(payload)) by {
        forall j, other | 0 <= j < i && Answers(list, network, payload, j, other)
          ensures other.NoClue? || other.Reject?
        {
          assert !Decides(list[j], network, payload);
        }
      }
    }
  }

  /** `Sniffer` with the list it narrows in place. */
  class Sniffer {
    var sniffer: seq<Candidate>

    constructor (list: seq<Candidate>)
      ensures sniffer == list
    {
      sniffer := list;
    }

    method Sniff(payload: seq<bv8>, network: Network) returns (r: Outcome)
      modifies this
      ensures r == OutcomeOf(old(sniffer), network, payload)
      ensures sniffer == Narrowed(old(sniffer), network, payload)
    {
      hide FirstDecisive, PendingOf;
      var pendingSniffer: seq<Candidate> := [];
      NothingPending(network, payload);
      for i := 0 to |sniffer|
        invariant sniffer == old(sniffer)
        invariant pendingSniffer == PendingOf(sniffer[..i], network, payload)
        invariant forall j :: 0 <= j < i ==> !Decides(sniffer[j], network, payload)
      {
        var si := sniffer[i];
        PendingSnoc(sniffer[..i], si, network, payload);
        assert sniffer[..i + 1] == sniffer[..i] + [si];
        if si.metadata || si.network != network {
          continue;
        }
        var answer := si.sniff(payload);
        match answer
        case NoClue =>
          pendingSniffer := pendingSniffer + [si];
        case NeedMoreData =>
          FirstIs(sniffer, network, payload, i);
          sniffer := [si];
          return WantMore;
        case Hit(result) =>
          FirstIs(sniffer, network, payload, i);
          return Found(result);
        case Reject =>
      }
      FirstIs(sniffer, network, payload, |sniffer|);
      assert sniffer[..|sniffer|] == sniffer;
      if |pendingSniffer| > 0 {
        sniffer := pendingSniffer;
        return Clueless;
      }
      r := Unknown;
    }

    /** The metadata round runs once, on connection establishment, with no payload. */
    method SniffMetadata() returns (r: Outcome)
      modifies this
      ensures r == MetadataOutcome(old(sniffer))
      ensures sniffer == if r.Clueless? then MetadataPending(old(sniffer)) else old(sniffer)
    {
      hide MetadataPending, MetadataOutcomeAfter;
      var pendingSniffer: seq<Candidate> := [];
      assert sniffer[0..] == sniffer;
      for i := 0 to |sniffer|
        invariant sniffer == old(sniffer)
        invariant MetadataOutcome(sniffer) == MetadataOutcomeAfter(pendingSniffer != [], sniffer[i..])
        invariant MetadataPending(sniffer) == pendingSniffer + MetadataPending(sniffer[i..])
      {
        var si := sniffer[i];
        NextMetadata(pendingSniffer, sniffer, i);
        if !si.metadata {
          pendingSniffer := pendingSniffer + [si];
          continue;
        }
        var answer := si.sniff([]);
        if answer.NoClue? {
          pendingSniffer := pendingSniffer + [si];
          continue;
        }
        if answer.Hit? {
          return Found(answer.result);
        }
      }
      NoMetadataLeft(pendingSniffer, sniffer[|sniffer|..]);
      if |pendingSniffer| > 0 {
        sniffer := pendingSniffer;
        return Clueless;
      }
      r := Unknown;
    }
  }

  /** Candidate i is the first metadata candidate that recognises the connection. */
  ghost predicate FirstMetadataHit(list: seq<Candidate>, i: int, result: string) {
    && 0 <= i < |list| && list[i].metadata && list[i].sniff([]) == Hit(result)
    && forall j :: 0 <= j < i && list[j].metadata ==> !list[j].sniff([]).Hit?
  }

  ghost predicate LeftForLater(list: seq<Candidate>, i: int) {
    0 <= i < |list| && (!list[i].metadata || list[i].sniff([]).NoClue?)
  }

  lemma {:induction false} MetadataOutcomeAfterIs(pending: bool, list: seq<Candidate>)
    ensures forall result :: MetadataOutcomeAfter(pending, list) == Found(result) <==>
              exists i :: FirstMetadataHit(list, i, result)
    ensures MetadataOutcomeAfter(pending, list) == Clueless <==>
              && (forall i, result :: !FirstMetadataHit(list, i, result))
              && (pending || exists i :: LeftForLater(list, i))
    ensures MetadataOutcomeAfter(pending, list) != WantMore
    decreases |list|
  {
    if list != [] {
      var rest := list[1..];
      var waits := !list[0].metadata || list[0].sniff([]).NoClue?;
      MetadataOutcomeAfterIs(pending || waits, rest);
      assert forall i :: 0 < i < |list| ==> rest[i - 1] == list[i];
      if list[0].metadata && list[0].sniff([]).Hit? {
        assert FirstMetadataHit(list, 0, list[0].sniff([]).result);
      } else {
        forall i, result | FirstMetadataHit(list, i, result) ensures FirstMetadataHit(rest, i - 1, result) {
        }
        forall i, result | FirstMetadataHit(rest, i, result) ensures FirstMetadataHit(list, i + 1, result) {
        }
        forall i | LeftForLater(list, i) ensures (i == 0 && waits) || LeftForLater(rest, i - 1) {
        }
        forall i | LeftForLater(rest, i) ensures LeftForLater(list, i + 1) {
        }
        assert waits ==> LeftForLater(list, 0);
      }
    }
  }

  /** The metadata round reports the first hit, whoever else is left. */
  lemma MetadataOutcomeIs(list: seq<Candidate>)
    ensures forall result :: MetadataOutcome(list) == Found(result) <==> exists i :: FirstMetadataHit(list, i, result)
    ensures MetadataOutcome(list) == Clueless <==>
              && (forall i, result :: !FirstMetadataHit(list, i, result))
              && exists i :: LeftForLater(list, i)
  {
    MetadataOutcomeAfterIs(false, list);
  }

  lemma NextMetadata(pending: seq<Candidate>, list: seq<Candidate>, i: nat)
    requires i < |list|
    ensures var c, rest := list[i], list[i + 1..];
            var waits := !c.metadata || c.sniff([]).NoClue?;
            && MetadataOutcomeAfter(pending != [], list[i..]) ==
                 (if c.metadata && c.sniff([]).Hit? then Found(c.sniff([]).result)
                  else MetadataOutcomeAfter(pending != [] || waits, rest))
            && pending + MetadataPending(list[i..]) ==
                 (if waits then pending + [c] else pending) + MetadataPending(rest)
  {
    var c, rest := list[i], list[i + 1..];
    assert list[i..] == [c] + rest;
    FirstOfMetadata(pending != [], c, rest);
    hide MetadataOutcomeAfter, MetadataPending;
    InTheMiddle(pending, if !c.metadata || c.sniff([]).NoClue? then [c] else [], MetadataPending(rest));
  }

  lemma FirstOfMetadata(pending: bool, c: Candidate, rest: seq<Candidate>)
    ensures var waits := !c.metadata || c.sniff([]).NoClue?;
            && MetadataOutcomeAfter(pending, [c] + rest) ==
                 (if c.metadata && c.sniff([]).Hit? then Found(c.sniff([]).result)
                  else MetadataOutcomeAfter(pending || waits, rest))
            && MetadataPending([c] + rest) == (if waits then [c] else []) + MetadataPending(rest)
  {
    assert ([c] + rest)[1..] == rest;
  }

  lemma NoMetadataLeft(pending: seq<Candidate>, rest: seq<Candidate>)
    requires rest == []
    ensures MetadataOutcomeAfter(pending != [], rest) == (if pending != [] then Clueless else Unknown)
    ensures pending + MetadataPending(rest) == pending
  {
  }

  function MetadataPending(list: seq<Candidate>): seq<Candidate> {
    if list == [] then []
    else (if !list[0].metadata || list[0].sniff([]).NoClue? then [list[0]] else []) + MetadataPending(list[1..])
  }

  function MetadataOutcomeAfter(pending: bool, list: seq<Candidate>): Outcome
    decreases |list|
  {
    if list == [] then (if pending then Clueless else Unknown)
    else if list[0].metadata && list[0].sniff([]).Hit? then Found(list[0].sniff([]).result)
    else MetadataOutcomeAfter(pending || !list[0].metadata || list[0].sniff([]).NoClue?, list[1..])
  }

  function MetadataOutcome(list: seq<Candidate>): Outcome {
    MetadataOutcomeAfter(false, list)
  }

  /** The metadata round never drops a candidate that payload rounds use. */
  lemma {:induction false} MetadataKeepsPayloadCandidates(list: seq<Candidate>, network: Network)
    ensures Matching(MetadataPending(list), network) == Matching(list, network)
  {
    if list != [] {
      MetadataKeepsPayloadCandidates(list[1..], network);
      var head := MetadataPending([list[0]]);
      assert [list[0]][1..] == [];
      if !list[0].metadata || list[0].sniff([]).NoClue? {
        assert MetadataPending(list)[1..] == MetadataPending(list[1..]);
      } else {
        assert MetadataPending(list) == MetadataPending(list[1..]);
      }
    }
  }

  // Soundness of narrowing.

  /** A rejection persists when the payload grows. */
  ghost predicate RejectionsPersist(list: seq<Candidate>) {
    forall i, p, q :: 0 <= i < |list| && p <= q && list[i].sniff(p).Reject? ==> list[i].sniff(q).Reject?
  }

  /** Once one candidate asks for more data, none of the others succeeds or asks
      for more on a longer payload. */
  ghost predicate OneAsks(list: seq<Candidate>) {
    forall i, j, p, q :: 0 <= i < |list| && 0 <= j < |list| && i != j && p < q && list[i].sniff(p).NeedMoreData? ==>
      list[j].sniff(q).NoClue? || list[j].sniff(q).Reject?
  }

  ghost predicate AllLive(list: seq<Candidate>, network: Network) {
    forall i :: 0 <= i < |list| ==> Live(list[i], network)
  }

  lemma {:induction false} OnlyMatchingCounts(list: seq<Candidate>, network: Network, payload: seq<bv8>)
    ensures var m := Matching(list, network);
            && AllLive(m, network)
            && FirstDecisive(list, network, payload) == FirstDecisive(m, network, payload)
            && PendingOf(list, network, payload) == PendingOf(m, network, payload)
  {
    if list != [] {
      OnlyMatchingCounts(list[1..], network, payload);
      if Live(list[0], network) {
        assert Matching(list, network)[1..] == Matching(list[1..], network);
      }
    }
  }

  /** Leaving out candidates that rejected a prefix changes nothing. */
  lemma {:induction false} DroppedDoNotCount(full: seq<Candidate>, network: Network, p: seq<bv8>, q: seq<bv8>)
    requires AllLive(full, network) && RejectionsPersist(full) && p <= q
    requires FirstDecisive(full, network, p) == None
    ensures FirstDecisive(PendingOf(full, network, p), network, q) == FirstDecisive(full, network, q)
    ensures PendingOf(PendingOf(full, network, p), network, q) == PendingOf(full, network, q)
  {
    if full != [] {
      var rest := full[1..];
      assert RejectionsPersist(rest) by {
        forall i, a, b | 0 <= i < |rest| && a <= b && rest[i].sniff(a).Reject? ensures rest[i].sniff(b).Reject? {
          assert full[i + 1].sniff(a).Reject?;
        }
      }
      DroppedDoNotCount(rest, network, p, q);
      if full[0].sniff(p).NoClue? {
        assert PendingOf(full, network, p)[1..] == PendingOf(rest, network, p);
      } else {
        assert full[0].sniff(p).Reject?;
        assert PendingOf(full, network, p) == PendingOf(rest, network, p);
      }
    }
  }

  /** Candidate i asked for more at `p` and decided that round. */
  ghost predicate Asked(full: seq<Candidate>, network: Network, i: nat, p: seq<bv8>) {
    i < |full| && full[i].sniff(p).NeedMoreData? && forall j :: 0 <= j < i ==> !Decides(full[j], network, p)
  }

  lemma {:induction false} DeciderAsked(full: seq<Candidate>, network: Network, p: seq<bv8>) returns (i: nat)
    requires AllLive(full, network) && OutcomeOf(full, network, p) == WantMore
    ensures Asked(full, network, i, p) && FirstDecisive(full, network, p) == Some(full[i])
  {
    if Decides(full[0], network, p) {
      i := 0;
    } else {
      var rest := full[1..];
      var j := DeciderAsked(rest, network, p);
      i := j + 1;
    }
  }

  /** Both succeed, with the same result, or neither does. */
  predicate Agree(a: Outcome, b: Outcome) {
    a.Found? || b.Found? ==> a == b
  }

  /** From the round in which a candidate asked for more, the full list succeeds
      exactly when that candidate alone does. */
  ghost predicate AskersSuffice(full: seq<Candidate>, network: Network) {
    forall i: nat, p, q :: Asked(full, network, i, p) && p <= q ==>
      Agree(OutcomeOf([full[i]], network, q), OutcomeOf(full, network, q))
  }

  lemma AskerAlone(full: seq<Candidate>, network: Network, i: nat, p: seq<bv8>, q: seq<bv8>)
    requires AllLive(full, network) && OneAsks(full) && Asked(full, network, i, p) && p <= q
    ensures Agree(OutcomeOf([full[i]], network, q), OutcomeOf(full, network, q))
  {
    var c := full[i];
    assert [c][1..] == [];
    if p == q {
      FirstIs(full, network, q, i);
    } else {
      assert p < q;
      forall j | 0 <= j < |full| && j != i ensures !Decides(full[j], network, q) {
      }
      FirstIs(full, network, q, if Decides(c, network, q) then i else |full|);
    }
    FirstIs([c], network, q, if Decides(c, network, q) then 0 else 1);
  }

  /** If after one asks no other succeeds or asks, the askers suffice. */
  lemma OneAsksSuffices(full: seq<Candidate>, network: Network)
    requires AllLive(full, network) && OneAsks(full)
    ensures AskersSuffice(full, network)
  {
    forall i: nat, p, q | Asked(full, network, i, p) && p <= q
      ensures Agree(OutcomeOf([full[i]], network, q), OutcomeOf(full, network, q))
    {
      AskerAlone(full, network, i, p, q);
    }
  }

  // Whole runs.

  function After(list: seq<Candidate>, network: Network, payloads: seq<seq<bv8>>): seq<Candidate> {
    if payloads == [] then list
    else Narrowed(After(list, network, payloads[..|payloads| - 1]), network, payloads[|payloads| - 1])
  }

  ghost predicate Growing(payloads: seq<seq<bv8>>) {
    forall j, k :: 0 <= j <= k < |payloads| ==> payloads[j] <= payloads[k]
  }

  /** No round so far ended the loop. */
  ghost predicate Undecided(list: seq<Candidate>, network: Network, payloads: seq<seq<bv8>>) {
    forall k :: 0 <= k < |payloads| ==>
      var o := OutcomeOf(After(list, network, payloads[..k]), network, payloads[k]);
      o == WantMore || o == Clueless
  }

  /** What the narrowed list is in terms of the full one. */
  ghost predicate Tracks(list: seq<Candidate>, full: seq<Candidate>, network: Network, last: seq<bv8>) {
    || (list == PendingOf(full, network, last) && FirstDecisive(full, network, last) == None)
    || (exists i: nat, p :: Asked(full, network, i, p) && p <= last && list == [full[i]])
  }

  lemma SingleStays(c: Candidate, network: Network, payload: seq<bv8>)
    ensures OutcomeOf([c], network, payload) in {WantMore, Clueless} ==> Narrowed([c], network, payload) == [c]
  {
    var none: seq<Candidate> := [];
    assert [c][1..] == none && PendingOf(none, network, payload) == [];
    if Decides(c, network, payload) {
      assert FirstDecisive([c], network, payload) == Some(c);
    } else {
      assert FirstDecisive([c], network, payload) == None;
    }
  }

  lemma RoundTracks(list: seq<Candidate>, full: seq<Candidate>, network: Network, last: seq<bv8>, payload: seq<bv8>)
    requires AllLive(full, network) && RejectionsPersist(full) && AskersSuffice(full, network)
    requires Tracks(list, full, network, last) && last <= payload
    ensures Agree(OutcomeOf(list, network, payload), OutcomeOf(full, network, payload))
    ensures OutcomeOf(list, network, payload) in {WantMore, Clueless} ==>
              Tracks(Narrowed(list, network, payload), full, network, payload)
  {
    if exists i: nat, p :: Asked(full, network, i, p) && p <= last && list == [full[i]] {
      var i: nat, p :| Asked(full, network, i, p) && p <= last && list == [full[i]];
      assert p <= payload;
      SingleStays(full[i], network, payload);
    } else {
      DroppedDoNotCount(full, network, last, payload);
      FreshRound(full, network, payload);
    }
  }

  lemma FreshRound(full: seq<Candidate>, network: Network, payload: seq<bv8>)
    requires AllLive(full, network)
    ensures OutcomeOf(full, network, payload) in {WantMore, Clueless} ==>
              Tracks(Narrowed(full, network, payload), full, network, payload)
  {
    if OutcomeOf(full, network, payload) == WantMore {
      var i := DeciderAsked(full, network, payload);
    }
  }

  lemma {:induction false} RunTracks(list: seq<Candidate>, network: Network, payloads: seq<seq<bv8>>)
    requires RejectionsPersist(Matching(list, network)) && AskersSuffice(Matching(list, network), network)
    requires payloads != [] && Growing(payloads) && Undecided(list, network, payloads)
    ensures Tracks(After(list, network, payloads), Matching(list, network), network, payloads[|payloads| - 1])
  {
    var full, init, payload := Matching(list, network), payloads[..|payloads| - 1], payloads[|payloads| - 1];
    OnlyMatchingCounts(list, network, payload);
    assert payloads[..|init|] == init;
    if init == [] {
      FreshRound(full, network, payload);
      assert After(list, network, init) == list;
    } else {
      forall k | 0 <= k < |init|
        ensures var o := OutcomeOf(After(list, network, init[..k]), network, init[k]); o == WantMore || o == Clueless
      {
        assert init[..k] == payloads[..k];
      }
      RunTracks(list, network, init);
      RoundTracks(After(list, network, init), full, network, init[|init| - 1], payload);
    }
  }

  /** Rounds on growing payloads, none of which ended the loop, and a next payload. */
  ghost predicate NextRound(list: seq<Candidate>, network: Network, payloads: seq<seq<bv8>>, payload: seq<bv8>) {
    && Growing(payloads) && (payloads != [] ==> payloads[|payloads| - 1] <= payload)
    && Undecided(list, network, payloads)
  }

  /** Narrowing is sound: after any undecided rounds on growing payloads, the next
      round succeeds exactly when rerunning the full list on its payload would,
      and with the same result. */
  lemma NarrowingIsSound(list: seq<Candidate>, network: Network, payloads: seq<seq<bv8>>, payload: seq<bv8>)
    requires RejectionsPersist(Matching(list, network)) && AskersSuffice(Matching(list, network), network)
    requires NextRound(list, network, payloads, payload)
    ensures Agree(OutcomeOf(After(list, network, payloads), network, payload), OutcomeOf(list, network, payload))
  {
    if payloads != [] {
      RunTracks(list, network, payloads);
      OnlyMatchingCounts(list, network, payload);
      RoundTracks(After(list, network, payloads), Matching(list, network), network, payloads[|payloads| - 1], payload);
    }
  }

  /** The round in which a candidate asks leaves that candidate alone. */
  lemma AfterAsking(list: seq<Candidate>, network: Network, i: nat, p: seq<bv8>)
    requires Asked(Matching(list, network), network, i, p)
    ensures OutcomeOf(list, network, p) == WantMore
    ensures After(list, network, [p]) == [Matching(list, network)[i]]
  {
    var full := Matching(list, network);
    OnlyMatchingCounts(list, network, p);
    FirstIs(full, network, p, i);
    assert [p][..0] == [] && After(list, network, []) == list;
    assert [p][|[p]| - 1] == p;
  }

  /** The exact condition: if rejections persist, narrowing agrees with the full list
      in all runs if and only if whoever asked for more suffices from then on. */
  lemma NarrowingSoundIff(list: seq<Candidate>, network: Network)
    requires RejectionsPersist(Matching(list, network))
    ensures (forall payloads, payload :: NextRound(list, network, payloads, payload) ==>
               Agree(OutcomeOf(After(list, network, payloads), network, payload), OutcomeOf(list, network, payload)))
       <==> AskersSuffice(Matching(list, network), network)
  {
    var full := Matching(list, network);
    if AskersSuffice(full, network) {
      forall payloads, payload | NextRound(list, network, payloads, payload)
        ensures Agree(OutcomeOf(After(list, network, payloads), network, payload), OutcomeOf(list, network, payload))
      {
        NarrowingIsSound(list, network, payloads, payload);
      }
    } else {
      var i: nat, p, q :| Asked(full, network, i, p) && p <= q
                          && !Agree(OutcomeOf([full[i]], network, q), OutcomeOf(full, network, q));
      AfterAsking(list, network, i, p);
      OnlyMatchingCounts(list, network, q);
      assert [p][..0] == [] && After(list, network, []) == list;
      assert NextRound(list, network, [p], q);
    }
  }

  /** An input on which the condition fails: narrowing misses a protocol that the
      full list recognises. */
  lemma NarrowingNeedsOneAsks(asks: Candidate, late: Candidate)
    requires Live(asks, TCP) && Live(late, TCP)
    requires asks.sniff([1]) == NeedMoreData && asks.sniff([1, 2]) == Reject
    requires late.sniff([1]) == NoClue && late.sniff([1, 2]) == Hit("late")
    ensures OutcomeOf([asks, late], TCP, [1, 2]) == Found("late")
    ensures OutcomeOf(After([asks, late], TCP, [[1]]), TCP, [1, 2]) == Unknown
  {
    var list, p: seq<bv8>, q: seq<bv8> := [asks, late], [1], [1, 2];
    FirstIs(list, TCP, p, 0);
    FirstIs(list, TCP, q, 1);
    assert [p][..0] == [];
    assert After(list, TCP, []) == list;
    assert Narrowed(list, TCP, p) == [asks];
    FirstIs([asks], TCP, q, 1);
    assert [asks][1..] == [] && PendingOf([asks], TCP, q) == [];
    assert [p][|[p]| - 1] == p;
  }
}
