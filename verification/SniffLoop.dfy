/** The sniffing loop of `app/dispatcher`: look ahead, sniff, and stop after two
    rounds without a clue or when the deadline is used up. */
module SniffLoop {
  import opened Basics
  import opened CachedReader
  import opened Sniffing

  const CACHE_DEADLINE := 200_000_000   // 200 ms in nanoseconds

  /** What the surroundings do in one round. */
  datatype Round = Round(cancelled: bool, arrives: nat, fails: bool, elapsed: nat)

  datatype Reason = Cancelled | ReadError | UnknownContent | Timeout

  datatype ContentResult = Sniffed(result: string) | Failed(reason: Reason)

  /** Bytes offered in rounds 0..n-1. */
  function Offered(env: nat -> Round, n: nat): nat {
    if n == 0 then 0 else Offered(env, n - 1) + env(n - 1).arrives
  }

  /** The payload of round k: a prefix of the stream. */
  function PayloadAt(stream: Bytes, env: nat -> Round, capacity: nat, k: nat): Bytes {
    stream[..Min(Min(Offered(env, k + 1), |stream|), capacity)]
  }

  lemma {:induction false} PayloadsGrow(stream: Bytes, env: nat -> Round, capacity: nat, j: nat, k: nat)
    requires j <= k
    ensures Offered(env, j) <= Offered(env, k)
    ensures PayloadAt(stream, env, capacity, j) <= PayloadAt(stream, env, capacity, k)
    decreases k
  {
    if j < k {
      PayloadsGrow(stream, env, capacity, j, k - 1);
    }
  }

  /** Clock time passes in every round in which some candidate asks for more data. */
  ghost predicate AskingTakesTime(list: seq<Candidate>, stream: Bytes, env: nat -> Round, capacity: nat) {
    forall k: nat, i :: 0 <= i < |list| && list[i].sniff(PayloadAt(stream, env, capacity, k)).NeedMoreData? ==>
        env(k).elapsed > 0
  }

  /** Rerunning the full list on the payload of round k. */
  ghost function FullOutcome(list: seq<Candidate>, network: Network, stream: Bytes, env: nat -> Round, capacity: nat,
                             k: nat): Outcome {
    OutcomeOf(list, network, PayloadAt(stream, env, capacity, k))
  }

  ghost predicate Recognised(list: seq<Candidate>, network: Network, stream: Bytes, env: nat -> Round, capacity: nat,
                             k: nat) {
    PayloadAt(stream, env, capacity, k) != [] && FullOutcome(list, network, stream, env, capacity, k).Found?
  }

  lemma {:induction false} NarrowedFromList(list: seq<Candidate>, network: Network, payload: Bytes)
    ensures forall c :: c in PendingOf(list, network, payload) ==> c in list
    ensures FirstDecisive(list, network, payload).Some? ==> FirstDecisive(list, network, payload).value in list
    ensures forall c :: c in Narrowed(list, network, payload) ==> c in list
  {
    if list != [] {
      NarrowedFromList(list[1..], network, payload);
    }
  }

  lemma AskerTakesTime(list: seq<Candidate>, now: seq<Candidate>, network: Network, stream: Bytes, env: nat -> Round,
                       capacity: nat, k: nat)
    requires AskingTakesTime(list, stream, env, capacity) && forall c :: c in now ==> c in list
    requires OutcomeOf(now, network, PayloadAt(stream, env, capacity, k)) == WantMore
    ensures env(k).elapsed > 0
  {
    var payload := PayloadAt(stream, env, capacity, k);
    NarrowedFromList(now, network, payload);
    FirstAsks(now, network, payload);
    var c := FirstDecisive(now, network, payload).value;
    var i :| 0 <= i < |list| && list[i] == c;
  }

  lemma {:induction false} FirstAsks(list: seq<Candidate>, network: Network, payload: Bytes)
    requires OutcomeOf(list, network, payload) == WantMore
    ensures FirstDecisive(list, network, payload).value.sniff(payload).NeedMoreData?
  {
    if !Decides(list[0], network, payload) {
      assert FirstDecisive(list[1..], network, payload) == FirstDecisive(list, network, payload);
      FirstAsks(list[1..], network, payload);
    }
  }

  /** The narrowed list and the rounds behind it. */
  ghost predicate Narrowing(now: seq<Candidate>, list: seq<Candidate>, network: Network, payloads: seq<Bytes>) {
    && now == After(list, network, payloads) && Growing(payloads) && Undecided(list, network, payloads)
    && forall c :: c in now ==> c in list
  }

  lemma NarrowingStep(now: seq<Candidate>, list: seq<Candidate>, network: Network, payloads: seq<Bytes>, payload: Bytes)
    requires Narrowing(now, list, network, payloads)
    requires payloads != [] ==> payloads[|payloads| - 1] <= payload
    requires OutcomeOf(now, network, payload) == WantMore || OutcomeOf(now, network, payload) == Clueless
    ensures Narrowing(Narrowed(now, network, payload), list, network, payloads + [payload])
  {
    var all := payloads + [payload];
    assert all[..|payloads|] == payloads;
    NarrowedFromList(now, network, payload);
    forall j, k | 0 <= j <= k < |all| ensures all[j] <= all[k] {
      if k == |payloads| && j < k {
        assert payloads[j] <= payloads[|payloads| - 1];
      }
    }
    forall k | 0 <= k < |all|
      ensures var o := OutcomeOf(After(list, network, all[..k]), network, all[k]); o == WantMore || o == Clueless
    {
      if k < |payloads| {
        assert all[..k] == payloads[..k] && all[k] == payloads[k];
      }
    }
  }

  lemma LookAhead(stream: Bytes, cache: Bytes, unread: Bytes, env: nat -> Round, capacity: nat, i: nat)
    requires cache + unread == stream && |cache| == Min(Offered(env, i), |stream|)
    ensures var n := Min(env(i).arrives, |unread|);
            var cache' := cache + unread[..n];
            && cache' + unread[n..] == stream && |cache'| == Min(Offered(env, i + 1), |stream|)
            && cache'[..Min(|cache'|, capacity)] == PayloadAt(stream, env, capacity, i)
  {
    var n := Min(env(i).arrives, |unread|);
    assert unread[..n] + unread[n..] == unread;
    assert cache + unread[..n] + unread[n..] == stream;
    assert stream[..|cache| + n] == cache + unread[..n];
  }

  /** The last payload sniffed is a prefix of every later one. */
  ghost predicate Behind(payloads: seq<Bytes>, payload: Bytes) {
    payloads != [] ==> payloads[|payloads| - 1] <= payload
  }

  /** The rounds before round n recognised nothing, as the full list would not have. */
  ghost predicate NothingYet(list: seq<Candidate>, network: Network, stream: Bytes, env: nat -> Round, capacity: nat,
                             n: nat) {
    forall k: nat :: k < n ==> !Recognised(list, network, stream, env, capacity, k)
  }

  /** One round that has something to sniff. */
  lemma SniffRound(now: seq<Candidate>, list: seq<Candidate>, network: Network, stream: Bytes, env: nat -> Round,
                   capacity: nat, i: nat, payloads: seq<Bytes>)
    requires RejectionsPersist(Matching(list, network)) && AskersSuffice(Matching(list, network), network)
    requires AskingTakesTime(list, stream, env, capacity)
    requires Narrowing(now, list, network, payloads) && Behind(payloads, PayloadAt(stream, env, capacity, i))
    requires PayloadAt(stream, env, capacity, i) != []
    ensures var outcome := OutcomeOf(now, network, PayloadAt(stream, env, capacity, i));
            && (outcome.Found? <==> Recognised(list, network, stream, env, capacity, i))
            && (outcome.Found? ==> FullOutcome(list, network, stream, env, capacity, i) == outcome)
            && (outcome == WantMore ==> env(i).elapsed > 0)
            && (outcome == WantMore || outcome == Clueless ==>
                  Narrowing(Narrowed(now, network, PayloadAt(stream, env, capacity, i)), list, network,
                            payloads + [PayloadAt(stream, env, capacity, i)]))
  {
    var payload := PayloadAt(stream, env, capacity, i);
    var outcome := OutcomeOf(now, network, payload);
    NarrowingIsSound(list, network, payloads, payload);
    if outcome == WantMore {
      AskerTakesTime(list, now, network, stream, env, capacity, i);
    }
    if outcome == WantMore || outcome == Clueless {
      NarrowingStep(now, list, network, payloads, payload);
    }
  }

  /** What surrounds one run of the loop. */
  datatype Setting = Setting(list: seq<Candidate>, network: Network, stream: Bytes, env: nat -> Round, capacity: nat)

  ghost predicate Assumptions(x: Setting) {
    && RejectionsPersist(Matching(x.list, x.network)) && AskersSuffice(Matching(x.list, x.network), x.network)
    && AskingTakesTime(x.list, x.stream, x.env, x.capacity)
  }

  // The loop, round by round.

  /** The candidates left before round k. */
  ghost function LoopList(x: Setting, k: nat): seq<Candidate> {
    if k == 0 then x.list else
      var payload := PayloadAt(x.stream, x.env, x.capacity, k - 1);
      if payload == [] then LoopList(x, k - 1) else Narrowed(LoopList(x, k - 1), x.network, payload)
  }

  /** The result with which round k ends the loop, if it does. */
  ghost function RoundResult(x: Setting, k: nat): Option<ContentResult> {
    var payload := PayloadAt(x.stream, x.env, x.capacity, k);
    if x.env(k).cancelled then Some(Failed(Cancelled))
    else if x.env(k).fails then Some(Failed(ReadError))
    else if payload == [] then None
    else
      match OutcomeOf(LoopList(x, k), x.network, payload)
      case Found(result) => Some(Sniffed(result))
      case Unknown => Some(Failed(UnknownContent))
      case WantMore => None
      case Clueless => None
  }

  /** Round k brought nothing or no clue. */
  ghost predicate Counts(x: Setting, k: nat) {
    var payload := PayloadAt(x.stream, x.env, x.capacity, k);
    payload == [] || OutcomeOf(LoopList(x, k), x.network, payload) == Clueless
  }

  ghost function Attempts(x: Setting, n: nat): nat {
    if n == 0 then 0 else Attempts(x, n - 1) + if Counts(x, n - 1) then 1 else 0
  }

  ghost function Elapsed(env: nat -> Round, n: nat): nat {
    if n == 0 then 0 else Elapsed(env, n - 1) + env(n - 1).elapsed
  }

  ghost predicate GivesUp(x: Setting, n: nat) {
    Attempts(x, n) >= 2 || Elapsed(x.env, n) >= CACHE_DEADLINE
  }

  /** Round k does not end the loop. */
  ghost predicate GoesOn(x: Setting, k: nat) {
    RoundResult(x, k) == None && !GivesUp(x, k + 1)
  }

  /** None of the rounds before round n ended the loop. */
  ghost predicate Reaches(x: Setting, n: nat) {
    forall k: nat :: k < n ==> GoesOn(x, k)
  }

  /** The loop ends with `r`: in round n, or by giving up after n rounds. */
  ghost predicate Ends(x: Setting, n: nat, r: ContentResult) {
    if r == Failed(Timeout) then n > 0 && Reaches(x, n - 1) && RoundResult(x, n - 1) == None && GivesUp(x, n)
    else Reaches(x, n) && RoundResult(x, n) == Some(r)
  }

  lemma NextRound(x: Setting, n: nat)
    requires Reaches(x, n) && RoundResult(x, n) == None
    ensures GivesUp(x, n + 1) ==> Ends(x, n + 1, Failed(Timeout))
    ensures !GivesUp(x, n + 1) ==> Reaches(x, n + 1)
    ensures Attempts(x, n + 1) == Attempts(x, n) + if Counts(x, n) then 1 else 0
    ensures Elapsed(x.env, n + 1) == Elapsed(x.env, n) + x.env(n).elapsed
  {
    hide RoundResult, GivesUp, Counts;
    if !GivesUp(x, n + 1) {
      assert GoesOn(x, n);
    } else {
      assert n + 1 - 1 == n;
    }
  }

  /** The last round looked at. */
  function LastRound(n: nat, r: ContentResult): nat {
    if r == Failed(Timeout) && n > 0 then n - 1 else n
  }

  lemma EndsNoSooner(x: Setting, n: nat, r: ContentResult, k: nat)
    requires Ends(x, n, r) && k < LastRound(n, r)
    ensures GoesOn(x, k)
  {
  }

  /** There is only one way to end. */
  lemma EndsOnce(x: Setting, n: nat, r: ContentResult, n': nat, r': ContentResult)
    requires Ends(x, n, r) && Ends(x, n', r')
    ensures n == n' && r == r'
  {
    hide Reaches;
    if LastRound(n, r) < LastRound(n', r') {
      EndsNoSooner(x, n', r', LastRound(n, r));
    } else if LastRound(n', r') < LastRound(n, r) {
      EndsNoSooner(x, n, r, LastRound(n', r'));
    }
  }

  /** A connection that says nothing is given up after two looks, or after the first one if
      that took 200 ms. */
  lemma SilentConnection(x: Setting)
    requires forall k: nat :: !x.env(k).cancelled && !x.env(k).fails && x.env(k).arrives == 0
    ensures Ends(x, if x.env(0).elapsed >= 200_000_000 then 1 else 2, Failed(Timeout))
  {
    assert Offered(x.env, 1) == 0 && Offered(x.env, 2) == 0;
    assert PayloadAt(x.stream, x.env, x.capacity, 0) == [] && PayloadAt(x.stream, x.env, x.capacity, 1) == [];
    assert Attempts(x, 1) == 1 && Attempts(x, 2) == 2;
    assert Elapsed(x.env, 1) == x.env(0).elapsed;
  }

  /** It is given up exactly when two rounds brought nothing or no clue, or the rounds took
      200 ms. */
  lemma TimeoutMeans(x: Setting, n: nat)
    requires Ends(x, n, Failed(Timeout))
    ensures n > 0 && (Attempts(x, n) == 2 || Elapsed(x.env, n) >= 200_000_000)
    ensures Attempts(x, n - 1) < 2 && Elapsed(x.env, n - 1) < 200_000_000
  {
    if n >= 2 {
      assert GoesOn(x, n - 2);
    }
  }

  /** The loop's state before round i. */
  ghost predicate Before(x: Setting, i: nat, payloads: seq<Bytes>, now: seq<Candidate>, v: Position) {
    && v.cache + v.unread == x.stream && |v.cache| == Min(Offered(x.env, i), |x.stream|)
    && Narrowing(now, x.list, x.network, payloads) && Behind(payloads, PayloadAt(x.stream, x.env, x.capacity, i))
    && NothingYet(x.list, x.network, x.stream, x.env, x.capacity, i)
    && now == LoopList(x, i)
  }

  ghost predicate RecognisedAs(x: Setting, k: nat, result: string) {
    PayloadAt(x.stream, x.env, x.capacity, k) != [] &&
        FullOutcome(x.list, x.network, x.stream, x.env, x.capacity, k) == Found(result)
  }

  /** The look-ahead of round i. */
  method Look(cReader: Reader, payload: Bytes, ghost x: Setting, ghost payloads: seq<Bytes>, ghost now: seq<Candidate>,
              ghost i: nat, capacity: nat, round: Round) returns (ok: bool, payload': Bytes)
    requires capacity == x.capacity && round == x.env(i) && Before(x, i, payloads, now, cReader.View())
    requires !cReader.reader.interrupted
    modifies cReader, cReader.reader`unread
    ensures cReader.delivered == old(cReader.delivered)
    ensures cReader.cache + cReader.reader.unread == x.stream
    ensures ok == !round.fails
    ensures ok ==> payload' == PayloadAt(x.stream, x.env, capacity, i)
    ensures ok ==> |cReader.cache| == Min(Offered(x.env, i + 1), |x.stream|)
  {
    LookAhead(x.stream, cReader.cache, cReader.reader.unread, x.env, capacity, i);
    ok, payload' := cReader.Cache(payload, capacity, round.arrives, round.fails);
  }

  lemma QuietRound(x: Setting, i: nat, payloads: seq<Bytes>, now: seq<Candidate>, v: Position, v': Position)
    requires Before(x, i, payloads, now, v) && PayloadAt(x.stream, x.env, x.capacity, i) == []
    requires v'.cache + v'.unread == x.stream && |v'.cache| == Min(Offered(x.env, i + 1), |x.stream|)
    ensures Before(x, i + 1, payloads, now, v')
  {
    PayloadsGrow(x.stream, x.env, x.capacity, i, i + 1);
  }

  lemma BusyRound(x: Setting, i: nat, payloads: seq<Bytes>, now: seq<Candidate>, v: Position, v': Position,
                  outcome: Outcome)
    requires Assumptions(x)
    requires Before(x, i, payloads, now, v) && PayloadAt(x.stream, x.env, x.capacity, i) != []
    requires outcome == OutcomeOf(now, x.network, PayloadAt(x.stream, x.env, x.capacity, i))
    requires v'.cache + v'.unread == x.stream && |v'.cache| == Min(Offered(x.env, i + 1), |x.stream|)
    ensures outcome.Found? ==> RecognisedAs(x, i, outcome.result)
    ensures !outcome.Found? ==> NothingYet(x.list, x.network, x.stream, x.env, x.capacity, i + 1)
    ensures outcome == WantMore ==> x.env(i).elapsed > 0
    ensures outcome == WantMore || outcome == Clueless ==>
              Before(x, i + 1, payloads + [PayloadAt(x.stream, x.env, x.capacity, i)],
                     Narrowed(now, x.network, PayloadAt(x.stream, x.env, x.capacity, i)), v')
  {
    SniffRound(now, x.list, x.network, x.stream, x.env, x.capacity, i, payloads);
    PayloadsGrow(x.stream, x.env, x.capacity, i, i + 1);
  }

  lemma FirstRound(x: Setting, v: Position)
    requires v.cache == [] && v.unread == x.stream
    ensures Before(x, 0, [], x.list, v) && Reaches(x, 0) && Attempts(x, 0) == 0 && Elapsed(x.env, 0) == 0
  {
  }

  lemma LoopFacts(x: Setting, i: nat, payloads: seq<Bytes>, now: seq<Candidate>, v: Position)
    requires Before(x, i, payloads, now, v)
    ensures NothingYet(x.list, x.network, x.stream, x.env, x.capacity, i)
  {
  }

  /** How a round ends: the loop's result, or whether it counts as an attempt. */
  datatype RoundEnd = Stop(r: ContentResult) | Again(counted: bool)

  /** What a stopping round may claim. */
  ghost predicate Justified(x: Setting, i: nat, r: ContentResult) {
    match r
    case Sniffed(result) => RecognisedAs(x, i, result) && NothingYet(x.list, x.network, x.stream, x.env, x.capacity, i)
    case Failed(reason) =>
      NothingYet(x.list, x.network, x.stream, x.env, x.capacity, if reason == UnknownContent then i + 1 else i)
  }

  /** The sniffing half of round i. */
  method SniffPayload(sniffer: Sniffer, payload: Bytes, network: Network, ghost x: Setting, ghost payloads: seq<Bytes>,
                      ghost i: nat, ghost v: Position, ghost v': Position)
    returns (end: RoundEnd, ghost payloads': seq<Bytes>)
    requires Assumptions(x) && network == x.network && payload == PayloadAt(x.stream, x.env, x.capacity, i)
    requires Before(x, i, payloads, sniffer.sniffer, v)
    requires v'.cache + v'.unread == x.stream && |v'.cache| == Min(Offered(x.env, i + 1), |x.stream|)
    requires !x.env(i).cancelled && !x.env(i).fails
    modifies sniffer
    ensures end.Stop? ==> RoundResult(x, i) == Some(end.r) != Some(Failed(Timeout)) && Justified(x, i, end.r)
    ensures end.Again? ==> RoundResult(x, i) == None && end.counted == Counts(x, i)
    ensures end.Again? ==> Before(x, i + 1, payloads', sniffer.sniffer, v') && (end.counted || x.env(i).elapsed > 0)
  {
    payloads' := payloads;
    if payload == [] {
      QuietRound(x, i, payloads, sniffer.sniffer, v, v');
      return Again(true), payloads;
    }
    ghost var now := sniffer.sniffer;
    var outcome := sniffer.Sniff(payload, network);
    BusyRound(x, i, payloads, now, v, v', outcome);
    payloads' := payloads + [payload];
    match outcome {
      case Found(result) => end := Stop(Sniffed(result));
      case Unknown => end := Stop(Failed(UnknownContent));
      case Clueless => end := Again(true);
      case WantMore => end := Again(false);
    }
  }

  /** Round i: look ahead, then sniff. */
  method OneRound(cReader: Reader, sniffer: Sniffer, payload: Bytes, network: Network, capacity: nat, round: Round,
                  ghost x: Setting, ghost payloads: seq<Bytes>, ghost i: nat)
    returns (end: RoundEnd, payload': Bytes, ghost payloads': seq<Bytes>)
    requires Assumptions(x) && network == x.network && capacity == x.capacity && round == x.env(i)
    requires Before(x, i, payloads, sniffer.sniffer, cReader.View()) && !cReader.reader.interrupted
    modifies cReader, cReader.reader`unread, sniffer
    ensures cReader.delivered == old(cReader.delivered) && cReader.cache + cReader.reader.unread == x.stream
    ensures end.Stop? ==> RoundResult(x, i) == Some(end.r) != Some(Failed(Timeout)) && Justified(x, i, end.r)
    ensures end.Again? ==> RoundResult(x, i) == None && end.counted == Counts(x, i)
    ensures end.Again? ==> Before(x, i + 1, payloads', sniffer.sniffer, cReader.View())
    ensures end.Again? ==> (end.counted || round.elapsed > 0)
  {
    payloads' := payloads;
    if round.cancelled {
      return Stop(Failed(Cancelled)), payload, payloads;
    }
    ghost var v := cReader.View();
    var ok;
    ok, payload' := Look(cReader, payload, x, payloads, sniffer.sniffer, i, capacity, round);
    if !ok {
      return Stop(Failed(ReadError)), payload', payloads;
    }
    end, payloads' := SniffPayload(sniffer, payload', network, x, payloads, i, v, cReader.View());
  }

  /** The loop, on a fresh reader. It ends by the measure (2 - attempts, remaining
      deadline); it consumes nothing from the stream; and it recognises a protocol
      exactly when the full sniffer list would on some payload it looked at, giving
      the result of the first such payload. */
  method SniffContent(cReader: Reader, sniffer: Sniffer, network: Network, capacity: nat, env: nat -> Round,
                      ghost x: Setting)
    returns (r: ContentResult, ghost rounds: nat)
    requires cReader.cache == [] && !cReader.reader.interrupted
    requires x == Setting(sniffer.sniffer, network, cReader.reader.unread, env, capacity) && Assumptions(x)
    modifies cReader, cReader.reader`unread, sniffer
    ensures cReader.cache + cReader.reader.unread == x.stream && cReader.delivered == old(cReader.delivered)
    ensures rounds <= 2 + CACHE_DEADLINE && Ends(x, rounds, r)
    ensures r != Failed(Timeout) ==> Justified(x, rounds, r)
    ensures r == Failed(Timeout) ==> NothingYet(x.list, network, x.stream, env, capacity, rounds)
  {
    hide Before, Reaches, RoundResult, Justified, NothingYet, Counts, Assumptions, Attempts, Elapsed;
    ghost var payloads: seq<Bytes> := [];
    var cacheDeadline, totalAttempt := CACHE_DEADLINE, 0;
    var payload: Bytes := [];
    var i: nat := 0;
    FirstRound(x, cReader.View());
    while true
      invariant i <= totalAttempt + (CACHE_DEADLINE - cacheDeadline)
      invariant totalAttempt < 2 && 0 < cacheDeadline <= CACHE_DEADLINE
      invariant cReader.delivered == old(cReader.delivered)
      invariant cacheDeadline == CACHE_DEADLINE - Elapsed(env, i) && totalAttempt == Attempts(x, i) && Reaches(x, i)
      invariant Before(x, i, payloads, sniffer.sniffer, cReader.View())
      decreases 2 - totalAttempt, cacheDeadline
    {
      var end;
      end, payload, payloads := OneRound(cReader, sniffer, payload, network, capacity, env(i), x, payloads, i);
      if end.Stop? {
        return end.r, i;
      }
      cacheDeadline := cacheDeadline - env(i).elapsed;
      if end.counted {
        totalAttempt := totalAttempt + 1;
      }
      NextRound(x, i);
      LoopFacts(x, i + 1, payloads, sniffer.sniffer, cReader.View());
      i := i + 1;
      if totalAttempt >= 2 || cacheDeadline <= 0 {
        return Failed(Timeout), i;
      }
    }
  }

  // The whole of `sniffer`: metadata first, then content.

  datatype Verdict =
    | Plain(result: string)                       // what one of the two found
    | Composite(domain: string, protocol: string) // both found something
    | NoMetadata                                  // only metadata was wanted
    | NoContent(reason: Reason)

  /** Metadata is never lost, and names the domain when both are known. */
  function Combined(metadata: Outcome, content: ContentResult): Verdict {
    match (metadata, content)
    case (Found(m), Sniffed(c)) => Composite(m, c)
    case (Found(m), Failed(_)) => Plain(m)
    case (_, Sniffed(c)) => Plain(c)
    case (_, Failed(reason)) => NoContent(reason)
  }

  function AfterMetadata(list: seq<Candidate>): seq<Candidate> {
    if MetadataOutcome(list) == Clueless then MetadataPending(list) else list
  }

  lemma {:induction false} MetadataPendingFromList(list: seq<Candidate>)
    ensures forall c :: c in MetadataPending(list) ==> c in list
  {
    if list != [] {
      MetadataPendingFromList(list[1..]);
    }
  }

  /** What the metadata round leaves serves the content rounds as the full list would. */
  lemma MetadataDoesNotMatter(x: Setting, now: seq<Candidate>)
    requires now == x.list || now == MetadataPending(x.list)
    ensures Assumptions(x) ==> Assumptions(x.(list := now))
    ensures forall k: nat, result :: RecognisedAs(x.(list := now), k, result) <==> RecognisedAs(x, k, result)
    ensures forall n: nat :: NothingYet(now, x.network, x.stream, x.env, x.capacity, n) <==>
              NothingYet(x.list, x.network, x.stream, x.env, x.capacity, n)
  {
    MetadataKeepsPayloadCandidates(x.list, x.network);
    MetadataPendingFromList(x.list);
    var y := x.(list := now);
    assert Matching(now, x.network) == Matching(x.list, x.network);
    if Assumptions(x) {
      forall k: nat, i | 0 <= i < |now| && now[i].sniff(PayloadAt(x.stream, x.env, x.capacity, k)).NeedMoreData?
        ensures x.env(k).elapsed > 0
      {
        assert now[i] in x.list;
        var j :| 0 <= j < |x.list| && x.list[j] == now[i];
      }
    }
    forall k: nat
      ensures FullOutcome(now, x.network, x.stream, x.env, x.capacity, k) ==
                FullOutcome(x.list, x.network, x.stream, x.env, x.capacity, k)
    {
      SameMatching(x.list, now, x.network, PayloadAt(x.stream, x.env, x.capacity, k));
    }
    assert forall k: nat :: Recognised(now, x.network, x.stream, x.env, x.capacity, k) <==>
        Recognised(x.list, x.network, x.stream, x.env, x.capacity, k);
  }

  lemma SameMatching(a: seq<Candidate>, b: seq<Candidate>, network: Network, payload: Bytes)
    requires Matching(a, network) == Matching(b, network)
    ensures OutcomeOf(a, network, payload) == OutcomeOf(b, network, payload)
  {
    OnlyMatchingCounts(a, network, payload);
    OnlyMatchingCounts(b, network, payload);
  }

  /** `sniffer`. The metadata verdict depends on the list alone; the content verdict
      is the one that the list from before the metadata round justifies. */
  method SniffConnection(cReader: Reader, sniffer: Sniffer, metadataOnly: bool, network: Network, capacity: nat,
                         env: nat -> Round, ghost x: Setting)
    returns (r: Verdict, ghost content: ContentResult, ghost rounds: nat)
    requires cReader.cache == [] && !cReader.reader.interrupted
    requires x == Setting(sniffer.sniffer, network, cReader.reader.unread, env, capacity) && Assumptions(x)
    modifies cReader, cReader.reader`unread, sniffer
    ensures cReader.cache + cReader.reader.unread == x.stream && cReader.delivered == old(cReader.delivered)
    ensures metadataOnly ==> cReader.cache == []
    ensures metadataOnly ==> r == (match MetadataOutcome(x.list) case Found(m) => Plain(m) case _ => NoMetadata)
    ensures !metadataOnly ==> r == Combined(MetadataOutcome(x.list), content)
    // The metadata result names the domain, the content result the protocol.
    ensures !metadataOnly && MetadataOutcome(x.list).Found? && content.Sniffed? ==>
              r == Composite(MetadataOutcome(x.list).result, content.result)
    ensures !metadataOnly && MetadataOutcome(x.list).Found? && content.Failed? ==>
              r == Plain(MetadataOutcome(x.list).result)
    ensures !metadataOnly && !MetadataOutcome(x.list).Found? ==>
              r == match content case Sniffed(c) => Plain(c) case Failed(reason) => NoContent(reason)
    ensures !metadataOnly ==> Ends(x.(list := AfterMetadata(x.list)), rounds, content)
    ensures !metadataOnly && content != Failed(Timeout) ==> Justified(x, rounds, content)
    ensures !metadataOnly && content == Failed(Timeout) ==> NothingYet(x.list, network, x.stream, env, capacity, rounds)
  {
    var metaResult := sniffer.SniffMetadata();
    if metadataOnly {
      r := if metaResult.Found? then Plain(metaResult.result) else NoMetadata;
      return r, Failed(Cancelled), 0;
    }
    ghost var y := x.(list := sniffer.sniffer);
    MetadataDoesNotMatter(x, sniffer.sniffer);
    var contentResult;
    contentResult, rounds := SniffContent(cReader, sniffer, network, capacity, env, y);
    content := contentResult;
    if contentResult.Failed? && metaResult.Found? {
      return Plain(metaResult.result), content, rounds;
    }
    if contentResult.Sniffed? && metaResult.Found? {
      return Composite(metaResult.result, contentResult.result), content, rounds;
    }
    r := if contentResult.Sniffed? then Plain(contentResult.result) else NoContent(contentResult.reason);
  }
}
