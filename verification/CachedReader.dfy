/** `cachedReader`: a reader that lets the sniffer look ahead without taking
    bytes away from the connection. */
module CachedReader {

  type Bytes = seq<bv8>

  function Min(a: nat, b: nat): nat {
    if a < b then a else b
  }

  // The reader as a state machine on values.

  datatype Position = Position(delivered: Bytes, cache: Bytes, unread: Bytes)

  /** One call; `arrives` bytes are ready in the underlying reader, or it fails
      and returns no data. */
  datatype Op = Look(arrives: nat, fails: bool) | Read(arrives: nat, fails: bool)

  function Stream(v: Position): Bytes {
    v.delivered + v.cache + v.unread
  }

  function LookStep(v: Position, arrives: nat, fails: bool): Position {
    if fails then v else
      var n := Min(arrives, |v.unread|);
      v.(cache := v.cache + v.unread[..n], unread := v.unread[n..])
  }

  function ReadStep(v: Position, arrives: nat, fails: bool): Position {
    if v.cache != [] then v.(delivered := v.delivered + v.cache, cache := [])
    else if fails then v
    else
      var n := Min(arrives, |v.unread|);
      v.(delivered := v.delivered + v.unread[..n], unread := v.unread[n..])
  }

  function Apply(v: Position, op: Op): Position {
    match op
    case Look(arrives, fails) => LookStep(v, arrives, fails)
    case Read(arrives, fails) => ReadStep(v, arrives, fails)
  }

  function Run(v: Position, ops: seq<Op>): Position {
    if ops == [] then v else Apply(Run(v, ops[..|ops| - 1]), ops[|ops| - 1])
  }

  /** What a look leaves in a sniffing buffer of the given capacity. */
  function Payload(v: Position, capacity: nat): Bytes {
    v.cache[..Min(|v.cache|, capacity)]
  }

  lemma StepKeepsStream(v: Position, op: Op)
    ensures Stream(Apply(v, op)) == Stream(v)
    ensures v.delivered <= Apply(v, op).delivered
  {
    var n := Min(op.arrives, |v.unread|);
    assert v.unread[..n] + v.unread[n..] == v.unread;
    if op.Look? {
      assert v.cache + v.unread[..n] + v.unread[n..] == v.cache + v.unread;
    }
  }

  /** Transparency: no run of looks and reads loses, repeats or reorders a byte;
      what was delivered is a prefix of the stream, and a sniffing payload is
      always the bytes that will be delivered next. */
  lemma {:induction false} Transparent(v: Position, ops: seq<Op>, capacity: nat)
    ensures var w := Run(v, ops);
            && Stream(w) == Stream(v)
            && v.delivered <= w.delivered <= Stream(v)
            && Payload(w, capacity) == Stream(v)[|w.delivered|..][..Min(|w.cache|, capacity)]
  {
    var w := Run(v, ops);
    if ops != [] {
      var mid := Run(v, ops[..|ops| - 1]);
      Transparent(v, ops[..|ops| - 1], capacity);
      StepKeepsStream(mid, ops[|ops| - 1]);
      assert v.delivered <= mid.delivered <= w.delivered;
    }
    assert Stream(w)[|w.delivered|..] == w.cache + w.unread;
    assert Stream(w)[..|w.delivered|] == w.delivered;
  }

  /** As long as no read takes the cache, payloads only extend. */
  lemma {:induction false} PayloadsExtend(v: Position, ops: seq<Op>, capacity: nat)
    requires Run(v, ops).delivered == v.delivered
    ensures Payload(v, capacity) <= Payload(Run(v, ops), capacity)
  {
    if ops != [] {
      var mid := Run(v, ops[..|ops| - 1]);
      Transparent(v, ops[..|ops| - 1], capacity);
      StepKeepsStream(mid, ops[|ops| - 1]);
      assert mid.delivered == v.delivered;
      PayloadsExtend(v, ops[..|ops| - 1], capacity);
      ReadKeepsCache(mid, ops[|ops| - 1]);
    }
  }

  lemma ReadKeepsCache(v: Position, op: Op)
    requires Apply(v, op).delivered == v.delivered
    ensures v.cache <= Apply(v, op).cache
  {
    assert op.Read? ==> |Apply(v, op).delivered| >= |v.delivered| + |v.cache|;
  }

  // Progress.

  /** A look that does not fail takes all that is ready into the cache. */
  lemma LookTakes(v: Position, arrives: nat)
    ensures var w, k := Apply(v, Look(arrives, false)), if arrives <= |v.unread| then arrives else |v.unread|;
            w == Position(v.delivered, v.cache + v.unread[..k], v.unread[k..])
  {
  }

  /** A read delivers the whole cache, or without a cache all that is ready. */
  lemma ReadDelivers(v: Position, arrives: nat, fails: bool)
    ensures v.cache != [] ==>
              Apply(v, Read(arrives, fails)) == Position(v.delivered + v.cache, [], v.unread)
    ensures v.cache == [] && !fails ==>
              var k := if arrives <= |v.unread| then arrives else |v.unread|;
              Apply(v, Read(arrives, fails)) == Position(v.delivered + v.unread[..k], [], v.unread[k..])
    ensures v.cache == [] && fails ==> Apply(v, Read(arrives, fails)) == v
  {
  }

  /** Reads that all succeed. */
  predicate AllRead(ops: seq<Op>) {
    forall i :: 0 <= i < |ops| ==> ops[i].Read? && !ops[i].fails
  }

  function Arriving(ops: seq<Op>): nat {
    if ops == [] then 0 else Arriving(ops[..|ops| - 1]) + ops[|ops| - 1].arrives
  }

  /** Without a cache any successful reads deliver exactly what arrived, as far as there is any. */
  lemma {:induction false} ReadsDeliver(v: Position, ops: seq<Op>)
    requires AllRead(ops) && v.cache == []
    ensures var k := if Arriving(ops) <= |v.unread| then Arriving(ops) else |v.unread|;
            Run(v, ops) == Position(v.delivered + v.unread[..k], [], v.unread[k..])
  {
    hide Apply;
    if ops == [] {
      assert v.unread[..0] == [] && v.delivered + [] == v.delivered;
    } else {
      var init, last := ops[..|ops| - 1], ops[|ops| - 1];
      ReadsDeliver(v, init);
      var mid := Run(v, init);
      ReadDelivers(mid, last.arrives, last.fails);
      assert last == Read(last.arrives, last.fails);
      TwoPieces(v, if Arriving(init) <= |v.unread| then Arriving(init) else |v.unread|,
                if last.arrives <= |mid.unread| then last.arrives else |mid.unread|);
    }
  }

  lemma TwoPieces(v: Position, j: nat, k: nat)
    requires j + k <= |v.unread|
    ensures v.delivered + v.unread[..j] + v.unread[j..][..k] == v.delivered + v.unread[..j + k]
    ensures v.unread[j..][k..] == v.unread[j + k..]
  {
    assert v.unread[..j + k] == v.unread[..j] + v.unread[j..][..k];
  }

  lemma {:induction false} RunFromFirst(v: Position, ops: seq<Op>)
    requires ops != []
    ensures Run(v, ops) == Run(Apply(v, ops[0]), ops[1..])
  {
    hide Apply;
    if |ops| == 1 {
      assert ops[..0] == [] && ops[1..] == [];
    } else {
      var init := ops[..|ops| - 1];
      RunFromFirst(v, init);
      assert ops[1..][..|ops[1..]| - 1] == init[1..];
    }
  }

  /** Any successful reads with enough arrivals, after one read for a cache, deliver the
      whole stream. */
  lemma EverythingArrives(v: Position, ops: seq<Op>)
    requires AllRead(ops)
    requires if v.cache == [] then Arriving(ops) >= |v.unread| else ops != [] && Arriving(ops[1..]) >= |v.unread|
    ensures Run(v, ops).delivered == v.delivered + v.cache + v.unread
  {
    if v.cache == [] {
      ReadsDeliver(v, ops);
      assert v.unread[..|v.unread|] == v.unread && v.delivered + v.cache == v.delivered;
    } else {
      RunFromFirst(v, ops);
      ReadDelivers(v, ops[0].arrives, ops[0].fails);
      var w := Apply(v, ops[0]);
      ReadsDeliver(w, ops[1..]);
      assert w.unread[..|w.unread|] == w.unread;
    }
  }

  // The reader object.

  /** The reader below: a pipe or a wrapped reader. An interrupted pipe discards
      what it holds, and later reads of it fail. */
  class Source {
    const pipe: bool
    var unread: Bytes
    var interrupted: bool

    constructor (bytes: Bytes, pipe: bool)
      ensures unread == bytes && this.pipe == pipe && !interrupted
    {
      unread, interrupted, this.pipe := bytes, false, pipe;
    }

    method ReadMultiBuffer(arrives: nat, fails: bool) returns (ok: bool, mb: Bytes)
      modifies `unread
      ensures ok == !(fails || interrupted)
      ensures mb == if ok then old(unread)[..Min(arrives, |old(unread)|)] else []
      ensures unread == if ok then old(unread)[Min(arrives, |old(unread)|)..] else old(unread)
    {
      if fails || interrupted {
        return false, [];
      }
      var n := Min(arrives, |unread|);
      ok, mb, unread := true, unread[..n], unread[n..];
    }

    method Interrupt()
      modifies this
      ensures interrupted && unread == []
    {
      interrupted, unread := true, [];
    }
  }

  class Reader {
    const reader: Source
    var cache: Bytes
    ghost var delivered: Bytes

    constructor (source: Source)
      ensures reader == source && cache == [] && delivered == []
    {
      reader, cache, delivered := source, [], [];
    }

    ghost function View(): Position
      reads this, reader
    {
      Position(delivered, cache, reader.unread)
    }

    /** `Cache`: look ahead and copy what fits into the sniffing buffer `b`. */
    method Cache(b: Bytes, capacity: nat, arrives: nat, fails: bool) returns (ok: bool, b': Bytes)
      modifies this, reader`unread
      ensures View() == Apply(old(View()), Look(arrives, fails || reader.interrupted))
      ensures ok == !(fails || reader.interrupted)
      ensures b' == if ok then cache[..if |cache| <= capacity then |cache| else capacity] else b
      ensures ok ==>
                var unread := old(reader.unread);
                var k := if arrives <= |unread| then arrives else |unread|;
                cache == old(cache) + unread[..k] && reader.unread == unread[k..]
    {
      var mb;
      ok, mb := reader.ReadMultiBuffer(arrives, fails);
      if !ok {
        return false, b;
      }
      if mb != [] {
        cache := cache + mb;
      }
      b' := cache[..Min(|cache|, capacity)];
    }

    method ReadInternal() returns (mb: Bytes)
      modifies this
      ensures mb == old(cache) && cache == [] && delivered == old(delivered) + mb
    {
      mb := [];
      if cache != [] {
        mb := cache;
        cache := [];
      }
      delivered := delivered + mb;
    }

    /** `ReadMultiBuffer` and `ReadMultiBufferTimeout`. */
    method ReadMultiBuffer(arrives: nat, fails: bool) returns (ok: bool, mb: Bytes)
      modifies this, reader`unread
      ensures View() == Apply(old(View()), Read(arrives, fails || reader.interrupted))
      ensures delivered == old(delivered) + mb
      ensures ok == (old(cache) != [] || !(fails || reader.interrupted))
      ensures old(cache) != [] ==> mb == old(cache) && reader.unread == old(reader.unread)
      ensures old(cache) == [] && ok ==>
                var unread := old(reader.unread);
                var k := if arrives <= |unread| then arrives else |unread|;
                mb == unread[..k] && reader.unread == unread[k..]
    {
      mb := ReadInternal();
      if mb != [] {
        return true, mb;
      }
      ok, mb := reader.ReadMultiBuffer(arrives, fails);
      delivered := delivered + mb;
    }

    /** `Interrupt`: the looked-ahead bytes are dropped and, if a pipe is below, all
        the rest; from then on nothing more is delivered from a pipe. */
    method Interrupt()
      modifies this, reader
      ensures View() == old(View()).(cache := [], unread := if reader.pipe then [] else old(reader.unread))
      ensures reader.interrupted == (reader.pipe || old(reader.interrupted))
    {
      if cache != [] {
        cache := [];
      }
      if reader.pipe {
        reader.Interrupt();
      }
    }
  }

  /** After an interrupt over a pipe no run delivers anything more. */
  lemma {:induction false} NothingAfterInterrupt(v: Position, ops: seq<Op>)
    requires v.cache == [] && v.unread == []
    ensures Run(v, ops) == v
  {
    if ops != [] {
      NothingAfterInterrupt(v, ops[..|ops| - 1]);
      assert v.unread[..0] == [] && v.unread[0..] == [] && v.cache + [] == v.cache && v.delivered + [] == v.delivered;
    }
  }
}
