/** The port list of a node's blocking rules: `parsePortString`, a printer for
    its result, and the round trip between the two. */
module PortList {
  import opened Basics
  import opened Decimal

  datatype PortRange = PortRange(from: nat, to: nat)

  datatype Parsed<+T> = Ok(value: T) | Invalid(text: string)

  predicate Uint32Range(r: PortRange) {
    r.from < 0x1_0000_0000 && r.to < 0x1_0000_0000
  }

  predicate Uint32Ranges(rs: seq<PortRange>) {
    forall i :: 0 <= i < |rs| ==> Uint32Range(rs[i])
  }

  // Text helpers with the meaning of Go's strings package.

  /** Unicode White_Space, as `strings.TrimSpace` uses it. */
  predicate IsSpace(c: char) {
    '\t' <= c <= '\r' || c == ' ' || c == '\U{85}' || c == '\U{A0}' || c == '\U{1680}' || '\U{2000}' <= c <= '\U{200A}'
    || c == '\U{2028}' || c == '\U{2029}' || c == '\U{202F}' || c == '\U{205F}' || c == '\U{3000}'
  }

  function TrimSpace(s: string): string {
    if s == "" then ""
    else if IsSpace(s[0]) then TrimSpace(s[1..])
    else if IsSpace(s[|s| - 1]) then TrimSpace(s[..|s| - 1])
    else s
  }

  /** Index of the first `c`, or the length. */
  function Index(s: string, c: char): (i: nat)
    ensures i <= |s| && c !in s[..i] && (i < |s| ==> s[i] == c)
  {
    if s == "" || s[0] == c then 0 else
      var j := Index(s[1..], c);
      assert s[..j + 1] == [s[0]] + s[1..][..j];
      j + 1
  }

  lemma {:induction false} IndexOfJoin(a: string, c: char, b: string)
    requires c !in a
    ensures Index(a, c) == |a| && Index(a + [c] + b, c) == |a|
  {
    if a != "" {
      IndexOfJoin(a[1..], c, b);
      assert (a + [c] + b)[1..] == a[1..] + [c] + b;
    }
  }

  function Split(s: string, c: char): seq<string>
    decreases |s|
  {
    var i := Index(s, c);
    if i == |s| then [s] else [s[..i]] + Split(s[i + 1..], c)
  }

  lemma SplitHead(a: string, c: char, b: string)
    requires c !in a
    ensures Split(a, c) == [a] && Split(a + [c] + b, c) == [a] + Split(b, c)
  {
    var s := a + [c] + b;
    IndexOfJoin(a, c, b);
    assert s[..|a|] == a && s[|a| + 1..] == b;
  }

  // The parser.

  /** One trimmed, nonempty item: `from-to`, cut at its first dash, or a single port. */
  function ParseRange(p: string): Parsed<PortRange> {
    var d := Index(p, '-');
    if d < |p| then
      match (ParseUint32(TrimSpace(p[..d])), ParseUint32(TrimSpace(p[d + 1..])))
      case (None, _) => Invalid(p[..d])
      case (_, None) => Invalid(p[d + 1..])
      case (Some(f), Some(t)) => Ok(PortRange(f, t))
    else
      match ParseUint32(p)
      case None => Invalid(p)
      case Some(n) => Ok(PortRange(n, n))
  }

  function ParseItems(items: seq<string>): Parsed<seq<PortRange>> {
    if items == [] then Ok([])
    else
      var p := TrimSpace(items[0]);
      if p == "" then ParseItems(items[1..])
      else
        match ParseRange(p)
        case Invalid(text) => Invalid(text)
        case Ok(r) => After([r], ParseItems(items[1..]))
  }

  /** The outcome of a list of items some of whose leading ones gave `done`. */
  function After(done: seq<PortRange>, rest: Parsed<seq<PortRange>>): (r: Parsed<seq<PortRange>>)
    ensures done == [] ==> r == rest
  {
    if rest.Ok? then
      assert done == [] ==> done + rest.value == rest.value;
      Ok(done + rest.value)
    else rest
  }

  lemma AfterLaws(done: seq<PortRange>, r: PortRange, rest: Parsed<seq<PortRange>>)
    ensures After(done, After([r], rest)) == After(done + [r], rest)
    ensures After(done, Ok([])) == Ok(done)
  {
    assert done + [] == done;
    if rest.Ok? {
      assert done + ([r] + rest.value) == done + [r] + rest.value;
    }
  }

  function Parse(text: string): Parsed<seq<PortRange>> {
    if text == "" then Ok([]) else ParseItems(Split(text, ','))
  }

  /** The loop of `parsePortString`: it reports the first item it cannot read. */
  method ParsePortString(portStr: string) returns (r: Parsed<seq<PortRange>>)
    ensures r == Parse(portStr)
  {
    if portStr == "" {
      return Ok([]);
    }
    var portRanges := [];
    var ports := Split(portStr, ',');
    assert ports[0..] == ports;
    for i := 0 to |ports|
      invariant ParseItems(ports) == After(portRanges, ParseItems(ports[i..]))
    {
      var p := TrimSpace(ports[i]);
      assert ports[i..][1..] == ports[i + 1..];
      if p == "" {
        continue;
      }
      var dash := Index(p, '-');
      if dash < |p| {
        var from := ParseUint32(TrimSpace(p[..dash]));
        if from == None {
          return Invalid(p[..dash]);
        }
        var to := ParseUint32(TrimSpace(p[dash + 1..]));
        if to == None {
          return Invalid(p[dash + 1..]);
        }
        AfterLaws(portRanges, PortRange(from.value, to.value), ParseItems(ports[i + 1..]));
        portRanges := portRanges + [PortRange(from.value, to.value)];
      } else {
        var port := ParseUint32(p);
        if port == None {
          return Invalid(p);
        }
        AfterLaws(portRanges, PortRange(port.value, port.value), ParseItems(ports[i + 1..]));
        portRanges := portRanges + [PortRange(port.value, port.value)];
      }
    }
    AfterLaws(portRanges, PortRange(0, 0), Ok([]));
    r := Ok(portRanges);
  }

  // The printer and the round trip.

  function PrintRange(r: PortRange): string {
    if r.from == r.to then Natural(r.from) else Natural(r.from) + "-" + Natural(r.to)
  }

  function Print(rs: seq<PortRange>): string {
    if rs == [] then "" else if |rs| == 1 then PrintRange(rs[0]) else PrintRange(rs[0]) + "," + Print(rs[1..])
  }

  lemma NaturalIsPort(n: nat)
    requires n < 0x1_0000_0000
    ensures var s := Natural(n); s != "" && TrimSpace(s) == s && ParseUint32(s) == Some(n) && ',' !in s && '-' !in s
  {
    NaturalRoundTrip(n);
    var s := Natural(n);
    assert IsDigit(s[0]) && IsDigit(s[|s| - 1]);
  }

  lemma NothingToTrim(s: string)
    requires s != "" && IsDigit(s[0]) && IsDigit(s[|s| - 1])
    ensures TrimSpace(s) == s
  {
  }

  lemma PrintedRange(r: PortRange)
    requires Uint32Range(r)
    ensures PrintRange(r) != "" && ',' !in PrintRange(r)
    ensures TrimSpace(PrintRange(r)) == PrintRange(r) && ParseRange(PrintRange(r)) == Ok(r)
  {
    NaturalIsPort(r.from);
    NaturalIsPort(r.to);
    var f, t := Natural(r.from), Natural(r.to);
    if r.from == r.to {
      assert Index(f, '-') == |f|;
    } else {
      hide Value, TrimSpace, Natural, ParseUint32;
      var p := f + "-" + t;
      IndexOfJoin(f, '-', t);
      assert p[..|f|] == f && p[|f| + 1..] == t;
      NaturalRoundTrip(r.from);
      NaturalRoundTrip(r.to);
      assert IsDigit(p[0]) && IsDigit(p[|p| - 1]);
      NothingToTrim(p);
    }
  }

  lemma PrintedItem(r: PortRange, items: seq<string>)
    requires Uint32Range(r)
    ensures ParseItems([PrintRange(r)] + items) == After([r], ParseItems(items))
  {
    PrintedRange(r);
    assert ([PrintRange(r)] + items)[1..] == items;
  }

  /** Every list of 32-bit ranges is read back from its printed form. */
  lemma {:induction false} ParseOfPrint(rs: seq<PortRange>)
    requires Uint32Ranges(rs)
    ensures Parse(Print(rs)) == Ok(rs)
  {
    hide PrintRange, Split, Index, ParseRange, TrimSpace;
    if rs != [] {
      var p, rest := PrintRange(rs[0]), Print(rs[1..]);
      PrintedRange(rs[0]);
      SplitHead(p, ',', rest);
      ParseOfPrint(rs[1..]);
      assert rs == [rs[0]] + rs[1..];
      if |rs| == 1 {
        PrintedItem(rs[0], []);
        assert [p] + [] == [p];
      } else {
        PrintedRange(rs[1]);
        PrintedItem(rs[0], Split(rest, ','));
        assert p + [','] + rest == Print(rs);
      }
    }
  }

  lemma {:induction false} ItemsBounded(items: seq<string>)
    ensures ParseItems(items).Ok? ==> Uint32Ranges(ParseItems(items).value)
  {
    if items != [] {
      ItemsBounded(items[1..]);
    }
  }

  /** Whatever text is accepted, spaces and empty items included, its bounds fit
      in 32 bits and printing the result gives a normal form of the text. */
  lemma PrintOfParse(text: string)
    requires Parse(text).Ok?
    ensures Uint32Ranges(Parse(text).value)
    ensures Parse(Print(Parse(text).value)) == Parse(text)
  {
    ItemsBounded(Split(text, ','));
    ParseOfPrint(Parse(text).value);
  }

  // Which texts are accepted, and what they mean, without trimming or searching.

  predicate Blank(s: string) {
    forall i :: 0 <= i < |s| ==> IsSpace(s[i])
  }

  /** Nothing to trim. */
  predicate Trimmed(s: string) {
    s != "" ==> !IsSpace(s[0]) && !IsSpace(s[|s| - 1])
  }

  /** A decimal below 2^32 with any number of leading zeros, and blanks around it. */
  ghost predicate Number(text: string, n: nat) {
    exists a, d, b :: text == a + d + b && Blank(a) && Blank(b) && Digits(d, n)
  }

  predicate Digits(d: string, n: nat) {
    d != "" && AllDigits(d) && Value(d) == n < 0x1_0000_0000
  }

  /** Two numbers around the first dash. */
  ghost predicate Span(text: string, f: nat, t: nat) {
    exists x, y :: text == x + "-" + y && '-' !in x && Number(x, f) && Number(y, t)
  }

  /** One item means no range, a single port or a range. */
  ghost predicate Item(text: string, rs: seq<PortRange>) {
    || (Blank(text) && rs == [])
    || (exists n :: Number(text, n) && rs == [PortRange(n, n)])
    || (exists f, t :: Span(text, f, t) && rs == [PortRange(f, t)])
  }

  ghost predicate Items(items: seq<string>, rs: seq<PortRange>) {
    if items == [] then rs == []
    else exists k :: 0 <= k <= |rs| && Item(items[0], rs[..k]) && Items(items[1..], rs[k..])
  }

  function Join(items: seq<string>, c: char): string {
    if items == [] then "" else if |items| == 1 then items[0] else items[0] + [c] + Join(items[1..], c)
  }

  /** Items separated by commas. */
  ghost predicate PortText(text: string, rs: seq<PortRange>) {
    exists items: seq<string> ::
      items != [] && Join(items, ',') == text && (forall i :: 0 <= i < |items| ==> ',' !in items[i]) && Items(items, rs)
  }

  lemma {:induction false} LeadingZero(s: string)
    requires AllDigits(s)
    ensures AllDigits("0" + s) && Value("0" + s) == Value(s)
    decreases |s|
  {
    var z := "0" + s;
    if s == "" {
      assert z[..0] == "";
    } else {
      LeadingZero(s[..|s| - 1]);
      assert z[..|z| - 1] == "0" + s[..|s| - 1];
    }
  }

  lemma {:induction false} TrimParts(s: string) returns (a: string, b: string)
    ensures s == a + TrimSpace(s) + b && Blank(a) && Blank(b) && Trimmed(TrimSpace(s))
    decreases |s|
  {
    hide IsSpace;
    a, b := "", "";
    if s != "" {
      if IsSpace(s[0]) {
        a, b := TrimParts(s[1..]);
        a := [s[0]] + a;
        assert s == [s[0]] + s[1..];
      } else if IsSpace(s[|s| - 1]) {
        a, b := TrimParts(s[..|s| - 1]);
        b := b + [s[|s| - 1]];
        assert s == s[..|s| - 1] + [s[|s| - 1]];
      }
    }
  }

  lemma {:induction false} TrimOf(a: string, t: string, b: string)
    requires Blank(a) && Blank(b) && Trimmed(t)
    ensures TrimSpace(a + t + b) == t
    decreases |a| + |b|, |b|
  {
    var s := a + t + b;
    if a != "" {
      TrimOf(a[1..], t, b);
      assert s[1..] == a[1..] + t + b;
    } else if b != "" {
      if t == "" {
        TrimOf(b, "", "");
        assert b + "" + "" == s;
      } else {
        TrimOf("", t, b[..|b| - 1]);
        assert s[..|s| - 1] == "" + t + b[..|b| - 1];
      }
    } else {
      assert s == t;
    }
  }

  lemma TrimPad(a: string, u: string, b: string)
    requires Blank(a) && Blank(b)
    ensures TrimSpace(a + u + b) == TrimSpace(u)
  {
    var a', b' := TrimParts(u);
    var t := TrimSpace(u);
    assert a + u + b == (a + a') + t + (b' + b);
    TrimOf(a + a', t, b' + b);
  }

  lemma NumberIs(text: string, n: nat)
    ensures Number(text, n) <==> ParseUint32(TrimSpace(text)) == Some(n)
  {
    if a, d, b :| text == a + d + b && Blank(a) && Blank(b) && Digits(d, n) {
      assert IsDigit(d[0]) && IsDigit(d[|d| - 1]);
      TrimOf(a, d, b);
    }
    if ParseUint32(TrimSpace(text)) == Some(n) {
      var a, b := TrimParts(text);
      assert Digits(TrimSpace(text), n);
    }
  }

  lemma BlankIs(text: string)
    ensures Blank(text) <==> TrimSpace(text) == ""
  {
    var a, b := TrimParts(text);
    if Blank(text) {
      TrimOf(text, "", "");
      assert text + "" + "" == text;
    }
  }

  /** A text with a dash, cut at its first one, before or after trimming. */
  lemma DashIs(text: string, x: string, y: string)
    requires text == x + "-" + y && '-' !in x
    ensures var p := TrimSpace(text);
            var d := Index(p, '-');
            d < |p| && TrimSpace(p[..d]) == TrimSpace(x) && TrimSpace(p[d + 1..]) == TrimSpace(y)
  {
    hide TrimSpace, IsSpace;
    var a, b := TrimParts(text);
    var p := TrimSpace(text);
    DashBetween(a, p, b, |x|);
    var d := Index(p, '-');
    IndexIn(p, '-');
    var x', y' := a + p[..d], p[d + 1..] + b;
    assert p == p[..d] + "-" + p[d + 1..];
    assert text == x' + "-" + y';
    CutAtDash(x, y, x', y');
    assert x == a + p[..d] + "" && y == "" + p[d + 1..] + b;
    TrimPad(a, p[..d], "");
    TrimPad("", p[d + 1..], b);
  }

  lemma DashBetween(a: string, p: string, b: string, i: nat)
    requires Blank(a) && Blank(b) && i < |a + p + b| && (a + p + b)[i] == '-'
    ensures '-' in p && '-' !in a && '-' !in b
  {
  }

  lemma CutAtDash(x: string, y: string, x': string, y': string)
    requires x + "-" + y == x' + "-" + y' && '-' !in x && '-' !in x'
    ensures x == x' && y == y'
  {
    IndexOfJoin(x, '-', y);
    IndexOfJoin(x', '-', y');
    var s := x + "-" + y;
    assert s[..|x|] == x && s[|x| + 1..] == y;
    assert (x' + "-" + y')[..|x'|] == x' && (x' + "-" + y')[|x'| + 1..] == y';
  }

  lemma IndexIn(s: string, c: char)
    ensures c in s <==> Index(s, c) < |s|
  {
  }

  function ParseItem(text: string): Parsed<seq<PortRange>> {
    var p := TrimSpace(text);
    if p == "" then Ok([])
    else
      match ParseRange(p)
      case Invalid(t) => Invalid(t)
      case Ok(r) => Ok([r])
  }

  lemma NumbersAre(text: string)
    ensures forall n: nat :: Number(text, n) <==> ParseUint32(TrimSpace(text)) == Some(n)
  {
    forall n: nat ensures Number(text, n) <==> ParseUint32(TrimSpace(text)) == Some(n) {
      NumberIs(text, n);
    }
  }

  lemma ItemWithDash(text: string, rs: seq<PortRange>)
    requires '-' in TrimSpace(text)
    ensures Item(text, rs) <==> ParseItem(text) == Ok(rs)
  {
    hide ParseUint32, TrimSpace, Number, Span;
    var p := TrimSpace(text);
    BlankIs(text);
    NumbersAre(text);
    NoDigits(p);
    DashInside(text);
    var x, y := text[..Index(text, '-')], text[Index(text, '-') + 1..];
    assert text == x + "-" + y && '-' !in x;
    DashIs(text, x, y);
    NumbersAre(x);
    NumbersAre(y);
    forall f: nat, t: nat ensures Span(text, f, t) <==> Number(x, f) && Number(y, t) {
      SpanIs(text, x, y, f, t);
    }
  }

  lemma ItemWithoutDash(text: string, rs: seq<PortRange>)
    requires '-' !in TrimSpace(text)
    ensures Item(text, rs) <==> ParseItem(text) == Ok(rs)
  {
    assert ParseUint32("") == None;
    hide ParseUint32, TrimSpace, Number;
    BlankIs(text);
    NumbersAre(text);
    IndexIn(TrimSpace(text), '-');
    forall f: nat, t: nat ensures !Span(text, f, t) {
      if x, y :| text == x + "-" + y && '-' !in x && Number(x, f) && Number(y, t) {
        DashIs(text, x, y);
      }
    }
  }

  lemma ItemIs(text: string, rs: seq<PortRange>)
    ensures Item(text, rs) <==> ParseItem(text) == Ok(rs)
  {
    if '-' in TrimSpace(text) {
      ItemWithDash(text, rs);
    } else {
      ItemWithoutDash(text, rs);
    }
  }

  lemma DashInside(text: string)
    requires '-' in TrimSpace(text)
    ensures Index(text, '-') < |text|
  {
    var a, b := TrimParts(text);
    IndexIn(text, '-');
    assert '-' in a + TrimSpace(text) + b;
  }

  lemma SpanIs(text: string, x: string, y: string, f: nat, t: nat)
    requires text == x + "-" + y && '-' !in x
    ensures Span(text, f, t) <==> Number(x, f) && Number(y, t)
  {
    if x', y' :| text == x' + "-" + y' && '-' !in x' && Number(x', f) && Number(y', t) {
      CutAtDash(x, y, x', y');
    }
  }

  lemma NoDigits(p: string)
    requires '-' in p
    ensures ParseUint32(p) == None
  {
    var i :| 0 <= i < |p| && p[i] == '-';
    assert !IsDigit(p[i]);
  }

  lemma {:induction false} ItemsAre(items: seq<string>, rs: seq<PortRange>)
    ensures Items(items, rs) <==> ParseItems(items) == Ok(rs)
  {
    hide Item, ParseRange, TrimSpace;
    if items != [] {
      var rest := ParseItems(items[1..]);
      assert ParseItems(items) == Then(ParseItem(items[0]), rest);
      if k :| 0 <= k <= |rs| && Item(items[0], rs[..k]) && Items(items[1..], rs[k..]) {
        ItemIs(items[0], rs[..k]);
        ItemsAre(items[1..], rs[k..]);
        assert rs == rs[..k] + rs[k..];
      }
      if Then(ParseItem(items[0]), rest) == Ok(rs) {
        var k := |ParseItem(items[0]).value|;
        assert rs[..k] == ParseItem(items[0]).value && rs[k..] == rest.value;
        ItemIs(items[0], rs[..k]);
        ItemsAre(items[1..], rs[k..]);
      }
    }
  }

  function Then(first: Parsed<seq<PortRange>>, rest: Parsed<seq<PortRange>>): Parsed<seq<PortRange>> {
    if first.Invalid? then first else After(first.value, rest)
  }

  lemma {:induction false} SplitJoins(s: string, c: char)
    ensures Split(s, c) != [] && Join(Split(s, c), c) == s
    ensures forall i :: 0 <= i < |Split(s, c)| ==> c !in Split(s, c)[i]
    decreases |s|
  {
    var i := Index(s, c);
    if i < |s| {
      SplitJoins(s[i + 1..], c);
      assert s == s[..i] + [c] + s[i + 1..];
      assert Split(s, c)[1..] == Split(s[i + 1..], c);
    }
  }

  lemma {:induction false} JoinSplits(items: seq<string>, c: char)
    requires items != [] && forall i :: 0 <= i < |items| ==> c !in items[i]
    ensures Split(Join(items, c), c) == items
  {
    if |items| == 1 {
      SplitHead(items[0], c, "");
    } else {
      JoinSplits(items[1..], c);
      SplitHead(items[0], c, Join(items[1..], c));
    }
  }

  /** Exactly these texts are accepted, with exactly these results: comma separated
      items, each of them blank, a decimal below 2^32, or two such around its first
      dash, with blanks around any of them. */
  lemma AcceptedTexts(text: string, rs: seq<PortRange>)
    ensures Parse(text) == Ok(rs) <==> PortText(text, rs)
  {
    SplitJoins(text, ',');
    ItemsAre(Split(text, ','), rs);
    EmptyText(text);
    if PortText(text, rs) {
      var items: seq<string> :|
        items != [] && Join(items, ',') == text
        && (forall i :: 0 <= i < |items| ==> ',' !in items[i]) && Items(items, rs);
      JoinSplits(items, ',');
    }
  }

  lemma EmptyText(text: string)
    ensures Parse(text) == ParseItems(Split(text, ','))
  {
    if text == "" {
      assert Split(text, ',') == [""] && TrimSpace("") == "";
      assert [""][1..] == [];
    }
  }
}
