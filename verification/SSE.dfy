/**
 Reading a server-sent event stream (`readSSE` in internal/gateway/adapter.go): the
 line scanner with its limit, the data buffer, and the events handed to a callback.
 A character stands for a byte.
 */
module EventStreams {
  /** Both the longest line with its newline and the largest assembled event. */
  const LIMIT: nat := 1048576

  /** Why reading stopped. */
  datatype Ending = Finished | Refused | LineTooLong | EventTooLarge | ReadFailed

  // ----- lines -----

  function NewlineAt(s: string): (n: nat)
    ensures n <= |s| && '\n' !in s[..n] && (n < |s| ==> s[n] == '\n')
  {
    if s == "" || s[0] == '\n' then 0 else 1 + NewlineAt(s[1..])
  }

  /** The lines of a text; what follows the last newline is a line only if there is something. */
  function Lines(s: string): seq<string> {
    if s == "" then []
    else
      var n := NewlineAt(s);
      [s[..n]] + if n < |s| then Lines(s[n + 1..]) else []
  }

  function Chomp(line: string): string {
    if line != "" && line[|line| - 1] == '\r' then line[..|line| - 1] else line
  }

  const FIELD := "data:"

  function DropSpace(v: string): string { if v != "" && v[0] == ' ' then v[1..] else v }

  predicate IsData(line: string) { FIELD <= line }

  // ----- reading, over whole lines and values -----

  /** The data lines of one event joined by newlines. */
  function Payload(values: seq<string>): string {
    if values == [] then "" else if |values| == 1 then values[0] else Payload(values[..|values| - 1]) + "\n" + values[|values| - 1]
  }

  /** `open` holds the data lines of the event being assembled. */
  datatype Reader = Reader(events: seq<string>, open: seq<string>, ending: Ending)

  const START := Reader([], [], Finished)

  function Dispatch(r: Reader, go: seq<string> -> bool): Reader {
    if r.open == [] then r
    else
      var events := r.events + [Payload(r.open)];
      Reader(events, [], if go(events) then Finished else Refused)
  }

  function Feed(r: Reader, raw: string, go: seq<string> -> bool): Reader {
    var line := Chomp(raw);
    if r.ending != Finished then r
    else if |raw| >= LIMIT then r.(ending := LineTooLong)
    else if line == "" then Dispatch(r, go)
    else if !IsData(line) then r
    else
      var open := r.open + [DropSpace(line[|FIELD|..])];
      r.(open := open, ending := if |Payload(open)| + 1 > LIMIT then EventTooLarge else Finished)
  }

  function FeedAll(r: Reader, lines: seq<string>, go: seq<string> -> bool): Reader
    decreases |lines|
  {
    if lines == [] then r else FeedAll(Feed(r, lines[0], go), lines[1..], go)
  }

  /** An event still open at the end of the input is dispatched too; after a failed read it is not. */
  function AtEnd(r: Reader, cut: bool, go: seq<string> -> bool): Reader {
    if r.ending != Finished then r else if cut then r.(ending := ReadFailed) else Dispatch(r, go)
  }

  /** `cut`: the body ended with a read error after `input`. */
  function Read(input: string, cut: bool, go: seq<string> -> bool): Reader {
    AtEnd(FeedAll(START, Lines(input), go), cut, go)
  }

  lemma {:induction false} StoppedStays(r: Reader, lines: seq<string>, go: seq<string> -> bool)
    requires r.ending != Finished
    ensures FeedAll(r, lines, go) == r
  {
    if lines == [] {
    } else {
      StoppedStays(r, lines[1..], go);
    }
  }

  lemma PayloadSnoc(values: seq<string>, v: string)
    ensures Payload(values + [v]) + "\n" == (if values == [] then "" else Payload(values) + "\n") + v + "\n"
  {
    assert (values + [v])[..|values|] == values;
  }

  // ----- the scanner loop -----

  method NextLine(input: string, start: nat) returns (end: nat)
    requires start <= |input|
    ensures end == start + NewlineAt(input[start..])
  {
    end := start;
    while end < |input| && input[end] != '\n'
      invariant start <= end <= |input|
      invariant start + NewlineAt(input[start..]) == end + NewlineAt(input[end..])
    {
      assert input[end..][1..] == input[end + 1..];
      end := end + 1;
    }
  }

  function Buffer(values: seq<string>): string { if values == [] then "" else Payload(values) + "\n" }

  /** `data` is the assembly buffer: every value followed by a newline, the last one trimmed at dispatch. */
  method TakeLine(raw: string, events: seq<string>, data: string, ghost open: seq<string>, go: seq<string> -> bool)
    returns (events': seq<string>, data': string, ghost open': seq<string>, ending: Ending)
    requires data == Buffer(open)
    ensures Feed(Reader(events, open, Finished), raw, go) == Reader(events', open', ending)
    ensures var r := Feed(Reader(events, open, Finished), raw, go); r.events == events' && r.ending == ending
    ensures data' == Buffer(open')
  {
    events', data', open', ending := events, data, open, Finished;
    var line := Chomp(raw);
    if |raw| >= LIMIT {
      ending := LineTooLong;
    } else if line == "" {
      if |data| > 0 {
        assert data[..|data| - 1] == Payload(open);
        events', data', open' := events + [data[..|data| - 1]], "", [];
        ending := if go(events') then Finished else Refused;
      }
    } else if IsData(line) {
      var v := DropSpace(line[|FIELD|..]);
      PayloadSnoc(open, v);
      data', open' := data + v + "\n", open + [v];
      ending := if |data'| > LIMIT then EventTooLarge else Finished;
    }
  }

  lemma LinesFrom(input: string, pos: nat, end: nat)
    requires pos < |input| && end == pos + NewlineAt(input[pos..])
    ensures pos <= end <= |input|
    ensures Lines(input[pos..]) == [input[pos..end]] + if end < |input| then Lines(input[end + 1..]) else []
  {
    assert input[pos..][..end - pos] == input[pos..end];
    if end < |input| { assert input[pos..][end - pos + 1..] == input[end + 1..]; }
  }

  method ReadSSE(input: string, cut: bool, go: seq<string> -> bool) returns (events: seq<string>, ending: Ending)
    ensures Read(input, cut, go).events == events && Read(input, cut, go).ending == ending
  {
    hide Feed, Payload;
    events, ending := [], Finished;
    var data, pos := "", 0;
    ghost var open: seq<string> := [];
    assert input[0..] == input;
    while pos < |input| && ending == Finished
      invariant pos <= |input|
      invariant data == Buffer(open)
      invariant FeedAll(START, Lines(input), go) == FeedAll(Reader(events, open, ending), Lines(input[pos..]), go)
      decreases |input| - pos
    {
      var end := NextLine(input, pos);
      LinesFrom(input, pos, end);
      ghost var rest := if end < |input| then Lines(input[end + 1..]) else [];
      assert ([input[pos..end]] + rest)[1..] == rest;
      events, data, open, ending := TakeLine(input[pos..end], events, data, open, go);
      pos := if end < |input| then end + 1 else end;
      assert Lines(input[pos..]) == rest;
    }
    if ending != Finished {
      StoppedStays(Reader(events, open, ending), Lines(input[pos..]), go);
      return;
    }
    assert input[pos..] == "";
    if cut {
      return events, ReadFailed;
    }
    if |data| > 0 {
      assert data[..|data| - 1] == Payload(open);
      events := events + [data[..|data| - 1]];
      ending := if go(events) then Finished else Refused;
    }
  }

  // ----- documents -----

  /** A line as it may be sent: a data line, with or without the optional space; any other line; a blank one. */
  datatype Item =
    | Data(v: string, spaced: bool, crlf: bool)
    | Other(line: string, crlf: bool)
    | Blank(crlf: bool)

  function Text(x: Item): string {
    match x
    case Data(v, spaced, _) => FIELD + (if spaced then " " else "") + v
    case Other(line, _) => line
    case Blank(_) => ""
  }

  function Raw(x: Item): string { Text(x) + if x.crlf then "\r" else "" }

  function Print(items: seq<Item>): string {
    if items == [] then "" else Raw(items[0]) + "\n" + Print(items[1..])
  }

  predicate EndsInCR(s: string) { s != "" && s[|s| - 1] == '\r' }

  /** The text of a line says what the item means: no line ending inside it, comments and other fields not data. */
  predicate Proper(x: Item) {
    && '\n' !in Text(x) && (EndsInCR(Text(x)) ==> x.crlf)
    && (x.Data? && !x.spaced ==> !(" " <= x.v))
    && (x.Other? ==> x.line != "" && !IsData(x.line))
  }

  /** Events as lists of data lines: complete ones, and the one still open. */
  datatype Groups = Groups(done: seq<seq<string>>, open: seq<string>)

  function Grouped(g: Groups, x: Item): Groups {
    match x
    case Data(v, _, _) => g.(open := g.open + [v])
    case Other(_, _) => g
    case Blank(_) => if g.open == [] then g else Groups(g.done + [g.open], [])
  }

  function GroupAll(g: Groups, items: seq<Item>): Groups
    decreases |items|
  {
    if items == [] then g else GroupAll(Grouped(g, items[0]), items[1..])
  }

  function Payloads(groups: seq<seq<string>>): seq<string> { seq(|groups|, i requires 0 <= i < |groups| => Payload(groups[i])) }

  function Meaning(items: seq<Item>): seq<string> {
    var g := GroupAll(Groups([], []), items);
    Payloads(if g.open == [] then g.done else g.done + [g.open])
  }

  /** Every line and every event keeps within the limit. */
  predicate Fits(g: Groups, items: seq<Item>)
    decreases |items|
  {
    items == [] || (FitsOne(g, items[0]) && Fits(Grouped(g, items[0]), items[1..]))
  }

  predicate FitsOne(g: Groups, x: Item) {
    |Raw(x)| < LIMIT && (x.Data? ==> |Payload(g.open + [x.v])| + 1 <= LIMIT)
  }

  lemma {:induction false} NewlineAfter(line: string, rest: string)
    requires '\n' !in line
    ensures NewlineAt(line + "\n" + rest) == |line|
  {
    var s := line + "\n" + rest;
    var n := NewlineAt(s);
    assert s[|line|] == '\n';
    assert forall i :: 0 <= i < |line| ==> s[i] == line[i];
    assert forall i :: 0 <= i < n ==> s[..n][i] == s[i];
  }

  lemma RawHasNoNewline(x: Item)
    requires Proper(x)
    ensures '\n' !in Raw(x)
  {}

  lemma LinesOfPrint(x: Item, items: seq<Item>)
    requires Proper(x)
    ensures Lines(Raw(x) + "\n" + Print(items)) == [Raw(x)] + Lines(Print(items))
  {
    var s := Raw(x) + "\n" + Print(items);
    RawHasNoNewline(x);
    NewlineAfter(Raw(x), Print(items));
    assert s[..|Raw(x)|] == Raw(x);
    assert s[|Raw(x)| + 1..] == Print(items);
  }

  predicate Always(events: seq<string>) { true }

  lemma ChompRaw(x: Item)
    requires Proper(x)
    ensures Chomp(Raw(x)) == Text(x)
  {
    if x.crlf { assert Raw(x)[..|Raw(x)| - 1] == Text(x); } else { assert Raw(x) == Text(x); }
  }

  lemma DataText(x: Item)
    requires Proper(x) && x.Data?
    ensures IsData(Text(x)) && Text(x) != "" && DropSpace(Text(x)[|FIELD|..]) == x.v
  {
    var tail := (if x.spaced then " " else "") + x.v;
    assert Text(x) == FIELD + tail;
    assert Text(x)[|FIELD|..] == tail;
    if x.spaced { assert tail[1..] == x.v; } else { assert tail == x.v; }
  }

  /** One line fed is one item grouped, if it fits; otherwise reading has stopped on the limit. */
  lemma FeedItem(g: Groups, x: Item)
    requires Proper(x)
    ensures var r := Feed(Reader(Payloads(g.done), g.open, Finished), Raw(x), Always);
      if FitsOne(g, x) then r == Reader(Payloads(Grouped(g, x).done), Grouped(g, x).open, Finished)
      else r.ending == LineTooLong || r.ending == EventTooLarge
  {
    ChompRaw(x);
    if x.Data? {
      DataText(x);
    } else if x.Blank? {
      assert Payloads(g.done + [g.open]) == Payloads(g.done) + [Payload(g.open)];
    }
    hide Payload;
  }

  lemma {:induction false} ReadItems(g: Groups, items: seq<Item>)
    requires forall x :: x in items ==> Proper(x)
    ensures var r := FeedAll(Reader(Payloads(g.done), g.open, Finished), Lines(Print(items)), Always);
      if Fits(g, items) then r == Reader(Payloads(GroupAll(g, items).done), GroupAll(g, items).open, Finished)
      else r.ending == LineTooLong || r.ending == EventTooLarge
    decreases |items|
  {
    if items == [] {
    } else {
      var x, rest := items[0], items[1..];
      var r := Feed(Reader(Payloads(g.done), g.open, Finished), Raw(x), Always);
      LinesOfPrint(x, rest);
      assert ([Raw(x)] + Lines(Print(rest)))[1..] == Lines(Print(rest));
      FeedItem(g, x);
      if FitsOne(g, x) {
        ReadItems(Grouped(g, x), rest);
      } else {
        StoppedStays(r, Lines(Print(rest)), Always);
      }
      hide Raw, Print, Feed, Payloads, Grouped;
    }
  }

  /**
   Any document of data lines, comments, other fields and blank lines, each ended by
   LF or CRLF, reads back as its events in order, exactly if it keeps within the limit;
   one that does not is reported as such.
   */
  lemma ReadsBackIffFits(items: seq<Item>)
    requires forall x :: x in items ==> Proper(x)
    ensures var r := Read(Print(items), false, Always);
      && (Fits(Groups([], []), items) <==> r.ending == Finished)
      && (r.ending == Finished ==> r.events == Meaning(items))
      && (r.ending != Finished ==> r.ending == LineTooLong || r.ending == EventTooLarge)
  {
    ReadItems(Groups([], []), items);
    var g := GroupAll(Groups([], []), items);
    assert Payloads([]) == [];
    assert Payloads(g.done + [g.open]) == Payloads(g.done) + [Payload(g.open)];
  }

  lemma {:induction false} EventsGrow(r: Reader, lines: seq<string>, cut: bool, go: seq<string> -> bool)
    ensures r.events <= AtEnd(FeedAll(r, lines, go), cut, go).events
    decreases |lines|
  {
    if lines == [] {
    } else {
      EventsGrow(Feed(r, lines[0], go), lines[1..], cut, go);
    }
  }

  /**
   `a` is what a reading with this callback came to and `b` what one comes to that is never
   stopped: the same, or `a` was stopped at an event and had accepted every one before it,
   from the first that was not seen before.
   */
  ghost predicate CutShort(seen: nat, a: Reader, b: Reader, go: seq<string> -> bool) {
    && a.events <= b.events
    && (a.ending != Refused ==> a == b)
    && (a.ending == Refused ==> a.events != [] && !go(a.events))
    && (forall n :: seen < n < |a.events| ==> go(a.events[..n]))
  }

  lemma DispatchCutShort(r: Reader, go: seq<string> -> bool)
    requires r.ending == Finished
    ensures CutShort(|r.events|, Dispatch(r, go), Dispatch(r, Always), go)
    ensures var a := Dispatch(r, go); a.ending == Finished ==>
      a == Dispatch(r, Always) && (a.events == r.events || (a.events[..|r.events|] == r.events && |a.events| == |r.events| + 1 && go(a.events)))
    ensures Dispatch(r, Always).ending == Finished
  {
    hide Payload;
  }

  lemma FeedCutShort(r: Reader, line: string, go: seq<string> -> bool)
    requires r.ending == Finished
    ensures CutShort(|r.events|, Feed(r, line, go), Feed(r, line, Always), go)
    ensures var a := Feed(r, line, go); a.ending == Finished ==>
      a == Feed(r, line, Always) && (a.events == r.events || (a.events[..|r.events|] == r.events && |a.events| == |r.events| + 1 && go(a.events)))
    ensures Feed(r, line, go).ending == Refused ==> Feed(r, line, Always).ending == Finished
  {
    DispatchCutShort(r, go);
    hide Payload, Dispatch, Chomp;
  }

  /** One more event accepted in front is one more accepted in all. */
  lemma CutShortFrom(r: Reader, mid: Reader, a: Reader, b: Reader, go: seq<string> -> bool)
    requires CutShort(|mid.events|, a, b, go) && mid.events <= a.events
    requires mid.events == r.events || (|mid.events| == |r.events| + 1 && go(mid.events))
    ensures CutShort(|r.events|, a, b, go)
  {
    assert a.events[..|mid.events|] == mid.events;
  }

  /** A callback that stops the reading early has been given a prefix of the events. */
  lemma {:induction false} StoppingEarly(r: Reader, lines: seq<string>, cut: bool, go: seq<string> -> bool)
    requires r.ending == Finished
    ensures CutShort(|r.events|, AtEnd(FeedAll(r, lines, go), cut, go), AtEnd(FeedAll(r, lines, Always), cut, Always), go)
    decreases |lines|
  {
    if lines == [] {
      DispatchCutShort(r, go);
    } else {
      var a, b, rest := Feed(r, lines[0], go), Feed(r, lines[0], Always), lines[1..];
      FeedCutShort(r, lines[0], go);
      hide Feed, Dispatch;
      EventsGrow(a, rest, cut, go);
      if a.ending == Finished {
        StoppingEarly(a, rest, cut, go);
        CutShortFrom(r, a, AtEnd(FeedAll(a, rest, go), cut, go), AtEnd(FeedAll(b, rest, Always), cut, Always), go);
      } else {
        StoppedStays(a, rest, go);
        EventsGrow(b, rest, cut, Always);
        if a.ending != Refused { StoppedStays(b, rest, Always); }
      }
    }
  }

  // ----- payloads -----

  /** A payload cut at its newlines. */
  function Cut(p: string): seq<string> {
    var n := NewlineAt(p);
    if n < |p| then [p[..n]] + Cut(p[n + 1..]) else [p]
  }

  function DataLines(values: seq<string>): seq<Item> { seq(|values|, i requires 0 <= i < |values| => Data(values[i], true, false)) }

  /** How an event is printed: a data line for each line of the payload, and a blank line. */
  function Event(p: string): seq<Item> { DataLines(Cut(p)) + [Blank(false)] }

  function Events(ps: seq<string>): seq<Item> { if ps == [] then [] else Event(ps[0]) + Events(ps[1..]) }

  lemma {:induction false} CutLines(p: string)
    requires '\r' !in p
    ensures forall v :: v in Cut(p) ==> '\n' !in v && '\r' !in v && |v| <= |p|
  {
    var n := NewlineAt(p);
    if n < |p| {
      CutLines(p[n + 1..]);
    } else {
      assert p[..n] == p;
    }
  }

  /** Joining from the front, which is how cutting takes a payload apart. */
  lemma {:induction false} PayloadCons(v: string, values: seq<string>)
    requires values != []
    ensures Payload([v] + values) == v + "\n" + Payload(values)
  {
    var n := |values| - 1;
    var all := [v] + values;
    if n == 0 {
      assert all[..1] == [v];
      assert Payload([v]) == v;
    } else {
      PayloadCons(v, values[..n]);
      assert all[..n + 1] == [v] + values[..n];
      assert v + "\n" + Payload(values[..n]) + "\n" + values[n] == v + "\n" + (Payload(values[..n]) + "\n" + values[n]);
    }
  }

  lemma {:induction false} CutJoins(p: string)
    ensures Cut(p) != [] && Payload(Cut(p)) == p
  {
    var n := NewlineAt(p);
    if n == |p| {
      CutWhole(p);
    } else {
      hide *;
      CutUnfolds(p);
      SplitAt(p, n);
      CutJoins(p[n + 1..]);
      PayloadCons(p[..n], Cut(p[n + 1..]));
    }
  }

  /** A payload without a newline is one line. */
  lemma CutWhole(p: string)
    requires NewlineAt(p) == |p|
    ensures Cut(p) == [p] && Payload([p]) == p
  {}

  /** Otherwise it is its first line, a newline, and the rest. */
  lemma CutUnfolds(p: string)
    requires NewlineAt(p) < |p|
    ensures Cut(p) == [p[..NewlineAt(p)]] + Cut(p[NewlineAt(p) + 1..])
  {
    hide NewlineAt;
  }

  lemma SplitAt(p: string, n: nat)
    requires n < |p| && p[n] == '\n'
    ensures p == p[..n] + "\n" + p[n + 1..]
  {}

  lemma {:induction false} PayloadPrefix(values: seq<string>, n: nat)
    requires n <= |values|
    ensures |Payload(values[..n])| <= |Payload(values)|
  {
    if n < |values| {
      PayloadPrefix(values[..|values| - 1], n);
      assert values[..|values| - 1][..n] == values[..n];
    } else {
      assert values[..n] == values;
    }
  }

  lemma {:induction false} GroupAppend(g: Groups, xs: seq<Item>, ys: seq<Item>)
    ensures GroupAll(g, xs + ys) == GroupAll(GroupAll(g, xs), ys)
    ensures Fits(g, xs + ys) <==> Fits(g, xs) && Fits(GroupAll(g, xs), ys)
    decreases |xs|
  {
    if xs == [] {
      assert xs + ys == ys;
    } else {
      GroupAppend(Grouped(g, xs[0]), xs[1..], ys);
      assert (xs + ys)[1..] == xs[1..] + ys;
    }
  }

  /** The data lines of an event collect into its group, from the n-th on. */
  lemma {:induction false} GroupData(done: seq<seq<string>>, values: seq<string>, n: nat)
    requires n <= |values| && |Payload(values)| + 7 <= LIMIT && forall v :: v in values ==> |v| + 7 <= LIMIT
    ensures GroupAll(Groups(done, values[..n]), DataLines(values)[n..]) == Groups(done, values)
    ensures Fits(Groups(done, values[..n]), DataLines(values)[n..])
    decreases |values| - n
  {
    if n == |values| {
      assert values[..n] == values;
    } else {
      var items, x := DataLines(values)[n..], Data(values[n], true, false);
      assert items[0] == x && items[1..] == DataLines(values)[n + 1..];
      assert values[n] in values;
      GroupData(done, values, n + 1);
      DataFits(done, values, n);
      hide FitsOne, Payload, DataLines, Grouped;
    }
  }

  lemma DataFits(done: seq<seq<string>>, values: seq<string>, n: nat)
    requires n < |values| && |Payload(values)| + 7 <= LIMIT && |values[n]| + 7 <= LIMIT
    ensures var g, x := Groups(done, values[..n]), Data(values[n], true, false);
      FitsOne(g, x) && Grouped(g, x) == Groups(done, values[..n + 1])
  {
    var x := Data(values[n], true, false);
    PayloadPrefix(values, n + 1);
    assert values[..n] + [values[n]] == values[..n + 1];
    assert |Raw(x)| == |values[n]| + 6;
    hide Payload;
  }

  /** Free of carriage returns, and short enough for any of its lines and for all of it. */
  predicate Short(p: string) { '\r' !in p && |p| + 7 <= LIMIT }

  predicate AllShort(ps: seq<string>) { ps == [] || (Short(ps[0]) && AllShort(ps[1..])) }

  lemma GroupEvent(done: seq<seq<string>>, p: string)
    requires Short(p)
    ensures GroupAll(Groups(done, []), Event(p)) == Groups(done + [Cut(p)], [])
    ensures Fits(Groups(done, []), Event(p))
  {
    var values := Cut(p);
    CutLines(p);
    CutJoins(p);
    hide Cut, Payload, NewlineAt;
    GroupData(done, values, 0);
    assert values[..0] == [] && DataLines(values)[0..] == DataLines(values);
    hide DataLines;
    GroupAppend(Groups(done, []), DataLines(values), [Blank(false)]);
    BlankEnds(Groups(done, values));
  }

  lemma BlankEnds(g: Groups)
    requires g.open != []
    ensures GroupAll(g, [Blank(false)]) == Groups(g.done + [g.open], []) && Fits(g, [Blank(false)])
  {
    assert GroupAll(g, [Blank(false)]) == GroupAll(Grouped(g, Blank(false)), []);
  }

  lemma EventIsProper(p: string)
    requires '\r' !in p
    ensures forall x :: x in Event(p) ==> Proper(x)
  {
    var values := Cut(p);
    CutLines(p);
    hide Cut;
    forall x | x in Event(p) ensures Proper(x) {
      if x.Data? { assert x.v in values && x == Data(x.v, true, false); DataIsProper(x.v); }
    }
  }

  lemma DataIsProper(v: string)
    requires '\n' !in v && '\r' !in v
    ensures Proper(Data(v, true, false))
  {
    var t := Text(Data(v, true, false));
    assert t == FIELD + " " + v;
    assert v != "" ==> t[|t| - 1] == v[|v| - 1];
  }

  lemma {:induction false} EventsAreProper(ps: seq<string>)
    requires AllShort(ps)
    ensures forall x :: x in Events(ps) ==> Proper(x)
  {
    if ps == [] {
    } else {
      EventIsProper(ps[0]);
      EventsAreProper(ps[1..]);
      hide Event, Proper;
    }
  }

  function Cuts(ps: seq<string>): seq<seq<string>> { if ps == [] then [] else [Cut(ps[0])] + Cuts(ps[1..]) }

  lemma EventThen(done: seq<seq<string>>, p: string, items: seq<Item>, g: Groups)
    requires Short(p)
    requires GroupAll(Groups(done + [Cut(p)], []), items) == g && Fits(Groups(done + [Cut(p)], []), items)
    ensures GroupAll(Groups(done, []), Event(p) + items) == g && Fits(Groups(done, []), Event(p) + items)
  {
    hide *;
    GroupEvent(done, p);
    GroupAppend(Groups(done, []), Event(p), items);
  }

  lemma {:induction false} GroupEvents(done: seq<seq<string>>, ps: seq<string>)
    requires AllShort(ps)
    ensures GroupAll(Groups(done, []), Events(ps)) == Groups(done + Cuts(ps), []) && Fits(Groups(done, []), Events(ps))
    decreases |ps|
  {
    if ps == [] {
    } else {
      hide Event, Cut, Short, GroupAll, Fits;
      var p, rest := ps[0], ps[1..];
      GroupEvents(done + [Cut(p)], rest);
      assert done + [Cut(p)] + Cuts(rest) == done + Cuts(ps);
      EventThen(done, p, Events(rest), Groups(done + Cuts(ps), []));
    }
  }

  lemma {:induction false} CutsJoin(ps: seq<string>)
    requires AllShort(ps)
    ensures Payloads(Cuts(ps)) == ps
  {
    if ps == [] {
    } else {
      var p, rest := ps[0], ps[1..];
      CutJoins(p);
      CutsJoin(rest);
      hide Cut, Short, Payload;
      assert Payloads(Cuts(ps)) == [Payload(Cut(p))] + Payloads(Cuts(rest));
    }
  }

  /** Printing payloads and reading them back returns them, in order. */
  lemma RoundTrip(ps: seq<string>)
    requires AllShort(ps)
    ensures var r := Read(Print(Events(ps)), false, Always); r.events == ps && r.ending == Finished
  {
    EventsAreProper(ps);
    hide Short, Event, Proper, Read, GroupAll, Fits, Payloads, Cuts, Print;
    GroupEvents([], ps);
    CutsJoin(ps);
    ReadsBackIffFits(Events(ps));
    assert [] + Cuts(ps) == Cuts(ps);
  }

  /** What the gateway writes for one chunk is one event. */
  lemma WrittenChunk(json: string)
    requires '\n' !in json
    ensures Print(Event(json)) == "data: " + json + "\n\n"
  {
    var items := Event(json);
    assert NewlineAt(json) == |json|;
    assert items == [Data(json, true, false), Blank(false)];
    assert items[1..] == [Blank(false)] && items[1..][1..] == [];
    assert Print(items[1..]) == "\n" by { assert Print([]) == ""; }
  }
}
