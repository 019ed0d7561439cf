/**
 The streaming path from end to end (`stream` with `readSSE` and `normalize`): provider
 bytes in, client writes out.  `decode` is the JSON decoding of one payload.
 */
module Pipelines {
  import E = EventStreams
  import N = Normalizing
  import S = Streams

  const DONE := "[DONE]"

  function EventOf(decode: string -> N.Event, payload: string): N.Event {
    if payload == "[DONE]" then N.Done else decode(payload)
  }

  function EventsOf(decode: string -> N.Event, payloads: seq<string>): seq<N.Event> {
    seq(|payloads|, i requires 0 <= i < |payloads| => EventOf(decode, payloads[i]))
  }

  function Frame(decode: string -> N.Event, payload: string): S.Frame {
    N.Normal(if payload == DONE then N.Done else decode(payload))
  }

  function FramesOf(decode: string -> N.Event, payloads: seq<string>): seq<S.Frame> {
    seq(|payloads|, i requires 0 <= i < |payloads| => Frame(decode, payloads[i]))
  }

  /** A client that is told the answer is over has read exactly what the provider said, up to its end mark. */
  ghost predicate ReadAsSaid(openai: bool, decode: string -> N.Event, payloads: seq<string>, out: S.StreamOut) {
    out.ending != S.Broken ==>
      exists k: nat ::
        && S.Closed(openai, FramesOf(decode, payloads), k) && k < |payloads|
        && out.text == S.ChunkTexts(out.sent) == N.SaidAll(EventsOf(decode, payloads[..k + 1]))
  }

  /** Everything the body holds, read to its end, whatever a callback would do. */
  function Payloads(input: string, cut: bool): seq<string> { E.Read(input, cut, E.Always).events }

  /** The reader has come this far, and the events so far are the first of all. */
  ghost predicate Reached(input: string, cut: bool, pos: nat, r: E.Reader) {
    && pos <= |input|
    && E.FeedAll(E.START, E.Lines(input), E.Always) == E.FeedAll(r, E.Lines(input[pos..]), E.Always)
    && r.events <= Payloads(input, cut)
  }

  lemma ReachedStart(input: string, cut: bool)
    ensures Reached(input, cut, 0, E.START)
  {
    assert input[0..] == input;
  }

  lemma ReachedNext(input: string, cut: bool, pos: nat, end: nat, r: E.Reader)
    requires Reached(input, cut, pos, r) && pos < |input| && end == pos + E.NewlineAt(input[pos..])
    ensures pos <= end <= |input|
    ensures Reached(input, cut, if end < |input| then end + 1 else end, E.Feed(r, input[pos..end], E.Always))
  {
    E.LinesFrom(input, pos, end);
    var rest := if end < |input| then E.Lines(input[end + 1..]) else [];
    assert ([input[pos..end]] + rest)[1..] == rest;
    assert input[|input|..] == "";
    E.EventsGrow(E.Feed(r, input[pos..end], E.Always), rest, cut, E.Always);
    hide E.Feed, E.Lines;
  }

  /** When nothing more is read, the events are all of them. */
  lemma ReachedEnd(input: string, cut: bool, pos: nat, r: E.Reader)
    requires Reached(input, cut, pos, r) && (pos == |input| || r.ending != E.Finished)
    ensures E.AtEnd(r, cut, E.Always).events == Payloads(input, cut)
  {
    assert input[|input|..] == "";
    if r.ending != E.Finished { E.StoppedStays(r, E.Lines(input[pos..]), E.Always); }
  }

  /** A line adds one event at most, at the end. */
  lemma FeedAddsOne(r: E.Reader, raw: string)
    ensures var r' := E.Feed(r, raw, E.Always);
      r'.events == r.events || (|r'.events| == |r.events| + 1 && r'.events[..|r.events|] == r.events)
  {}

  /** The callback on a payload: [DONE], or what the provider's event normalizes to. */
  method OnPayload(openai: bool, decode: string -> N.Event, payload: string, room: nat, p: S.Progress,
                   ghost frames: seq<S.Frame>, ghost i: nat) returns (q: S.Progress)
    requires S.Streaming(openai, frames, i, room, p) && !p.terminal && !p.failed
    requires i < |frames| && frames[i] == Frame(decode, payload)
    ensures S.Streaming(openai, frames, i + 1, room, q)
  {
    hide S.Streaming;
    q := S.TakeNext(openai, frames, i, Frame(decode, payload), room, p);
  }

  /**
   From bytes to writes: the client is told what the frames of the whole body say, for
   any cutting into lines, any limit reached on the way and a read error anywhere.
   */
  method StreamBytes(openai: bool, decode: string -> N.Event, input: string, cut: bool, room: nat) returns (out: S.StreamOut)
    ensures S.AsPromised(openai, FramesOf(decode, Payloads(input, cut)), room, out)
    ensures ReadAsSaid(openai, decode, Payloads(input, cut), out)
  {
    hide S.Streaming, S.AsPromised, E.Feed, E.Lines, Reached, Payloads, Frame, ReadAsSaid;
    ghost var frames := FramesOf(decode, Payloads(input, cut));
    var p, events: seq<string>, data, pos, ending := S.START, [], "", 0, E.Finished;
    ghost var open: seq<string> := [];
    ReachedStart(input, cut);
    S.StreamingStarts(openai, frames, room);
    while pos < |input| && ending == E.Finished && !p.terminal && !p.failed
      invariant pos <= |input| && data == E.Buffer(open)
      invariant Reached(input, cut, pos, E.Reader(events, open, ending))
      invariant S.Streaming(openai, frames, |events|, room, p)
      decreases |input| - pos
    {
      var end := E.NextLine(input, pos);
      ghost var r := E.Reader(events, open, ending);
      ReachedNext(input, cut, pos, end, r);
      FeedAddsOne(r, input[pos..end]);
      var before := |events|;
      events, data, open, ending := E.TakeLine(input[pos..end], events, data, open, E.Always);
      pos := if end < |input| then end + 1 else end;
      EventsAreFirst(input, cut, pos, E.Reader(events, open, ending), decode);
      if |events| > before {
        p := OnPayload(openai, decode, events[before], room, p, frames, before);
      }
    }
    if !p.terminal && !p.failed {
      ReachedEnd(input, cut, pos, E.Reader(events, open, ending));
      if ending == E.Finished && !cut && |data| > 0 {
        var last := data[..|data| - 1];
        assert last == E.Payload(open);
        p := OnPayload(openai, decode, last, room, p, frames, |events|);
        events := events + [last];
      }
    }
    out := S.EndStream(openai, frames, |events|, room, p);
    ClientReadsWhatWasSaid(openai, decode, Payloads(input, cut), room, out);
  }

  /** A stream that ended had no refused event, so its text is what its events say. */
  lemma ClientReadsWhatWasSaid(openai: bool, decode: string -> N.Event, payloads: seq<string>, room: nat, out: S.StreamOut)
    requires S.AsPromised(openai, FramesOf(decode, payloads), room, out)
    ensures ReadAsSaid(openai, decode, payloads, out)
  {
    hide FramesOf, EventsOf, S.Open, S.Ends, N.Frames, N.Readable, N.SaidAll, S.Texts;
    if out.ending != S.Broken {
      var k: nat :| S.Closed(openai, FramesOf(decode, payloads), k) && S.AsFramesSay(FramesOf(decode, payloads)[..k + 1], out);
      EndedIsReadable(openai, decode, payloads, k);
      N.TextIsWhatWasSaid(EventsOf(decode, payloads[..k + 1]));
      SoundText(out);
    }
  }

  lemma SoundText(out: S.StreamOut)
    requires S.Sound(out) && out.ending != S.Broken
    ensures out.text == S.ChunkTexts(out.sent)
  {}

  lemma EndedIsReadable(openai: bool, decode: string -> N.Event, payloads: seq<string>, k: nat)
    requires S.Closed(openai, FramesOf(decode, payloads), k)
    ensures k < |payloads| && FramesOf(decode, payloads)[..k + 1] == N.Frames(EventsOf(decode, payloads[..k + 1]))
    ensures forall e :: e in EventsOf(decode, payloads[..k + 1]) ==> N.Readable(e)
  {
    var frames, es := FramesOf(decode, payloads), EventsOf(decode, payloads[..k + 1]);
    S.ClosedHasNoBadFrame(openai, frames, k);
    hide N.Normal, N.Readable, S.Closed;
    forall i | 0 <= i <= k ensures frames[i] == N.Normal(es[i]) && N.Readable(es[i]) {
      N.NormalMeans(es[i]);
    }
  }

  lemma EventsAreFirst(input: string, cut: bool, pos: nat, r: E.Reader, decode: string -> N.Event)
    requires Reached(input, cut, pos, r)
    ensures var frames := FramesOf(decode, Payloads(input, cut));
      |r.events| <= |frames| && forall i :: 0 <= i < |r.events| ==> frames[i] == Frame(decode, r.events[i])
  {
    hide Frame;
  }

  /** So any document a provider may send, within the reader's limits, is streamed as the events it means. */
  lemma DocumentIsStreamed(items: seq<E.Item>, decode: string -> N.Event)
    requires (forall x :: x in items ==> E.Proper(x)) && E.Fits(E.Groups([], []), items)
    ensures FramesOf(decode, Payloads(E.Print(items), false)) == FramesOf(decode, E.Meaning(items))
  {
    E.ReadsBackIffFits(items);
  }
}
