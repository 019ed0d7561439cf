/**
 The streaming path (`stream` and `replay` in internal/gateway/server.go): provider
 frames in, client writes out.  A frame is what `normalize` made of one event.
 */
module Streams {
  import opened Common

  datatype Usage = Usage(input: nat, output: nat)

  const NO_USAGE := Usage(0, 0)

  /** `finish` is "" when the frame carries no finish reason; `last` is the provider's own end mark. */
  datatype Frame =
    | DoneFrame
    | BadFrame
    | Piece(text: string, finish: string, last: bool, usage: Usage)

  datatype Write = Chunk(text: string, finish: string) | DoneMark | ErrorMark

  datatype Ending = Complete | Empty | Broken

  datatype StreamOut = StreamOut(ending: Ending, sent: seq<Write>, text: string, finish: string, usage: Usage)

  // ----- what a list of frames says -----

  function Texts(fs: seq<Frame>): string {
    if fs == [] then ""
    else Texts(fs[..|fs| - 1]) + (var f := fs[|fs| - 1]; if f.Piece? then f.text else "")
  }

  function LastFinish(fs: seq<Frame>): string {
    if fs == [] then ""
    else
      var f := fs[|fs| - 1];
      if f.Piece? && f.finish != "" then f.finish else LastFinish(fs[..|fs| - 1])
  }

  function FirstFinish(fs: seq<Frame>): string {
    if fs == [] then ""
    else
      var earlier, f := FirstFinish(fs[..|fs| - 1]), fs[|fs| - 1];
      if earlier == "" && f.Piece? then f.finish else earlier
  }

  function LastUsage(fs: seq<Frame>): Usage {
    if fs == [] then NO_USAGE
    else
      var f := fs[|fs| - 1];
      if f.Piece? && f.usage != NO_USAGE then f.usage else LastUsage(fs[..|fs| - 1])
  }

  predicate HasFinish(fs: seq<Frame>) { LastFinish(fs) != "" }

  /** Nothing worth sending: no text, and no finish reason but the token ceiling. */
  predicate Silent(fs: seq<Frame>) {
    fs == [] || (Silent(fs[..|fs| - 1]) &&
      var f := fs[|fs| - 1]; f.Piece? ==> f.text == "" && (f.finish == "" || f.finish == "length"))
  }

  /** A bare report of the token ceiling before anything was sent: kept back, and nothing else is looked at. */
  predicate KeptBack(before: seq<Frame>, f: Frame) {
    f.Piece? && Silent(before) && f.text == "" && f.finish == "length"
  }

  /** A frame that may follow `before` without ending or breaking the stream. */
  predicate Continues(openai: bool, before: seq<Frame>, f: Frame) {
    f.Piece? && (openai || !f.last || KeptBack(before, f)) && (HasFinish(before) ==> f.text == "")
  }

  predicate Open(openai: bool, fs: seq<Frame>) {
    fs == [] || (Open(openai, fs[..|fs| - 1]) && Continues(openai, fs[..|fs| - 1], fs[|fs| - 1]))
  }

  /** A frame that properly ends the stream after `before`: OpenAI says [DONE], the others mark a frame. */
  predicate Ends(openai: bool, before: seq<Frame>, f: Frame) {
    if openai then f.DoneFrame? && HasFinish(before)
    else
      && f.Piece? && f.last && !KeptBack(before, f)
      && (HasFinish(before) ==> f.text == "") && (HasFinish(before) || f.finish != "")
  }

  /** The stream is over with the first `k + 1` frames. */
  predicate Closed(openai: bool, frames: seq<Frame>, k: nat) {
    k < |frames| && Open(openai, frames[..k]) && Ends(openai, frames[..k], frames[k])
  }

  /** The ceiling was reported before anything else, so that report was held back. */
  predicate Held(fs: seq<Frame>) { Texts(fs) == "" && FirstFinish(fs) == "length" }

  // ----- what the client received -----

  function ChunkTexts(ws: seq<Write>): string {
    if ws == [] then ""
    else ChunkTexts(ws[..|ws| - 1]) + (var w := ws[|ws| - 1]; if w.Chunk? then w.text else "")
  }

  function ChunkFinish(ws: seq<Write>): string {
    if ws == [] then ""
    else
      var w := ws[|ws| - 1];
      if w.Chunk? && w.finish != "" then w.finish else ChunkFinish(ws[..|ws| - 1])
  }

  predicate OnlyChunks(ws: seq<Write>) { forall w :: w in ws ==> w.Chunk? }

  /** Chunks that spell the answer, then exactly one [DONE]. */
  predicate Delivered(ws: seq<Write>, text: string) {
    && ws != [] && ws[|ws| - 1] == DoneMark
    && OnlyChunks(ws[..|ws| - 1]) && ChunkTexts(ws) == text
  }

  /** The promise on a stream's result, whatever the provider sent and however the connection fared. */
  predicate Sound(r: StreamOut) {
    match r.ending
    case Complete => Delivered(r.sent, r.text)
    case Empty => r.sent == [] && r.text == ""
    case Broken => DoneMark !in r.sent && ChunkTexts(r.sent) == r.text
  }

  lemma TextsSnoc(fs: seq<Frame>, f: Frame)
    ensures Texts(fs + [f]) == Texts(fs) + if f.Piece? then f.text else ""
    ensures LastFinish(fs + [f]) == if f.Piece? && f.finish != "" then f.finish else LastFinish(fs)
    ensures FirstFinish(fs + [f]) == if FirstFinish(fs) == "" && f.Piece? then f.finish else FirstFinish(fs)
    ensures LastUsage(fs + [f]) == if f.Piece? && f.usage != NO_USAGE then f.usage else LastUsage(fs)
    ensures Silent(fs + [f]) <==> Silent(fs) && (f.Piece? ==> f.text == "" && (f.finish == "" || f.finish == "length"))
  {
    assert (fs + [f])[..|fs|] == fs;
  }

  lemma OpenSnoc(openai: bool, fs: seq<Frame>, f: Frame)
    ensures Open(openai, fs + [f]) <==> Open(openai, fs) && Continues(openai, fs, f)
  {
    assert (fs + [f])[..|fs|] == fs;
  }

  lemma ChunkSnoc(ws: seq<Write>, w: Write)
    ensures ChunkTexts(ws + [w]) == ChunkTexts(ws) + if w.Chunk? then w.text else ""
    ensures ChunkFinish(ws + [w]) == if w.Chunk? && w.finish != "" then w.finish else ChunkFinish(ws)
  {
    assert (ws + [w])[..|ws|] == ws;
  }

  lemma {:induction false} FinishKinds(fs: seq<Frame>)
    ensures FirstFinish(fs) == "" <==> LastFinish(fs) == ""
    ensures Texts(fs) == "" && LastFinish(fs) == "" ==> Silent(fs)
    ensures Silent(fs) ==> Texts(fs) == "" && (LastFinish(fs) == "" || (FirstFinish(fs) == "length" && LastFinish(fs) == "length"))
  {
    if fs == [] {
    } else {
      FinishKinds(fs[..|fs| - 1]);
      assert Texts(fs) == "" ==> |Texts(fs[..|fs| - 1])| == 0;
    }
  }

  lemma {:induction false} OpenPrefix(openai: bool, fs: seq<Frame>, n: nat)
    requires Open(openai, fs) && n <= |fs|
    ensures Open(openai, fs[..n])
    ensures n < |fs| ==> Continues(openai, fs[..n], fs[n])
  {
    if n < |fs| {
      var prev := fs[..|fs| - 1];
      assert n < |prev| ==> prev[..n] == fs[..n];
      OpenPrefix(openai, prev, n);
      assert prev[..|prev|] == prev;
    } else {
      assert fs[..n] == fs;
    }
  }

  /** A stream that got as far as `j` did not end before. */
  lemma OpenNotClosed(openai: bool, frames: seq<Frame>, j: nat, k: nat)
    requires k < j <= |frames| && Open(openai, frames[..j])
    ensures !Closed(openai, frames, k)
  {
    OpenPrefix(openai, frames[..j], k);
    assert frames[..j][..k] == frames[..k];
  }

  lemma ClosedUnique(openai: bool, frames: seq<Frame>, k: nat)
    requires Closed(openai, frames, k)
    ensures forall j :: Closed(openai, frames, j) ==> j == k
  {
    forall j: nat | Closed(openai, frames, j) ensures j == k {
      if j < k { OpenNotClosed(openai, frames, k, j); }
      if k < j { OpenNotClosed(openai, frames, j, k); }
    }
  }

  lemma OpenNeverCloses(openai: bool, frames: seq<Frame>)
    requires Open(openai, frames)
    ensures forall k :: !Closed(openai, frames, k)
  {
    assert frames[..|frames|] == frames;
    forall k: nat | k < |frames| ensures !Closed(openai, frames, k) { OpenNotClosed(openai, frames, |frames|, k); }
  }

  /** A frame that neither continues nor ends the stream breaks it for good. */
  lemma StuckNeverCloses(openai: bool, frames: seq<Frame>, j: nat)
    requires j < |frames| && Open(openai, frames[..j])
    ensures !Continues(openai, frames[..j], frames[j]) && !Ends(openai, frames[..j], frames[j]) ==>
      forall k :: !Closed(openai, frames, k)
  {
    forall k: nat | k < |frames| && !Continues(openai, frames[..j], frames[j]) && !Ends(openai, frames[..j], frames[j])
      ensures !Closed(openai, frames, k)
    {
      if k < j {
        OpenNotClosed(openai, frames, j, k);
      } else if j < k && Open(openai, frames[..k]) {
        assert frames[..k][..j] == frames[..j];
        OpenPrefix(openai, frames[..k], j);
      }
    }
  }

  // ----- the same, frame by frame -----

  ghost predicate Finishes(f: Frame) { f.Piece? && f.finish != "" }

  lemma {:induction false} HasFinishIff(fs: seq<Frame>)
    ensures HasFinish(fs) <==> exists f :: f in fs && Finishes(f)
  {
    if fs == [] {
    } else {
      var init, f := fs[..|fs| - 1], fs[|fs| - 1];
      HasFinishIff(init);
      assert fs == init + [f] && f in fs;
      if HasFinish(init) {
        var g :| g in init && Finishes(g);
        assert g in fs;
      }
    }
  }

  lemma {:induction false} SilentIff(fs: seq<Frame>)
    ensures Silent(fs) <==> forall f :: f in fs && f.Piece? ==> f.text == "" && (f.finish == "" || f.finish == "length")
  {
    if fs == [] {
    } else {
      var init, f := fs[..|fs| - 1], fs[|fs| - 1];
      SilentIff(init);
      assert fs == init + [f];
    }
  }

  /** The frame reports the token ceiling and nothing else, and so did every frame before it that reported anything. */
  ghost predicate BareCeiling(frames: seq<Frame>, i: nat)
    requires i < |frames|
  {
    && frames[i].Piece? && frames[i].text == "" && frames[i].finish == "length"
    && forall f :: f in frames[..i] && f.Piece? ==> f.text == "" && (f.finish == "" || f.finish == "length")
  }

  /** Frame `i` is an ordinary one: no text after a finish reason, no end mark that counts. */
  ghost predicate Ordinary(openai: bool, frames: seq<Frame>, i: nat)
    requires i < |frames|
  {
    && frames[i].Piece? && (openai || !frames[i].last || BareCeiling(frames, i))
    && ((exists f :: f in frames[..i] && Finishes(f)) ==> frames[i].text == "")
  }

  lemma OrdinaryIff(openai: bool, frames: seq<Frame>, i: nat)
    requires i < |frames|
    ensures Ordinary(openai, frames, i) <==> Continues(openai, frames[..i], frames[i])
    ensures BareCeiling(frames, i) <==> KeptBack(frames[..i], frames[i])
  {
    HasFinishIff(frames[..i]);
    SilentIff(frames[..i]);
    hide HasFinish, Silent, Finishes;
  }

  lemma {:induction false} OpenIff(openai: bool, frames: seq<Frame>, n: nat)
    requires n <= |frames|
    ensures Open(openai, frames[..n]) <==> forall i :: 0 <= i < n ==> Ordinary(openai, frames, i)
  {
    if n == 0 {
    } else {
      OpenIff(openai, frames, n - 1);
      OrdinaryIff(openai, frames, n - 1);
      assert frames[..n][..n - 1] == frames[..n - 1];
      hide Ordinary, Continues;
    }
  }

  /**
   Exactly which streams are over, and where: ordinary frames, then [DONE] for OpenAI or a
   counting end mark for the others, with a finish reason by then and no text after it.
   */
  lemma ClosedIff(openai: bool, frames: seq<Frame>, k: nat)
    ensures Closed(openai, frames, k) <==>
      && k < |frames| && (forall i :: 0 <= i < k ==> Ordinary(openai, frames, i))
      && var reason := exists f :: f in frames[..k] && Finishes(f);
         if openai then frames[k].DoneFrame? && reason
         else
           && frames[k].Piece? && frames[k].last && !BareCeiling(frames, k)
           && (if reason then frames[k].text == "" else frames[k].finish != "")
  {
    if k < |frames| {
      OpenIff(openai, frames, k);
      HasFinishIff(frames[..k]);
      OrdinaryIff(openai, frames, k);
      hide Ordinary, HasFinish, Open, BareCeiling, KeptBack, Finishes;
    }
  }

  lemma ClosedHasNoBadFrame(openai: bool, frames: seq<Frame>, k: nat)
    requires Closed(openai, frames, k)
    ensures forall i :: 0 <= i <= k ==> !frames[i].BadFrame?
  {
    forall i: nat | i < k ensures !frames[i].BadFrame? {
      OpenPrefix(openai, frames[..k], i);
    }
  }

  /** What the reader has established so far; `failed` is an error from the frame callback. */
  datatype Progress = Progress(finished: bool, terminal: bool, failed: bool, wrote: bool, pending: Option<Write>, out: StreamOut)

  /** Every variable of the reader is a function of the frames taken so far. */
  ghost predicate Tracks(before: seq<Frame>, p: Progress) {
    && p.finished == HasFinish(before)
    && p.wrote == !Silent(before) == (p.out.sent != [])
    && p.pending == (if Held(before) then Some(Chunk("", "length")) else None)
    && OnlyChunks(p.out.sent)
    && p.out.text == Texts(before) == ChunkTexts(p.out.sent)
    && p.out.finish == ChunkFinish(p.out.sent) == (if p.wrote then LastFinish(before) else "")
    && p.out.usage == LastUsage(before)
  }

  /** Once something was sent, or something other than a bare ceiling arrives, nothing new is held. */
  lemma HeldUnlessKeptBack(before: seq<Frame>, f: Frame)
    requires f.Piece? && !KeptBack(before, f) && (HasFinish(before) ==> f.text == "")
    ensures Held(before + [f]) == Held(before)
  {
    TextsSnoc(before, f);
    FinishKinds(before);
    if f.text != "" { assert |Texts(before + [f])| > 0; }
  }

  lemma TracksKeptBack(before: seq<Frame>, f: Frame, p: Progress)
    requires Tracks(before, p) && KeptBack(before, f)
    ensures Tracks(before + [f], p.(finished := true, pending := Some(Chunk("", "length")), out := p.out.(usage := LastUsage(before + [f]))))
  {
    TextsSnoc(before, f);
    FinishKinds(before);
  }

  lemma TracksDone(before: seq<Frame>, p: Progress)
    requires Tracks(before, p)
    ensures Tracks(before + [DoneFrame], p)
  {
    TextsSnoc(before, DoneFrame);
  }

  lemma TracksSkip(before: seq<Frame>, f: Frame, p: Progress)
    requires Tracks(before, p) && f.Piece? && f.text == "" && f.finish == ""
    ensures Tracks(before + [f], p.(out := p.out.(usage := LastUsage(before + [f]))))
  {
    TextsSnoc(before, f);
    HeldUnlessKeptBack(before, f);
  }

  /** The result after one more chunk reached the client. */
  function Wrote(out: StreamOut, f: Frame): StreamOut
    requires f.Piece?
  {
    out.(sent := out.sent + [Chunk(f.text, f.finish)], text := out.text + f.text,
         finish := if f.finish != "" then f.finish else out.finish)
  }

  lemma TracksWrite(before: seq<Frame>, f: Frame, p: Progress)
    requires Tracks(before, p) && f.Piece? && (p.finished ==> f.text == "")
    requires (f.text != "" || f.finish != "") && !KeptBack(before, f)
    ensures Tracks(before + [f], p.(finished := p.finished || f.finish != "", wrote := true,
                                    out := Wrote(p.out, f).(usage := LastUsage(before + [f]))))
  {
    TextsSnoc(before, f);
    HeldUnlessKeptBack(before, f);
    ChunkSnoc(p.out.sent, Chunk(f.text, f.finish));
    hide Held, KeptBack;
    assert p.wrote || p.out.finish == "";
    FinishBeforeWrite(before, f);
  }

  /** Nothing sent yet and no bare ceiling: then no finish reason came before this frame, unless it brings one. */
  lemma FinishBeforeWrite(before: seq<Frame>, f: Frame)
    requires f.Piece? && (HasFinish(before) ==> f.text == "") && (f.text != "" || f.finish != "")
    ensures Silent(before) && f.finish == "" ==> LastFinish(before) == ""
  {}

  /** Where the frames taken so far leave the reader. */
  ghost predicate Reading(openai: bool, before: seq<Frame>, p: Progress) {
    && p.out.ending == Broken && |p.out.sent| <= |before|
    && !p.terminal && !p.failed && Tracks(before, p) && Open(openai, before)
  }

  const START := Progress(false, false, false, false, None, StreamOut(Broken, [], "", "", NO_USAGE))

  lemma InitialTracks(openai: bool)
    ensures Reading(openai, [], START)
    ensures ChunkTexts([]) == ""
  {}

  /** One event from the provider, handled as the frame callback does. */
  method TakeFrame(openai: bool, ghost before: seq<Frame>, f: Frame, room: nat, p: Progress) returns (q: Progress)
    requires Reading(openai, before, p)
    ensures q.out.ending == Broken && |q.out.sent| <= |before| + 1
    ensures !q.terminal && !q.failed ==> Reading(openai, before + [f], q)
    ensures q.terminal ==> !q.failed && Tracks(before + [f], q) && q.finished && Ends(openai, before, f)
    ensures OnlyChunks(q.out.sent) && ChunkTexts(q.out.sent) == q.out.text
    ensures q.failed && room > |before| ==> !Continues(openai, before, f) && !Ends(openai, before, f)
  {
    hide Texts, FirstFinish, LastFinish, LastUsage, Silent, Open, ChunkTexts, ChunkFinish, Held;
    q := p;
    TextsSnoc(before, f);
    OpenSnoc(openai, before, f);
    if f.DoneFrame? {
      if !openai || !q.finished {
        return q.(failed := true);
      }
      TracksDone(before, p);
      return q.(terminal := true);
    }
    if f.BadFrame? {
      return q.(failed := true);
    }
    if f.usage != NO_USAGE {
      q := q.(out := q.out.(usage := f.usage));
    }
    if q.finished && f.text != "" {
      return q.(failed := true);
    }
    if f.finish != "" {
      q := q.(finished := true);
    }
    if f.text != "" || f.finish != "" {
      if !q.wrote && f.text == "" && f.finish == "length" {
        TracksKeptBack(before, f, p);
        return q.(pending := Some(Chunk("", "length")));
      }
      if |q.out.sent| >= room {
        return q.(failed := true);
      }
      TracksWrite(before, f, p);
      q := q.(out := Wrote(q.out, f), wrote := true);
    } else {
      TracksSkip(before, f, p);
    }
    if f.last && !openai {
      if !q.finished {
        return q.(failed := true);
      }
      return q.(terminal := true);
    }
  }

  /** The frames decide the ending: over and silent, over with something to say, or never over. */
  ghost predicate AsFramesSay(body: seq<Frame>, out: StreamOut) {
    && out.ending == (if Silent(body) then Empty else Complete)
    && out.text == Texts(body)
    && out.usage == LastUsage(body)
    && (out.ending == Complete ==>
         && out.finish == LastFinish(body)
         && ChunkFinish(out.sent) == if Held(body) then "length" else LastFinish(body))
  }

  /** What follows a stream that ended properly: the held report if any, then [DONE]. */
  method Conclude(ghost body: seq<Frame>, room: nat, p: Progress) returns (out: StreamOut)
    requires Tracks(body, p) && p.finished && p.out.ending == Broken
    ensures Sound(out)
    ensures room >= |p.out.sent| + 2 ==> out.ending != Broken
    ensures out.ending != Broken ==> AsFramesSay(body, out)
  {
    FinishKinds(body);
    hide Texts, FirstFinish, LastUsage, Silent, ChunkTexts, ChunkFinish;
    out := p.out;
    if p.pending.Some? && !p.wrote {
      return out.(ending := Empty);
    }
    if p.pending.Some? {
      if |out.sent| >= room {
        return;
      }
      ChunkSnoc(out.sent, p.pending.value);
      out := out.(sent := out.sent + [p.pending.value]);
    }
    if |out.sent| >= room {
      return;
    }
    ChunkSnoc(out.sent, DoneMark);
    out := out.(ending := Complete, sent := out.sent + [DoneMark]);
  }

  /** Part of the way through the frames: reading on, over, or given up for good. */
  ghost predicate Streaming(openai: bool, frames: seq<Frame>, i: nat, room: nat, p: Progress) {
    && i <= |frames| && |p.out.sent| <= i && p.out.ending == Broken
    && OnlyChunks(p.out.sent) && ChunkTexts(p.out.sent) == p.out.text
    && (!p.terminal && !p.failed ==> Reading(openai, frames[..i], p))
    && (p.terminal ==> !p.failed && i > 0 && p.finished && Tracks(frames[..i], p) && Closed(openai, frames, i - 1))
    && (p.failed ==> i > 0 && Open(openai, frames[..i - 1]))
    && (p.failed && room >= |frames| + 2 ==>
         !Continues(openai, frames[..i - 1], frames[i - 1]) && !Ends(openai, frames[..i - 1], frames[i - 1]))
  }

  /**
   What a stream of frames comes to.  `room` is how many writes the client connection
   accepts before it fails; with room for everything the frames alone decide the ending.
   */
  ghost predicate AsPromised(openai: bool, frames: seq<Frame>, room: nat, out: StreamOut) {
    && Sound(out)
    && (out.ending != Broken ==> exists k :: Closed(openai, frames, k) && AsFramesSay(frames[..k + 1], out))
    && (room >= |frames| + 2 ==> forall k :: Closed(openai, frames, k) ==> AsFramesSay(frames[..k + 1], out))
  }

  /** The callback on the next frame. */
  method TakeNext(openai: bool, ghost frames: seq<Frame>, ghost i: nat, f: Frame, room: nat, p: Progress) returns (q: Progress)
    requires Streaming(openai, frames, i, room, p) && !p.terminal && !p.failed && i < |frames| && frames[i] == f
    ensures Streaming(openai, frames, i + 1, room, q)
  {
    hide Texts, FirstFinish, LastFinish, LastUsage, Silent, Open, ChunkTexts, ChunkFinish, Held, Tracks, Continues, Ends;
    assert frames[..i + 1] == frames[..i] + [frames[i]];
    q := TakeFrame(openai, frames[..i], f, room, p);
  }

  /** What is done when no more frames are taken: the conclusion of a stream that ended, or an error mark. */
  method EndStream(openai: bool, ghost frames: seq<Frame>, ghost i: nat, room: nat, p: Progress) returns (out: StreamOut)
    requires Streaming(openai, frames, i, room, p) && (p.terminal || p.failed || i == |frames|)
    ensures AsPromised(openai, frames, room, out)
  {
    hide Texts, FirstFinish, LastFinish, LastUsage, Silent, Open, ChunkTexts, ChunkFinish, Held, Tracks, Continues, Ends, AsFramesSay;
    if p.terminal {
      out := Conclude(frames[..i], room, p);
      ClosedUnique(openai, frames, i - 1);
      assert frames[..(i - 1) + 1] == frames[..i];
      return;
    }
    if p.failed {
      StuckNeverCloses(openai, frames, i - 1);
    } else {
      assert frames[..i] == frames;
      OpenNeverCloses(openai, frames);
    }
    out := p.out;
    if |out.sent| < room {
      ChunkSnoc(out.sent, ErrorMark);
      out := out.(sent := out.sent + [ErrorMark]);
    }
  }

  lemma StreamingStarts(openai: bool, frames: seq<Frame>, room: nat)
    ensures Streaming(openai, frames, 0, room, START)
  {
    InitialTracks(openai);
    assert frames[..0] == [];
  }

  method Stream(openai: bool, frames: seq<Frame>, room: nat) returns (out: StreamOut)
    ensures AsPromised(openai, frames, room, out)
  {
    hide Streaming, AsPromised;
    StreamingStarts(openai, frames, room);
    var p, i := START, 0;
    while i < |frames| && !p.terminal && !p.failed
      invariant i <= |frames| && Streaming(openai, frames, i, room, p)
    {
      p := TakeNext(openai, frames, i, frames[i], room, p);
      i := i + 1;
    }
    out := EndStream(openai, frames, i, room, p);
  }

  // ----- empty completions -----

  /** Ordinary frames: no end mark, and no text once a finish reason was given. */
  predicate Plain(openai: bool, fs: seq<Frame>) {
    fs == [] || (Plain(openai, fs[..|fs| - 1]) &&
      var f := fs[|fs| - 1]; f.Piece? && (openai || !f.last) && (HasFinish(fs[..|fs| - 1]) ==> f.text == ""))
  }

  /** Ordinary frames up to the provider's own end mark, with a finish reason by then. */
  predicate Answered(openai: bool, frames: seq<Frame>) {
    && frames != [] && Plain(openai, frames[..|frames| - 1])
    && var before, f := frames[..|frames| - 1], frames[|frames| - 1];
       if openai then f.DoneFrame? && HasFinish(before)
       else f.Piece? && f.last && (HasFinish(before) ==> f.text == "") && (HasFinish(before) || f.finish != "")
  }

  lemma {:induction false} PlainIsOpen(openai: bool, fs: seq<Frame>)
    requires Plain(openai, fs)
    ensures Open(openai, fs)
  {
    if fs == [] {
    } else {
      PlainIsOpen(openai, fs[..|fs| - 1]);
    }
  }

  /**
   A provider's proper end is recognised exactly when the end mark does not share
   its frame with a ceiling report that is being held back: the callback returns
   as soon as it holds a frame, before it looks at the end mark.
   */
  lemma AnsweredIsClosedIff(openai: bool, frames: seq<Frame>)
    requires Answered(openai, frames)
    ensures (exists k :: Closed(openai, frames, k)) <==> openai || !KeptBack(frames[..|frames| - 1], frames[|frames| - 1])
  {
    var n := |frames| - 1;
    PlainIsOpen(openai, frames[..n]);
    if openai || !KeptBack(frames[..n], frames[n]) {
      assert Closed(openai, frames, n);
    } else {
      assert frames == frames[..n] + [frames[n]];
      OpenSnoc(openai, frames[..n], frames[n]);
      OpenNeverCloses(openai, frames);
    }
  }

  /** An OpenAI stream and a stream whose end mark is a frame of its own report an empty answer; this one does not. */
  lemma EmptyAnswerReportedBroken(usage: Usage)
    ensures var frames := [Piece("", "length", true, usage)];
      && Answered(false, frames) && Silent(frames)
      && forall k :: !Closed(false, frames, k)
  {
    var frames := [Piece("", "length", true, usage)];
    assert frames[..0] == [];
    AnsweredIsClosedIff(false, frames);
  }

  /** A provider that puts the finish reason on its end mark (Gemini, Bedrock) is never reported empty. */
  lemma FinishOnEndMarkNeverEmpty(frames: seq<Frame>, k: nat)
    requires forall f :: f in frames && f.Piece? && f.last ==> f.finish != ""
    requires Closed(false, frames, k)
    ensures !Silent(frames[..k + 1])
  {
    assert frames[..k + 1] == frames[..k] + [frames[k]];
    TextsSnoc(frames[..k], frames[k]);
    assert frames[k] in frames;
  }

  // ----- replay -----

  /** A stored stream is replayed as one chunk and [DONE]. */
  function ReplayWrites(text: string, finish: string): seq<Write> { [Chunk(text, finish), DoneMark] }

  lemma ReplayDelivers(text: string, finish: string)
    ensures Delivered(ReplayWrites(text, finish), text) && ChunkFinish(ReplayWrites(text, finish)) == finish
  {
    var sent := ReplayWrites(text, finish);
    assert sent[..1] == [Chunk(text, finish)] && [Chunk(text, finish)][..0] == [];
    ChunkSnoc([Chunk(text, finish)], DoneMark);
  }

  method Replay(text: string, finish: string) returns (sent: seq<Write>)
    ensures sent == ReplayWrites(text, finish)
    ensures Delivered(sent, text) && ChunkFinish(sent) == finish
  {
    ReplayDelivers(text, finish);
    sent := [Chunk(text, finish)];
    sent := sent + [DoneMark];
  }

  /**
   The stored answer has the text the first client read.  It has the finish reason
   that client read last exactly when no ceiling report was held back and sent
   after a different one.
   */
  lemma StoredAnswerMatches(body: seq<Frame>, out: StreamOut)
    requires Sound(out) && out.ending == Complete && AsFramesSay(body, out)
    ensures out.text == ChunkTexts(out.sent)
    ensures out.finish == ChunkFinish(out.sent) <==> !Held(body) || LastFinish(body) == "length"
  {}
}
