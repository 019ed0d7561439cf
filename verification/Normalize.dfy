/**
 What `normalize` in internal/gateway/adapter.go makes of one streamed event of
 OpenAI, Anthropic or Gemini, and what that means for recognising the end of a stream.
 `usage` is the pair of token counts the event reports, zero when it reports none.
 */
module Normalizing {
  import opened Common
  import opened Streams

  datatype Choice = Choice(index: int, text: Option<string>, refusal: Option<string>, tools: bool, finish: Option<string>)

  /** `foreign` is a function call or inline data. */
  datatype Part = Part(text: string, thought: bool, foreign: bool)

  datatype Candidate = Candidate(index: int, parts: seq<Part>, finish: string)

  datatype Event =
    | Done
    | Garbled
    | OpenAIChunk(choices: seq<Choice>, usage: Usage)
    | ContentBlock(isText: bool, text: string, usage: Usage)
    | MessageDelta(stop: string, usage: Usage)
    | MessageStop(usage: Usage)
    | Quiet(usage: Usage)
    | UnknownType
    | GeminiChunk(blocked: bool, candidates: seq<Candidate>, usage: Usage)

  datatype Provider = OpenAI | Anthropic | Gemini

  predicate From(p: Provider, e: Event) {
    match e
    case Done => true
    case Garbled => true
    case OpenAIChunk(_, _) => p == OpenAI
    case GeminiChunk(_, _, _) => p == Gemini
    case _ => p == Anthropic
  }

  /** The gateway's three finish reasons for the providers' own. */
  function Finish(s: string): Option<string> {
    if s in {"stop", "end_turn", "stop_sequence", "STOP"} then Some("stop")
    else if s in {"length", "max_tokens", "MAX_TOKENS"} then Some("length")
    else if s in {"content_filter", "SAFETY", "RECITATION", "BLOCKLIST", "PROHIBITED_CONTENT", "SPII"} then Some("content_filter")
    else None
  }

  function OrEmpty(s: Option<string>): string { if s.Some? then s.value else "" }

  /** The text of the parts that are not thoughts. */
  function Visible(parts: seq<Part>): string {
    if parts == [] then "" else Visible(parts[..|parts| - 1]) + (var p := parts[|parts| - 1]; if p.thought then "" else p.text)
  }

  method ReadParts(parts: seq<Part>) returns (text: Option<string>)
    ensures text.Some? <==> forall i :: 0 <= i < |parts| ==> !parts[i].foreign
    ensures text.Some? ==> text.value == Visible(parts)
  {
    var t := "";
    for i := 0 to |parts|
      invariant t == Visible(parts[..i]) && forall j :: 0 <= j < i ==> !parts[j].foreign
    {
      if parts[i].foreign {
        return None;
      }
      assert parts[..i + 1][..i] == parts[..i];
      if !parts[i].thought {
        t := t + parts[i].text;
      }
    }
    assert parts[..|parts|] == parts;
    return Some(t);
  }

  function OpenAIFrame(c: Choice, usage: Usage): Frame {
    if c.index != 0 || c.tools || (c.finish.Some? && Finish(c.finish.value).None?) then BadFrame
    else
      var text := OrEmpty(c.text) + OrEmpty(c.refusal);
      if c.finish.None? then Piece(text, "", false, usage) else Piece(text, Finish(c.finish.value).value, true, usage)
  }

  function GeminiFrame(c: Candidate, usage: Usage): Frame {
    if c.index != 0 || (exists i :: 0 <= i < |c.parts| && c.parts[i].foreign) || (c.finish != "" && Finish(c.finish).None?) then BadFrame
    else if c.finish == "" then Piece(Visible(c.parts), "", false, usage)
    else Piece(Visible(c.parts), Finish(c.finish).value, true, usage)
  }

  function Normal(e: Event): Frame {
    match e
    case Done => DoneFrame
    case Garbled => BadFrame
    case UnknownType => BadFrame
    case OpenAIChunk(choices, usage) =>
      if |choices| > 1 then BadFrame
      else if choices == [] then Piece("", "", false, usage)
      else OpenAIFrame(choices[0], usage)
    case ContentBlock(isText, text, usage) => if isText then Piece(text, "", false, usage) else BadFrame
    case MessageDelta(stop, usage) =>
      if stop == "" then Piece("", "", false, usage)
      else if Finish(stop).None? then BadFrame
      else Piece("", Finish(stop).value, false, usage)
    case MessageStop(usage) => Piece("", "", true, usage)
    case Quiet(usage) => Piece("", "", false, usage)
    case GeminiChunk(blocked, candidates, usage) =>
      if blocked then Piece("", "content_filter", true, usage)
      else if |candidates| > 1 then BadFrame
      else if candidates == [] then Piece("", "", false, usage)
      else GeminiFrame(candidates[0], usage)
  }

  function Frames(es: seq<Event>): seq<Frame> { seq(|es|, i requires 0 <= i < |es| => Normal(es[i])) }

  /** The Gemini case with its loop over the parts. */
  method NormalizeGemini(blocked: bool, candidates: seq<Candidate>, usage: Usage) returns (f: Frame)
    ensures f == Normal(GeminiChunk(blocked, candidates, usage))
  {
    if blocked {
      return Piece("", "content_filter", true, usage);
    }
    if |candidates| > 1 {
      return BadFrame;
    }
    if |candidates| == 0 {
      return Piece("", "", false, usage);
    }
    var c := candidates[0];
    if c.index != 0 {
      return BadFrame;
    }
    var text := ReadParts(c.parts);
    if text.None? {
      return BadFrame;
    }
    if c.finish == "" {
      return Piece(text.value, "", false, usage);
    }
    var finish := Finish(c.finish);
    if finish.None? {
      return BadFrame;
    }
    return Piece(text.value, finish.value, true, usage);
  }

  // ----- what the provider said, read off its events -----

  /** The providers' finish reasons and the gateway's word for each. */
  const REASONS: map<string, string> := map[
    "stop" := "stop", "end_turn" := "stop", "stop_sequence" := "stop", "STOP" := "stop",
    "length" := "length", "max_tokens" := "length", "MAX_TOKENS" := "length",
    "content_filter" := "content_filter", "SAFETY" := "content_filter", "RECITATION" := "content_filter",
    "BLOCKLIST" := "content_filter", "PROHIBITED_CONTENT" := "content_filter", "SPII" := "content_filter"]

  /** One text answer, if any: no second choice, no tool call, no foreign part, no unknown finish reason. */
  ghost predicate Readable(e: Event) {
    match e
    case Done => true
    case Garbled => false
    case UnknownType => false
    case OpenAIChunk(cs, _) =>
      |cs| == 0 || (|cs| == 1 && cs[0].index == 0 && !cs[0].tools && (cs[0].finish.Some? ==> cs[0].finish.value in REASONS))
    case ContentBlock(isText, _, _) => isText
    case MessageDelta(stop, _) => stop == "" || stop in REASONS
    case MessageStop(_) => true
    case Quiet(_) => true
    case GeminiChunk(blocked, cs, _) =>
      || blocked || |cs| == 0
      || (|cs| == 1 && cs[0].index == 0 && (cs[0].finish == "" || cs[0].finish in REASONS) && forall p :: p in cs[0].parts ==> !p.foreign)
  }

  /** The parts meant for the reader, in order, run together. */
  function Spoken(parts: seq<Part>): string {
    if parts == [] then "" else if parts[0].thought then Spoken(parts[1..]) else parts[0].text + Spoken(parts[1..])
  }

  /** What one event adds to the answer. */
  function Said(e: Event): string {
    match e
    case OpenAIChunk(cs, _) =>
      if |cs| == 0 then ""
      else (match cs[0].text case Some(t) => t case None => "") + (match cs[0].refusal case Some(t) => t case None => "")
    case ContentBlock(_, text, _) => text
    case GeminiChunk(blocked, cs, _) => if blocked || |cs| == 0 then "" else Spoken(cs[0].parts)
    case _ => ""
  }

  /** The finish reason in the provider's own words, "" when the event gives none. */
  function Reason(e: Event): string {
    match e
    case OpenAIChunk(cs, _) => if |cs| > 0 && cs[0].finish.Some? then cs[0].finish.value else ""
    case MessageDelta(stop, _) => stop
    case GeminiChunk(blocked, cs, _) => if blocked then "SAFETY" else if |cs| > 0 then cs[0].finish else ""
    case _ => ""
  }

  /** Everything a list of events says, first to last. */
  function SaidAll(es: seq<Event>): string { if es == [] then "" else Said(es[0]) + SaidAll(es[1..]) }

  lemma {:induction false} VisibleIsSpoken(parts: seq<Part>)
    ensures Visible(parts) == Spoken(parts)
  {
    if parts == [] {
    } else {
      var init, p := parts[..|parts| - 1], parts[|parts| - 1];
      VisibleIsSpoken(init);
      SpokenSnoc(init, p);
      assert parts == init + [p];
    }
  }

  lemma {:induction false} SpokenSnoc(parts: seq<Part>, p: Part)
    ensures Spoken(parts + [p]) == Spoken(parts) + if p.thought then "" else p.text
  {
    if parts == [] {
    } else {
      SpokenSnoc(parts[1..], p);
      assert (parts + [p])[1..] == parts[1..] + [p];
    }
  }

  lemma FinishIsByTable(s: string)
    ensures Finish(s) == if s in REASONS then Some(REASONS[s]) else None
  {}

  /** Every event is refused or passed on whole: its own text, its reason in the gateway's words, its end mark, its counts. */
  lemma NormalMeans(e: Event)
    ensures Normal(e).BadFrame? <==> !Readable(e)
    ensures Normal(e).DoneFrame? <==> e.Done?
    ensures Normal(e).Piece? ==>
      && Normal(e).text == Said(e) && Normal(e).usage == e.usage
      && Normal(e).finish == (if Reason(e) == "" then "" else if Reason(e) in REASONS then REASONS[Reason(e)] else Reason(e))
      && Normal(e).last == (e.MessageStop? || (e.OpenAIChunk? && |e.choices| > 0 && e.choices[0].finish.Some?) || (e.GeminiChunk? && Reason(e) != ""))
  {
    match e {
      case OpenAIChunk(cs, _) => if |cs| == 1 && cs[0].finish.Some? { FinishIsByTable(cs[0].finish.value); }
      case MessageDelta(stop, _) => FinishIsByTable(stop);
      case GeminiChunk(_, cs, _) => if |cs| == 1 { FinishIsByTable(cs[0].finish); VisibleIsSpoken(cs[0].parts); }
      case _ =>
    }
    hide Finish;
  }

  lemma {:induction false} SaidSnoc(es: seq<Event>, e: Event)
    ensures SaidAll(es + [e]) == SaidAll(es) + Said(e)
  {
    hide Said;
    if es == [] {
    } else {
      SaidSnoc(es[1..], e);
      assert (es + [e])[1..] == es[1..] + [e];
    }
  }

  /** The text of a stream none of whose events is refused is exactly what the provider said, in order. */
  lemma {:induction false} TextIsWhatWasSaid(es: seq<Event>)
    requires forall e :: e in es ==> Readable(e)
    ensures Texts(Frames(es)) == SaidAll(es)
  {
    if es == [] {
    } else {
      var init, e := es[..|es| - 1], es[|es| - 1];
      FramesSnoc(es);
      assert es == init + [e];
      TextIsWhatWasSaid(init);
      TextsSnoc(Frames(init), Normal(e));
      SaidSnoc(init, e);
      assert e in es;
      NormalMeans(e);
      hide Normal, Frames, Texts, SaidAll, Readable;
    }
  }

  lemma FinishIsReal(s: string)
    ensures Finish(s).Some? ==> Finish(s).value != ""
  {}

  /** Gemini's finish reason and its end mark are one frame; Anthropic's end mark carries nothing else. */
  lemma EndMarks(p: Provider, e: Event)
    requires From(p, e) && Normal(e).Piece?
    ensures p == Gemini ==> (Normal(e).last <==> Normal(e).finish != "")
    ensures p == Anthropic && Normal(e).last ==> Normal(e).text == "" && Normal(e).finish == ""
  {
    match e {
      case GeminiChunk(_, candidates, _) => if |candidates| == 1 { FinishIsReal(candidates[0].finish); }
      case MessageDelta(stop, _) => FinishIsReal(stop);
      case _ =>
    }
  }

  /** Before its end mark a Gemini stream has no finish reason, so it is silent exactly if it has no text. */
  lemma {:induction false} GeminiBefore(es: seq<Event>)
    requires (forall e :: e in es ==> From(Gemini, e)) && Plain(false, Frames(es))
    ensures LastFinish(Frames(es)) == "" && (Silent(Frames(es)) <==> Texts(Frames(es)) == "")
  {
    if es == [] {
    } else {
      var init, e := es[..|es| - 1], es[|es| - 1];
      FramesSnoc(es);
      PlainInit(Frames(init), Normal(e));
      GeminiBefore(init);
      assert e in es;
      EndMarks(Gemini, e);
      TextsSnoc(Frames(init), Normal(e));
      hide Frames, Normal, Texts, Silent, LastFinish, FirstFinish, LastUsage, Plain, From;
    }
  }

  lemma PlainInit(fs: seq<Frame>, f: Frame)
    requires Plain(false, fs + [f])
    ensures Plain(false, fs) && f.Piece? && !f.last
  {
    assert (fs + [f])[..|fs|] == fs;
  }

  /**
   For every event stream a provider ends properly: the end is recognised, unless the
   provider is Gemini and the answer is empty at the token ceiling.
   */
  lemma EndIsSeenIff(p: Provider, es: seq<Event>)
    requires (forall e :: e in es ==> From(p, e)) && Answered(p.OpenAI?, Frames(es))
    ensures (exists k :: Closed(p.OpenAI?, Frames(es), k)) <==>
      !(p == Gemini && Texts(Frames(es)) == "" && LastFinish(Frames(es)) == "length")
  {
    var fs, n := Frames(es), |es| - 1;
    AnsweredIsClosedIff(p.OpenAI?, fs);
    if p != OpenAI {
      var init, e := es[..n], es[n];
      FramesSnoc(es);
      EndMarks(p, e);
      if p == Gemini {
        GeminiBefore(init);
        TextsSnoc(Frames(init), Normal(e));
      }
      hide Frames, Normal, Texts, Silent, LastFinish, FirstFinish, LastUsage, Plain, From;
    }
  }

  /**
   So an empty answer at the ceiling, which may be tried elsewhere, is reported as
   such for OpenAI and Anthropic and never for Gemini.
   */
  lemma EmptyIsReportedIff(p: Provider, es: seq<Event>)
    requires (forall e :: e in es ==> From(p, e)) && Answered(p.OpenAI?, Frames(es)) && Silent(Frames(es))
    ensures (exists k :: Closed(p.OpenAI?, Frames(es), k) && Silent(Frames(es)[..k + 1])) <==> p != Gemini
  {
    var fs, n := Frames(es), |es| - 1;
    SilentMeans(fs);
    AnsweredHasFinish(p.OpenAI?, fs);
    EndIsSeenIff(p, es);
    if p != Gemini {
      AnsweredIsClosedIff(p.OpenAI?, fs);
      PlainIsOpen(p.OpenAI?, fs[..n]);
      assert fs[..n + 1] == fs;
      if p == Anthropic { EndMarks(p, es[n]); }
      assert Closed(p.OpenAI?, fs, n);
    }
  }

  lemma {:induction false} SilentMeans(fs: seq<Frame>)
    requires Silent(fs)
    ensures Texts(fs) == "" && (LastFinish(fs) == "" || LastFinish(fs) == "length")
  {
    if fs == [] {
    } else {
      SilentMeans(fs[..|fs| - 1]);
    }
  }

  lemma AnsweredHasFinish(openai: bool, fs: seq<Frame>)
    requires Answered(openai, fs)
    ensures LastFinish(fs) != ""
  {}

  // ----- the finish reason that is stored -----

  /**
   An Anthropic stream that reports the ceiling and then another reason: the reason
   stored for a replay is not the one the client read last, whatever the room.
   */
  lemma StoredFinishCanDiffer(out: StreamOut)
    ensures var es := [MessageDelta("max_tokens", NO_USAGE), MessageDelta("end_turn", NO_USAGE), MessageStop(NO_USAGE)];
      && (forall e :: e in es ==> From(Anthropic, e))
      && Closed(false, Frames(es), 2) && !Silent(Frames(es))
      && (Sound(out) && out.ending == Complete && AsFramesSay(Frames(es), out) ==>
            out.finish == "stop" && ChunkFinish(out.sent) == "length")
  {
    var es := [MessageDelta("max_tokens", NO_USAGE), MessageDelta("end_turn", NO_USAGE), MessageStop(NO_USAGE)];
    var a, b, c := Piece("", "length", false, NO_USAGE), Piece("", "stop", false, NO_USAGE), Piece("", "", true, NO_USAGE);
    assert Finish("max_tokens") == Some("length") && Finish("end_turn") == Some("stop");
    assert Frames(es) == [a, b, c];
    ThreeFrames(a, b, c);
  }

  lemma ThreeFrames(a: Frame, b: Frame, c: Frame)
    requires a == Piece("", "length", false, NO_USAGE) && b == Piece("", "stop", false, NO_USAGE)
    requires c == Piece("", "", true, NO_USAGE)
    ensures Closed(false, [a, b, c], 2) && !Silent([a, b, c]) && Held([a, b, c]) && LastFinish([a, b, c]) == "stop"
  {
    assert [a, b, c][..2] == [a, b] && [] + [a] == [a] && [a] + [b] == [a, b] && [a, b] + [c] == [a, b, c];
    TextsSnoc([], a);
    TextsSnoc([a], b);
    TextsSnoc([a, b], c);
    OpenSnoc(false, [], a);
    OpenSnoc(false, [a], b);
  }

  lemma FramesSnoc(es: seq<Event>)
    requires es != []
    ensures Frames(es) == Frames(es[..|es| - 1]) + [Normal(es[|es| - 1])] && Frames(es)[..|es| - 1] == Frames(es[..|es| - 1])
  {
    hide Normal;
  }

  /** Gemini gives one reason only, so what is stored is what was read. */
  lemma GeminiStoresWhatWasRead(es: seq<Event>, out: StreamOut)
    requires (forall e :: e in es ==> From(Gemini, e)) && Answered(false, Frames(es))
    requires Sound(out) && out.ending == Complete && AsFramesSay(Frames(es), out)
    ensures out.finish == ChunkFinish(out.sent)
  {
    var init, e := es[..|es| - 1], es[|es| - 1];
    hide Frames, Normal, Texts, Silent, LastFinish, FirstFinish, LastUsage, Plain, From, AsFramesSay, Sound;
    FramesSnoc(es);
    GeminiBefore(init);
    FinishKinds(Frames(init));
    TextsSnoc(Frames(init), Normal(e));
    StoredAnswerMatches(Frames(es), out);
  }
}
