/**
 Bedrock streaming (internal/gateway/bedrock.go).  `Decode` reads an event stream
 directly; `Translate` rewrites it as the server-sent events the common path reads.
 An event is one decoded message; `Malformed` is bad framing or a bad payload.
 */
module Bedrock {
  import opened Common
  import opened Streams

  datatype Event =
    | BlockStart(unsupported: bool)
    | Delta(text: string)
    | Stop(reason: string)
    | Metadata(usage: Usage)
    | OtherEvent
    | Malformed

  /** A translated frame: ordinary Converse fields, with the stop reason and usage on the last. */
  datatype Emitted = DeltaFrame(text: string) | FinalFrame(reason: string, usage: Usage)

  datatype Answer = Answer(text: string, finish: string, usage: Usage)

  function Finish(reason: string): Option<string> {
    if reason == "end_turn" || reason == "stop_sequence" then Some("stop")
    else if reason == "max_tokens" then Some("length")
    else if reason == "guardrail_intervened" || reason == "content_filtered" then Some("content_filter")
    else None
  }

  // ----- what an event stream says -----

  function TextOf(es: seq<Event>): string {
    if es == [] then "" else TextOf(es[..|es| - 1]) + (var e := es[|es| - 1]; if e.Delta? then e.text else "")
  }

  function LastStop(es: seq<Event>): string {
    if es == [] then "" else var e := es[|es| - 1]; if e.Stop? then e.reason else LastStop(es[..|es| - 1])
  }

  function LastMetadata(es: seq<Event>): Usage {
    if es == [] then NO_USAGE else var e := es[|es| - 1]; if e.Metadata? then e.usage else LastMetadata(es[..|es| - 1])
  }

  predicate AllStopsKnown(es: seq<Event>) { forall e :: e in es && e.Stop? ==> Finish(e.reason).Some? }

  predicate Supported(es: seq<Event>) { forall e :: e in es ==> e.BlockStart? ==> !e.unsupported }

  /** Decodable within the size limit. */
  predicate Readable(es: seq<Event>, limit: nat) { Malformed !in es && |TextOf(es)| <= limit }

  function Decoded(es: seq<Event>, limit: nat): Option<Answer> {
    if Readable(es, limit) && AllStopsKnown(es) && LastStop(es) != "" && Finish(LastStop(es)).Some? then
      Some(Answer(TextOf(es), Finish(LastStop(es)).value, LastMetadata(es)))
    else None
  }

  function Deltas(es: seq<Event>): seq<Emitted> {
    if es == [] then []
    else
      var e := es[|es| - 1];
      Deltas(es[..|es| - 1]) + if e.Delta? && e.text != "" then [DeltaFrame(e.text)] else []
  }

  function Translated(es: seq<Event>, limit: nat): Option<seq<Emitted>> {
    if Readable(es, limit) && Supported(es) && LastStop(es) != "" then
      Some(Deltas(es) + [FinalFrame(LastStop(es), LastMetadata(es))])
    else None
  }

  lemma Snoc(es: seq<Event>, e: Event)
    ensures TextOf(es + [e]) == TextOf(es) + if e.Delta? then e.text else ""
    ensures LastStop(es + [e]) == if e.Stop? then e.reason else LastStop(es)
    ensures LastMetadata(es + [e]) == if e.Metadata? then e.usage else LastMetadata(es)
    ensures Deltas(es + [e]) == Deltas(es) + if e.Delta? && e.text != "" then [DeltaFrame(e.text)] else []
    ensures AllStopsKnown(es + [e]) <==> AllStopsKnown(es) && (e.Stop? ==> Finish(e.reason).Some?)
    ensures Supported(es + [e]) <==> Supported(es) && (e.BlockStart? ==> !e.unsupported)
    ensures Malformed in es + [e] <==> Malformed in es || e == Malformed
  {
    assert (es + [e])[..|es|] == es;
    assert e in es + [e];
    assert forall x :: x in es ==> x in es + [e];
  }

  /** What rules a stream out stays: a longer stream is no more readable, known or supported. */
  lemma {:induction false} PrefixGood(es: seq<Event>, n: nat, limit: nat)
    requires n <= |es|
    ensures Readable(es, limit) ==> Readable(es[..n], limit)
    ensures AllStopsKnown(es) ==> AllStopsKnown(es[..n])
    ensures Supported(es) ==> Supported(es[..n])
  {
    if n == |es| {
      assert es[..n] == es;
    } else {
      var prev := es[..|es| - 1];
      assert prev[..n] == es[..n] && es == prev + [es[|es| - 1]];
      Snoc(prev, es[|es| - 1]);
      PrefixGood(prev, n, limit);
    }
  }

  lemma {:induction false} LastStopKnown(es: seq<Event>)
    ensures LastStop(es) == "" || exists e :: e in es && e.Stop? && e.reason == LastStop(es)
  {
    if es == [] {
    } else {
      LastStopKnown(es[..|es| - 1]);
      assert es == es[..|es| - 1] + [es[|es| - 1]];
      assert es[|es| - 1] in es;
    }
  }

  // ----- the same, read off the events one by one -----

  /** Bedrock's stop reasons and the gateway's word for each. */
  const REASONS: map<string, string> := map[
    "end_turn" := "stop", "stop_sequence" := "stop", "max_tokens" := "length",
    "guardrail_intervened" := "content_filter", "content_filtered" := "content_filter"]

  lemma FinishIsByTable(s: string)
    ensures Finish(s) == if s in REASONS then Some(REASONS[s]) else None
  {}

  /** What one event adds to the answer. */
  function Said(e: Event): string {
    match e
    case Delta(t) => t
    case _ => ""
  }

  /** The deltas run together, first to last. */
  function Spoken(es: seq<Event>): string { if es == [] then "" else Said(es[0]) + Spoken(es[1..]) }

  lemma {:induction false} SpokenSnoc(es: seq<Event>, e: Event)
    ensures Spoken(es + [e]) == Spoken(es) + Said(e)
  {
    hide Said;
    if es == [] {
    } else {
      SpokenSnoc(es[1..], e);
      assert (es + [e])[1..] == es[1..] + [e];
    }
  }

  lemma {:induction false} TextIsSpoken(es: seq<Event>)
    ensures TextOf(es) == Spoken(es)
  {
    if es == [] {
    } else {
      TextIsSpoken(es[..|es| - 1]);
      SpokenSnoc(es[..|es| - 1], es[|es| - 1]);
      assert es == es[..|es| - 1] + [es[|es| - 1]];
    }
  }

  /** The stop reason and the token counts that stand are the last ones given. */
  lemma {:induction false} LastOnesStand(es: seq<Event>, i: nat)
    requires i < |es|
    ensures es[i].Stop? && (forall j :: i < j < |es| ==> !es[j].Stop?) ==> LastStop(es) == es[i].reason
    ensures es[i].Metadata? && (forall j :: i < j < |es| ==> !es[j].Metadata?) ==> LastMetadata(es) == es[i].usage
  {
    if i < |es| - 1 { LastOnesStand(es[..|es| - 1], i); }
  }

  lemma {:induction false} NoneStands(es: seq<Event>)
    ensures (forall e :: e in es ==> !e.Stop?) ==> LastStop(es) == ""
    ensures (forall e :: e in es ==> !e.Metadata?) ==> LastMetadata(es) == NO_USAGE
  {
    if es == [] {
    } else {
      NoneStands(es[..|es| - 1]);
      assert es == es[..|es| - 1] + [es[|es| - 1]];
    }
  }

  /**
   Exactly which streams are read, and as what: whole, within the limit, every stop reason
   in the table and one at least; the answer is the deltas run together under the last
   stop reason's word.
   */
  lemma DecodedIff(es: seq<Event>, limit: nat, i: nat)
    ensures Decoded(es, limit).Some? <==>
      && Malformed !in es && |Spoken(es)| <= limit
      && (exists e :: e in es && e.Stop?) && (forall e :: e in es && e.Stop? ==> e.reason in REASONS)
    ensures Decoded(es, limit).Some? ==> Decoded(es, limit).value.text == Spoken(es)
    ensures Decoded(es, limit).Some? && i < |es| && es[i].Stop? && (forall j :: i < j < |es| ==> !es[j].Stop?) ==>
      es[i].reason in REASONS && Decoded(es, limit).value.finish == REASONS[es[i].reason]
    ensures Decoded(es, limit).Some? && i < |es| && es[i].Metadata? && (forall j :: i < j < |es| ==> !es[j].Metadata?) ==>
      Decoded(es, limit).value.usage == es[i].usage
    ensures Decoded(es, limit).Some? && (forall e :: e in es ==> !e.Metadata?) ==> Decoded(es, limit).value.usage == NO_USAGE
  {
    TextIsSpoken(es);
    NoneStands(es);
    LastStopKnown(es);
    StopsByTable(es);
    FinishIsByTable(LastStop(es));
    if i < |es| { LastOnesStand(es, i); }
    hide Finish, TextOf, LastStop, LastMetadata, Spoken, AllStopsKnown;
    if e :| e in es && e.Stop? && (forall x :: x in es && x.Stop? ==> x.reason in REASONS) { LastStopIsOne(es, e); }
  }

  lemma StopsByTable(es: seq<Event>)
    ensures AllStopsKnown(es) <==> forall e :: e in es && e.Stop? ==> e.reason in REASONS
  {
    forall e | e in es && e.Stop? ensures Finish(e.reason).Some? <==> e.reason in REASONS { FinishIsByTable(e.reason); }
    hide Finish;
  }

  lemma {:induction false} LastStopIsOne(es: seq<Event>, e: Event)
    requires e in es && e.Stop?
    ensures exists x :: x in es && x.Stop? && x.reason == LastStop(es)
  {
    var last := es[|es| - 1];
    assert last in es && es == es[..|es| - 1] + [last];
    if !last.Stop? { LastStopIsOne(es[..|es| - 1], e); }
  }

  method Decode(es: seq<Event>, limit: nat) returns (r: Option<Answer>)
    ensures r == Decoded(es, limit)
  {
    var text, finish, usage := "", "", NO_USAGE;
    for i := 0 to |es|
      invariant Readable(es[..i], limit) && AllStopsKnown(es[..i])
      invariant text == TextOf(es[..i]) && usage == LastMetadata(es[..i])
      invariant if LastStop(es[..i]) == "" then finish == "" else Finish(LastStop(es[..i])) == Some(finish)
    {
      assert es[..i + 1] == es[..i] + [es[i]];
      Snoc(es[..i], es[i]);
      PrefixGood(es, i + 1, limit);
      match es[i] {
        case Malformed => return None;
        case Delta(t) => text := text + t;
        case Stop(reason) =>
          var f := Finish(reason);
          if f.None? {
            return None;
          }
          finish := f.value;
        case Metadata(u) => usage := u;
        case _ =>
      }
      if |text| > limit {
        return None;
      }
    }
    assert es[..|es|] == es;
    if finish == "" {
      return None;
    }
    r := Some(Answer(text, finish, usage));
  }

  /** `frames` is what was written before success or failure. */
  method Translate(es: seq<Event>, limit: nat) returns (frames: seq<Emitted>, ok: bool)
    ensures ok <==> Translated(es, limit).Some?
    ensures ok ==> frames == Translated(es, limit).value
    ensures !ok ==> exists n :: 0 <= n <= |es| && frames == Deltas(es[..n])
  {
    var stop, usage, written := "", NO_USAGE, 0;
    frames, ok := [], false;
    for i := 0 to |es|
      invariant Readable(es[..i], limit) && Supported(es[..i]) && !ok
      invariant frames == Deltas(es[..i]) && written == |TextOf(es[..i])|
      invariant stop == LastStop(es[..i]) && usage == LastMetadata(es[..i])
    {
      assert es[..i + 1] == es[..i] + [es[i]];
      Snoc(es[..i], es[i]);
      PrefixGood(es, i + 1, limit);
      match es[i] {
        case Malformed => return;
        case BlockStart(unsupported) =>
          if unsupported {
            return;
          }
        case Delta(t) =>
          if t != "" {
            written := written + |t|;
            if written > limit {
              return;
            }
            frames := frames + [DeltaFrame(t)];
          }
        case Stop(reason) => stop := reason;
        case Metadata(u) => usage := u;
        case OtherEvent =>
      }
    }
    assert es[..|es|] == es;
    if stop == "" {
      return;
    }
    frames := frames + [FinalFrame(stop, usage)];
    ok := true;
  }

  // ----- reading translated frames -----

  /** `normalizeBedrockStream` on one frame. */
  function Normalized(f: Emitted): Frame {
    match f
    case DeltaFrame(t) => Piece(t, "", false, NO_USAGE)
    case FinalFrame(reason, usage) =>
      var fin := Finish(reason);
      if fin.None? then BadFrame else Piece("", fin.value, true, usage)
  }

  function Pieces(fs: seq<Emitted>): (r: seq<Frame>)
    ensures |r| == |fs| && forall i :: 0 <= i < |fs| ==> r[i] == Normalized(fs[i])
  {
    seq(|fs|, i requires 0 <= i < |fs| => Normalized(fs[i]))
  }

  /** What a reader makes of the translated frames: everything up to the frame that reports completion. */
  function Understood(t: Option<seq<Emitted>>): Option<Answer> {
    if t.None? || BadFrame in Pieces(t.value) || !HasFinish(Pieces(t.value)) then None
    else Some(Answer(Texts(Pieces(t.value)), LastFinish(Pieces(t.value)), LastUsage(Pieces(t.value))))
  }

  /** Frames that carry this text and nothing else. */
  ghost predicate JustText(ps: seq<Frame>, text: string) {
    && Texts(ps) == text && LastFinish(ps) == "" && LastUsage(ps) == NO_USAGE
    && Plain(false, ps) && (Silent(ps) <==> text == "") && BadFrame !in ps
  }

  lemma JustTextSnoc(ps: seq<Frame>, text: string, t: string)
    requires JustText(ps, text) && t != ""
    ensures JustText(ps + [Piece(t, "", false, NO_USAGE)], text + t)
  {
    var p := Piece(t, "", false, NO_USAGE);
    TextsSnoc(ps, p);
    PlainSnoc(ps, p);
    hide Texts, LastFinish, LastUsage, FirstFinish, Silent, Plain;
    assert |text + t| > 0;
  }

  lemma {:induction false} DeltaPieces(es: seq<Event>)
    ensures JustText(Pieces(Deltas(es)), TextOf(es))
  {
    if es == [] {
      assert Pieces([]) == [];
    } else {
      var prev, e := es[..|es| - 1], es[|es| - 1];
      DeltaPieces(prev);
      if e.Delta? && e.text != "" {
        PiecesSnoc(Deltas(prev), DeltaFrame(e.text));
        assert Deltas(es) == Deltas(prev) + [DeltaFrame(e.text)] && TextOf(es) == TextOf(prev) + e.text;
        hide Pieces, Deltas, TextOf, JustText;
        JustTextSnoc(Pieces(Deltas(prev)), TextOf(prev), e.text);
      } else {
        assert Deltas(es) == Deltas(prev) && TextOf(es) == TextOf(prev);
        hide Pieces, Deltas, TextOf, JustText;
      }
    }
  }

  lemma PlainSnoc(fs: seq<Frame>, f: Frame)
    requires Plain(false, fs) && f.Piece? && !f.last && LastFinish(fs) == ""
    ensures Plain(false, fs + [f])
  {
    assert (fs + [f])[..|fs|] == fs;
  }

  lemma PiecesSnoc(fs: seq<Emitted>, f: Emitted)
    ensures Pieces(fs + [f]) == Pieces(fs) + [Normalized(f)]
  {}

  /** The translated frames, piece by piece: deltas that do not complete, then one frame that does. */
  lemma TranslatedPieces(es: seq<Event>, limit: nat)
    requires Translated(es, limit).Some? && Finish(LastStop(es)).Some?
    ensures var ps := Pieces(Translated(es, limit).value); var n := |ps| - 1;
      && n >= 0 && ps[..n] == Pieces(Deltas(es)) && ps[n] == Piece("", Finish(LastStop(es)).value, true, LastMetadata(es))
      && Texts(ps) == TextOf(es) && LastFinish(ps) == Finish(LastStop(es)).value && LastUsage(ps) == LastMetadata(es)
      && (forall i :: 0 <= i < n ==> ps[i].Piece? && !ps[i].last && ps[i].finish == "")
  {
    var last := FinalFrame(LastStop(es), LastMetadata(es));
    PiecesSnoc(Deltas(es), last);
    DeltaPieces(es);
    TextsSnoc(Pieces(Deltas(es)), Normalized(last));
    assert "" + TextOf(es) == TextOf(es);
    DeltasAreDeltas(es);
  }

  lemma {:induction false} DeltasAreDeltas(es: seq<Event>)
    ensures forall f :: f in Deltas(es) ==> f.DeltaFrame?
  {
    if es == [] {
    } else {
      DeltasAreDeltas(es[..|es| - 1]);
    }
  }

  /** A stop reason that the direct reader refuses and the translator overwrites. */
  predicate StopOverwritten(es: seq<Event>) { !AllStopsKnown(es) && Finish(LastStop(es)).Some? }

  lemma UnderstoodValue(es: seq<Event>, limit: nat)
    ensures Understood(Translated(es, limit)) ==
      if Readable(es, limit) && Supported(es) && Finish(LastStop(es)).Some?
      then Some(Answer(TextOf(es), Finish(LastStop(es)).value, LastMetadata(es))) else None
  {
    var t := Translated(es, limit);
    if t.Some? {
      if Finish(LastStop(es)).Some? {
        TranslatedPieces(es, limit);
        var ps := Pieces(t.value);
        assert BadFrame !in ps;
      } else {
        assert Pieces(t.value)[|t.value| - 1] == BadFrame;
      }
    }
  }

  /**
   Translation preserves meaning: reading the translated frames gives the text,
   finish reason and usage of the direct reader, or both fail, wherever the
   metadata falls; every stream within the stated conditions, readable or not.
   */
  lemma TranslationPreservesMeaning(es: seq<Event>, limit: nat)
    requires Supported(es) && !StopOverwritten(es)
    ensures Understood(Translated(es, limit)) == Decoded(es, limit)
  {
    UnderstoodValue(es, limit);
    LastStopKnown(es);
  }

  /**
   And those conditions are exact: the two readers agree on every stream that is not
   readable or does not end in a known stop reason, and on the others if both
   conditions hold, or if neither does.
   */
  lemma TranslationAgreesIff(es: seq<Event>, limit: nat)
    ensures Understood(Translated(es, limit)) == Decoded(es, limit) <==>
      (Readable(es, limit) && Finish(LastStop(es)).Some? ==> (Supported(es) <==> AllStopsKnown(es)))
  {
    UnderstoodValue(es, limit);
  }

  lemma StopOverwrittenExample()
    ensures var es := [Stop("tool_use"), Stop("end_turn")];
      Supported(es) && Decoded(es, 10).None? && Understood(Translated(es, 10)).Some?
  {
    ToolUseUnknown();
    var a, b := Stop("tool_use"), Stop("end_turn");
    hide Finish;
    assert a in [a, b];
    assert [] + [a] == [a] && [a] + [b] == [a, b];
    Snoc([], a);
    Snoc([a], b);
    UnderstoodValue([a, b], 10);
  }

  lemma UnsupportedBlockExample()
    ensures var es := [BlockStart(true), Delta("a"), Stop("end_turn")];
      AllStopsKnown(es) && Decoded(es, 10).Some? && Understood(Translated(es, 10)).None?
  {
    ToolUseUnknown();
    var a, b, c := BlockStart(true), Delta("a"), Stop("end_turn");
    assert TextOf([]) == "" && AllStopsKnown([]) && Malformed !in [];
    hide Finish, TextOf, LastStop, LastMetadata, Deltas, Translated, Understood;
    assert [] + [a] == [a] && [a] + [b] == [a, b] && [a, b] + [c] == [a, b, c];
    Snoc([], a);
    Snoc([a], b);
    Snoc([a, b], c);
    UnderstoodValue([a, b, c], 10);
    assert "" + "a" == "a";
  }

  lemma ToolUseUnknown()
    ensures Finish("tool_use").None? && Finish("end_turn").Some?
  {
    assert "tool_use"[0] == 't';
  }

  /** One messageStop at most is enough for the second condition. */
  lemma OneStopIsNotOverwritten(es: seq<Event>)
    requires forall i, j :: 0 <= i < |es| && 0 <= j < |es| && es[i].Stop? && es[j].Stop? ==> i == j
    ensures !StopOverwritten(es)
  {
    LastStopKnown(es);
    if LastStop(es) != "" {
      var e :| e in es && e.Stop? && e.reason == LastStop(es);
      var i :| 0 <= i < |es| && es[i] == e;
      assert forall x :: x in es && x.Stop? ==> x == e;
    }
  }

  /** Whatever reads the translated frames sees their end, unless the answer is empty at the token ceiling. */
  lemma TranslatedCloses(es: seq<Event>, limit: nat)
    requires Understood(Translated(es, limit)).Some?
    ensures var a := Understood(Translated(es, limit)).value; var ps := Pieces(Translated(es, limit).value);
      && Texts(ps) == a.text && LastFinish(ps) == a.finish && LastUsage(ps) == a.usage
      && ((exists k :: Closed(false, ps, k)) <==> !(a.text == "" && a.finish == "length"))
      && (forall k :: Closed(false, ps, k) ==> ps[..k + 1] == ps && !Silent(ps))
  {
    UnderstoodValue(es, limit);
    TranslatedPieces(es, limit);
    DeltaPieces(es);
    var ps := Pieces(Translated(es, limit).value);
    var n := |ps| - 1;
    AnsweredIsClosedIff(false, ps);
    forall k: nat | Closed(false, ps, k) ensures ps[..k + 1] == ps && !Silent(ps) {
      assert k == n;
      assert ps[..n + 1] == ps;
      FinishOnEndMarkNeverEmpty(ps, k);
    }
  }

  /**
   Through the common streaming path: whatever `Stream` returns for the translated
   frames, a completed answer is the one the direct reader gives.  The stream is
   recognised as over unless the answer is empty at the token ceiling, because
   Bedrock's end mark and its finish reason share a frame.
   */
  lemma ThroughStream(es: seq<Event>, limit: nat)
    requires Supported(es) && !StopOverwritten(es) && Decoded(es, limit).Some?
    ensures var a := Decoded(es, limit).value; var ps := Pieces(Translated(es, limit).value);
      && Texts(ps) == a.text && LastFinish(ps) == a.finish && LastUsage(ps) == a.usage
      && ((exists k :: Closed(false, ps, k)) <==> !(a.text == "" && a.finish == "length"))
      && (forall k :: Closed(false, ps, k) ==> ps[..k + 1] == ps && !Silent(ps))
  {
    TranslationPreservesMeaning(es, limit);
    TranslatedCloses(es, limit);
  }

  /** Frames without an end mark never end. */
  lemma NoEndMark(ps: seq<Frame>)
    requires forall i :: 0 <= i < |ps| ==> ps[i].Piece? ==> !ps[i].last
    ensures forall k :: !Closed(false, ps, k)
  {}

  /** A stream that cannot be translated, or whose stop reason is not known, is never seen to end. */
  lemma UntranslatedNeverCloses(es: seq<Event>, limit: nat, n: nat, frames: seq<Emitted>)
    requires Understood(Translated(es, limit)).None? && n <= |es|
    requires if Translated(es, limit).Some? then frames == Translated(es, limit).value else frames == Deltas(es[..n])
    ensures forall k :: !Closed(false, Pieces(frames), k)
  {
    UnderstoodValue(es, limit);
    DeltasAreDeltas(es);
    DeltasAreDeltas(es[..n]);
    assert forall i :: 0 <= i < |frames| ==> frames[i].DeltaFrame? || Normalized(frames[i]) == BadFrame;
    hide Deltas, Finish;
    NoEndMark(Pieces(frames));
  }

  lemma {:induction false} FewDeltas(es: seq<Event>)
    ensures |Deltas(es)| <= |es|
  {
    if es == [] {
    } else {
      FewDeltas(es[..|es| - 1]);
    }
  }

  lemma FewFrames(es: seq<Event>, limit: nat, n: nat, frames: seq<Emitted>)
    requires n <= |es|
    requires if Translated(es, limit).Some? then frames == Translated(es, limit).value else frames == Deltas(es[..n])
    ensures |frames| <= |es| + 1
  {
    FewDeltas(es);
    FewDeltas(es[..n]);
    hide Deltas;
  }

  /**
   What a client of a Bedrock stream is told: a completed answer is the one the events
   mean, and with room for every write it is told exactly that, unless the events mean
   nothing or an answer that is empty at the token ceiling.
   */
  ghost predicate AsEventsSay(es: seq<Event>, limit: nat, room: nat, out: StreamOut) {
    var a := Understood(Translated(es, limit));
    && Sound(out) && out.ending != Empty
    && (out.ending == Complete ==> a == Some(Answer(out.text, out.finish, out.usage)))
    && (room >= |es| + 3 ==>
         (out.ending == Complete <==> a.Some? && !(a.value.text == "" && a.value.finish == "length")))
  }

  /** The adapter's pipe: translated frames into the common streaming path, a failed translation ending them. */
  method StreamEvents(es: seq<Event>, limit: nat, room: nat) returns (out: StreamOut)
    ensures AsEventsSay(es, limit, room, out)
  {
    hide Deltas, Translated, Decoded, Closed, HasFinish, Texts, LastFinish, LastUsage, Silent, Pieces, Normalized;
    var frames, ok := Translate(es, limit);
    ghost var n :| 0 <= n <= |es| && (!ok ==> frames == Deltas(es[..n]));
    FewFrames(es, limit, n, frames);
    if Understood(Translated(es, limit)).Some? {
      TranslatedCloses(es, limit);
    } else {
      UntranslatedNeverCloses(es, limit, n, frames);
    }
    out := Stream(false, Pieces(frames), room);
  }
}
