/**
 The JSON of a telemetry event (`Event` and `wire` in internal/gateway/telemetry.go) and
 how long it can be: the gateway's own events are far below every limit of delivery.
 */
module EventSizes {
  import opened Spools
  import P = Policies

  datatype Usage = Usage(input: nat, output: nat, reasoning: nat, cacheRead: nat, cacheWrite: nat)

  /** Strings are over identifier characters, hexadecimal digits and colons, which JSON does not escape. */
  datatype Record = Record(
    id: string, requestId: string, traceId: string, spanId: string, parentId: string,
    provider: string, status: int, attempts: int, start: int, end: int, version: int,
    model: string, fault: string, streamFailed: bool, replayed: bool, skipped: seq<string>, usage: Usage)

  /** What the gateway fills in: fixed-length ids, one of four providers, a policy's models and 64-bit numbers. */
  predicate Bounded(r: Record) {
    && |r.id| == 32 && |r.requestId| == 32 && |r.traceId| == 32 && |r.spanId| == 16 && |r.parentId| <= 16
    && |r.provider| <= 9 && |r.model| <= 128 && |r.fault| <= 10
    && P.Word(r.status) && P.Word(r.attempts) && P.Word(r.start) && P.Word(r.end) && P.Word(r.version)
    && |r.skipped| <= 4 && (forall x :: x in r.skipped ==> |x| <= 138)
    && P.Word(r.usage.input) && P.Word(r.usage.output) && P.Word(r.usage.reasoning)
    && P.Word(r.usage.cacheRead) && P.Word(r.usage.cacheWrite)
  }

  // ----- the JSON -----

  function Joined(xs: seq<string>): string {
    if xs == [] then "" else if |xs| == 1 then xs[0] else Joined(xs[..|xs| - 1]) + "," + xs[|xs| - 1]
  }

  function Object(fields: seq<string>): string { "{" + Joined(fields) + "}" }

  function Text(name: string, value: string): string { P.Quote(name) + ":" + P.Quote(value) }

  function Number(name: string, n: int): string { P.Quote(name) + ":" + P.PrintInt(n) }

  function Flag(name: string): string { P.Quote(name) + ":true" }

  function Quoted(xs: seq<string>): seq<string> { seq(|xs|, i requires 0 <= i < |xs| => P.Quote(xs[i])) }

  function Names(name: string, xs: seq<string>): string { P.Quote(name) + ":[" + Joined(Quoted(xs)) + "]" }

  function When(c: bool, field: string): seq<string> { if c then [field] else [] }

  function UsageMembers(u: Usage): seq<string> {
    if u.input == 0 && u.output == 0 then []
    else
      When(u.cacheRead > 0, Number("gen_ai.usage.cache_read.input_tokens", u.cacheRead)) +
      When(u.cacheWrite > 0, Number("gen_ai.usage.cache_write.input_tokens", u.cacheWrite)) +
      [Number("gen_ai.usage.input_tokens", u.input), Number("gen_ai.usage.output_tokens", u.output)] +
      When(u.reasoning > 0, Number("gen_ai.usage.reasoning.output_tokens", u.reasoning))
  }

  /** The members of the extension object, in the order of their names. */
  function Extension(r: Record): seq<string> {
    When(r.skipped != [], Names("budget_skipped", r.skipped)) +
    When(r.fault != "", Text("fault", r.fault)) +
    UsageMembers(r.usage) +
    When(r.replayed, Flag("idempotent_replay")) +
    When(r.model != "", Text("model", r.model)) +
    When(r.streamFailed, Flag("stream_failed"))
  }

  function Core(r: Record): seq<string> {
    [Text("id", r.id), Text("request_id", r.requestId), Text("trace_id", r.traceId), Text("span_id", r.spanId)] +
    When(r.parentId != "", Text("parent_id", r.parentId)) +
    [Text("provider", r.provider), Number("status", r.status), Number("attempts", r.attempts),
     Number("start_ns", r.start), Number("end_ns", r.end)] +
    When(r.version != 0, Number("policy_version", r.version))
  }

  function Print(r: Record): string {
    var ext := Extension(r);
    Object(Core(r) + When(ext != [], P.Quote("ext") + ":" + Object(ext)))
  }

  // ----- its length -----

  /** The members and a comma for each. */
  function Weight(xs: seq<string>): nat { if xs == [] then 0 else Weight(xs[..|xs| - 1]) + |xs[|xs| - 1]| + 1 }

  lemma {:induction false} JoinedWeight(xs: seq<string>)
    ensures |Joined(xs)| <= Weight(xs)
  {
    if xs == [] {
    } else if |xs| == 1 {
      assert xs[..0] == [];
    } else {
      JoinedWeight(xs[..|xs| - 1]);
    }
  }

  lemma {:induction false} WeightAppend(xs: seq<string>, ys: seq<string>)
    ensures Weight(xs + ys) == Weight(xs) + Weight(ys)
  {
    if ys == [] {
      assert xs + ys == xs;
    } else {
      WeightAppend(xs, ys[..|ys| - 1]);
      assert (xs + ys)[..|xs + ys| - 1] == xs + ys[..|ys| - 1];
    }
  }

  lemma WhenWeight(c: bool, field: string)
    ensures Weight(When(c, field)) <= |field| + 1
  {
    assert c ==> [field][..0] == [];
  }

  function Pow10(k: nat): nat { if k == 0 then 1 else 10 * Pow10(k - 1) }

  lemma {:induction false} DigitsLength(n: nat, k: nat)
    requires k >= 1 && n < Pow10(k)
    ensures |P.Digits(n)| <= k
  {
    if n < 10 {
    } else {
      assert Pow10(1) == 10;
      assert n / 10 < Pow10(k - 1);
      DigitsLength(n / 10, k - 1);
    }
  }

  lemma WordLength(n: int)
    requires P.Word(n)
    ensures |P.PrintInt(n)| <= 20
  {
    var m: nat := if n < 0 then -n else n;
    Pow19();
    DigitsLength(m, 19);
  }

  lemma Pow19()
    ensures Pow10(19) == 10_000_000_000_000_000_000
  {
    assert Pow10(5) == 100_000;
    assert Pow10(10) == 10_000_000_000;
    assert Pow10(15) == 1_000_000_000_000_000;
  }

  lemma NumberLength(name: string, n: int)
    requires P.Word(n)
    ensures |Number(name, n)| <= |name| + 23
  {
    WordLength(n);
  }

  lemma {:induction false} QuotedWeight(xs: seq<string>)
    requires forall x :: x in xs ==> |x| <= 138
    ensures Weight(Quoted(xs)) <= 141 * |xs|
  {
    if xs == [] {
    } else {
      var init, x := xs[..|xs| - 1], xs[|xs| - 1];
      assert x in xs && |x| <= 138;
      QuotedWeight(init);
      assert Quoted(xs)[..|xs| - 1] == Quoted(init);
      assert Quoted(xs)[|xs| - 1] == P.Quote(x);
    }
  }

  lemma NamesLength(name: string, xs: seq<string>)
    requires |xs| <= 4 && forall x :: x in xs ==> |x| <= 138
    ensures |Names(name, xs)| <= |name| + 569
  {
    QuotedWeight(xs);
    JoinedWeight(Quoted(xs));
  }

  /** The weight of a concatenation of optional members. */
  lemma WhenAppend(xs: seq<string>, c: bool, field: string)
    ensures Weight(xs + When(c, field)) <= Weight(xs) + |field| + 1
  {
    WeightAppend(xs, When(c, field));
    WhenWeight(c, field);
  }

  lemma TwoWeight(a: string, b: string)
    ensures Weight([a, b]) == |a| + |b| + 2
  {
    assert Weight([a]) == |a| + 1 by { assert [a][..0] == [] && Weight([]) == 0; }
    assert [a, b][..1] == [a];
  }

  lemma UsageLengths(u: Usage)
    requires P.Word(u.input) && P.Word(u.output) && P.Word(u.reasoning) && P.Word(u.cacheRead) && P.Word(u.cacheWrite)
    ensures |Number("gen_ai.usage.cache_read.input_tokens", u.cacheRead)| <= 60
    ensures |Number("gen_ai.usage.cache_write.input_tokens", u.cacheWrite)| <= 61
    ensures |Number("gen_ai.usage.input_tokens", u.input)| <= 48
    ensures |Number("gen_ai.usage.output_tokens", u.output)| <= 49
    ensures |Number("gen_ai.usage.reasoning.output_tokens", u.reasoning)| <= 60
  {
    hide Number, P.Word;
    NumberLength("gen_ai.usage.cache_read.input_tokens", u.cacheRead);
    NumberLength("gen_ai.usage.cache_write.input_tokens", u.cacheWrite);
    NumberLength("gen_ai.usage.input_tokens", u.input);
    NumberLength("gen_ai.usage.output_tokens", u.output);
    NumberLength("gen_ai.usage.reasoning.output_tokens", u.reasoning);
  }

  lemma UsageWeight(u: Usage)
    requires P.Word(u.input) && P.Word(u.output) && P.Word(u.reasoning) && P.Word(u.cacheRead) && P.Word(u.cacheWrite)
    ensures Weight(UsageMembers(u)) <= 300
  {
    var a := Number("gen_ai.usage.cache_read.input_tokens", u.cacheRead);
    var b := Number("gen_ai.usage.cache_write.input_tokens", u.cacheWrite);
    var c := Number("gen_ai.usage.input_tokens", u.input);
    var d := Number("gen_ai.usage.output_tokens", u.output);
    var e := Number("gen_ai.usage.reasoning.output_tokens", u.reasoning);
    assert Weight([]) == 0;
    UsageLengths(u);
    hide Number, Weight, When, P.Word;
    var x := When(u.cacheRead > 0, a);
    var y := x + When(u.cacheWrite > 0, b);
    WhenWeight(u.cacheRead > 0, a);
    WhenAppend(x, u.cacheWrite > 0, b);
    TwoWeight(c, d);
    WeightAppend(y, [c, d]);
    WhenAppend(y + [c, d], u.reasoning > 0, e);
  }

  lemma MemberLengths(r: Record)
    requires Bounded(r)
    ensures |Names("budget_skipped", r.skipped)| <= 583 && |Text("fault", r.fault)| <= 20 && |Text("model", r.model)| <= 138
    ensures |Flag("idempotent_replay")| == 24 && |Flag("stream_failed")| == 20
  {
    NamesLength("budget_skipped", r.skipped);
    hide Names;
  }

  lemma ExtensionWeight(r: Record)
    requires Bounded(r)
    ensures Weight(Extension(r)) <= 1095
  {
    MemberLengths(r);
    UsageWeight(r.usage);
    hide Names, Text, Flag, Weight, When, UsageMembers, Bounded;
    var skipped, fault, model := Names("budget_skipped", r.skipped), Text("fault", r.fault), Text("model", r.model);
    var x0 := When(r.skipped != [], skipped);
    var x1 := x0 + When(r.fault != "", fault);
    var x2 := x1 + UsageMembers(r.usage);
    var x3 := x2 + When(r.replayed, Flag("idempotent_replay"));
    var x4 := x3 + When(r.model != "", model);
    WhenWeight(r.skipped != [], skipped);
    WhenAppend(x0, r.fault != "", fault);
    WeightAppend(x1, UsageMembers(r.usage));
    WhenAppend(x2, r.replayed, Flag("idempotent_replay"));
    WhenAppend(x3, r.model != "", model);
    WhenAppend(x4, r.streamFailed, Flag("stream_failed"));
  }

  lemma FixedWeight(r: Record)
    requires Bounded(r)
    ensures Weight([Text("id", r.id), Text("request_id", r.requestId), Text("trace_id", r.traceId), Text("span_id", r.spanId)]) <= 170
    ensures Weight([Text("provider", r.provider), Number("status", r.status), Number("attempts", r.attempts),
                    Number("start_ns", r.start), Number("end_ns", r.end)]) <= 180
  {
    NumberLength("status", r.status);
    NumberLength("attempts", r.attempts);
    NumberLength("start_ns", r.start);
    NumberLength("end_ns", r.end);
    var a, b, c, d := Text("id", r.id), Text("request_id", r.requestId), Text("trace_id", r.traceId), Text("span_id", r.spanId);
    assert |a| == 39 && |b| == 47 && |c| == 45 && |d| == 28;
    var p, q, s, t, u := Text("provider", r.provider), Number("status", r.status), Number("attempts", r.attempts),
      Number("start_ns", r.start), Number("end_ns", r.end);
    assert |p| <= 22;
    hide Text, Number;
    FourWeight(a, b, c, d);
    FourWeight(p, q, s, t);
    WeightAppend([p, q, s, t], [u]);
    assert [p, q, s, t] + [u] == [p, q, s, t, u];
    assert Weight([u]) == |u| + 1 by { assert [u][..0] == []; }
  }

  lemma FourWeight(a: string, b: string, c: string, d: string)
    ensures Weight([a, b, c, d]) == |a| + |b| + |c| + |d| + 4
  {
    TwoWeight(a, b);
    TwoWeight(c, d);
    WeightAppend([a, b], [c, d]);
    assert [a, b] + [c, d] == [a, b, c, d];
  }

  lemma CoreWeight(r: Record)
    requires Bounded(r)
    ensures Weight(Core(r)) <= 430
  {
    FixedWeight(r);
    NumberLength("policy_version", r.version);
    var ids := [Text("id", r.id), Text("request_id", r.requestId), Text("trace_id", r.traceId), Text("span_id", r.spanId)];
    var rest := [Text("provider", r.provider), Number("status", r.status), Number("attempts", r.attempts),
                 Number("start_ns", r.start), Number("end_ns", r.end)];
    var parent, version := Text("parent_id", r.parentId), Number("policy_version", r.version);
    assert |parent| <= 30;
    hide Text, Number, Weight, When;
    WhenAppend(ids, r.parentId != "", parent);
    WeightAppend(ids + When(r.parentId != "", parent), rest);
    WhenAppend(ids + When(r.parentId != "", parent) + rest, r.version != 0, version);
  }

  /** No event the gateway writes is longer than 1600 bytes. */
  lemma EventIsShort(r: Record)
    requires Bounded(r)
    ensures |Print(r)| <= 1600
  {
    var ext := Extension(r);
    var member := P.Quote("ext") + ":" + Object(ext);
    CoreWeight(r);
    ExtensionWeight(r);
    hide Core, Extension;
    JoinedWeight(ext);
    WhenAppend(Core(r), ext != [], member);
    JoinedWeight(Core(r) + When(ext != [], member));
  }

  /** An event as the gateway writes it. */
  ghost predicate Own(e: Event) { exists r :: Bounded(r) && e == Event(r.id, Print(r)) }

  /**
   So the gateway's own events are never skipped for their length, and every request
   built from any directory of them is within what the receiver accepts.
   */
  lemma OwnEventsFit(events: seq<Event>)
    requires forall e :: e in events ==> Own(e)
    ensures forall e :: e in events ==> |e.json| <= MAX_EVENT
    ensures AllFit(events)
  {
    forall e | e in events ensures |e.json| <= 1600 {
      var r :| Bounded(r) && e == Event(r.id, Print(r));
      EventIsShort(r);
    }
    SmallEventsFit(events, 1600);
  }
}
