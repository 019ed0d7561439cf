/**
 Signed routing policies (internal/gateway/policy.go, controlplane/policy.py): what
 makes one valid on either side, the canonical bytes that are signed, and the
 message framing around them.
 */
module Policies {
  import opened Common
  import opened Routing

  datatype Policy = Policy(schema: int, tenant: string, version: int, issued: int, expires: int, routes: seq<Route>)

  const SCHEMA: int := 1
  const MAX_VERSION: int := 9007199254740991
  const MAX_LIFETIME: int := 604800
  const CLOCK_SKEW: int := 60

  // ----- identifiers -----

  predicate Alphanumeric(c: char) { 'A' <= c <= 'Z' || 'a' <= c <= 'z' || '0' <= c <= '9' }

  predicate IdentChar(c: char) { Alphanumeric(c) || c == '_' || c == '.' || c == ':' || c == '-' }

  predicate Plain(s: string) { forall c :: c in s ==> IdentChar(c) }

  predicate Identifier(s: string) { 1 <= |s| <= 128 && Alphanumeric(s[0]) && Plain(s) }

  predicate KnownProvider(p: string) { p == "openai" || p == "anthropic" || p == "gemini" || p == "bedrock" }

  lemma ProvidersAreKnown(p: string)
    ensures KnownProvider(p) <==> p in PROVIDERS
    ensures KnownProvider(p) <==> p in {"anthropic", "bedrock", "gemini", "openai"}
  {}

  /** One to 128 characters of letters, digits and four marks, the first a letter or digit; by character code. */
  lemma IdentifierIff(s: string)
    ensures Identifier(s) <==>
      && 1 <= |s| < 129
      && (forall c :: c in s ==>
            var n := c as int; 48 <= n < 58 || 65 <= n < 91 || 97 <= n < 123 || n == 45 || n == 46 || n == 58 || n == 95)
      && var first := s[0] as int; 48 <= first < 58 || 65 <= first < 91 || 97 <= first < 123
  {
    if s != "" { assert s[0] in s; }
  }

  // ----- validity -----

  ghost predicate RoutesValid(routes: seq<Route>) {
    && (forall i :: 0 <= i < |routes| ==> KnownProvider(routes[i].provider) && Identifier(routes[i].model))
    && (forall i, j :: 0 <= i < j < |routes| ==> routes[i].provider != routes[j].provider)
  }

  ghost predicate RouteFits(before: seq<Route>, r: Route) {
    KnownProvider(r.provider) && Identifier(r.model) && forall j :: 0 <= j < |before| ==> before[j].provider != r.provider
  }

  function Providers(routes: seq<Route>, i: nat): set<string>
    requires i <= |routes|
  {
    set j | 0 <= j < i :: routes[j].provider
  }

  lemma NoRoutes(routes: seq<Route>)
    ensures RoutesValid(routes[..0]) && Providers(routes, 0) == {}
  {}

  lemma FitsIffUnseen(routes: seq<Route>, i: nat)
    requires i < |routes|
    ensures RouteFits(routes[..i], routes[i]) <==>
      KnownProvider(routes[i].provider) && Identifier(routes[i].model) && routes[i].provider !in Providers(routes, i)
    ensures Providers(routes, i + 1) == Providers(routes, i) + {routes[i].provider}
  {
    hide KnownProvider, Identifier;
    assert forall j :: 0 <= j < i ==> routes[..i][j] == routes[j];
  }

  lemma RoutesGrow(routes: seq<Route>, i: nat)
    requires i < |routes|
    ensures RoutesValid(routes[..i + 1]) <==> RoutesValid(routes[..i]) && RouteFits(routes[..i], routes[i])
    ensures RoutesValid(routes) ==> RoutesValid(routes[..i + 1])
  {
    hide KnownProvider, Identifier;
    var a, b := routes[..i], routes[..i + 1];
    assert forall j :: 0 <= j < i ==> a[j] == b[j];
    assert b[i] == routes[i];
  }

  /** What a gateway accepts from a signature it trusts. */
  ghost predicate Acceptable(p: Policy, tenant: string, now: int, allowExpired: bool) {
    && p.schema == SCHEMA && p.tenant == tenant && Identifier(tenant)
    && 1 <= p.version <= MAX_VERSION
    && 1 <= p.issued <= now + CLOCK_SKEW
    && p.issued < p.expires <= p.issued + MAX_LIFETIME && (allowExpired || now < p.expires)
    && 1 <= |p.routes| <= 4 && RoutesValid(p.routes)
  }

  /** The gateway's check (`verify` after the signature): constraints, then the route loop with its seen set. */
  method VerifyPolicy(p: Policy, tenant: string, now: int, allowExpired: bool) returns (ok: bool)
    ensures ok <==> Acceptable(p, tenant, now, allowExpired)
  {
    if !(1 <= p.schema <= SCHEMA) || p.tenant != tenant || !Identifier(p.tenant) || p.version < 1 || p.version > MAX_VERSION
       || p.issued > now + CLOCK_SKEW || p.issued < 1 || (!allowExpired && p.expires <= now)
       || p.expires <= p.issued || p.expires - p.issued > MAX_LIFETIME || |p.routes| < 1 || |p.routes| > 4 {
      return false;
    }
    hide KnownProvider, Identifier, RoutesValid, RouteFits, Providers;
    var seen: set<string> := {};
    NoRoutes(p.routes);
    for i := 0 to |p.routes|
      invariant seen == Providers(p.routes, i)
      invariant RoutesValid(p.routes[..i])
    {
      var r := p.routes[i];
      RoutesGrow(p.routes, i);
      FitsIffUnseen(p.routes, i);
      ProvidersAreKnown(r.provider);
      if (r.provider != "openai" && r.provider != "anthropic" && r.provider != "gemini" && r.provider != "bedrock")
         || !Identifier(r.model) || r.provider in seen {
        return false;
      }
      seen := seen + {r.provider};
    }
    assert p.routes[..|p.routes|] == p.routes;
    return true;
  }

  /** The publisher's check (`validate_policy`), written as it is there. */
  method ValidatePolicy(p: Policy, tenant: string, now: int) returns (ok: bool)
    ensures ok <==> Acceptable(p, tenant, now, false)
  {
    if p.schema != 1 || p.tenant != tenant || !Identifier(tenant) {
      return false;
    }
    if !(1 <= p.version <= 9007199254740991) {
      return false;
    }
    var latest := if now < p.issued then p.issued else now;
    if !(1 <= p.issued <= now + 60) || !(latest < p.expires <= p.issued + 604800) {
      return false;
    }
    if !(1 <= |p.routes| <= 4) {
      return false;
    }
    hide KnownProvider, Identifier, RoutesValid, RouteFits, Providers;
    var seen: set<string> := {};
    NoRoutes(p.routes);
    for i := 0 to |p.routes|
      invariant seen == Providers(p.routes, i)
      invariant RoutesValid(p.routes[..i])
    {
      var r := p.routes[i];
      RoutesGrow(p.routes, i);
      FitsIffUnseen(p.routes, i);
      ProvidersAreKnown(r.provider);
      if r.provider !in {"anthropic", "bedrock", "gemini", "openai"} || r.provider in seen {
        return false;
      }
      if !Identifier(r.model) {
        return false;
      }
      seen := seen + {r.provider};
    }
    assert p.routes[..|p.routes|] == p.routes;
    return true;
  }

  /** What the publisher signs, a gateway accepts for as long as it lives, and its cache accepts after that. */
  lemma SignedStaysAcceptable(p: Policy, tenant: string, signed: int, now: int)
    requires Acceptable(p, tenant, signed, false) && signed <= now
    ensures Acceptable(p, tenant, now, true)
    ensures Acceptable(p, tenant, now, false) <==> now < p.expires
  {}

  /** Every route of an accepted policy is to a provider the gateway has a breaker for, and no two to the same. */
  lemma AcceptableRoutes(p: Policy, tenant: string, now: int, allowExpired: bool)
    requires Acceptable(p, tenant, now, allowExpired)
    ensures forall i :: 0 <= i < |p.routes| ==> p.routes[i].provider in PROVIDERS
    ensures forall i, j :: 0 <= i < j < |p.routes| ==> p.routes[i].provider != p.routes[j].provider
  {
    forall i | 0 <= i < |p.routes| ensures p.routes[i].provider in PROVIDERS { ProvidersAreKnown(p.routes[i].provider); }
  }

  // ----- the canonical form -----

  function Digit(d: nat): char
    requires d < 10
  {
    "0123456789"[d]
  }

  function Digits(n: nat): string { if n < 10 then [Digit(n)] else Digits(n / 10) + [Digit(n % 10)] }

  function PrintInt(n: int): string { if n < 0 then "-" + Digits(-n) else Digits(n) }

  function Quote(s: string): string { "\"" + s + "\"" }

  function PrintRoute(r: Route): string { "{\"model\":" + Quote(r.model) + ",\"provider\":" + Quote(r.provider) + "}" }

  function PrintRoutes(rs: seq<Route>): string {
    if rs == [] then "" else if |rs| == 1 then PrintRoute(rs[0]) else PrintRoute(rs[0]) + "," + PrintRoutes(rs[1..])
  }

  /** Sorted keys, no white space, arrays in order. */
  function Canonical(p: Policy): string {
    "{\"expires_at\":" + (PrintInt(p.expires) + (",\"issued_at\":" + (PrintInt(p.issued) + (",\"routes\":[" +
    (PrintRoutes(p.routes) + ("],\"schema\":" + (PrintInt(p.schema) + (",\"tenant\":" + (Quote(p.tenant) +
    (",\"version\":" + (PrintInt(p.version) + "}")))))))))))
  }

  /** The bytes under the signature. */
  function Message(keyId: string, payload: string): string { "switchboard-policy-v1\n" + keyId + "\n" + payload }

  // ----- reading it back -----

  predicate IsDigit(c: char) { '0' <= c <= '9' }

  predicate AllDigits(s: string) { forall c :: c in s ==> IsDigit(c) }

  /** A character run and what follows it. */
  function Span(s: string, digits: bool): (r: (string, string))
    ensures r.0 + r.1 == s
  {
    if s != "" && (if digits then IsDigit(s[0]) else IdentChar(s[0])) then
      var (a, b) := Span(s[1..], digits);
      ([s[0]] + a, b)
    else ("", s)
  }

  function Value(ds: string): nat
    requires AllDigits(ds)
  {
    if ds == "" then 0
    else
      assert ds[|ds| - 1] in ds && IsDigit(ds[|ds| - 1]);
      10 * Value(ds[..|ds| - 1]) + (ds[|ds| - 1] as int - '0' as int)
  }

  function Skip(prefix: string, s: string): Option<string> { if prefix <= s then Some(s[|prefix|..]) else None }

  lemma SkipPrefix(prefix: string, rest: string)
    ensures Skip(prefix, prefix + rest) == Some(rest)
  {}

  lemma {:induction false} SpanTakes(run: string, rest: string, digits: bool)
    requires forall c :: c in run ==> if digits then IsDigit(c) else IdentChar(c)
    requires rest == "" || (if digits then !IsDigit(rest[0]) else !IdentChar(rest[0]))
    ensures Span(run + rest, digits) == (run, rest)
  {
    if run == "" {
      assert run + rest == rest;
    } else {
      assert (run + rest)[0] == run[0] && (run + rest)[1..] == run[1..] + rest;
      SpanTakes(run[1..], rest, digits);
      assert [run[0]] + run[1..] == run;
    }
  }

  lemma {:induction false} DigitsRead(n: nat)
    ensures AllDigits(Digits(n)) && Digits(n) != "" && Value(Digits(n)) == n
  {
    if n < 10 {
      DigitReads(n);
      assert Digits(n) == "" + [Digit(n)];
      ValueSnoc("", Digit(n));
    } else {
      DigitsRead(n / 10);
      DigitReads(n % 10);
      assert Digits(n) == Digits(n / 10) + [Digit(n % 10)];
      hide Digits, Digit, Value, IsDigit, AllDigits;
      ValueSnoc(Digits(n / 10), Digit(n % 10));
    }
  }

  lemma DigitReads(d: nat)
    requires d < 10
    ensures IsDigit(Digit(d)) && Digit(d) as int - '0' as int == d
  {}

  lemma ValueSnoc(ds: string, c: char)
    requires AllDigits(ds) && IsDigit(c)
    ensures AllDigits(ds + [c]) && Value(ds + [c]) == 10 * Value(ds) + (c as int - '0' as int)
  {
    assert (ds + [c])[..|ds|] == ds;
  }

  function ReadInt(s: string): Option<(int, string)> {
    var negative := s != "" && s[0] == '-';
    var (ds, rest) := Span(if negative then s[1..] else s, true);
    if ds == "" then None
    else
      SpanDigits(if negative then s[1..] else s);
      Some((if negative then -(Value(ds) as int) else Value(ds), rest))
  }

  lemma {:induction false} SpanDigits(s: string)
    ensures AllDigits(Span(s, true).0)
  {
    if s != "" && IsDigit(s[0]) { SpanDigits(s[1..]); }
  }

  lemma ReadIntFrom(s: string, negative: bool, ds: string, rest: string)
    requires s != "" && (s[0] == '-') == negative && ds != "" && AllDigits(ds)
    requires Span(if negative then s[1..] else s, true) == (ds, rest)
    ensures ReadInt(s) == Some((if negative then -(Value(ds) as int) else Value(ds), rest))
  {
    hide Span, Value, AllDigits;
  }

  lemma DigitsSpan(n: nat, rest: string)
    requires rest == "" || !IsDigit(rest[0])
    ensures Span(Digits(n) + rest, true) == (Digits(n), rest)
    ensures Digits(n) != "" && IsDigit(Digits(n)[0])
  {
    DigitsRead(n);
    SpanTakes(Digits(n), rest, true);
    hide Span, Digits;
    assert Digits(n)[0] in Digits(n);
  }

  lemma ReadPositive(n: nat, rest: string)
    requires rest == "" || !IsDigit(rest[0])
    ensures ReadInt(Digits(n) + rest) == Some((n, rest))
  {
    DigitsRead(n);
    DigitsSpan(n, rest);
    hide Span, Value, Digits, ReadInt, AllDigits;
    ReadIntFrom(Digits(n) + rest, false, Digits(n), rest);
  }

  lemma ReadNegative(n: nat, rest: string, s: string)
    requires (rest == "" || !IsDigit(rest[0])) && s != "" && s[0] == '-' && s[1..] == Digits(n) + rest
    ensures ReadInt(s) == Some((-(n as int), rest))
  {
    DigitsRead(n);
    DigitsSpan(n, rest);
    hide Span, Value, Digits, ReadInt, AllDigits, IsDigit;
    ReadIntFrom(s, true, Digits(n), rest);
  }

  lemma ReadIntPrinted(n: int, rest: string)
    requires rest == "" || !IsDigit(rest[0])
    ensures ReadInt(PrintInt(n) + rest) == Some((n, rest))
  {
    hide Digits, ReadInt;
    if n < 0 {
      var s := PrintInt(n) + rest;
      assert s[0] == '-' && s[1..] == Digits(-n) + rest;
      ReadNegative(-n, rest, s);
    } else {
      ReadPositive(n, rest);
    }
  }

  function ReadQuoted(s: string): Option<(string, string)> {
    if s == "" || s[0] != '"' then None
    else
      var (run, rest) := Span(s[1..], false);
      if rest == "" || rest[0] != '"' then None else Some((run, rest[1..]))
  }

  lemma ReadQuotedPrinted(x: string, rest: string)
    requires Plain(x)
    ensures ReadQuoted(Quote(x) + rest) == Some((x, rest))
  {
    var s := Quote(x) + rest;
    assert s[1..] == x + ("\"" + rest);
    SpanTakes(x, "\"" + rest, false);
  }

  function ReadRoute(s: string): Option<(Route, string)> {
    var a := Skip("{\"model\":", s);
    if a.None? then None else
    var m := ReadQuoted(a.value);
    if m.None? then None else
    var b := Skip(",\"provider\":", m.value.1);
    if b.None? then None else
    var p := ReadQuoted(b.value);
    if p.None? then None else
    var c := Skip("}", p.value.1);
    if c.None? then None else Some((Route(p.value.0, m.value.0), c.value))
  }

  predicate PlainRoute(r: Route) { Plain(r.provider) && Plain(r.model) }

  lemma ReadRoutePrinted(r: Route, rest: string)
    requires PlainRoute(r)
    ensures ReadRoute(PrintRoute(r) + rest) == Some((r, rest))
  {
    var e := "}" + rest;
    var d := Quote(r.provider) + e;
    var c := ",\"provider\":" + d;
    var b := Quote(r.model) + c;
    assert PrintRoute(r) + rest == "{\"model\":" + b;
    SkipPrefix("{\"model\":", b);
    ReadQuotedPrinted(r.model, c);
    SkipPrefix(",\"provider\":", d);
    ReadQuotedPrinted(r.provider, e);
    SkipPrefix("}", rest);
    hide Plain, Quote, ReadQuoted, Skip;
  }

  function ReadRoutes(s: string): Option<(seq<Route>, string)>
    decreases |s|
  {
    if s == "" || s[0] != '{' then Some(([], s))
    else
      var r := ReadRoute(s);
      if r.None? then None
      else if r.value.1 != "" && r.value.1[0] == ',' && |r.value.1| < |s| then
        var rs := ReadRoutes(r.value.1[1..]);
        if rs.None? then None else Some(([r.value.0] + rs.value.0, rs.value.1))
      else Some(([r.value.0], r.value.1))
  }

  lemma {:induction false} ReadRoutesPrinted(rs: seq<Route>, rest: string)
    requires (forall r :: r in rs ==> PlainRoute(r)) && rest != "" && rest[0] == ']'
    ensures ReadRoutes(PrintRoutes(rs) + rest) == Some((rs, rest))
  {
    hide PlainRoute, PrintRoute, ReadRoute;
    if rs == [] {
      assert PrintRoutes(rs) + rest == rest;
    } else if |rs| == 1 {
      ReadRoutesOne(rs[0], rest);
      hide ReadRoutes;
      assert [rs[0]] == rs;
    } else {
      hide ReadRoutes;
      var tail := PrintRoutes(rs[1..]) + rest;
      ReadRoutesPrinted(rs[1..], rest);
      assert PrintRoutes(rs) + rest == PrintRoute(rs[0]) + ("," + tail);
      ReadRoutesCons(rs[0], tail);
      hide PrintRoutes;
      assert [rs[0]] + rs[1..] == rs;
    }
  }

  lemma ReadRoutesOne(r: Route, rest: string)
    requires PlainRoute(r) && rest != "" && rest[0] == ']'
    ensures ReadRoutes(PrintRoute(r) + rest) == Some(([r], rest))
  {
    ReadRoutePrinted(r, rest);
    RouteStarts(r, rest);
    hide ReadRoute, PrintRoute, PlainRoute;
  }

  lemma ReadRoutesCons(r: Route, tail: string)
    requires PlainRoute(r) && ReadRoutes(tail).Some?
    ensures ReadRoutes(PrintRoute(r) + ("," + tail)) == Some(([r] + ReadRoutes(tail).value.0, ReadRoutes(tail).value.1))
  {
    var more := "," + tail;
    ReadRoutePrinted(r, more);
    RouteStarts(r, more);
    hide ReadRoute, PrintRoute, PlainRoute;
    assert more[1..] == tail;
  }

  lemma RouteStarts(r: Route, rest: string)
    ensures var s := PrintRoute(r) + rest; s != "" && s[0] == '{' && |rest| < |s|
  {}

  function ReadField(name: string, s: string): Option<(int, string)> {
    var a := Skip(name, s);
    if a.None? then None else ReadInt(a.value)
  }

  /** A reader for the canonical form. */
  function Read(s: string): Option<Policy> {
    var expires := ReadField("{\"expires_at\":", s);
    if expires.None? then None else
    var issued := ReadField(",\"issued_at\":", expires.value.1);
    if issued.None? then None else
    var a := Skip(",\"routes\":[", issued.value.1);
    if a.None? then None else
    var routes := ReadRoutes(a.value);
    if routes.None? then None else
    var schema := ReadField("],\"schema\":", routes.value.1);
    if schema.None? then None else
    var b := Skip(",\"tenant\":", schema.value.1);
    if b.None? then None else
    var tenant := ReadQuoted(b.value);
    if tenant.None? then None else
    var version := ReadField(",\"version\":", tenant.value.1);
    if version.None? || version.value.1 != "}" then None
    else Some(Policy(schema.value.0, tenant.value.0, version.value.0, issued.value.0, expires.value.0, routes.value.0))
  }

  predicate PlainPolicy(p: Policy) { Plain(p.tenant) && forall r :: r in p.routes ==> PlainRoute(r) }

  lemma ReadFieldPrinted(name: string, n: int, rest: string)
    requires rest == "" || !IsDigit(rest[0])
    ensures ReadField(name, name + (PrintInt(n) + rest)) == Some((n, rest))
  {
    SkipPrefix(name, PrintInt(n) + rest);
    ReadIntPrinted(n, rest);
  }

  /** Reading the canonical bytes of any policy over identifier characters returns the policy. */
  lemma CanonicalRoundTrip(p: Policy)
    requires PlainPolicy(p)
    ensures Read(Canonical(p)) == Some(p)
  {
    var s7 := ",\"version\":" + (PrintInt(p.version) + "}");
    var s6 := ",\"tenant\":" + (Quote(p.tenant) + s7);
    var s5 := "],\"schema\":" + (PrintInt(p.schema) + s6);
    var s4 := ",\"routes\":[" + (PrintRoutes(p.routes) + s5);
    var s3 := ",\"issued_at\":" + (PrintInt(p.issued) + s4);
    assert Canonical(p) == "{\"expires_at\":" + (PrintInt(p.expires) + s3);
    ReadFieldPrinted("{\"expires_at\":", p.expires, s3);
    ReadFieldPrinted(",\"issued_at\":", p.issued, s4);
    SkipPrefix(",\"routes\":[", PrintRoutes(p.routes) + s5);
    ReadRoutesPrinted(p.routes, s5);
    ReadFieldPrinted("],\"schema\":", p.schema, s6);
    SkipPrefix(",\"tenant\":", Quote(p.tenant) + s7);
    ReadQuotedPrinted(p.tenant, s7);
    ReadFieldPrinted(",\"version\":", p.version, "}");
    hide Skip, ReadField, ReadRoutes, ReadQuoted, PrintInt, PrintRoutes, Quote, Plain;
  }

  /** Equal canonical bytes mean equal policies: what is signed is the whole policy. */
  lemma CanonicalInjective(p: Policy, q: Policy)
    requires PlainPolicy(p) && PlainPolicy(q) && Canonical(p) == Canonical(q)
    ensures p == q
  {
    CanonicalRoundTrip(p);
    CanonicalRoundTrip(q);
  }

  lemma AcceptableIsPlain(p: Policy, tenant: string, now: int, allowExpired: bool)
    requires Acceptable(p, tenant, now, allowExpired)
    ensures PlainPolicy(p)
  {
    forall r | r in p.routes ensures PlainRoute(r) { ProvidersArePlain(r.provider); }
  }

  lemma ProvidersArePlain(p: string)
    requires KnownProvider(p)
    ensures Plain(p)
  {}

  lemma {:induction false} FrameSplits(a: string, b: string, x: string, y: string)
    requires '\n' !in a && '\n' !in b && a + "\n" + x == b + "\n" + y
    ensures a == b && x == y
  {
    var s, t := a + "\n" + x, b + "\n" + y;
    assert s[|a|] == '\n' && t[|b|] == '\n';
    assert |a| == |b|;
    assert a == s[..|a|] && b == t[..|b|];
    assert x == s[|a| + 1..] && y == t[|b| + 1..];
  }

  /**
   A signed message names one key and one policy: no two identifiers and policies
   share the bytes that are signed.
   */
  lemma MessageDetermines(k: string, p: Policy, l: string, q: Policy)
    requires Identifier(k) && Identifier(l) && PlainPolicy(p) && PlainPolicy(q)
    requires Message(k, Canonical(p)) == Message(l, Canonical(q))
    ensures k == l && p == q
  {
    NoNewline(k);
    NoNewline(l);
    hide Canonical, PlainPolicy, Identifier, Message;
    MessageSplits(k, Canonical(p), l, Canonical(q));
    CanonicalInjective(p, q);
  }

  lemma NoNewline(k: string)
    requires Identifier(k)
    ensures '\n' !in k
  {}

  lemma MessageSplits(k: string, x: string, l: string, y: string)
    requires '\n' !in k && '\n' !in l && Message(k, x) == Message(l, y)
    ensures k == l && x == y
  {
    var head := "switchboard-policy-v1\n";
    assert Message(k, x) == head + (k + "\n" + x) && Message(l, y) == head + (l + "\n" + y);
    SameTail(head, k + "\n" + x, l + "\n" + y);
    FrameSplits(k, l, x, y);
  }

  lemma SameTail(head: string, x: string, y: string)
    requires head + x == head + y
    ensures x == y
  {
    assert x == (head + x)[|head|..] && y == (head + y)[|head|..];
  }

  // ----- the whole check of an envelope -----

  datatype Envelope = Envelope(keyId: string, payload: string, signature: string)

  /**
   What the check rests on and does not define: JSON and base64 decoding, the trusted
   keys, and the signature algorithm.
   */
  datatype Trust = Trust(
    parse: string -> Option<Envelope>, base64: string -> Option<string>,
    keys: map<string, string>, signed: (string, string, string) -> bool, decode: string -> Option<Policy>)

  const MAX_ENVELOPE: nat := 65536

  predicate Word(n: int) { -0x8000_0000_0000_0000 <= n < 0x8000_0000_0000_0000 }

  /** The fields fit the 64-bit integers they are decoded into. */
  predicate Fits(p: Policy) { Word(p.schema) && Word(p.version) && Word(p.issued) && Word(p.expires) }

  /** The decoder reads canonical bytes, as `Read` does, if the numbers fit. */
  ghost predicate Decodes(t: Trust) {
    forall p: Policy :: PlainPolicy(p) && Fits(p) ==> t.decode(Canonical(p)) == Some(p)
  }

  /** A clock of 64 bits that leaves room for the latest acceptable expiry. */
  const LATEST: int := 0x7FFF_FFFF_FFFF_FFFF - CLOCK_SKEW - MAX_LIFETIME

  lemma AcceptableFits(p: Policy, tenant: string, now: int, allowExpired: bool)
    requires Acceptable(p, tenant, now, allowExpired) && now <= LATEST
    ensures Fits(p)
  {}

  /** A trusted key signed exactly the canonical bytes of this policy, under its own name. */
  predicate Vouched(t: Trust, raw: string, p: Policy) {
    && |raw| <= MAX_ENVELOPE && t.parse(raw).Some?
    && var e := t.parse(raw).value;
       && e.keyId in t.keys && Identifier(e.keyId)
       && t.base64(e.payload) == Some(Canonical(p)) && t.base64(e.signature).Some?
       && t.signed(t.keys[e.keyId], Message(e.keyId, Canonical(p)), t.base64(e.signature).value)
  }

  /**
   The whole of `verify`: it answers with a policy exactly if that policy is vouched
   for and acceptable.  That the decoded policy prints back to the signed bytes is
   what makes the answer the only such policy.
   */
  method Verify(t: Trust, raw: string, tenant: string, now: int, allowExpired: bool) returns (r: Option<Policy>)
    ensures r.Some? ==> Vouched(t, raw, r.value) && Acceptable(r.value, tenant, now, allowExpired)
    ensures Decodes(t) && now <= LATEST ==>
      forall p :: r == Some(p) <==> Vouched(t, raw, p) && Acceptable(p, tenant, now, allowExpired)
  {
    hide Canonical, Acceptable, Identifier, Message;
    r := None;
    forall p | Decodes(t) && now <= LATEST && Acceptable(p, tenant, now, allowExpired)
      ensures t.decode(Canonical(p)) == Some(p)
    {
      AcceptableIsPlain(p, tenant, now, allowExpired);
      AcceptableFits(p, tenant, now, allowExpired);
    }
    if |raw| > MAX_ENVELOPE {
      return;
    }
    var e := t.parse(raw);
    if e.None? || e.value.keyId !in t.keys || !Identifier(e.value.keyId) {
      return;
    }
    var payload, signature := t.base64(e.value.payload), t.base64(e.value.signature);
    if payload.None? || signature.None? {
      return;
    }
    if !t.signed(t.keys[e.value.keyId], Message(e.value.keyId, payload.value), signature.value) {
      return;
    }
    var p := t.decode(payload.value);
    if p.None? || payload.value != Canonical(p.value) {
      return;
    }
    var ok := VerifyPolicy(p.value, tenant, now, allowExpired);
    if ok {
      r := p;
    }
  }

  /** The reader given above is such a decoder. */
  lemma ReadDecodes(t: Trust)
    requires t.decode == Read
    ensures Decodes(t)
  {
    forall p: Policy | PlainPolicy(p) ensures t.decode(Canonical(p)) == Some(p) { CanonicalRoundTrip(p); }
  }
}
