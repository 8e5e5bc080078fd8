/** The directives of a site block: how the words of the block are cut into
    directives, what each one sets, and the site they make together. */
module Directives {
  import opened Basics
  import opened DecimalText

  const U32_MAX: nat := 0xFFFF_FFFF

  // ---------- words and keywords ----------

  /** A text token of the block body, with the keyword that its text spells. */
  datatype Word = Word(text: string, quoted: bool, key: Option<Keyword>)

  datatype Keyword =
    | ReverseProxy | Respond | RateLimit | VerifyLimit | Pay | LightningPay | Headers | Protocols | Origin
    | MaxInflight | MaxBody | Timeout | Prefix

  function Spelling(k: Keyword): string {
    match k
    case ReverseProxy => "reverse_proxy"
    case Respond => "respond"
    case RateLimit => "rate_limit"
    case VerifyLimit => "payment_verify_limit"
    case Pay => "pay"
    case LightningPay => "lightning_pay"
    case Headers => "lightning_headers"
    case Protocols => "lightning_protocols"
    case Origin => "lightning_origin"
    case MaxInflight => "max_inflight"
    case MaxBody => "max_body_bytes"
    case Timeout => "request_timeout"
    case Prefix => "ipv6_prefix"
  }

  function KeywordOf(text: string): Option<Keyword> {
    if text == Spelling(ReverseProxy) then Some(ReverseProxy)
    else if text == Spelling(Respond) then Some(Respond)
    else if text == Spelling(RateLimit) then Some(RateLimit)
    else if text == Spelling(VerifyLimit) then Some(VerifyLimit)
    else if text == Spelling(Pay) then Some(Pay)
    else if text == Spelling(LightningPay) then Some(LightningPay)
    else if text == Spelling(Headers) then Some(Headers)
    else if text == Spelling(Protocols) then Some(Protocols)
    else if text == Spelling(Origin) then Some(Origin)
    else if text == Spelling(MaxInflight) then Some(MaxInflight)
    else if text == Spelling(MaxBody) then Some(MaxBody)
    else if text == Spelling(Timeout) then Some(Timeout)
    else if text == Spelling(Prefix) then Some(Prefix)
    else None
  }

  function Tag(text: string, quoted: bool): Word { Word(text, quoted, KeywordOf(text)) }

  lemma SpellingsDiffer(a: Keyword, b: Keyword)
    requires a != b
    ensures Spelling(a) != Spelling(b)
  {
    assert |Spelling(a)| != |Spelling(b)| || Spelling(a)[0] != Spelling(b)[0];
  }

  lemma KeywordOfSpelling(k: Keyword)
    ensures KeywordOf(Spelling(k)) == Some(k)
  {
    var r := KeywordOf(Spelling(k));
    assert r.Some? && Spelling(r.value) == Spelling(k);
    if r.value != k { SpellingsDiffer(r.value, k); }
  }

  // ---------- what a directive sets ----------

  datatype Limit = Limit(perSecond: nat, burst: nat)

  datatype Value =
    | Proxy(backend: string)
    | Response(body: string, status: nat)
    | Rate(limit: Limit)
    | Payment(price: string, unit: string, mint: string)
    | Lightning(price: string, unit: string, receiver: string)
    | Names(names: seq<string>)
    | Address(text: string)
    | Off
    | Number(n: nat)

  datatype Policy = Policy(price: string, unit: string, receiver: string, origin: string, headers: seq<string>,
                           protocols: Option<seq<string>>)

  /** What the parser asks the rest of the program: which texts are acceptable,
      the receivers declared in the file, and the origin of a site that names none. */
  datatype Env = Env(
    upstream: string -> bool, payment: (string, string, string) -> bool, protocols: seq<string> -> bool,
    policy: Policy -> bool, receivers: set<string>, origin: string)

  /** `parse::<uN>()`: decimal digits after an optional plus sign, within range. */
  function Unsigned(text: string, max: nat): Option<nat> {
    var digits := if text != "" && text[0] == '+' then text[1..] else text;
    if digits != "" && AllDigits(digits) && ParseNat(digits) <= max then Some(ParseNat(digits)) else None
  }

  function Positive(text: string): Option<nat> {
    var n := Unsigned(text, U32_MAX);
    if n.Some? && n.value > 0 && AllDigits(text) then n else None
  }

  const PER_SECOND := "/s"

  function StripSuffix(text: string): Option<string> {
    if |text| >= 2 && text[|text| - 2..] == PER_SECOND then Some(text[..|text| - 2]) else None
  }

  function RateOf(args: seq<Word>): Option<Value> {
    if |args| != 3 || args[1].text != "burst" then None
    else
      var rate := StripSuffix(args[0].text);
      if rate.None? then None
      else
        var n, burst := Positive(rate.value), Positive(args[2].text);
        if n.Some? && burst.Some? then Some(Rate(Limit(n.value, burst.value))) else None
  }

  function StatusOf(text: string): Option<nat> {
    var n := Unsigned(text, 0xFFFF);
    if n.Some? && |text| == 3 && 200 <= n.value <= 599 then n else None
  }

  predicate Bodiless(status: nat) { status == 204 || status == 205 || status == 304 }

  /** `parse_response`: a body with an optional status, or a bare status alone. */
  function ResponseOf(args: seq<Word>): Option<Value> {
    if |args| == 0 || |args| > 2 then None
    else
      var first := args[0].text;
      var alone := |args| == 1 && !args[0].quoted && |first| == 3 && AllDigits(first);
      var body := if alone then "" else first;
      var status := if alone then StatusOf(first) else if |args| == 2 then StatusOf(args[1].text) else Some(200);
      if status.None? || (Bodiless(status.value) && body != "") then None else Some(Response(body, status.value))
  }

  function Texts(args: seq<Word>): (r: seq<string>)
    ensures |r| == |args| && forall i :: 0 <= i < |r| ==> r[i] == args[i].text
  {
    if args == [] then [] else [args[0].text] + Texts(args[1..])
  }

  function HeadersOf(args: seq<Word>): Option<Value> {
    if |args| == 0 || (|args| != 1 && "none" in Texts(args)) then None
    else if |args| == 1 && args[0].text == "none" then Some(Names([]))
    else Some(Names(Texts(args)))
  }

  /** `off`, or a positive number up to `max`. */
  function AmountOf(args: seq<Word>, max: nat): Option<Value> {
    if |args| == 0 then None
    else if args[0].text == "off" then Some(Off)
    else
      var n := Unsigned(args[0].text, max);
      if n.Some? && n.value > 0 then Some(Number(n.value)) else None
  }

  function PrefixOf(args: seq<Word>): Option<Value> {
    if |args| == 0 then None
    else
      var n := Unsigned(args[0].text, 128);
      if n.Some? then Some(Number(n.value)) else None
  }

  // ---------- which texts are read as which values ----------

  /** `text` is `n` in decimal digits, leading zeros allowed. */
  predicate Digits(text: string, n: nat) { text != "" && AllDigits(text) && ParseNat(text) == n }

  /** A number may carry one plus sign and must be in range; a count may not carry it
      and must be positive. */
  lemma NumbersAreExact(text: string, max: nat, n: nat)
    ensures Unsigned(text, max) == Some(n) <==>
            n <= max && (Digits(text, n) || (text != "" && text[0] == '+' && Digits(text[1..], n)))
    ensures Positive(text) == Some(n) <==> 0 < n <= U32_MAX && Digits(text, n)
  {
    if text != "" && text[0] == '+' { assert !AllDigits(text); }
  }

  lemma SuffixIsExact(text: string, front: string)
    ensures StripSuffix(text) == Some(front) <==> text == front + PER_SECOND
  {
    if text == front + PER_SECOND {
      assert text[|text| - 2..] == PER_SECOND && text[..|text| - 2] == front;
    }
  }

  /** `R/s burst B` and nothing else is a rate. */
  lemma RatesAreExact(args: seq<Word>, rate: nat, burst: nat)
    ensures RateOf(args) == Some(Rate(Limit(rate, burst))) <==>
            && |args| == 3 && args[1].text == "burst"
            && 0 < rate <= U32_MAX && 0 < burst <= U32_MAX && Digits(args[2].text, burst)
            && exists front :: args[0].text == front + PER_SECOND && Digits(front, rate)
  {
    if |args| == 3 {
      NumbersAreExact(args[2].text, U32_MAX, burst);
      var stripped := StripSuffix(args[0].text);
      if stripped.Some? {
        SuffixIsExact(args[0].text, stripped.value);
        NumbersAreExact(stripped.value, U32_MAX, rate);
      }
      forall front | args[0].text == front + PER_SECOND ensures StripSuffix(args[0].text) == Some(front) {
        SuffixIsExact(args[0].text, front);
      }
    }
  }

  lemma StatusIsExact(text: string, n: nat)
    ensures StatusOf(text) == Some(n) <==> |text| == 3 && Digits(text, n) && 200 <= n <= 599
  {
    NumbersAreExact(text, 0xFFFF, n);
    if |text| == 3 && text[0] == '+' && Digits(text[1..], n) { TwoDigits(text[1..]); }
  }

  lemma TwoDigits(text: string)
    requires |text| == 2 && AllDigits(text)
    ensures ParseNat(text) < 100
  {
    assert ParseNat(text[..1]) < 10;
  }

  /** A response is a bare three-digit status alone, or a body, quoted or not, with or
      without a status after it; 204, 205 and 304 have no body. */
  lemma ResponsesAreExact(args: seq<Word>, body: string, status: nat)
    ensures ResponseOf(args) == Some(Response(body, status)) <==>
            && 200 <= status <= 599
            && (status == 204 || status == 205 || status == 304 ==> body == "")
            && if |args| == 2 then args[0].text == body && |args[1].text| == 3 && Digits(args[1].text, status)
               else
                 && |args| == 1
                 && if !args[0].quoted && |args[0].text| == 3 && AllDigits(args[0].text) then
                      body == "" && Digits(args[0].text, status)
                    else body == args[0].text && status == 200
  {
    if |args| > 0 {
      StatusIsExact(args[0].text, status);
      if |args| == 2 { StatusIsExact(args[1].text, status); }
    }
  }

  /** A control is `off`, or a positive number in range; a prefix is at most 128. */
  lemma ControlsAreExact(args: seq<Word>, max: nat, n: nat)
    requires |args| == 1
    ensures AmountOf(args, max) == Some(Off) <==> args[0].text == "off"
    ensures AmountOf(args, max) == Some(Number(n)) <==>
            args[0].text != "off" && n > 0 && Unsigned(args[0].text, max) == Some(n)
    ensures PrefixOf(args) == Some(Number(n)) <==> Unsigned(args[0].text, 128) == Some(n)
  {}

  function ValueFor(env: Env, k: Keyword, args: seq<Word>): Option<Value> {
    match k
    case ReverseProxy => if |args| == 1 && env.upstream(args[0].text) then Some(Proxy(args[0].text)) else None
    case Respond => ResponseOf(args)
    case RateLimit => RateOf(args)
    case VerifyLimit => RateOf(args)
    case Pay =>
      if |args| == 3 && env.payment(args[0].text, args[1].text, args[2].text) then
        Some(Payment(args[0].text, args[1].text, args[2].text)) else None
    case LightningPay => if |args| == 3 then Some(Lightning(args[0].text, args[1].text, args[2].text)) else None
    case Headers => HeadersOf(args)
    case Protocols => if env.protocols(Texts(args)) then Some(Names(Texts(args))) else None
    case Origin => if |args| == 1 then Some(Address(args[0].text)) else None
    case MaxInflight => AmountOf(args, 1_000_000)
    case MaxBody => AmountOf(args, U32_MAX)
    case Timeout => AmountOf(args, U32_MAX)
    case Prefix => PrefixOf(args)
  }

  /** `reverse_proxy` and `respond` both set the handler. */
  function Slot(k: Keyword): Keyword { if k == Respond then ReverseProxy else k }

  // ---------- cutting a block into directives ----------

  type Directive = d: seq<Word> | |d| > 0 witness [Word("", true, None)]

  /** A word that ends a directive of open length: a bare keyword. */
  predicate Starts(w: Word) { !w.quoted && w.key.Some? }

  function Leading(ws: seq<Word>): (n: nat)
    ensures n <= |ws|
  {
    if ws == [] || Starts(ws[0]) then 0 else 1 + Leading(ws[1..])
  }

  function Arity(k: Keyword): nat {
    if k == RateLimit || k == VerifyLimit || k == Pay || k == LightningPay then 4 else 2
  }

  predicate OpenEnded(k: Keyword) { k == Headers || k == Protocols }

  /** How many words the directive at the front takes, if there are as many. */
  function Wanted(ws: Directive): (n: nat)
    ensures n >= 1
  {
    var k := ws[0].key;
    if k.None? then 1
    else if OpenEnded(k.value) then 1 + Leading(ws[1..])
    else if k.value == Respond then if |ws| > 2 && !Starts(ws[2]) then 3 else 2
    else Arity(k.value)
  }

  function Count(ws: Directive): (n: nat)
    ensures 1 <= n <= |ws|
  {
    if Wanted(ws) <= |ws| then Wanted(ws) else |ws|
  }

  /** Where the directive at `at` ends. */
  function Next(ws: seq<Word>, at: nat): (next: nat)
    requires at < |ws|
    ensures at < next <= |ws|
  {
    at + Count(ws[at..])
  }

  datatype Problem =
    | Unknown | Duplicate | Malformed | NoHandler | UnknownReceiver | NoHeaders | BadPolicy | NeedsLightningPay

  type Settings = map<Keyword, Value>

  function ValueOf(env: Env, d: Directive): Option<Value> {
    var k := d[0].key;
    if k.None? then None else ValueFor(env, k.value, d[1..])
  }

  datatype Taken = Took(settings: Settings, pays: bool) | Refused(problem: Problem)

  /** A setting after those already taken; `pays` marks `lightning_pay`. */
  function TakeValue(m: Settings, k: Option<Keyword>, v: Option<Value>): Taken {
    if k.None? then Refused(Unknown)
    else if Slot(k.value) in m then Refused(Duplicate)
    else if v.None? then Refused(Malformed)
    else Took(m[Slot(k.value) := v.value], k.value == LightningPay)
  }

  function Take(env: Env, m: Settings, d: Directive): Taken { TakeValue(m, d[0].key, ValueOf(env, d)) }

  type Reader = (Settings, Directive) -> Taken

  function Reading(env: Env): Reader { (m: Settings, d: Directive) => Take(env, m, d) }

  datatype Gathered = Got(settings: Settings, payAt: nat) | Stop(at: nat, problem: Problem)

  /** Reads the words from position `at` on. */
  function Gather(read: Reader, ws: seq<Word>, at: nat, m: Settings, payAt: nat): Gathered
    requires at <= |ws|
    decreases |ws| - at
  {
    if at == |ws| then Got(m, payAt)
    else
      var next := Next(ws, at);
      match read(m, ws[at..next])
      case Refused(problem) => Stop(at, problem)
      case Took(more, pays) => Gather(read, ws, next, more, if pays then at else payAt)
  }

  // ---------- the site ----------

  datatype Controls = Controls(maxBody: Option<nat>, timeout: Option<nat>, prefix: nat, paymentLimit: Limit)

  datatype Site = Site(
    handler: Value, rateLimit: Option<Limit>, payment: Option<Value>, lightning: Option<Policy>,
    maxInflight: Option<nat>, controls: Controls)

  function Amount(v: Value): Option<nat> { if v.Number? then Some(v.n) else None }

  /** The request controls, with their defaults where nothing is set. */
  function ControlsOf(m: Settings): Controls {
    Controls(
      if MaxBody in m then Amount(m[MaxBody]) else Some(10 * 1024 * 1024),
      if Timeout in m then Amount(m[Timeout]) else Some(60),
      if Prefix in m && m[Prefix].Number? then m[Prefix].n else 64,
      if VerifyLimit in m && m[VerifyLimit].Rate? then m[VerifyLimit].limit else Limit(2, 8))
  }

  function NamesIn(m: Settings, k: Keyword): Option<seq<string>> {
    if k in m && m[k].Names? then Some(m[k].names) else None
  }

  function PolicyOf(env: Env, m: Settings): Policy
    requires LightningPay in m && m[LightningPay].Lightning?
  {
    var pay := m[LightningPay];
    var headers := NamesIn(m, Headers);
    Policy(pay.price, pay.unit, pay.receiver, if Origin in m && m[Origin].Address? then m[Origin].text else env.origin,
           if headers.Some? then headers.value else [], NamesIn(m, Protocols))
  }

  /** What is still wrong once every directive has been read, and whether the
      error is reported at `lightning_pay` or at the block. */
  function Missing(env: Env, m: Settings): Option<(Problem, bool)> {
    if ReverseProxy !in m then Some((NoHandler, false))
    else if LightningPay in m && m[LightningPay].Lightning? then
      if m[LightningPay].receiver !in env.receivers then Some((UnknownReceiver, true))
      else if Headers !in m then Some((NoHeaders, true))
      else if !env.policy(PolicyOf(env, m)) then Some((BadPolicy, true))
      else None
    else if Headers in m || Origin in m || Protocols in m then Some((NeedsLightningPay, false))
    else None
  }

  function SiteOf(env: Env, m: Settings): Site
    requires ReverseProxy in m
  {
    Site(m[ReverseProxy],
         if RateLimit in m && m[RateLimit].Rate? then Some(m[RateLimit].limit) else None,
         if Pay in m then Some(m[Pay]) else None,
         if LightningPay in m && m[LightningPay].Lightning? then Some(PolicyOf(env, m)) else None,
         if MaxInflight !in m then None else if m[MaxInflight].Number? then Some(m[MaxInflight].n) else Some(0),
         ControlsOf(m))
  }

  datatype Place = At(index: nat) | Block
  datatype Result = Ok(site: Site) | Err(place: Place, problem: Problem)

  function Finish(env: Env, g: Gathered): Result {
    if g.Stop? then Err(At(g.at), g.problem)
    else
      var missing := Missing(env, g.settings);
      if missing.Some? then Err(if missing.value.1 then At(g.payAt) else Block, missing.value.0)
      else Ok(SiteOf(env, g.settings))
  }

  function Parse(env: Env, ws: seq<Word>): Result { Finish(env, Gather(Reading(env), ws, 0, map[], 0)) }

  /** `parse_directives`: a cursor over the words and one table of settings. */
  method ParseDirectives(env: Env, ws: seq<Word>) returns (r: Result)
    ensures r == Parse(env, ws)
  {
    var g := GatherAll(Reading(env), ws);
    r := Finish(env, g);
  }

  method GatherAll(read: Reader, ws: seq<Word>) returns (g: Gathered)
    ensures g == Gather(read, ws, 0, map[], 0)
  {
    var settings: Settings := map[];
    var payAt, cursor: nat := 0, 0;
    while cursor < |ws|
      invariant cursor <= |ws|
      invariant Gather(read, ws, 0, map[], 0) == Gather(read, ws, cursor, settings, payAt)
      decreases |ws| - cursor
    {
      var start := cursor;
      cursor := Next(ws, start);
      var taken := read(settings, ws[start..cursor]);
      if taken.Refused? { return Stop(start, taken.problem); }
      settings := taken.settings;
      if taken.pays { payAt := start; }
    }
    return Got(settings, payAt);
  }

  // ---------- directives as a list ----------

  function Split(ws: seq<Word>): seq<Directive>
    decreases |ws|
  {
    if ws == [] then [] else [ws[..Count(ws)]] + Split(ws[Count(ws)..])
  }

  lemma SuffixOfSuffix(ws: seq<Word>, at: nat, n: nat)
    requires at + n <= |ws|
    ensures ws[at..][n..] == ws[at + n..] && ws[at..][..n] == ws[at..at + n]
  {}

  lemma SplitAt(ws: seq<Word>, at: nat)
    requires at < |ws|
    ensures Split(ws[at..]) == [ws[at..Next(ws, at)]] + Split(ws[Next(ws, at)..])
  {
    SuffixOfSuffix(ws, at, Count(ws[at..]));
  }

  function Concat(ds: seq<Directive>): seq<Word> { if ds == [] then [] else ds[0] + Concat(ds[1..]) }

  function Fold(read: Reader, ds: seq<Directive>, m: Settings): Option<Settings> {
    if ds == [] then Some(m)
    else
      match read(m, ds[0])
      case Refused(_) => None
      case Took(more, _) => Fold(read, ds[1..], more)
  }

  function Outcome(env: Env, m: Option<Settings>): Option<Site> {
    if m.None? || Missing(env, m.value).Some? then None else Some(SiteOf(env, m.value))
  }

  function Settled(g: Gathered): Option<Settings> { if g.Got? then Some(g.settings) else None }

  /** The site a block makes, wherever its errors are reported. */
  function Made(r: Result): Option<Site> { if r.Ok? then Some(r.site) else None }

  lemma FoldUnfolds(read: Reader, d: Directive, ds: seq<Directive>, m: Settings)
    ensures Fold(read, [d] + ds, m) == var t := read(m, d); if t.Refused? then None else Fold(read, ds, t.settings)
  {
    assert ([d] + ds)[1..] == ds;
  }

  lemma {:induction false} GatherIsFold(read: Reader, ws: seq<Word>, at: nat, m: Settings, payAt: nat)
    requires at <= |ws|
    ensures Fold(read, Split(ws[at..]), m) == Settled(Gather(read, ws, at, m, payAt))
    decreases |ws| - at
  {
    if at < |ws| {
      var next := Next(ws, at);
      SplitAt(ws, at);
      FoldUnfolds(read, ws[at..next], Split(ws[next..]), m);
      var t := read(m, ws[at..next]);
      if t.Took? { GatherIsFold(read, ws, next, t.settings, if t.pays then at else payAt); }
    }
  }

  lemma ParseIsFold(env: Env, ws: seq<Word>)
    ensures Made(Parse(env, ws)) == Outcome(env, Fold(Reading(env), Split(ws), map[]))
  {
    assert ws[0..] == ws;
    GatherIsFold(Reading(env), ws, 0, map[], 0);
  }

  /** The first `n` directives end where the next one starts. */
  lemma {:induction false} RefusalFrom(read: Reader, ws: seq<Word>, at: nat, m: Settings, payAt: nat) returns (n: nat)
    requires at <= |ws| && Gather(read, ws, at, m, payAt).Stop?
    ensures var g, ds := Gather(read, ws, at, m, payAt), Split(ws[at..]);
            && n < |ds|
            && g.at == at + |Concat(ds[..n])|
            && var before := Fold(read, ds[..n], m); before.Some? && read(before.value, ds[n]) == Refused(g.problem)
    decreases |ws| - at
  {
    var next := Next(ws, at);
    SplitAt(ws, at);
    var d: Directive, rest := ws[at..next], Split(ws[next..]);
    var t := read(m, d);
    if t.Refused? {
      n := 0;
    } else {
      var k := RefusalFrom(read, ws, next, t.settings, if t.pays then at else payAt);
      n := k + 1;
      PrefixOfCons(d, rest, k);
      FoldUnfolds(read, d, rest[..k], m);
    }
  }

  lemma PrefixOfCons(d: Directive, rest: seq<Directive>, k: nat)
    requires k <= |rest|
    ensures ([d] + rest)[..k + 1] == [d] + rest[..k] && |Concat([d] + rest[..k])| == |d| + |Concat(rest[..k])|
  {
    assert ([d] + rest[..k])[1..] == rest[..k];
  }

  /** A refusal is reported at the first word of the first directive that cannot
      be taken after those before it. */
  lemma FirstRefusalIsReported(read: Reader, ws: seq<Word>) returns (n: nat)
    requires Gather(read, ws, 0, map[], 0).Stop?
    ensures var g, ds := Gather(read, ws, 0, map[], 0), Split(ws);
            && n < |ds|
            && g.at == |Concat(ds[..n])|
            && var before := Fold(read, ds[..n], map[]); before.Some? && read(before.value, ds[n]) == Refused(g.problem)
  {
    assert ws[0..] == ws;
    n := RefusalFrom(read, ws, 0, map[], 0);
  }

  // ---------- splitting undoes concatenation ----------

  /** A directive that takes all of its own words when it stands alone. */
  predicate Formed(d: Directive) { d[0].key.Some? && Wanted(d) == |d| }

  /** A directive that would take more words if the next one were not a bare keyword. */
  predicate Open(d: Directive) {
    var k := d[0].key;
    k.Some? && (OpenEnded(k.value) || (k.value == Respond && |d| == 2))
  }

  predicate AllFormed(ds: seq<Directive>) { forall d :: d in ds ==> Formed(d) }

  predicate Separated(ds: seq<Directive>) { forall i :: 0 <= i < |ds| - 1 && Open(ds[i]) ==> Starts(ds[i + 1][0]) }

  lemma {:induction false} LeadingAll(ws: seq<Word>, rest: seq<Word>)
    requires Leading(ws) == |ws|
    ensures Leading(ws + rest) == |ws| + Leading(rest)
    decreases |ws|
  {
    if ws == [] {
      assert ws + rest == rest;
    } else {
      assert (ws + rest)[1..] == ws[1..] + rest;
      LeadingAll(ws[1..], rest);
    }
  }

  lemma {:induction false} LeadingPrefix(ws: seq<Word>)
    ensures Leading(ws[..Leading(ws)]) == Leading(ws)
    decreases |ws|
  {
    if ws != [] && !Starts(ws[0]) {
      LeadingPrefix(ws[1..]);
      assert ws[..Leading(ws)][1..] == ws[1..][..Leading(ws[1..])];
    }
  }

  lemma FormedStandsAlone(d: Directive, rest: seq<Word>)
    requires Formed(d) && (rest == [] || !Open(d) || Starts(rest[0]))
    ensures Count(d + rest) == |d|
  {
    var all := d + rest;
    assert all[0] == d[0];
    if OpenEnded(d[0].key.value) {
      assert all[1..] == d[1..] + rest;
      LeadingAll(d[1..], rest);
    }
  }

  lemma {:induction false} SplitOfConcat(ds: seq<Directive>)
    requires AllFormed(ds) && Separated(ds)
    ensures Split(Concat(ds)) == ds
    decreases |ds|
  {
    if ds != [] {
      var rest := ds[1..];
      assert forall i :: 0 <= i < |rest| ==> rest[i] == ds[i + 1];
      SplitOfConcat(rest);
      var ws := Concat(ds);
      if rest != [] { assert Concat(rest)[0] == rest[0][0]; }
      FormedStandsAlone(ds[0], Concat(rest));
      assert ws[..|ds[0]|] == ds[0] && ws[|ds[0]|..] == Concat(rest);
    }
  }

  // ---------- an accepted block is a list of whole directives ----------

  lemma {:induction false} LeadingStops(ws: seq<Word>)
    ensures Leading(ws) < |ws| ==> Starts(ws[Leading(ws)])
    decreases |ws|
  {
    if ws != [] && !Starts(ws[0]) { LeadingStops(ws[1..]); }
  }

  lemma ChunkFormed(env: Env, ws: Directive)
    requires ValueOf(env, ws[..Count(ws)]).Some?
    ensures Formed(ws[..Count(ws)])
    ensures Open(ws[..Count(ws)]) && Count(ws) < |ws| ==> Starts(ws[Count(ws)])
  {
    var n := Count(ws);
    var d: Directive := ws[..n];
    var k := d[0].key.value;
    assert d[0] == ws[0] && |d[1..]| == n - 1;
    if OpenEnded(k) {
      assert d[1..] == ws[1..][..Leading(ws[1..])];
      LeadingPrefix(ws[1..]);
      LeadingStops(ws[1..]);
    } else if k == Respond {
      assert n == 3 ==> d[2] == ws[2];
    } else {
      EnoughArguments(env, k, d[1..]);
    }
  }

  lemma EnoughArguments(env: Env, k: Keyword, args: seq<Word>)
    requires !OpenEnded(k) && k != Respond && ValueFor(env, k, args).Some?
    ensures |args| >= Arity(k) - 1
  {}

  lemma SeparatedCons(d: Directive, ds: seq<Directive>)
    requires Separated(ds) && (Open(d) && ds != [] ==> Starts(ds[0][0]))
    ensures Separated([d] + ds)
  {
    var all := [d] + ds;
    forall i | 0 <= i < |all| - 1 && Open(all[i]) ensures Starts(all[i + 1][0]) {
      assert all[i + 1] == ds[i];
      if i > 0 { assert all[i] == ds[i - 1]; }
    }
  }

  lemma ConcatCons(d: Directive, ds: seq<Directive>)
    ensures Concat([d] + ds) == d + Concat(ds)
  {
    assert ([d] + ds)[1..] == ds;
  }

  lemma Halves(ws: seq<Word>, n: nat)
    requires n <= |ws|
    ensures ws[..n] + ws[n..] == ws
  {}

  lemma {:induction false} ConcatOfSplit(ws: seq<Word>)
    ensures Concat(Split(ws)) == ws
    decreases |ws|
  {
    if ws != [] {
      var n := Count(ws);
      ConcatOfSplit(ws[n..]);
      ConcatCons(ws[..n], Split(ws[n..]));
      Halves(ws, n);
    }
  }

  lemma SplitStarts(ws: seq<Word>)
    requires ws != []
    ensures Split(ws) != [] && Split(ws)[0][0] == ws[0]
  {}

  lemma {:induction false} AcceptedIsFormed(env: Env, ws: seq<Word>, m: Settings)
    requires Fold(Reading(env), Split(ws), m).Some?
    ensures AllFormed(Split(ws)) && Separated(Split(ws))
    decreases |ws|
  {
    if ws != [] {
      var d: Directive, rest := ws[..Count(ws)], ws[Count(ws)..];
      assert Split(ws) == [d] + Split(rest);
      FoldUnfolds(Reading(env), d, Split(rest), m);
      AcceptedIsFormed(env, rest, Take(env, m, d).settings);
      ChunkFormed(env, ws);
      if rest != [] { SplitStarts(rest); }
      SeparatedCons(d, Split(rest));
    }
  }

  // ---------- order ----------

  function After(read: Reader, t: Taken, d: Directive): Option<Settings> {
    if t.Refused? then None else var u := read(t.settings, d); if u.Refused? then None else Some(u.settings)
  }

  ghost predicate Commuting(read: Reader) {
    forall m: Settings, a: Directive, b: Directive :: After(read, read(m, a), b) == After(read, read(m, b), a)
  }

  function Both(m: Settings, j: Option<Keyword>, u: Option<Value>, k: Option<Keyword>,
                v: Option<Value>): Option<Settings> {
    var t := TakeValue(m, j, u);
    if t.Refused? then None else var w := TakeValue(t.settings, k, v); if w.Refused? then None else Some(w.settings)
  }

  lemma TakesCommute(m: Settings, j: Option<Keyword>, u: Option<Value>, k: Option<Keyword>, v: Option<Value>)
    ensures Both(m, j, u, k, v) == Both(m, k, v, j, u)
  {
    if j.Some? && k.Some? && u.Some? && v.Some? && Slot(j.value) != Slot(k.value) {
      assert m[Slot(j.value) := u.value][Slot(k.value) := v.value] ==
               m[Slot(k.value) := v.value][Slot(j.value) := u.value];
    }
  }

  lemma ReadingCommutes(env: Env)
    ensures Commuting(Reading(env))
  {
    forall m: Settings, a: Directive, b: Directive
      ensures After(Reading(env), Reading(env)(m, a), b) == After(Reading(env), Reading(env)(m, b), a)
    {
      TakesCommute(m, a[0].key, ValueOf(env, a), b[0].key, ValueOf(env, b));
    }
  }

  lemma FoldTwo(read: Reader, a: Directive, b: Directive, ds: seq<Directive>, m: Settings)
    ensures Fold(read, [a, b] + ds, m) == var r := After(read, read(m, a), b);
            if r.None? then None else Fold(read, ds, r.value)
  {
    assert [a, b] + ds == [a] + ([b] + ds);
    FoldUnfolds(read, a, [b] + ds, m);
    var t := read(m, a);
    if t.Took? { FoldUnfolds(read, b, ds, t.settings); }
  }

  lemma {:induction false} MoveToFront(read: Reader, before: seq<Directive>, d: Directive, rest: seq<Directive>,
                                       m: Settings)
    requires Commuting(read)
    ensures Fold(read, before + [d] + rest, m) == Fold(read, [d] + (before + rest), m)
    decreases |before|
  {
    if before == [] {
      assert before + [d] + rest == [d] + (before + rest);
    } else {
      var b, more := before[0], before[1..];
      assert before + [d] + rest == [b] + (more + [d] + rest);
      FoldUnfolds(read, b, more + [d] + rest, m);
      FoldUnfolds(read, b, [d] + (more + rest), m);
      var t := read(m, b);
      if t.Took? { MoveToFront(read, more, d, rest, t.settings); }
      assert [b] + ([d] + (more + rest)) == [b, d] + (more + rest);
      FoldTwo(read, b, d, more + rest, m);
      FoldTwo(read, d, b, more + rest, m);
      assert [d, b] + (more + rest) == [d] + (before + rest);
    }
  }

  /** A position of `d` in `ds`, and the list without it. */
  lemma Locate(ds: seq<Directive>, d: Directive) returns (before: seq<Directive>, rest: seq<Directive>)
    requires d in multiset(ds)
    ensures ds == before + [d] + rest && multiset(before + rest) == multiset(ds) - multiset{d}
  {
    var i :| 0 <= i < |ds| && ds[i] == d;
    before, rest := ds[..i], ds[i + 1..];
    assert ds == before + [d] + rest;
    assert multiset(ds) == multiset(before) + multiset{d} + multiset(rest);
    assert multiset(before + rest) == multiset(before) + multiset(rest);
  }

  lemma {:induction false} FoldPermutes(read: Reader, ds: seq<Directive>, es: seq<Directive>, m: Settings)
    requires Commuting(read) && multiset(ds) == multiset(es)
    ensures Fold(read, ds, m) == Fold(read, es, m)
    decreases |ds|
  {
    if ds == [] {
      assert |multiset(es)| == 0;
    } else {
      var d, rest := ds[0], ds[1..];
      assert ds == [d] + rest;
      assert d in multiset(ds);
      var before, after := Locate(es, d);
      MoveToFront(read, before, d, after, m);
      assert multiset(rest) == multiset(ds) - multiset{d};
      FoldUnfolds(read, d, rest, m);
      FoldUnfolds(read, d, before + after, m);
      var t := read(m, d);
      if t.Took? { FoldPermutes(read, rest, before + after, t.settings); }
    }
  }

  /** Some arrangement puts a quoted keyword right after a directive that takes it
      for one of its own arguments. */
  ghost predicate Swallows(ds: seq<Directive>) {
    exists a: Directive, b: Directive :: multiset{a, b} <= multiset(ds) && Open(a) && b[0].quoted
  }

  lemma AdjacentPair(ds: seq<Directive>, i: nat)
    requires i + 1 < |ds|
    ensures multiset{ds[i], ds[i + 1]} <= multiset(ds)
  {
    assert ds == ds[..i] + [ds[i], ds[i + 1]] + ds[i + 2..];
    assert multiset(ds) == multiset(ds[..i]) + multiset{ds[i], ds[i + 1]} + multiset(ds[i + 2..]);
  }

  lemma SeparatedUnlessSwallowed(ds: seq<Directive>)
    requires AllFormed(ds) && !Swallows(ds)
    ensures Separated(ds)
  {
    forall i | 0 <= i < |ds| - 1 && Open(ds[i]) ensures Starts(ds[i + 1][0]) {
      AdjacentPair(ds, i);
      assert ds[i + 1] in ds;
    }
  }

  /** A block of whole directives makes the same site, or none, in every order in
      which they can be written, unless one of them can swallow another. */
  lemma SameSiteInAnyOrder(env: Env, ds: seq<Directive>, es: seq<Directive>)
    requires AllFormed(ds) && !Swallows(ds) && multiset(ds) == multiset(es)
    ensures Made(Parse(env, Concat(es))) == Made(Parse(env, Concat(ds)))
  {
    assert AllFormed(es) by {
      forall d | d in es ensures Formed(d) { assert d in multiset(es); }
    }
    SeparatedUnlessSwallowed(ds);
    SeparatedUnlessSwallowed(es);
    SplitOfConcat(ds);
    SplitOfConcat(es);
    ParseIsFold(env, Concat(ds));
    ParseIsFold(env, Concat(es));
    ReadingCommutes(env);
    FoldPermutes(Reading(env), ds, es, map[]);
  }

  // ---------- exactly when order matters ----------

  predicate Tagged(ws: seq<Word>) { forall w :: w in ws ==> w.key == KeywordOf(w.text) }

  lemma {:induction false} FoldKeeps(env: Env, ds: seq<Directive>, m: Settings, k: Keyword)
    requires Fold(Reading(env), ds, m).Some? && k in m
    ensures var r := Fold(Reading(env), ds, m).value; k in r && r[k] == m[k]
    decreases |ds|
  {
    if ds != [] {
      assert ds == [ds[0]] + ds[1..];
      FoldUnfolds(Reading(env), ds[0], ds[1..], m);
      FoldKeeps(env, ds[1..], Take(env, m, ds[0]).settings, k);
    }
  }

  /** Every directive of an accepted list has its say. */
  lemma {:induction false} FoldSets(env: Env, ds: seq<Directive>, m: Settings, d: Directive)
    requires Fold(Reading(env), ds, m).Some? && d in ds
    ensures d[0].key.Some? && ValueOf(env, d).Some?
    ensures var r, k := Fold(Reading(env), ds, m).value, Slot(d[0].key.value); k in r && r[k] == ValueOf(env, d).value
    decreases |ds|
  {
    assert ds == [ds[0]] + ds[1..];
    FoldUnfolds(Reading(env), ds[0], ds[1..], m);
    var t := Take(env, m, ds[0]);
    if ds[0] == d {
      FoldKeeps(env, ds[1..], t.settings, Slot(d[0].key.value));
    } else {
      FoldSets(env, ds[1..], t.settings, d);
    }
  }

  lemma OpenTakesMore(a: Directive, rest: Directive)
    requires Formed(a) && Open(a) && !Starts(rest[0])
    ensures Count(a + rest) > |a|
  {
    var all := a + rest;
    assert all[0] == a[0];
    if OpenEnded(a[0].key.value) {
      assert all[1..] == a[1..] + rest;
      LeadingAll(a[1..], rest);
    } else {
      assert all[2] == rest[0];
    }
  }

  lemma KeywordIsNoStatus(text: string)
    requires KeywordOf(text).Some?
    ensures StatusOf(text).None?
  {
    if |text| == 3 {
      assert text == "pay";
      assert !IsDigit(text[1]) && !IsDigit(text[1..][0]);
    }
  }

  lemma OtherNamesOtherSite(env: Env, m: Settings, n: Settings, k: Keyword)
    requires OpenEnded(k) && k in m && k in n && m[k].Names? && n[k].Names? && |m[k].names| != |n[k].names|
    requires Outcome(env, Some(m)).Some?
    ensures Outcome(env, Some(m)) != Outcome(env, Some(n))
  {
    if Outcome(env, Some(n)).Some? {
      var p, q := PolicyOf(env, m), PolicyOf(env, n);
      assert SiteOf(env, m).lightning == Some(p) && SiteOf(env, n).lightning == Some(q);
      if k == Headers { assert |p.headers| != |q.headers|; } else { assert p.protocols != q.protocols; }
    }
  }

  /** Names read by an open-ended directive: as many as its words, or none. */
  lemma NamesRead(env: Env, d: Directive)
    requires d[0].key.Some? && OpenEnded(d[0].key.value) && ValueOf(env, d).Some?
    ensures var v := ValueOf(env, d).value; v.Names? && (|v.names| == |d| - 1 || (v.names == [] && |d| == 2))
  {}

  lemma SwallowedStatus(env: Env, d: Directive)
    requires d[0].key == Some(Respond) && |d| == 3 && d[2].key == KeywordOf(d[2].text) && d[2].key.Some?
    ensures ValueOf(env, d).None?
  {
    KeywordIsNoStatus(d[2].text);
    assert d[1..][1] == d[2];
  }

  lemma LongerDirectiveDiffers(env: Env, a: Directive, d: Directive, rest: seq<Directive>, m: Settings)
    requires a[0].key.Some? && OpenEnded(a[0].key.value) && d[0] == a[0] && |d| > |a|
    requires ValueOf(env, a).Some? && a[0].key.value in m && m[a[0].key.value] == ValueOf(env, a).value
    requires Outcome(env, Some(m)).Some?
    ensures Outcome(env, Fold(Reading(env), [d] + rest, map[])) != Outcome(env, Some(m))
  {
    var k := a[0].key.value;
    var other := Fold(Reading(env), [d] + rest, map[]);
    if other.Some? {
      FoldSets(env, [d] + rest, map[], d);
      NamesRead(env, a);
      NamesRead(env, d);
      OtherNamesOtherSite(env, m, other.value, k);
    }
  }

  lemma ConcatTwo(a: Directive, b: Directive, rest: seq<Directive>)
    ensures Concat([a, b] + rest) == a + (b + Concat(rest))
  {
    assert ([a, b] + rest)[1..] == [b] + rest;
    assert ([b] + rest)[1..] == rest;
  }

  /** The first directive of a text in which `a` swallows what follows it. */
  lemma SwallowedDirective(env: Env, a: Directive, d: Directive, more: seq<Directive>, m: Settings)
    requires a[0].key.Some? && Open(a) && d[0] == a[0] && |d| > |a|
    requires !OpenEnded(a[0].key.value) ==> |d| == 3 && d[2].key.Some? && d[2].key == KeywordOf(d[2].text)
    requires ValueOf(env, a).Some? && Slot(a[0].key.value) in m && m[Slot(a[0].key.value)] == ValueOf(env, a).value
    requires Outcome(env, Some(m)).Some?
    ensures Outcome(env, Fold(Reading(env), [d] + more, map[])) != Outcome(env, Some(m))
  {
    if OpenEnded(a[0].key.value) {
      LongerDirectiveDiffers(env, a, d, more, m);
    } else {
      SwallowedStatus(env, d);
      FoldUnfolds(Reading(env), d, more, map[]);
    }
  }

  lemma SwallowingCount(a: Directive, b: Directive, tail: Directive)
    requires Formed(a) && Open(a) && b[0].quoted && tail[0] == b[0]
    ensures Count(a + tail) > |a|
    ensures !OpenEnded(a[0].key.value) ==> Count(a + tail) == 3 && (a + tail)[2] == b[0]
  {
    OpenTakesMore(a, tail);
  }

  lemma SwallowedChangesSite(env: Env, a: Directive, b: Directive, rest: seq<Directive>, m: Settings)
    requires Formed(a) && Open(a) && b[0].quoted && b[0].key.Some? && b[0].key == KeywordOf(b[0].text)
    requires ValueOf(env, a).Some? && Slot(a[0].key.value) in m && m[Slot(a[0].key.value)] == ValueOf(env, a).value
    requires Outcome(env, Some(m)).Some?
    ensures Made(Parse(env, Concat([a, b] + rest))) != Outcome(env, Some(m))
  {
    var tail: Directive := b + Concat(rest);
    var ws: Directive := a + tail;
    ConcatTwo(a, b, rest);
    SwallowingCount(a, b, tail);
    var d: Directive := ws[..Count(ws)];
    ParseIsFold(env, ws);
    SwallowedDirective(env, a, d, Split(ws[Count(ws)..]), m);
  }

  /** No keyword is the name of a protocol. */
  ghost predicate KnownProtocols(env: Env) {
    forall names, n :: env.protocols(names) && n in names ==> KeywordOf(n).None?
  }

  lemma SwallowedProtocol(env: Env, d: Directive, i: nat)
    requires KnownProtocols(env) && d[0].key == Some(Protocols) && 0 < i < |d| && KeywordOf(d[i].text).Some?
    ensures ValueOf(env, d).None?
  {
    var names := Texts(d[1..]);
    assert names[i - 1] == d[i].text && d[i].text in names;
  }

  /** Swallowing is silent only after `lightning_headers`: a protocol list or a
      response that takes a keyword for an argument is refused. */
  lemma OtherSwallowsAreRefused(env: Env, a: Directive, b: Directive, rest: seq<Directive>)
    requires KnownProtocols(env) && Formed(a) && Open(a) && a[0].key != Some(Headers)
    requires b[0].quoted && b[0].key.Some? && b[0].key == KeywordOf(b[0].text)
    ensures Made(Parse(env, Concat([a, b] + rest))) == None
  {
    var tail: Directive := b + Concat(rest);
    var ws: Directive := a + tail;
    ConcatTwo(a, b, rest);
    SwallowingCount(a, b, tail);
    var d: Directive := ws[..Count(ws)];
    assert d[0] == a[0] && d[|a|] == b[0];
    if OpenEnded(a[0].key.value) { SwallowedProtocol(env, d, |a|); } else { SwallowedStatus(env, d); }
    ParseIsFold(env, ws);
    FoldUnfolds(Reading(env), d, Split(ws[Count(ws)..]), map[]);
  }

  ghost predicate OrderFree(env: Env, ds: seq<Directive>) {
    forall es: seq<Directive> :: multiset(es) == multiset(ds) ==>
      Made(Parse(env, Concat(es))) == Made(Parse(env, Concat(ds)))
  }

  lemma NotOrderFree(env: Env, ds: seq<Directive>, es: seq<Directive>)
    requires multiset(es) == multiset(ds) && Made(Parse(env, Concat(es))) != Made(Parse(env, Concat(ds)))
    ensures !OrderFree(env, ds)
  {}

  lemma TwoInFront(ds: seq<Directive>, a: Directive, b: Directive) returns (rest: seq<Directive>)
    requires multiset{a, b} <= multiset(ds)
    ensures multiset([a, b] + rest) == multiset(ds)
  {
    assert multiset(ds)[a] >= multiset{a, b}[a] >= 1;
    var x, y := Locate(ds, a);
    assert multiset(ds)[b] >= multiset{a, b}[b];
    assert b in multiset(x + y);
    var u, v := Locate(x + y, b);
    rest := u + v;
    assert multiset([a, b] + rest) == multiset{a, b} + multiset(rest);
  }

  lemma {:induction false} SplitIsTagged(ws: seq<Word>, d: Directive)
    requires Tagged(ws) && d in Split(ws)
    ensures d[0].key == KeywordOf(d[0].text)
    decreases |ws|
  {
    var rest := ws[Count(ws)..];
    if d == ws[..Count(ws)] {
      assert d[0] in ws;
    } else {
      assert forall w :: w in rest ==> w in ws;
      SplitIsTagged(rest, d);
    }
  }

  lemma PairMembers(ds: seq<Directive>, a: Directive, b: Directive)
    requires multiset{a, b} <= multiset(ds)
    ensures a in ds && b in ds
  {
    assert multiset(ds)[a] >= multiset{a, b}[a] >= 1;
    assert multiset(ds)[b] >= multiset{a, b}[b] >= 1;
  }

  lemma SwallowedBreaksOrder(env: Env, ws: seq<Word>, m: Settings, a: Directive, b: Directive)
    requires Tagged(ws) && Concat(Split(ws)) == ws && AllFormed(Split(ws))
    requires Fold(Reading(env), Split(ws), map[]) == Some(m) && Outcome(env, Some(m)).Some?
    requires multiset{a, b} <= multiset(Split(ws)) && Open(a) && b[0].quoted
    ensures !OrderFree(env, Split(ws))
  {
    var ds := Split(ws);
    PairMembers(ds, a, b);
    var rest := TwoInFront(ds, a, b);
    FoldSets(env, ds, map[], a);
    SplitIsTagged(ws, b);
    SwallowedChangesSite(env, a, b, rest, m);
    ParseIsFold(env, ws);
    NotOrderFree(env, ds, [a, b] + rest);
  }

  /** An accepted block makes the same site in every order of its directives if
      and only if no quoted keyword of one can be taken for an argument of another. */
  lemma OrderMattersExactlyWhenSwallowed(env: Env, ws: seq<Word>)
    requires Tagged(ws) && Parse(env, ws).Ok?
    ensures Concat(Split(ws)) == ws
    ensures OrderFree(env, Split(ws)) <==> !Swallows(Split(ws))
  {
    var ds := Split(ws);
    ParseIsFold(env, ws);
    AcceptedIsFormed(env, ws, map[]);
    ConcatOfSplit(ws);
    var m := Fold(Reading(env), ds, map[]).value;
    if Swallows(ds) {
      var a: Directive, b: Directive :| multiset{a, b} <= multiset(ds) && Open(a) && b[0].quoted;
      SwallowedBreaksOrder(env, ws, m, a, b);
    } else {
      forall es: seq<Directive> | multiset(es) == multiset(ds)
        ensures Made(Parse(env, Concat(es))) == Made(Parse(env, Concat(ds)))
      {
        SameSiteInAnyOrder(env, ds, es);
      }
    }
  }
}
