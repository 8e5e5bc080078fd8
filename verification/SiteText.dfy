/** Printing a site's settings as a Geatafile block, and reading them back. */
module SiteText {
  import opened Basics
  import opened Json
  import opened DecimalText
  import opened Directives
  import Tokenizer
  import Identity

  // ---------- which settings a block can carry ----------

  predicate FitsAmount(v: Value, max: nat) { v.Off? || (v.Number? && 0 < v.n <= max) }

  predicate FitsRate(v: Value) { v.Rate? && 0 < v.limit.perSecond <= U32_MAX && 0 < v.limit.burst <= U32_MAX }

  predicate FitsHandler(env: Env, v: Value) {
    || (v.Proxy? && env.upstream(v.backend))
    || (v.Response? && 200 <= v.status <= 599 && (Bodiless(v.status) ==> v.body == ""))
  }

  predicate Fits(env: Env, k: Keyword, v: Value) {
    match k
    case ReverseProxy => FitsHandler(env, v)
    case Respond => false
    case RateLimit => FitsRate(v)
    case VerifyLimit => FitsRate(v)
    case Pay => v.Payment? && env.payment(v.price, v.unit, v.mint)
    case LightningPay => v.Lightning?
    case Headers => v.Names? && "none" !in v.names
    case Protocols => v.Names? && env.protocols(v.names)
    case Origin => v.Address?
    case MaxInflight => FitsAmount(v, 1_000_000)
    case MaxBody => FitsAmount(v, U32_MAX)
    case Timeout => FitsAmount(v, U32_MAX)
    case Prefix => v.Number? && v.n <= 128
  }

  lemma HeadersFit(args: seq<Word>)
    requires HeadersOf(args).Some?
    ensures HeadersOf(args).value.Names? && "none" !in HeadersOf(args).value.names
  {
    if |args| == 1 { assert Texts(args) == [args[0].text]; }
  }

  lemma RatesFit(args: seq<Word>)
    requires RateOf(args).Some?
    ensures FitsRate(RateOf(args).value)
  {}

  lemma ResponseFits(env: Env, args: seq<Word>)
    requires ResponseOf(args).Some?
    ensures FitsHandler(env, ResponseOf(args).value)
  {}

  lemma AmountsFit(args: seq<Word>, max: nat)
    requires AmountOf(args, max).Some?
    ensures FitsAmount(AmountOf(args, max).value, max)
  {}

  lemma PrefixFits(args: seq<Word>)
    requires PrefixOf(args).Some?
    ensures PrefixOf(args).value.Number? && PrefixOf(args).value.n <= 128
  {}

  lemma ArgumentsFit(env: Env, k: Keyword, args: seq<Word>)
    requires ValueFor(env, k, args).Some?
    ensures Fits(env, Slot(k), ValueFor(env, k, args).value)
  {
    match k
    case Headers => HeadersFit(args);
    case RateLimit => RatesFit(args);
    case VerifyLimit => RatesFit(args);
    case Respond => ResponseFits(env, args);
    case MaxInflight => AmountsFit(args, 1_000_000);
    case MaxBody => AmountsFit(args, U32_MAX);
    case Timeout => AmountsFit(args, U32_MAX);
    case Prefix => PrefixFits(args);
    case _ =>
  }

  lemma ValueFits(env: Env, d: Directive)
    requires ValueOf(env, d).Some?
    ensures Fits(env, Slot(d[0].key.value), ValueOf(env, d).value)
  {
    ArgumentsFit(env, d[0].key.value, d[1..]);
  }

  // ---------- printing ----------

  function Head(k: Keyword): Word { Word(Spelling(k), false, Some(k)) }

  function Arg(text: string): Word { Tag(text, true) }

  function Args(texts: seq<string>): (ws: seq<Word>)
    ensures |ws| == |texts| && forall i :: 0 <= i < |ws| ==> ws[i] == Arg(texts[i])
  {
    seq(|texts|, i requires 0 <= i < |texts| => Arg(texts[i]))
  }

  function ArgumentsOf(v: Value): seq<string> {
    match v
    case Proxy(backend) => [backend]
    case Response(body, status) => [body, Decimal(status)]
    case Rate(limit) => [Decimal(limit.perSecond) + PER_SECOND, "burst", Decimal(limit.burst)]
    case Payment(price, unit, mint) => [price, unit, mint]
    case Lightning(price, unit, receiver) => [price, unit, receiver]
    case Names(names) => names
    case Address(text) => [text]
    case Off => ["off"]
    case Number(n) => [Decimal(n)]
  }

  function Headed(k: Keyword, args: seq<Word>): Directive { [Head(k)] + args }

  function Written(k: Keyword, v: Value): seq<string> {
    if k == Headers && v == Names([]) then ["none"] else ArgumentsOf(v)
  }

  function WrittenAs(k: Keyword, v: Value): Keyword { if v.Response? then Respond else k }

  /** The directive that gives setting `k` the value `v`, arguments quoted. */
  function DirectiveFor(k: Keyword, v: Value): Directive { Headed(WrittenAs(k, v), Args(Written(k, v))) }

  lemma HeadIsTagged(k: Keyword)
    ensures Head(k) == Tag(Spelling(k), false)
  {
    KeywordOfSpelling(k);
  }

  // ---------- reading one directive back ----------

  lemma DecimalReads(n: nat, max: nat)
    requires n <= max
    ensures Unsigned(Decimal(n), max) == Some(n)
  {
    assert IsDigit(Decimal(n)[0]);
  }

  lemma ThreeDigits(n: nat)
    requires 100 <= n <= 999
    ensures |Decimal(n)| == 3
  {
    assert 10 <= n / 10 <= 99 && 1 <= n / 10 / 10 <= 9;
    assert |Decimal(n / 10 / 10)| == 1;
    assert |Decimal(n / 10)| == 2;
  }

  lemma AmountReads(v: Value, max: nat, args: seq<Word>)
    requires FitsAmount(v, max) && args == Args(ArgumentsOf(v))
    ensures AmountOf(args, max) == Some(v)
  {
    if v.Number? {
      DecimalReads(v.n, max);
      assert IsDigit(Decimal(v.n)[0]);
    }
  }

  lemma PositiveReads(n: nat)
    requires 0 < n <= U32_MAX
    ensures Positive(Decimal(n)) == Some(n)
  {
    DecimalReads(n, U32_MAX);
  }

  lemma SuffixStrips(text: string)
    ensures StripSuffix(text + PER_SECOND) == Some(text)
  {
    var all := text + PER_SECOND;
    assert all[|all| - 2..] == PER_SECOND && all[..|all| - 2] == text;
  }

  lemma RateReads(v: Value, args: seq<Word>)
    requires FitsRate(v) && args == Args(ArgumentsOf(v))
    ensures RateOf(args) == Some(v)
  {
    PositiveReads(v.limit.perSecond);
    PositiveReads(v.limit.burst);
    SuffixStrips(Decimal(v.limit.perSecond));
  }

  lemma ResponseReads(v: Value, args: seq<Word>)
    requires v.Response? && 200 <= v.status <= 599 && (Bodiless(v.status) ==> v.body == "") &&
             args == Args(ArgumentsOf(v))
    ensures ResponseOf(args) == Some(v)
  {
    DecimalReads(v.status, 0xFFFF);
    ThreeDigits(v.status);
  }

  lemma TextsOfArgs(names: seq<string>)
    ensures Texts(Args(names)) == names
  {}

  lemma HeadersRead(names: seq<string>)
    requires "none" !in names
    ensures HeadersOf(Args(if names == [] then ["none"] else names)) == Some(Names(names))
  {
    TextsOfArgs(names);
    if |names| == 1 { assert names[0] in names; }
  }

  lemma ValueOfHeaded(env: Env, k: Keyword, args: seq<Word>)
    ensures ValueOf(env, Headed(k, args)) == ValueFor(env, k, args)
  {
    assert Headed(k, args)[1..] == args;
  }

  lemma NumbersRead(env: Env, k: Keyword, v: Value)
    requires Fits(env, k, v) &&
             (k == RateLimit || k == VerifyLimit || k == MaxInflight || k == MaxBody || k == Timeout || k == Prefix)
    ensures ValueFor(env, k, Args(ArgumentsOf(v))) == Some(v)
  {
    var args := Args(ArgumentsOf(v));
    if k == RateLimit || k == VerifyLimit { RateReads(v, args); }
    else if k == MaxInflight { AmountReads(v, 1_000_000, args); }
    else if k == Prefix { DecimalReads(v.n, 128); }
    else { AmountReads(v, U32_MAX, args); }
  }

  lemma ArgumentsRead(env: Env, k: Keyword, v: Value)
    requires Fits(env, k, v)
    ensures ValueFor(env, WrittenAs(k, v), Args(Written(k, v))) == Some(v)
  {
    if k == Headers {
      HeadersRead(v.names);
    } else if k == Protocols {
      TextsOfArgs(v.names);
    } else if v.Response? {
      ResponseReads(v, Args(ArgumentsOf(v)));
    } else if !(k == ReverseProxy || k == Pay || k == LightningPay || k == Origin) {
      NumbersRead(env, k, v);
    }
  }

  lemma ValueReads(env: Env, k: Keyword, v: Value)
    requires Fits(env, k, v)
    ensures ValueOf(env, DirectiveFor(k, v)) == Some(v)
  {
    ArgumentsRead(env, k, v);
    ValueOfHeaded(env, WrittenAs(k, v), Args(Written(k, v)));
  }

  lemma {:induction false} QuotedLead(ws: seq<Word>)
    requires forall w :: w in ws ==> w.quoted
    ensures Leading(ws) == |ws|
    decreases |ws|
  {
    if ws != [] {
      assert ws[0] in ws;
      QuotedLead(ws[1..]);
    }
  }

  lemma ArgumentCount(env: Env, k: Keyword, v: Value)
    requires Fits(env, k, v) && !OpenEnded(k)
    ensures |ArgumentsOf(v)| + 1 == if v.Response? then 3 else Arity(k)
    ensures v.Response? ==> k == ReverseProxy
  {}

  lemma HeadedIsFormed(k: Keyword, args: seq<Word>)
    requires (forall w :: w in args ==> w.quoted) &&
             (OpenEnded(k) || |args| + 1 == if k == Respond then 3 else Arity(k))
    ensures var d := Headed(k, args); Formed(d) && Starts(d[0])
  {
    var d := Headed(k, args);
    assert d[1..] == args;
    if OpenEnded(k) { QuotedLead(args); } else if k == Respond { assert d[2] == args[1] && args[1] in args; }
  }

  lemma DirectiveIsFormed(env: Env, k: Keyword, v: Value)
    requires Fits(env, k, v)
    ensures var d := DirectiveFor(k, v); Formed(d) && Starts(d[0]) && Slot(d[0].key.value) == k
  {
    if !OpenEnded(k) { ArgumentCount(env, k, v); }
    HeadedIsFormed(WrittenAs(k, v), Args(Written(k, v)));
  }

  // ---------- a whole block ----------

  predicate NoRepeats(order: seq<Keyword>) { forall i, j :: 0 <= i < j < |order| ==> order[i] != order[j] }

  /** `order` names every setting of `m` once. */
  predicate Lists(order: seq<Keyword>, m: Settings) { NoRepeats(order) && forall k :: k in order <==> k in m }

  ghost predicate AllFit(env: Env, m: Settings) { forall k :: k in m ==> Fits(env, k, m[k]) }

  function Printed(m: Settings, order: seq<Keyword>): seq<Directive>
    requires forall k :: k in order ==> k in m
  {
    if order == [] then [] else assert order[0] in order; [DirectiveFor(order[0], m[order[0]])] + Printed(m, order[1..])
  }

  lemma {:induction false} PrintedFrom(m: Settings, order: seq<Keyword>, d: Directive)
    requires (forall k :: k in order ==> k in m) && d in Printed(m, order)
    ensures exists k :: k in order && d == DirectiveFor(k, m[k])
    decreases |order|
  {
    assert order[0] in order;
    if d != DirectiveFor(order[0], m[order[0]]) { PrintedFrom(m, order[1..], d); }
  }

  /** A reader that takes each printed setting for what it is. */
  ghost predicate Understands(read: Reader, m: Settings) {
    forall k, acc: Settings :: k in m && k !in acc ==>
      var t := read(acc, DirectiveFor(k, m[k])); t.Took? && t.settings == acc[k := m[k]]
  }

  lemma ReadingUnderstands(env: Env, m: Settings)
    requires AllFit(env, m)
    ensures Understands(Reading(env), m)
  {
    forall k, acc: Settings | k in m && k !in acc
      ensures var t := Reading(env)(acc, DirectiveFor(k, m[k])); t.Took? && t.settings == acc[k := m[k]]
    {
      ValueReads(env, k, m[k]);
      DirectiveIsFormed(env, k, m[k]);
    }
  }

  lemma {:induction false} PrintedFolds(read: Reader, m: Settings, order: seq<Keyword>, acc: Settings)
    requires Understands(read, m) && NoRepeats(order) && forall k :: k in order ==> k in m && k !in acc
    ensures var r := Fold(read, Printed(m, order), acc);
            && r.Some?
            && (forall k :: k in order ==> k in r.value && r.value[k] == m[k])
            && (forall k :: k in acc ==> k in r.value && r.value[k] == acc[k])
            && (forall k :: k in r.value ==> k in order || k in acc)
    decreases |order|
  {
    if order != [] {
      var k, rest := order[0], order[1..];
      assert k in order;
      assert k !in rest;
      FoldUnfolds(read, DirectiveFor(k, m[k]), Printed(m, rest), acc);
      PrintedFolds(read, m, rest, acc[k := m[k]]);
    }
  }

  lemma PrintedFoldsToSettings(read: Reader, m: Settings, order: seq<Keyword>)
    requires Understands(read, m) && Lists(order, m)
    ensures Fold(read, Printed(m, order), map[]) == Some(m)
  {
    PrintedFolds(read, m, order, map[]);
    SameSettings(Fold(read, Printed(m, order), map[]).value, m, order);
  }

  lemma SameSettings(r: Settings, m: Settings, order: seq<Keyword>)
    requires Lists(order, m) && (forall k :: k in order ==> k in r && r[k] == m[k]) && forall k :: k in r ==> k in order
    ensures r == m
  {}

  lemma PrintedSplits(env: Env, m: Settings, order: seq<Keyword>)
    requires AllFit(env, m) && forall k :: k in order ==> k in m
    ensures Split(Concat(Printed(m, order))) == Printed(m, order)
  {
    var ds := Printed(m, order);
    forall d | d in ds ensures Formed(d) && Starts(d[0]) {
      PrintedFrom(m, order, d);
      var k :| k in order && d == DirectiveFor(k, m[k]);
      DirectiveIsFormed(env, k, m[k]);
    }
    SplitOfConcat(ds);
  }

  /** Settings written as a block, in any order, are the settings read back. */
  lemma PrintedSettingsReadBack(env: Env, m: Settings, order: seq<Keyword>)
    requires AllFit(env, m) && Lists(order, m)
    ensures Fold(Reading(env), Split(Concat(Printed(m, order))), map[]) == Some(m)
    ensures Made(Parse(env, Concat(Printed(m, order)))) == Outcome(env, Some(m))
  {
    var read := Reading(env);
    ReadingUnderstands(env, m);
    PrintedFoldsToSettings(read, m, order);
    PrintedSplits(env, m, order);
    ParseIsFold(env, Concat(Printed(m, order)));
  }

  lemma {:induction false} AcceptedSettingsFit(env: Env, ds: seq<Directive>, m: Settings)
    requires AllFit(env, m) && Fold(Reading(env), ds, m).Some?
    ensures AllFit(env, Fold(Reading(env), ds, m).value)
    decreases |ds|
  {
    if ds != [] {
      assert ds == [ds[0]] + ds[1..];
      FoldUnfolds(Reading(env), ds[0], ds[1..], m);
      ValueFits(env, ds[0]);
      AcceptedSettingsFit(env, ds[1..], Take(env, m, ds[0]).settings);
    }
  }

  /** Every accepted block, however it is quoted and ordered, can be rewritten in
      the printed form, in any order, and still makes the same site. */
  lemma RewritingKeepsTheSite(env: Env, ws: seq<Word>, m: Settings, order: seq<Keyword>)
    requires Parse(env, ws).Ok? && Fold(Reading(env), Split(ws), map[]) == Some(m) && Lists(order, m)
    ensures AllFit(env, m) && Made(Parse(env, Concat(Printed(m, order)))) == Made(Parse(env, ws))
  {
    AcceptedSettingsFit(env, Split(ws), map[]);
    PrintedSettingsReadBack(env, m, order);
    ParseIsFold(env, ws);
  }

  // ---------- a whole site ----------

  function Setting(n: Option<nat>): Value { if n.Some? then Number(n.value) else Off }

  predicate ValidControls(c: Controls) {
    && (c.maxBody.Some? ==> 0 < c.maxBody.value <= U32_MAX) && (c.timeout.Some? ==> 0 < c.timeout.value <= U32_MAX)
    && c.prefix <= 128 && FitsRate(Rate(c.paymentLimit))
  }

  predicate ValidPolicy(env: Env, p: Policy) {
    && p.receiver in env.receivers && env.policy(p) && "none" !in p.headers
    && (p.protocols.Some? ==> env.protocols(p.protocols.value))
  }

  /** The sites that a configuration can describe. */
  predicate ValidSite(env: Env, s: Site) {
    && FitsHandler(env, s.handler) && ValidControls(s.controls)
    && (s.rateLimit.Some? ==> FitsRate(Rate(s.rateLimit.value)))
    && (s.payment.Some? ==>
          s.payment.value.Payment? && env.payment(s.payment.value.price, s.payment.value.unit, s.payment.value.mint))
    && (s.lightning.Some? ==> ValidPolicy(env, s.lightning.value))
    && (s.maxInflight.Some? ==> s.maxInflight.value <= 1_000_000)
  }

  function PolicySetting(p: Policy, k: Keyword): Option<Value> {
    match k
    case LightningPay => Some(Lightning(p.price, p.unit, p.receiver))
    case Headers => Some(Names(p.headers))
    case Origin => Some(Address(p.origin))
    case Protocols => if p.protocols.Some? then Some(Names(p.protocols.value)) else None
    case _ => None
  }

  /** What a site says about one setting, defaults written out. */
  function SettingOf(s: Site, k: Keyword): Option<Value> {
    match k
    case ReverseProxy => Some(s.handler)
    case Respond => None
    case RateLimit => if s.rateLimit.Some? then Some(Rate(s.rateLimit.value)) else None
    case VerifyLimit => Some(Rate(s.controls.paymentLimit))
    case Pay => s.payment
    case MaxInflight =>
      if s.maxInflight.None? then None else if s.maxInflight.value == 0 then Some(Off)
      else Some(Number(s.maxInflight.value))
    case MaxBody => Some(Setting(s.controls.maxBody))
    case Timeout => Some(Setting(s.controls.timeout))
    case Prefix => Some(Number(s.controls.prefix))
    case _ => if s.lightning.Some? then PolicySetting(s.lightning.value, k) else None
  }

  function SettingsOf(s: Site): Settings { map k: Keyword | SettingOf(s, k).Some? :: SettingOf(s, k).value }

  lemma SettingFits(env: Env, s: Site, k: Keyword)
    requires ValidSite(env, s) && SettingOf(s, k).Some?
    ensures Fits(env, k, SettingOf(s, k).value)
  {}

  lemma SettingsFit(env: Env, s: Site)
    requires ValidSite(env, s)
    ensures AllFit(env, SettingsOf(s))
  {
    forall k | k in SettingsOf(s) ensures Fits(env, k, SettingsOf(s)[k]) { SettingFits(env, s, k); }
  }

  /** `m` says what the site says. */
  ghost predicate Describes(m: Settings, s: Site) {
    forall k: Keyword :: if k in m then SettingOf(s, k) == Some(m[k]) else SettingOf(s, k) == None
  }

  lemma ControlsDescribed(m: Settings, s: Site)
    requires Describes(m, s)
    ensures ControlsOf(m) == s.controls
  {
    assert MaxBody in m && Timeout in m && Prefix in m && VerifyLimit in m;
  }

  lemma PolicyDescribed(env: Env, m: Settings, s: Site)
    requires Describes(m, s) && s.lightning.Some?
    ensures LightningPay in m && Headers in m && m[LightningPay].Lightning? && PolicyOf(env, m) == s.lightning.value
  {
    var p := s.lightning.value;
    assert SettingOf(s, LightningPay) == PolicySetting(p, LightningPay) &&
           SettingOf(s, Headers) == PolicySetting(p, Headers);
    assert SettingOf(s, Origin) == PolicySetting(p, Origin) && SettingOf(s, Protocols) == PolicySetting(p, Protocols);
    assert LightningPay in m && Headers in m && Origin in m;
    assert NamesIn(m, Protocols) == p.protocols;
  }

  lemma PolicyAbsent(m: Settings, s: Site)
    requires Describes(m, s) && s.lightning.None?
    ensures LightningPay !in m && Headers !in m && Origin !in m && Protocols !in m
  {
    assert SettingOf(s, LightningPay).None? && SettingOf(s, Headers).None? && SettingOf(s, Origin).None? &&
           SettingOf(s, Protocols).None?;
  }

  lemma LimitsDescribed(m: Settings, s: Site)
    requires Describes(m, s)
    ensures ReverseProxy in m && m[ReverseProxy] == s.handler
    ensures s.rateLimit == if RateLimit in m && m[RateLimit].Rate? then Some(m[RateLimit].limit) else None
    ensures s.payment == if Pay in m then Some(m[Pay]) else None
    ensures s.maxInflight == if MaxInflight !in m then None else if m[MaxInflight].Number? then Some(m[MaxInflight].n)
            else Some(0)
  {
    assert ReverseProxy in m;
  }

  lemma SettingsDescribe(env: Env, m: Settings, s: Site)
    requires ValidSite(env, s) && Describes(m, s)
    ensures Outcome(env, Some(m)) == Some(s)
  {
    ControlsDescribed(m, s);
    LimitsDescribed(m, s);
    if s.lightning.Some? {
      PolicyDescribed(env, m, s);
      assert Missing(env, m).None?;
    } else {
      PolicyAbsent(m, s);
    }
  }

  /** Parsing a printed site gives the site: every field, in every order of its
      directives. */
  lemma SiteRoundTrip(env: Env, s: Site, order: seq<Keyword>)
    requires ValidSite(env, s) && Lists(order, SettingsOf(s))
    ensures Made(Parse(env, Concat(Printed(SettingsOf(s), order)))) == Some(s)
  {
    SettingsFit(env, s);
    SettingsDescribe(env, SettingsOf(s), s);
    PrintedSettingsReadBack(env, SettingsOf(s), order);
  }

  lemma ControlsValid(env: Env, m: Settings)
    requires AllFit(env, m)
    ensures ValidControls(ControlsOf(m))
  {
    assert (MaxBody in m ==> Fits(env, MaxBody, m[MaxBody])) && (Timeout in m ==> Fits(env, Timeout, m[Timeout]));
    assert (Prefix in m ==> Fits(env, Prefix, m[Prefix])) &&
           (VerifyLimit in m ==> Fits(env, VerifyLimit, m[VerifyLimit]));
  }

  lemma PolicyValid(env: Env, m: Settings)
    requires AllFit(env, m) && Missing(env, m).None? && LightningPay in m
    ensures m[LightningPay].Lightning? && ValidPolicy(env, PolicyOf(env, m))
  {
    assert Fits(env, LightningPay, m[LightningPay]) && Fits(env, Headers, m[Headers]);
    assert Protocols in m ==> Fits(env, Protocols, m[Protocols]);
  }

  lemma LimitsValid(env: Env, m: Settings)
    requires AllFit(env, m) && ReverseProxy in m
    ensures FitsHandler(env, m[ReverseProxy])
    ensures RateLimit in m ==> FitsRate(m[RateLimit])
    ensures Pay in m ==> m[Pay].Payment? && env.payment(m[Pay].price, m[Pay].unit, m[Pay].mint)
    ensures MaxInflight in m ==> FitsAmount(m[MaxInflight], 1_000_000)
  {
    assert Fits(env, ReverseProxy, m[ReverseProxy]);
  }

  /** Conversely, an accepted block makes a valid site. */
  lemma AcceptedSitesAreValid(env: Env, ws: seq<Word>)
    requires Parse(env, ws).Ok?
    ensures ValidSite(env, Parse(env, ws).site)
  {
    ParseIsFold(env, ws);
    AcceptedSettingsFit(env, Split(ws), map[]);
    var m := Fold(Reading(env), Split(ws), map[]).value;
    SiteIsValid(env, m);
  }

  lemma SiteIsValid(env: Env, m: Settings)
    requires AllFit(env, m) && Missing(env, m).None?
    ensures ValidSite(env, SiteOf(env, m))
  {
    ControlsValid(env, m);
    LimitsValid(env, m);
    if LightningPay in m { PolicyValid(env, m); }
  }

  /** A block with a handler alone makes a free site with the documented
      controls and the default cap. */
  lemma HandlerAloneHasDefaults(env: Env, handler: Value)
    requires FitsHandler(env, handler)
    ensures Made(Parse(env, Concat([DirectiveFor(ReverseProxy, handler)]))) ==
            Some(Site(handler, None, None, None, None, Controls(Some(10 * 1024 * 1024), Some(60), 64, Limit(2, 8))))
  {
    var m: Settings := map[ReverseProxy := handler];
    PrintedAlone(m);
    PrintedSettingsReadBack(env, m, [ReverseProxy]);
    AloneOutcome(env, handler);
  }

  lemma PrintedAlone(m: Settings)
    requires ReverseProxy in m
    ensures Printed(m, [ReverseProxy]) == [DirectiveFor(ReverseProxy, m[ReverseProxy])]
  {
    assert [ReverseProxy][1..] == [];
  }

  lemma AloneOutcome(env: Env, handler: Value)
    ensures Outcome(env, Some(map[ReverseProxy := handler])) ==
            Some(Site(handler, None, None, None, None, Controls(Some(10 * 1024 * 1024), Some(60), 64, Limit(2, 8))))
  {}

  // ---------- a quoted keyword ----------

  /** `Protocols::parse`: known names, at least one, none twice. */
  predicate ProtocolList(names: seq<string>) {
    names == ["x402"] || names == ["l402"] || names == ["x402", "l402"] || names == ["l402", "x402"]
  }

  /** A character of a lower-case HTTP field name. */
  predicate NameChar(c: char) { 'a' <= c <= 'z' || '0' <= c <= '9' || c in "!#$%&'*+-.^_`|~" }

  predicate HeaderName(name: string) {
    && name != "" && (forall i :: 0 <= i < |name| ==> NameChar(name[i]))
    && name !in ["payment-signature", "x-cashu", "connection", "transfer-encoding", "trailer"]
  }

  predicate SortedNames(names: seq<string>) {
    forall i :: 0 <= i < |names| - 1 ==> Identity.Before(names[i], names[i + 1]) && names[i] != names[i + 1]
  }

  /** What `Policy::new` demands of the terms and of the bound headers. */
  predicate Bindable(p: Policy) {
    && p.price != "" && AllDigits(p.price) && ParseNat(p.price) > 0 && p.unit == "sat"
    && (p.protocols.Some? && "l402" in p.protocols.value ==> "authorization" !in p.headers)
    && SortedNames(p.headers) && forall name :: name in p.headers ==> HeaderName(name)
  }

  /** A file with one receiver, under the rules of the code for header names,
      prices and protocols. */
  function Strict(): Env {
    Env(_ => true, (_, _, _) => true, names => ProtocolList(names), p => Bindable(p), {"r"}, "https://a.b")
  }

  lemma StrictKnowsItsProtocols()
    ensures KnownProtocols(Strict())
  {
    assert KeywordOf("x402").None? && KeywordOf("l402").None? by {
      assert forall k: Keyword :: |Spelling(k)| != 4;
    }
  }

  /** Under these rules a keyword swallowed by a protocol list or a response is
      always refused. */
  lemma OnlyHeadersSwallowSilently(a: Directive, b: Directive, rest: seq<Directive>)
    requires Formed(a) && Open(a) && a[0].key != Some(Headers)
    requires b[0].quoted && b[0].key.Some? && b[0].key == KeywordOf(b[0].text)
    ensures Made(Parse(Strict(), Concat([a, b] + rest))) == None
  {
    StrictKnowsItsProtocols();
    OtherSwallowsAreRefused(Strict(), a, b, rest);
  }

  function QuotedInflight(): Directive { [Word(Spelling(MaxInflight), true, Some(MaxInflight)), Arg("off")] }

  function OneHeader(): Directive { [Head(Headers), Arg("accept")] }

  function Rest(): seq<Directive> {
    [[Head(LightningPay), Arg("1"), Arg("sat"), Arg("r")], [Head(ReverseProxy), Arg("b:80")]]
  }

  function SettingsWith(m: Settings, headers: seq<string>): Settings {
    m[Headers := Names(headers)][LightningPay := Lightning("1", "sat", "r")][ReverseProxy := Proxy("b:80")]
  }

  lemma RestFolds(m: Settings)
    requires LightningPay !in m && ReverseProxy !in m
    ensures Fold(Reading(Strict()), Rest(), m) ==
              Some(m[LightningPay := Lightning("1", "sat", "r")][ReverseProxy := Proxy("b:80")])
  {
    var pay: Directive, proxy: Directive := Rest()[0], Rest()[1];
    assert ValueOf(Strict(), pay) == Some(Lightning("1", "sat", "r")) &&
           ValueOf(Strict(), proxy) == Some(Proxy("b:80"));
    assert Rest() == [pay, proxy] + [];
    FoldTwo(Reading(Strict()), pay, proxy, [], m);
  }

  lemma HeadersNamed(args: seq<Word>, names: seq<string>)
    requires Texts(args) == names && names != [] && forall i :: 0 <= i < |names| ==> |names[i]| != 4
    ensures HeadersOf(args) == Some(Names(names))
  {}

  lemma HeaderThenRest(m: Settings)
    requires Headers !in m && LightningPay !in m && ReverseProxy !in m
    ensures Fold(Reading(Strict()), [OneHeader()] + Rest(), m) == Some(SettingsWith(m, ["accept"]))
  {
    HeadersNamed(OneHeader()[1..], ["accept"]);
    FoldUnfolds(Reading(Strict()), OneHeader(), Rest(), m);
    RestFolds(m[Headers := Names(["accept"])]);
  }

  lemma QuotedFirst()
    ensures Fold(Reading(Strict()), [QuotedInflight(), OneHeader()] + Rest(), map[]) ==
              Some(SettingsWith(map[MaxInflight := Off], ["accept"]))
  {
    var d, rest := QuotedInflight(), [OneHeader()] + Rest();
    assert [QuotedInflight(), OneHeader()] + Rest() == [d] + rest;
    assert ValueOf(Strict(), d) == Some(Off);
    FoldUnfolds(Reading(Strict()), d, rest, map[]);
    HeaderThenRest(map[MaxInflight := Off]);
  }

  lemma SwallowedNames()
    ensures ValueOf(Strict(), OneHeader() + QuotedInflight()) == Some(Names(["accept", Spelling(MaxInflight), "off"]))
  {
    var d: Directive := OneHeader() + QuotedInflight();
    HeadersNamed(d[1..], ["accept", Spelling(MaxInflight), "off"]);
  }

  lemma QuotedSecond()
    ensures Fold(Reading(Strict()), [OneHeader() + QuotedInflight()] + Rest(), map[]) ==
              Some(SettingsWith(map[], ["accept", Spelling(MaxInflight), "off"]))
  {
    var d: Directive := OneHeader() + QuotedInflight();
    SwallowedNames();
    FoldUnfolds(Reading(Strict()), d, Rest(), map[]);
    RestFolds(map[Headers := Names(["accept", Spelling(MaxInflight), "off"])]);
  }

  lemma PartsWhole()
    ensures Formed(QuotedInflight()) && Formed(OneHeader()) && Formed(OneHeader() + QuotedInflight())
  {
    var a, b := QuotedInflight(), OneHeader();
    assert b[1..] == [Arg("accept")] && (b + a)[1..] == [Arg("accept")] + a;
    QuotedLead(b[1..]);
    QuotedLead((b + a)[1..]);
  }

  lemma ConcatMerges(a: Directive, b: Directive, ds: seq<Directive>)
    ensures Concat([a, b] + ds) == Concat([a + b] + ds)
  {
    assert ([a, b] + ds)[1..] == [b] + ds && ([b] + ds)[1..] == ds && ([a + b] + ds)[1..] == ds;
  }

  lemma QuotedFirstSplits()
    ensures Split(Concat([QuotedInflight(), OneHeader()] + Rest())) == [QuotedInflight(), OneHeader()] + Rest()
  {
    PartsWhole();
    SplitOfConcat([QuotedInflight(), OneHeader()] + Rest());
  }

  lemma QuotedSecondSplits()
    ensures Split(Concat([OneHeader(), QuotedInflight()] + Rest())) == [OneHeader() + QuotedInflight()] + Rest()
  {
    PartsWhole();
    SplitOfConcat([OneHeader() + QuotedInflight()] + Rest());
    ConcatMerges(OneHeader(), QuotedInflight(), Rest());
  }

  lemma DigitOne()
    ensures AllDigits("1") && ParseNat("1") == 1
  {
    assert "1"[..0] == "";
  }

  lemma NamesAreHeaders()
    ensures HeaderName("accept") && HeaderName(Spelling(MaxInflight)) && HeaderName("off")
  {}

  lemma NamesAreSorted()
    ensures SortedNames(["accept"]) && SortedNames(["accept", Spelling(MaxInflight), "off"])
  {
    assert "accept"[0] < Spelling(MaxInflight)[0] < "off"[0];
  }

  /** Both lists of names pass the rules for bound headers. */
  lemma NamesAreBindable(headers: seq<string>)
    requires headers == ["accept"] || headers == ["accept", Spelling(MaxInflight), "off"]
    ensures Bindable(Policy("1", "sat", "r", "https://a.b", headers, None))
  {
    DigitOne();
    NamesAreHeaders();
    NamesAreSorted();
  }

  lemma SiteWith(m: Settings, headers: seq<string>)
    requires m == map[] || m == map[MaxInflight := Off]
    requires Bindable(Policy("1", "sat", "r", "https://a.b", headers, None))
    ensures var site := Outcome(Strict(), Some(SettingsWith(m, headers)));
            site.Some? && site.value.maxInflight == (if MaxInflight in m then Some(0) else None)
            && site.value.lightning == Some(Policy("1", "sat", "r", "https://a.b", headers, None))
  {
    var all := SettingsWith(m, headers);
    assert PolicyOf(Strict(), all) == Policy("1", "sat", "r", "https://a.b", headers, None);
  }

  /** Two accepted arrangements of one list of directives, `max_inflight off` with
      its keyword quoted, that make different sites: one without a limit, the other
      with the default limit and two header names too many. */
  lemma QuotedKeywordChangesTheSite()
    ensures var first := Made(Parse(Strict(), Concat([QuotedInflight(), OneHeader()] + Rest())));
            first.Some? && first.value.maxInflight == Some(0)
            && first.value.lightning == Some(Policy("1", "sat", "r", "https://a.b", ["accept"], None))
    ensures var second := Made(Parse(Strict(), Concat([OneHeader(), QuotedInflight()] + Rest())));
            second.Some? && second.value.maxInflight == None
            && second.value.lightning ==
                 Some(Policy("1", "sat", "r", "https://a.b", ["accept", Spelling(MaxInflight), "off"], None))
  {
    QuotedFirstSplits();
    QuotedSecondSplits();
    ParseIsFold(Strict(), Concat([QuotedInflight(), OneHeader()] + Rest()));
    ParseIsFold(Strict(), Concat([OneHeader(), QuotedInflight()] + Rest()));
    QuotedFirst();
    QuotedSecond();
    NamesAreBindable(["accept"]);
    NamesAreBindable(["accept", Spelling(MaxInflight), "off"]);
    SiteWith(map[MaxInflight := Off], ["accept"]);
    SiteWith(map[], ["accept", Spelling(MaxInflight), "off"]);
  }

  // ---------- from text ----------

  predicate AllText(ts: seq<Tokenizer.Token>) { forall t :: t in ts ==> t.kind.Text? }

  /** The words of a block body. */
  function WordsOf(ts: seq<Tokenizer.Token>): (ws: seq<Word>)
    requires AllText(ts)
    ensures |ws| == |ts| && forall i :: 0 <= i < |ws| ==> ws[i] == Tag(ts[i].kind.text, ts[i].quoted)
  {
    if ts == [] then [] else assert ts[0] in ts; [Tag(ts[0].kind.text, ts[0].quoted)] + WordsOf(ts[1..])
  }

  /** Whatever layout, comments and line breaks are put between the words of the
      printed settings, tokenizing and parsing the text gives the site back. */
  lemma PrintedTextMakesTheSite(env: Env, m: Settings, order: seq<Keyword>, items: seq<Tokenizer.Item>)
    requires AllFit(env, m) && Lists(order, m) && Tokenizer.WellLaidOut(items)
    requires AllText(Tokenizer.TokensOf(items, 1)) && WordsOf(Tokenizer.TokensOf(items, 1)) == Concat(Printed(m, order))
    ensures var read := Tokenizer.Lex(Tokenizer.Print(items), 0, 1);
            read.Ok? && AllText(read.tokens) && Made(Parse(env, WordsOf(read.tokens))) == Outcome(env, Some(m))
  {
    Tokenizer.PrintedFormTokenizes(items, 1);
    PrintedSettingsReadBack(env, m, order);
  }

  // ---------- to text and back ----------

  function ItemFor(w: Word): Tokenizer.Item { if w.quoted then Tokenizer.Quote(w.text) else Tokenizer.Bare(w.text) }

  /** The words of a block on one line. */
  function Layout(ws: seq<Word>): seq<Tokenizer.Item> {
    if ws == [] then [] else [ItemFor(ws[0]), Tokenizer.Blank(' ')] + Layout(ws[1..])
  }

  /** Words that can be written: tagged, and quoted unless they are bare text. */
  predicate Writable(w: Word) { w.key == KeywordOf(w.text) && (w.quoted || Tokenizer.BareText(w.text)) }

  predicate AllWritable(ws: seq<Word>) { forall i :: 0 <= i < |ws| ==> Writable(ws[i]) }

  lemma {:induction false} LayoutIsWellLaidOut(ws: seq<Word>)
    requires AllWritable(ws)
    ensures Tokenizer.WellLaidOut(Layout(ws))
    decreases |ws|
  {
    if ws != [] {
      LayoutIsWellLaidOut(ws[1..]);
      var two := [ItemFor(ws[0]), Tokenizer.Blank(' ')];
      assert Writable(ws[0]) && Tokenizer.ValidItem(two[0]) && Tokenizer.ValidItem(two[1]);
      Tokenizer.WellLaidOutJoin(two, Layout(ws[1..]));
    }
  }

  lemma LayoutUnfolds(w: Word, rest: seq<Tokenizer.Item>, line: nat)
    ensures Tokenizer.TokensOf([ItemFor(w), Tokenizer.Blank(' ')] + rest, line) ==
            [Tokenizer.Token(line, Tokenizer.Text(w.text), w.quoted)] + Tokenizer.TokensOf(rest, line)
  {
    var all := [ItemFor(w), Tokenizer.Blank(' ')] + rest;
    assert all[1..] == [Tokenizer.Blank(' ')] + rest;
    assert ([Tokenizer.Blank(' ')] + rest)[1..] == rest;
  }

  lemma WordsCons(t: Tokenizer.Token, ts: seq<Tokenizer.Token>)
    requires t.kind.Text? && AllText(ts)
    ensures AllText([t] + ts) && WordsOf([t] + ts) == [Tag(t.kind.text, t.quoted)] + WordsOf(ts)
  {
    assert ([t] + ts)[1..] == ts;
  }

  lemma {:induction false} LayoutHasWords(ws: seq<Word>, line: nat)
    requires AllWritable(ws)
    ensures AllText(Tokenizer.TokensOf(Layout(ws), line)) && WordsOf(Tokenizer.TokensOf(Layout(ws), line)) == ws
    decreases |ws|
  {
    if ws != [] {
      var w := ws[0];
      assert Writable(w);
      LayoutHasWords(ws[1..], line);
      LayoutUnfolds(w, Layout(ws[1..]), line);
      WordsCons(Tokenizer.Token(line, Tokenizer.Text(w.text), w.quoted), Tokenizer.TokensOf(Layout(ws[1..]), line));
      assert [w] + ws[1..] == ws;
    }
  }

  predicate Lower(c: char) { 'a' <= c <= 'z' || c == '_' || c == '6' }

  predicate AllLower(s: string) { forall i :: 0 <= i < |s| ==> Lower(s[i]) }

  lemma LightningIsLower(k: Keyword)
    requires k == LightningPay || k == Headers || k == Protocols || k == Origin || k == VerifyLimit
    ensures AllLower(Spelling(k))
  {}

  lemma OthersAreLower(k: Keyword)
    requires !(k == LightningPay || k == Headers || k == Protocols || k == Origin || k == VerifyLimit)
    ensures AllLower(Spelling(k))
  {}

  lemma LowerIsBare(s: string)
    requires s != "" && AllLower(s)
    ensures Tokenizer.BareText(s)
  {
    forall i | 0 <= i < |s| ensures !Tokenizer.Delimiter(s[i]) && s[i] != QUOTE { assert Lower(s[i]); }
  }

  lemma SpellingsAreBare(k: Keyword)
    ensures Tokenizer.BareText(Spelling(k))
  {
    if k == LightningPay || k == Headers || k == Protocols || k == Origin || k == VerifyLimit {
      LightningIsLower(k);
    } else {
      OthersAreLower(k);
    }
    LowerIsBare(Spelling(k));
  }

  lemma DirectiveIsWritable(k: Keyword, v: Value)
    ensures AllWritable(DirectiveFor(k, v))
  {
    HeadIsTagged(WrittenAs(k, v));
    SpellingsAreBare(WrittenAs(k, v));
  }

  lemma {:induction false} PrintedIsWritable(m: Settings, order: seq<Keyword>)
    requires forall k :: k in order ==> k in m
    ensures AllWritable(Concat(Printed(m, order)))
    decreases |order|
  {
    if order != [] {
      assert order[0] in order;
      var d := DirectiveFor(order[0], m[order[0]]);
      DirectiveIsWritable(order[0], m[order[0]]);
      PrintedIsWritable(m, order[1..]);
      assert ([d] + Printed(m, order[1..]))[1..] == Printed(m, order[1..]);
    }
  }

  /** The text of a site's block. */
  function SiteAsText(s: Site, order: seq<Keyword>): string
    requires forall k :: k in order ==> k in SettingsOf(s)
  {
    Tokenizer.Print(Layout(Concat(Printed(SettingsOf(s), order))))
  }

  /** A valid site, written as text in any order of its directives, tokenized and
      parsed, is the site again. */
  lemma TextRoundTrip(env: Env, s: Site, order: seq<Keyword>)
    requires ValidSite(env, s) && Lists(order, SettingsOf(s))
    ensures var read := Tokenizer.Lex(SiteAsText(s, order), 0, 1);
            read.Ok? && AllText(read.tokens) && Made(Parse(env, WordsOf(read.tokens))) == Some(s)
  {
    var ws := Concat(Printed(SettingsOf(s), order));
    PrintedIsWritable(SettingsOf(s), order);
    LayoutIsWellLaidOut(ws);
    LayoutHasWords(ws, 1);
    Tokenizer.PrintedFormTokenizes(Layout(ws), 1);
    SiteRoundTrip(env, s, order);
  }
}
