/** The decisions of `request_filter`, over the limiters, permits, settlement
    journal and token ledgers that they use: what each dispatched request has
    consumed. */
module Admission {
  import opened Basics
  import M = L402
  import S = Settlement
  import C = CashuLedger
  import R = RateLimit
  import P = Capacity

  // ---------- sites ----------

  datatype Rate = Rate(limit: R.Limit, prefix: nat)
  datatype Cap = Cap(max: nat, prefix: nat)
  datatype Price = Price(mint: string, sats: nat)

  datatype Conf = Conf(lightning: bool, x402: bool, l402: bool, cashu: Option<Price>, free: Option<Rate>, verify: Rate,
                       cap: Option<Cap>)

  /** Which limiter or pool a site uses: those of the reload that created them. */
  datatype Handle = Handle(generation: nat, domain: string)
  datatype Site = Site(domain: string, conf: Conf, free: Handle, verify: Handle, cap: Handle)

  predicate Paid(s: Site) { s.conf.lightning || s.conf.cashu.Some? }

  function NewSite(generation: nat, domain: string, conf: Conf): Site {
    var h := Handle(generation, domain);
    Site(domain, conf, h, h, h)
  }

  /** What a reloaded site keeps of the one it replaces. */
  function Carried(prior: Site, next: Site): Site {
    next.(verify := if next.conf.verify == prior.conf.verify then prior.verify else next.verify,
          cap := if next.conf.cap.Some? && next.conf.cap == prior.conf.cap then prior.cap else next.cap,
          free := if next.conf.free.Some? && next.conf.free == prior.conf.free then prior.free else next.free)
  }

  function Reloaded(sites: map<string, Site>, generation: nat, domain: string, conf: Conf): Site {
    var next := NewSite(generation, domain, conf);
    if domain in sites then Carried(sites[domain], next) else next
  }

  function ReloadAll(sites: map<string, Site>, generation: nat, confs: map<string, Conf>): map<string, Site> {
    map d | d in confs :: Reloaded(sites, generation, d, confs[d])
  }

  predicate OlderThan(s: Site, generation: nat) {
    s.free.generation < generation && s.verify.generation < generation && s.cap.generation < generation
  }

  /** A reload keeps buckets and permits exactly where their limits are unchanged. */
  lemma KeptExactlyWhenUnchanged(sites: map<string, Site>, generation: nat, d: string, conf: Conf)
    requires d in sites && OlderThan(sites[d], generation)
    ensures var before, next := sites[d], Reloaded(sites, generation, d, conf);
            && (next.free == before.free <==> conf.free.Some? && conf.free == before.conf.free)
            && (next.verify == before.verify <==> conf.verify == before.conf.verify)
            && (next.cap == before.cap <==> conf.cap.Some? && conf.cap == before.conf.cap)
            && OlderThan(next, generation + 1)
  {}

  /** `replace_config`: one pass over the new sites. */
  method ReplaceConfig(sites: map<string, Site>, generation: nat, confs: map<string, Conf>)
    returns (next: map<string, Site>)
    ensures next == ReloadAll(sites, generation, confs)
  {
    next := map[];
    var todo := confs.Keys;
    while todo != {}
      invariant todo <= confs.Keys
      invariant next.Keys == confs.Keys - todo
      invariant forall d :: d in next ==> next[d] == Reloaded(sites, generation, d, confs[d])
      decreases |todo|
    {
      var d :| d in todo;
      var site := NewSite(generation, d, confs[d]);
      if d in sites {
        var prior := sites[d];
        if site.conf.verify == prior.conf.verify { site := site.(verify := prior.verify); }
        if site.conf.cap.Some? && site.conf.cap == prior.conf.cap { site := site.(cap := prior.cap); }
        if site.conf.free.Some? && site.conf.free == prior.conf.free { site := site.(free := prior.free); }
      }
      next := next[d := site];
      todo := todo - {d};
    }
  }

  // ---------- the headers of a request ----------

  /** Header values as the gateway can decode them; `None` is not text, too long,
      or not an L402 credential. */
  datatype Request = Request(
    client: Option<R.Address>, secure: bool, tooLarge: bool, bindable: bool,
    cashu: seq<Option<C.Token>>, signature: seq<Option<S.Payment>>, authorization: seq<Option<S.Credential>>)

  datatype Proof = X402(payment: S.Payment) | L402(credential: S.Credential)

  datatype Choice =
    | Reject(status: nat) | Settle(proof: Proof) | Collect(token: C.Token, price: Price) | Allowance | Open

  predicate UsesL402(c: Conf) { c.lightning && c.l402 }

  predicate Attempt(c: Conf, q: Request) {
    || (c.cashu.Some? && q.cashu != [])
    || (c.lightning && (q.signature != [] || (c.l402 && q.authorization != [])))
  }

  /** Which of the two backing stores the gateway has. */
  datatype Stores = Stores(lightning: bool, payments: bool)

  function ChooseLightning(q: Request, st: Stores, proof: Proof): Choice {
    if !q.secure then Reject(400) else if !st.lightning then Reject(503) else if !q.bindable then Reject(400)
    else Settle(proof)
  }

  function ChooseCashu(c: Conf, q: Request, st: Stores): Choice
    requires c.cashu.Some? && q.cashu != []
  {
    if |q.cashu| != 1 || !q.secure || q.cashu[0].None? then Reject(400)
    else if !st.payments then Reject(503)
    else Collect(q.cashu[0].value, c.cashu.value)
  }

  function Choose(c: Conf, q: Request, st: Stores): Choice {
    if UsesL402(c) && q.authorization != [] && (|q.authorization| != 1 || q.authorization[0].None?) then Reject(401)
    else if UsesL402(c) && q.authorization != [] && (q.signature != [] || q.cashu != []) then Reject(400)
    else if c.lightning && !c.x402 && q.signature != [] then Reject(400)
    else if c.lightning && (|q.signature| > 1 || (q.signature != [] && q.cashu != [])) then Reject(400)
    else if c.lightning && q.signature != [] && q.signature[0].None? then Reject(400)
    else if UsesL402(c) && q.authorization != [] then ChooseLightning(q, st, L402(q.authorization[0].value))
    else if c.lightning && q.signature != [] then ChooseLightning(q, st, X402(q.signature[0].value))
    else if c.cashu.Some? && q.cashu != [] then ChooseCashu(c, q, st)
    else if c.free.Some? || c.cashu.Some? || c.lightning then Allowance
    else Open
  }

  /** Every proof that is examined has first been counted as an attempt, only an
      enabled protocol is used, only over a secure connection, and a request that
      carries two kinds of proof is never settled by either. */
  lemma ProofsAreMetered(c: Conf, q: Request, st: Stores)
    ensures var r := Choose(c, q, st);
            && (r.Settle? || r.Collect? ==> Attempt(c, q) && q.secure)
            && (r.Settle? && r.proof.X402? ==>
                  c.lightning && c.x402 && q.cashu == [] && (UsesL402(c) ==> q.authorization == []))
            && (r.Settle? && r.proof.L402? ==> UsesL402(c) && q.cashu == [] && q.signature == [])
            && (r.Collect? ==>
                  c.cashu == Some(r.price) && (c.lightning ==> q.signature == []) &&
                  (UsesL402(c) ==> q.authorization == []))
            && (r.Allowance? ==> !Attempt(c, q))
            && (r.Open? ==> !c.lightning && c.cashu.None? && c.free.None?)
  {}

  /** The request carries this proof, of an enabled protocol, and nothing beside it. */
  predicate ProofAlone(c: Conf, q: Request, proof: Proof) {
    match proof
    case X402(p) =>
      c.lightning && c.x402 && q.signature == [Some(p)] && q.cashu == [] && (c.l402 ==> q.authorization == [])
    case L402(k) => c.lightning && c.l402 && q.authorization == [Some(k)] && q.signature == [] && q.cashu == []
  }

  /** Likewise a token, at the site's own mint and price. */
  predicate TokenAlone(c: Conf, q: Request, token: C.Token, price: Price) {
    && c.cashu == Some(price) && q.cashu == [Some(token)]
    && (c.lightning ==> q.signature == [] && (c.l402 ==> q.authorization == []))
  }

  /** When each choice is made. A proof is used exactly if it is the only one, the
      protocol is enabled, the connection is secure and its store is there; 401 is
      for a credential that cannot be read, 503 for a missing store, 400 for every
      other proof; the allowance is asked exactly where no proof is offered. */
  lemma ChoiceIsExact(c: Conf, q: Request, st: Stores)
    ensures var r := Choose(c, q, st);
            && (forall p :: r == Settle(p) <==> ProofAlone(c, q, p) && q.secure && st.lightning && q.bindable)
            && (forall k, p :: r == Collect(k, p) <==> TokenAlone(c, q, k, p) && q.secure && st.payments)
            && (r == Reject(401) <==> c.lightning && c.l402 && q.authorization != [] &&
                                      (|q.authorization| != 1 || q.authorization[0].None?))
            && (r == Reject(503) <==>
                  && q.secure
                  && ((!st.lightning && exists p :: ProofAlone(c, q, p)) ||
                      (!st.payments && exists k, p :: TokenAlone(c, q, k, p))))
            && (r.Reject? ==> Attempt(c, q) && (r.status == 400 || r.status == 401 || r.status == 503))
            && (r.Allowance? <==> !Attempt(c, q) && (c.lightning || c.cashu.Some? || c.free.Some?))
            && (r.Open? <==> !c.lightning && c.cashu.None? && c.free.None?)
  {
    var r := Choose(c, q, st);
    if r == Reject(503) {
      if UsesL402(c) && q.authorization != [] {
        assert q.authorization == [Some(q.authorization[0].value)];
        assert ProofAlone(c, q, L402(q.authorization[0].value));
      } else if c.lightning && q.signature != [] {
        assert q.signature == [Some(q.signature[0].value)];
        assert ProofAlone(c, q, X402(q.signature[0].value));
      } else {
        assert q.cashu == [Some(q.cashu[0].value)];
        assert TokenAlone(c, q, q.cashu[0].value, c.cashu.value);
      }
    }
    forall p ensures r == Settle(p) <==> ProofAlone(c, q, p) && q.secure && st.lightning && q.bindable {
      if r == Settle(p) { assert p.X402? ==> q.signature == [Some(p.payment)]; }
    }
  }

  // ---------- the gateway as steps ----------

  /** What a request can use up: a token of a free bucket, the SPENT row of a
      payment hash, or the claim of a Cashu token. */
  datatype Resource =
    | FreeToken(limiter: Handle, index: nat) | SpentKey(key: S.Key) | LedgerClaim(mint: string, id: C.Id)

  /** `Declined`: the proof offered was refused or could not be checked.
      `Cancelled`: the client left, or a timeout or crash ended the request. */
  datatype End = Dispatched | Refused(status: nat) | Declined | Cancelled

  datatype Stage =
    | Entered(site: Site, request: Request)
    | Metered(site: Site, request: Request)
    | Holding(site: Site, request: Request)
    | Paying(site: Site, request: Request, proof: Proof)
    | Settling(site: Site, request: Request)
    | Queued(site: Site, request: Request, token: C.Token, price: Price)
    | Collecting(site: Site, request: Request, mint: string)
    | Asking(site: Site, request: Request)
    | Ready(site: Site, request: Request, charged: Option<Resource>)
    | Done(site: Site, request: Request, charged: Option<Resource>, end: End)

  function Charged(st: Stage): Option<Resource> { if st.Ready? || st.Done? then st.charged else None }

  type Table = l: R.Limiter | l.Valid() ghost witness R.Fresh(R.Limit(1, 1), 64, 0, [])

  datatype Money = Money(journal: S.State, mints: map<string, C.State>, limiters: map<Handle, Table>)

  type Requests = map<nat, Stage>

  datatype Config = Config(sites: map<string, Site>, generation: nat, stores: Stores)
  datatype Gate = Gate(verify: map<Handle, Table>, pools: map<Handle, P.Site>)

  /** `owners`: the request that holds the wallet lock of a mint. */
  datatype State = State(config: Config, gate: Gate, money: Money, owners: map<string, nat>, requests: Requests)

  datatype Event =
    | Reload(confs: map<string, Conf>)
    | Arrive(id: nat, domain: string, request: Request)
    | Meter(id: nat, at: nat)
    | Acquire(id: nat)
    | Pick(id: nat)
    | AskFree(id: nat, at: nat, challenged: bool)
    | BeginSettle(id: nat)
    | Journal(step: S.Event)
    | BeginCollect(id: nat, busy: bool)
    | Wallet(mint: string, action: C.Event)
    | Dispatch(id: nat)
    | Cancel(id: nat, inFlight: bool)
    | DropPermit(pool: Handle, drop: P.Event)
    | Crash

  function To(s: State, id: nat, st: Stage): State { s.(requests := s.requests[id := st]) }

  function LimiterAt(ls: map<Handle, Table>, h: Handle, rate: Rate, at: nat): Table {
    if h in ls then ls[h] else R.Fresh(rate.limit, if rate.prefix <= 128 then rate.prefix else 128, at, [])
  }

  /** A check of one limiter: its next state and, unless the clock reading is
      older than the last, the verdict. */
  function CheckAt(hash: R.Hasher, l: Table, client: R.Address, at: nat): (r: (Table, Option<R.Verdict>))
    ensures r.1.None? ==> r.0.log == l.log
    ensures r.1.Some? ==>
              |r.0.log| == |l.log| + 1 && r.0.log[..|l.log|] == l.log && r.0.log[|l.log|].verdict == r.1.value
  {
    var next := R.Step(hash, l, R.Request(client, at));
    (next, if |next.log| > |l.log| then Some(next.log[|l.log|].verdict) else None)
  }

  function Refuse(site: Site, q: Request, status: nat): Stage { Done(site, q, None, Refused(status)) }

  /** The verification limit, consulted only when the request carries a proof. */
  function MeterTo(hash: R.Hasher, verify: map<Handle, Table>, st: Stage, at: nat): (map<Handle, Table>, Stage)
    requires st.Entered?
  {
    var site, q := st.site, st.request;
    if !Attempt(site.conf, q) then (verify, Metered(site, q))
    else if q.client.None? then (verify, Refuse(site, q, 500))
    else
      var (next, verdict) := CheckAt(hash, LimiterAt(verify, site.verify, site.conf.verify, at), q.client.value, at);
      if verdict.None? then (verify, st)
      else (verify[site.verify := next], if verdict.value.Accepted? then Metered(site, q) else Refuse(site, q, 429))
  }

  function PoolAt(ps: map<Handle, P.Site>, h: Handle, cap: Cap): P.Site {
    if h in ps then ps[h] else P.Site(P.NewPool(cap.max), {}, map[], 0)
  }

  function AcquireTo(pools: map<Handle, P.Site>, st: Stage): (map<Handle, P.Site>, Stage)
    requires st.Metered?
  {
    var site, q := st.site, st.request;
    if site.conf.cap.None? then (pools, Holding(site, q))
    else if q.client.None? then (pools, Refuse(site, q, 500))
    else
      var cap := site.conf.cap.value;
      var pool := PoolAt(pools, site.cap, cap);
      var client := R.ClientKey(q.client.value, if cap.prefix <= 128 then cap.prefix else 128);
      if P.TryAcquire(pool.pool, client).None? then (pools, Refuse(site, q, 503))
      else (pools[site.cap := P.SiteStep(pool, P.Acquire(client))], Holding(site, q))
  }

  function PickTo(stores: Stores, st: Stage): Stage
    requires st.Holding?
  {
    match Choose(st.site.conf, st.request, stores)
    case Reject(status) => Refuse(st.site, st.request, status)
    case Settle(proof) => Paying(st.site, st.request, proof)
    case Collect(token, price) => Queued(st.site, st.request, token, price)
    case Allowance => Asking(st.site, st.request)
    case Open => Ready(st.site, st.request, None)
  }

  /** `challenged`: a Lightning challenge could be made. */
  function ChallengeStatus(site: Site, challenged: bool): nat {
    if !Paid(site) then 429 else if site.conf.cashu.None? && !challenged then 503 else 402
  }

  function AskTo(hash: R.Hasher, limiters: map<Handle, Table>, st: Stage, at: nat, challenged: bool)
    : (map<Handle, Table>, Stage)
    requires st.Asking?
  {
    var site, q := st.site, st.request;
    if q.client.None? then (limiters, Refuse(site, q, 500))
    else if site.conf.free.None? then (limiters, Refuse(site, q, ChallengeStatus(site, challenged)))
    else
      var before := LimiterAt(limiters, site.free, site.conf.free.value, at);
      var (next, verdict) := CheckAt(hash, before, q.client.value, at);
      if verdict.None? then (limiters, st)
      else (limiters[site.free := next],
            if verdict.value.Accepted? then Ready(site, q, Some(FreeToken(site.free, |before.log|)))
            else Refuse(site, q, ChallengeStatus(site, challenged)))
  }

  /** What the verification limit answers: 429 exactly to a proof over the limit. */
  lemma MeterGateIsExact(hash: R.Hasher, verify: map<Handle, Table>, st: Stage, at: nat)
    requires st.Entered?
    ensures var (next, st') := MeterTo(hash, verify, st, at);
            var site, q := st.site, st.request;
            if !Attempt(site.conf, q) then next == verify && st' == Metered(site, q)
            else if q.client.None? then next == verify && st' == Done(site, q, None, Refused(500))
            else
              var (table, verdict) :=
                CheckAt(hash, LimiterAt(verify, site.verify, site.conf.verify, at), q.client.value, at);
              && (verdict == Some(R.Accepted) <==> st' == Metered(site, q))
              && (verdict.Some? && !verdict.value.Accepted? <==> st' == Done(site, q, None, Refused(429)))
              && (verdict.Some? ==> next == verify[site.verify := table])
              && (verdict.None? ==> next == verify && st' == st)
  {}

  /** What a request without a proof is told where there is no allowance or it is used
      up: 402 at a paid site, unless it takes Lightning alone and no challenge could be
      made, then 503; and 429 elsewhere. */
  lemma AskGateIsExact(hash: R.Hasher, limiters: map<Handle, Table>, st: Stage, at: nat, challenged: bool)
    requires st.Asking?
    ensures var (next, st') := AskTo(hash, limiters, st, at, challenged);
            var site, q := st.site, st.request;
            var status := if site.conf.cashu.Some? then 402 else if !site.conf.lightning then 429
                          else if challenged then 402 else 503;
            if q.client.None? then next == limiters && st' == Done(site, q, None, Refused(500))
            else if site.conf.free.None? then next == limiters && st' == Done(site, q, None, Refused(status))
            else
              var own := LimiterAt(limiters, site.free, site.conf.free.value, at);
              var (table, verdict) := CheckAt(hash, own, q.client.value, at);
              && (verdict == Some(R.Accepted) <==> st' == Ready(site, q, Some(FreeToken(site.free, |own.log|))))
              && (verdict.Some? && !verdict.value.Accepted? <==> st' == Done(site, q, None, Refused(status)))
              && (verdict.Some? ==> next == limiters[site.free := table])
              && (verdict.None? ==> next == limiters && st' == st)
  {}

  function Resolve(st: Stage, o: S.Outcome): Stage {
    if o.Admitted? then Ready(st.site, st.request, Some(SpentKey(o.key))) else Done(st.site, st.request, None, Declined)
  }

  /** The journal moves on; an answer resumes the request it belongs to. */
  function AfterJournal(s: State, next: S.State): State {
    var s' := s.(money := s.money.(journal := next));
    if |next.log| <= |s.money.journal.log| then s'
    else
      var a := next.log[|next.log| - 1];
      if a.task in s.requests then To(s', a.task, Resolve(s.requests[a.task], a.outcome)) else s'
  }

  function SettleEvent(id: nat, p: Proof): S.Event {
    if p.X402? then S.SettleX402(id, p.payment) else S.ReadRoot(id, p.credential)
  }

  function SettleStep(h: M.Hmac, s: State, id: nat, st: Stage): State
    requires st.Paying?
  {
    AfterJournal(To(s, id, Settling(st.site, st.request)),
                 S.Step(h, S.Pruning, s.money.journal, SettleEvent(id, st.proof)))
  }

  /** Journal steps that no request starts or abandons. */
  predicate Ongoing(e: S.Event) { !e.SettleX402? && !e.ReadRoot? && !e.Cancel? && !e.Restart? }

  function MintAt(ms: map<string, C.State>, mint: string): C.State { if mint in ms then ms[mint] else C.INITIAL }

  function Released(st: Stage, mint: string, before: C.State, next: C.State): Stage {
    if |next.admitted| > |before.admitted| then
      Ready(st.site, st.request, Some(LedgerClaim(mint, next.admitted[|next.admitted| - 1].id)))
    else Done(st.site, st.request, None, Declined)
  }

  /** The wallet moves on; letting go of its lock resumes the request that held it. */
  function AfterWallet(s: State, mint: string, before: C.State, next: C.State): State {
    var s' := s.(money := s.money.(mints := s.money.mints[mint := next]));
    if mint !in s.owners || next.holder.Held? then s'
    else
      var id, freed := s.owners[mint], s'.(owners := s.owners - {mint});
      if id !in s.requests then freed else To(freed, id, Released(s.requests[id], mint, before, next))
  }

  /** One operation at a time per mint, and no queue: a wallet that another
      collection or maintenance holds declines the request at once. */
  function CollectStep(s: State, id: nat, st: Stage, busy: bool): State
    requires st.Queued?
  {
    var mint := st.price.mint;
    var before := MintAt(s.money.mints, mint);
    if busy || before.holder.Held? then To(s, id, Done(st.site, st.request, None, Declined))
    else
      var next := C.Step(before, C.Start(st.token, st.site.domain, st.price.sats));
      To(s.(money := s.money.(mints := s.money.mints[mint := next]), owners := s.owners[mint := id]), id,
         Collecting(st.site, st.request, mint))
  }

  /** Refused at once: a body announced as too large with 413, before anything else,
      and a token whose wallet is locked or under maintenance. */
  lemma RefusedAtOnce(s: State, id: nat, domain: string, q: Request, st: Stage, busy: bool)
    ensures id !in s.requests && domain in s.config.sites && q.tooLarge ==>
              ArriveStep(s, id, domain, q) ==
                s.(requests := s.requests[id := Done(s.config.sites[domain], q, None, Refused(413))])
    ensures st.Queued? && (busy || (st.price.mint in s.money.mints && s.money.mints[st.price.mint].holder.Held?)) ==>
              CollectStep(s, id, st, busy) ==
                s.(requests := s.requests[id := Done(st.site, st.request, None, Declined)])
  {}

  predicate Unattended(e: C.Event) { !e.Start? && !e.Cancel? && !e.Crash? }

  function CancelStep(h: M.Hmac, s: State, id: nat, st: Stage, inFlight: bool): State {
    var gone := To(s, id, Done(st.site, st.request, Charged(st), Cancelled));
    if st.Settling? then gone.(money := s.money.(journal := S.Step(h, S.Pruning, s.money.journal, S.Cancel(id))))
    else if st.Collecting? && st.mint in s.money.mints then
      gone.(money := s.money.(mints := s.money.mints[st.mint := C.Step(s.money.mints[st.mint], C.Cancel(inFlight))]),
            owners := s.owners - {st.mint})
    else gone
  }

  function Delivered(st: Stage): Stage
    requires st.Ready?
  {
    Done(st.site, st.request, st.charged, Dispatched)
  }

  function Ended(st: Stage): Stage { if st.Done? then st else Done(st.site, st.request, Charged(st), Cancelled) }

  function Lost(q: Requests): Requests { map id | id in q :: Ended(q[id]) }

  function Crashed(ms: map<string, C.State>): map<string, C.State> { map m | m in ms :: C.Step(ms[m], C.Crash) }

  function Renewed(sites: map<string, Site>, generation: nat): map<string, Site> {
    map d | d in sites :: NewSite(generation, d, sites[d].conf)
  }

  /** The durable state survives; limiters and permits begin anew. */
  function CrashStep(h: M.Hmac, s: State): State {
    var next := s.config.generation + 1;
    s.(money := s.money.(journal := S.Step(h, S.Pruning, s.money.journal, S.Restart), mints := Crashed(s.money.mints)),
       owners := map[],
       requests := Lost(s.requests),
       config := s.config.(generation := next, sites := Renewed(s.config.sites, next)))
  }

  function MeterStep(hash: R.Hasher, s: State, id: nat, st: Stage, at: nat): State
    requires st.Entered?
  {
    var (verify, next) := MeterTo(hash, s.gate.verify, st, at);
    To(s.(gate := s.gate.(verify := verify)), id, next)
  }

  function AcquireStep(s: State, id: nat, st: Stage): State
    requires st.Metered?
  {
    var (pools, next) := AcquireTo(s.gate.pools, st);
    To(s.(gate := s.gate.(pools := pools)), id, next)
  }

  function AskStep(hash: R.Hasher, s: State, id: nat, st: Stage, at: nat, challenged: bool): State
    requires st.Asking?
  {
    var (limiters, next) := AskTo(hash, s.money.limiters, st, at, challenged);
    To(s.(money := s.money.(limiters := limiters)), id, next)
  }

  /** Steps of one request that is already under way. */
  function RequestStep(h: M.Hmac, hash: R.Hasher, s: State, e: Event): State
    requires OfRequest(e)
  {
    if e.id !in s.requests then s
    else
      var st := s.requests[e.id];
      match e
      case Meter(id, at) => if st.Entered? then MeterStep(hash, s, id, st, at) else s
      case Acquire(id) => if st.Metered? then AcquireStep(s, id, st) else s
      case Pick(id) => if st.Holding? then To(s, id, PickTo(s.config.stores, st)) else s
      case AskFree(id, at, challenged) => if st.Asking? then AskStep(hash, s, id, st, at, challenged) else s
      case BeginSettle(id) => if st.Paying? then SettleStep(h, s, id, st) else s
      case BeginCollect(id, busy) => if st.Queued? then CollectStep(s, id, st, busy) else s
      case Dispatch(id) => if st.Ready? then To(s, id, Delivered(st)) else s
      case Cancel(id, inFlight) => if st.Done? then s else CancelStep(h, s, id, st, inFlight)
  }

  function ArriveStep(s: State, id: nat, domain: string, q: Request): State {
    if id in s.requests || domain !in s.config.sites then s
    else
      var site := s.config.sites[domain];
      To(s, id, if q.tooLarge then Refuse(site, q, 413) else Entered(site, q))
  }

  function ReloadStep(s: State, confs: map<string, Conf>): State {
    var next := s.config.generation + 1;
    s.(config := s.config.(sites := ReloadAll(s.config.sites, next, confs), generation := next))
  }

  function DropStep(s: State, pool: Handle, drop: P.Event): State {
    if pool in s.gate.pools && !drop.Acquire? then
      s.(gate := s.gate.(pools := s.gate.pools[pool := P.SiteStep(s.gate.pools[pool], drop)])) else s
  }

  function Step(h: M.Hmac, hash: R.Hasher, s: State, e: Event): State {
    match e
    case Reload(confs) => ReloadStep(s, confs)
    case Arrive(id, domain, q) => ArriveStep(s, id, domain, q)
    case Journal(step) => if Ongoing(step) then AfterJournal(s, S.Step(h, S.Pruning, s.money.journal, step)) else s
    case Wallet(mint, action) =>
      if mint in s.money.mints && Unattended(action) then
        AfterWallet(s, mint, s.money.mints[mint], C.Step(s.money.mints[mint], action)) else s
    case DropPermit(pool, drop) => DropStep(s, pool, drop)
    case Crash => CrashStep(h, s)
    case _ => RequestStep(h, hash, s, e)
  }

  function Initial(config: Config): State {
    State(config, Gate(map[], map[]), Money(S.INITIAL, map[], map[]), map[], map[])
  }

  function Run(h: M.Hmac, hash: R.Hasher, s: State, run: seq<Event>): State
    decreases |run|
  {
    if run == [] then s else Step(h, hash, Run(h, hash, s, run[..|run| - 1]), run[|run| - 1])
  }

  // ---------- the account ----------

  predicate Admits(a: S.Answer, key: S.Key) { a.outcome.Admitted? && a.outcome.key == key }

  predicate KeyAdmitted(log: seq<S.Answer>, key: S.Key) { exists i :: 0 <= i < |log| && Admits(log[i], key) }

  predicate TokenAdmitted(admitted: seq<C.Admission>, id: C.Id) {
    exists i :: 0 <= i < |admitted| && admitted[i].id == id
  }

  predicate TokenDrawn(log: seq<R.Entry>, index: nat) { index < |log| && log[index].verdict.Accepted? }

  /** What the limiters, the journal and the ledgers have given out. */
  predicate Consumed(m: Money, r: Resource) {
    match r
    case FreeToken(limiter, index) => limiter in m.limiters && TokenDrawn(m.limiters[limiter].log, index)
    case SpentKey(key) => KeyAdmitted(m.journal.log, key)
    case LedgerClaim(mint, id) => mint in m.mints && TokenAdmitted(m.mints[mint].admitted, id)
  }

  predicate Charges(q: Requests, id: nat, r: Resource) { id in q && Charged(q[id]) == Some(r) }

  predicate Leaves(st: Stage) { st.Ready? || (st.Done? && st.end.Dispatched?) }

  /** Every resource given out has exactly one request that used it, a request
      uses at most one, and none leaves a paid site's gate without one. */
  ghost predicate Balanced(m: Money, q: Requests) {
    && (forall r :: Consumed(m, r) ==> exists id :: Charges(q, id, r))
    && (forall id, r :: Charges(q, id, r) ==> Consumed(m, r))
    && (forall i, j, r :: Charges(q, i, r) && Charges(q, j, r) ==> i == j)
    && (forall id :: id in q && Leaves(q[id]) && Paid(q[id].site) ==> Charged(q[id]).Some?)
  }

  ghost predicate SameConsumed(m: Money, m': Money) { forall r :: Consumed(m', r) <==> Consumed(m, r) }

  function ChargedIn(q: Requests, id: nat): Option<Resource> { if id in q then Charged(q[id]) else None }

  /** Nothing given out, nothing charged. */
  lemma QuietMove(m: Money, m': Money, q: Requests, id: nat, st: Stage)
    requires Balanced(m, q) && SameConsumed(m, m') && Charged(st) == ChargedIn(q, id)
    requires Leaves(st) && Paid(st.site) ==> Charged(st).Some?
    ensures Balanced(m', q[id := st])
  {
    var q' := q[id := st];
    assert forall i, r :: Charges(q', i, r) <==> Charges(q, i, r);
  }

  /** One resource given out, and charged to the request that asked for it. */
  lemma ChargingMove(m: Money, m': Money, q: Requests, id: nat, st: Stage, r: Resource)
    requires Balanced(m, q) && ChargedIn(q, id) == None && Charged(st) == Some(r)
    requires !Consumed(m, r) && forall x :: Consumed(m', x) <==> Consumed(m, x) || x == r
    ensures Balanced(m', q[id := st])
  {
    var q' := q[id := st];
    assert forall i, x :: Charges(q', i, x) <==> Charges(q, i, x) || (i == id && x == r);
    forall x | Consumed(m', x) ensures exists i :: Charges(q', i, x) {
      if x == r { assert Charges(q', id, x); } else { var i :| Charges(q, i, x); assert Charges(q', i, x); }
    }
  }

  // ---------- what the journal does with its tasks ----------

  /** A task whose answer will still reach its request. */
  predicate Live(j: S.State, n: nat) { n in j.tasks && (j.tasks[n].Claiming? ==> j.tasks[n].attached) }

  predicate Answered(j: S.State, j': S.State) { |j'.log| == |j.log| + 1 && j'.log[..|j.log|] == j.log }

  ghost predicate Continues(j: S.State, j': S.State) {
    && (forall n :: n in j'.tasks ==> n in j.tasks)
    && (forall n :: Live(j', n) ==> Live(j, n))
    && (j'.log == j.log || (Answered(j, j') && Live(j, j'.log[|j.log|].task) && j'.log[|j.log|].task !in j'.tasks))
  }

  lemma TaskContinues(h: M.Hmac, j: S.State, e: S.Event)
    requires e.VerifyL402? || e.Collected? || e.Commit?
    ensures Continues(j, S.Step(h, S.Pruning, j, e))
  {
    if e.task in j.tasks {
      var t := j.tasks[e.task];
      if e.Commit? && t.Claiming? { S.CommitShape(j, e.task, t, e.write); }
    }
  }

  lemma OthersContinue(h: M.Hmac, j: S.State, e: S.Event)
    requires Ongoing(e) && !(e.VerifyL402? || e.Collected? || e.Commit?)
    ensures Continues(j, S.Step(h, S.Pruning, j, e))
  {}

  /** A settlement starts: refused at once, or under way. */
  ghost predicate Begins(j: S.State, j': S.State, id: nat) {
    && (forall n :: n in j'.tasks ==> n in j.tasks || n == id)
    && (forall n :: Live(j', n) ==> Live(j, n) || n == id)
    && (j'.log == j.log ||
        (Answered(j, j') && j'.log[|j.log|].task == id && id !in j'.tasks && !j'.log[|j.log|].outcome.Admitted?))
  }

  lemma SettlementBegins(h: M.Hmac, j: S.State, id: nat, p: Proof)
    requires id !in j.tasks
    ensures Begins(j, S.Step(h, S.Pruning, j, SettleEvent(id, p)), id)
  {}

  lemma CancelEnds(h: M.Hmac, j: S.State, id: nat)
    ensures var j' := S.Step(h, S.Pruning, j, S.Cancel(id));
            && j'.log == j.log && !Live(j', id)
            && (forall n :: n in j'.tasks ==> n in j.tasks) && (forall n :: Live(j', n) ==> Live(j, n))
  {}

  // ---------- reachable journals ----------

  ghost predicate Reachable(h: M.Hmac, t: S.Timing, j: S.State) {
    exists run :: S.ConsistentRun(t, run) && j == S.Run(h, S.Pruning, S.INITIAL, run)
  }

  lemma ReachableStep(h: M.Hmac, t: S.Timing, j: S.State, e: S.Event)
    requires Reachable(h, t, j) && S.Consistent(t, e)
    ensures Reachable(h, t, S.Step(h, S.Pruning, j, e))
  {
    var run :| S.ConsistentRun(t, run) && j == S.Run(h, S.Pruning, S.INITIAL, run);
    var more := run + [e];
    assert more[..|run|] == run;
    assert S.ConsistentRun(t, more);
    assert S.Run(h, S.Pruning, S.INITIAL, more) == S.Step(h, S.Pruning, j, e);
  }

  lemma {:induction false} AdmittedCounts(log: seq<S.Answer>, key: S.Key)
    requires KeyAdmitted(log, key)
    ensures S.Admissions(log, key) >= 1
    decreases |log|
  {
    var n := |log| - 1;
    if !Admits(log[n], key) {
      var i :| 0 <= i < |log| && Admits(log[i], key);
      assert log[..n][i] == log[i];
      AdmittedCounts(log[..n], key);
    }
  }

  /** A key that is admitted now had not been admitted before. */
  lemma AdmittedIsNew(h: M.Hmac, t: S.Timing, j: S.State, j': S.State)
    requires Reachable(h, t, j') && Answered(j, j') && j'.log[|j.log|].outcome.Admitted?
    ensures !KeyAdmitted(j.log, j'.log[|j.log|].outcome.key)
  {
    var key := j'.log[|j.log|].outcome.key;
    var run :| S.ConsistentRun(t, run) && j' == S.Run(h, S.Pruning, S.INITIAL, run);
    S.AdmittedAtMostOnce(h, t, run, key);
    S.AdmissionsSnoc(j.log, j'.log[|j.log|], key);
    assert j'.log == j.log + [j'.log[|j.log|]];
    if KeyAdmitted(j.log, key) { AdmittedCounts(j.log, key); }
  }

  // ---------- the invariant ----------

  ghost predicate TasksSound(j: S.State, q: Requests) {
    && (forall n :: n in j.tasks ==> n in q && (q[n].Settling? || Abandoned(q[n])))
    && (forall n :: Live(j, n) ==> n in q && q[n].Settling?)
  }

  /** Its client left or its time ran out; a write it began may still commit. */
  predicate Abandoned(st: Stage) { st.Done? && st.end.Cancelled? }

  ghost predicate MintsSound(ms: map<string, C.State>) { forall m :: m in ms ==> C.Inv(ms[m]) }

  predicate Owns(q: Requests, id: nat, mint: string) { id in q && q[id].Collecting? && q[id].mint == mint }

  ghost predicate OwnersSound(ms: map<string, C.State>, owners: map<string, nat>, q: Requests) {
    && (forall m :: m in owners <==> m in ms && ms[m].holder.Held?)
    && (forall m :: m in owners ==> Owns(q, owners[m], m))
    && (forall id :: id in q && q[id].Collecting? ==> q[id].mint in owners && owners[q[id].mint] == id)
  }

  predicate PaymentTimed(t: S.Timing, p: S.Payment) { p.invoice == S.Signed(t, p.invoice.hash) }

  predicate RequestTimed(t: S.Timing, q: Request) {
    forall i :: 0 <= i < |q.signature| && q.signature[i].Some? ==> PaymentTimed(t, q.signature[i].value)
  }

  /** Proofs that came with a request are timed, and turning it away costs nothing. */
  predicate StageSound(t: S.Timing, st: Stage) {
    if st.Entered? || st.Metered? || st.Holding? then RequestTimed(t, st.request)
    else
      && (st.Paying? && st.proof.X402? ==> PaymentTimed(t, st.proof.payment))
      && (st.Done? && (st.end.Refused? || st.end.Declined?) ==> st.charged.None?)
  }

  predicate StagesSound(t: S.Timing, q: Requests) { forall id :: id in q ==> StageSound(t, q[id]) }

  ghost predicate Sound(h: M.Hmac, t: S.Timing, m: Money, owners: map<string, nat>, q: Requests) {
    && Balanced(m, q)
    && Reachable(h, t, m.journal)
    && TasksSound(m.journal, q)
    && MintsSound(m.mints)
    && OwnersSound(m.mints, owners, q)
    && StagesSound(t, q)
  }

  ghost predicate Inv(h: M.Hmac, t: S.Timing, s: State) { Sound(h, t, s.money, s.owners, s.requests) }

  /** A payment hash determines the times of its invoice. */
  predicate Timed(t: S.Timing, e: Event) {
    match e
    case Arrive(_, _, q) => RequestTimed(t, q)
    case Journal(step) => S.Consistent(t, step)
    case _ => true
  }

  // ---------- steps that touch one request only ----------

  /** Stages in which no journal or wallet works for the request, and it has not ended. */
  predicate Idle(st: Stage) { !st.Settling? && !st.Collecting? }

  predicate Movable(q: Requests, id: nat) { id in q ==> Idle(q[id]) && !q[id].Done? }

  lemma TasksLocal(j: S.State, q: Requests, id: nat, st: Stage)
    requires TasksSound(j, q) && Movable(q, id)
    ensures TasksSound(j, q[id := st])
  {}

  lemma OwnersLocal(ms: map<string, C.State>, owners: map<string, nat>, q: Requests, id: nat, st: Stage)
    requires OwnersSound(ms, owners, q) && Movable(q, id) && !st.Collecting?
    ensures OwnersSound(ms, owners, q[id := st])
  {
    forall m | m in owners ensures Owns(q[id := st], owners[m], m) { assert Owns(q, owners[m], m); }
  }

  lemma LocalMove(h: M.Hmac, t: S.Timing, s: State, s': State, id: nat, st: Stage)
    requires Inv(h, t, s) && s'.money.journal == s.money.journal && s'.money.mints == s.money.mints &&
             s'.owners == s.owners
    requires s'.requests == s.requests[id := st] && Movable(s.requests, id) && Idle(st) && StageSound(t, st) &&
             Balanced(s'.money, s'.requests)
    ensures Inv(h, t, s')
  {
    TasksLocal(s.money.journal, s.requests, id, st);
    OwnersLocal(s.money.mints, s.owners, s.requests, id, st);
  }

  lemma QuietLocalMove(h: M.Hmac, t: S.Timing, s: State, s': State, id: nat, st: Stage)
    requires Inv(h, t, s) && s'.money == s.money && s'.owners == s.owners
    requires s'.requests == s.requests[id := st] && Movable(s.requests, id) && Idle(st) && StageSound(t, st)
    requires Charged(st) == ChargedIn(s.requests, id) && (Leaves(st) && Paid(st.site) ==> Charged(st).Some?)
    ensures Inv(h, t, s')
  {
    QuietMove(s.money, s.money, s.requests, id, st);
    LocalMove(h, t, s, s', id, st);
  }

  /** The three gates before any proof is looked at charge nothing. */
  lemma MeterCharges(hash: R.Hasher, t: S.Timing, verify: map<Handle, Table>, st: Stage, at: nat)
    requires st.Entered? && StageSound(t, st)
    ensures var next := MeterTo(hash, verify, st, at).1;
            Charged(next).None? && !Leaves(next) && Idle(next) && StageSound(t, next)
  {}

  lemma AcquireCharges(t: S.Timing, pools: map<Handle, P.Site>, st: Stage)
    requires st.Metered? && StageSound(t, st)
    ensures var next := AcquireTo(pools, st).1;
            Charged(next).None? && !Leaves(next) && Idle(next) && StageSound(t, next)
  {}

  lemma PickCharges(t: S.Timing, stores: Stores, st: Stage)
    requires st.Holding? && StageSound(t, st)
    ensures var next := PickTo(stores, st);
            Charged(next).None? && (Leaves(next) ==> !Paid(next.site)) && Idle(next) && StageSound(t, next)
  {}

  lemma InvMeter(h: M.Hmac, hash: R.Hasher, t: S.Timing, s: State, id: nat, at: nat)
    requires Inv(h, t, s) && id in s.requests && s.requests[id].Entered?
    ensures Inv(h, t, MeterStep(hash, s, id, s.requests[id], at))
  {
    var st := s.requests[id];
    MeterCharges(hash, t, s.gate.verify, st, at);
    QuietLocalMove(h, t, s, MeterStep(hash, s, id, st, at), id, MeterTo(hash, s.gate.verify, st, at).1);
  }

  lemma InvAcquire(h: M.Hmac, t: S.Timing, s: State, id: nat)
    requires Inv(h, t, s) && id in s.requests && s.requests[id].Metered?
    ensures Inv(h, t, AcquireStep(s, id, s.requests[id]))
  {
    var st := s.requests[id];
    AcquireCharges(t, s.gate.pools, st);
    QuietLocalMove(h, t, s, AcquireStep(s, id, st), id, AcquireTo(s.gate.pools, st).1);
  }

  lemma InvPick(h: M.Hmac, t: S.Timing, s: State, id: nat)
    requires Inv(h, t, s) && id in s.requests && s.requests[id].Holding?
    ensures Inv(h, t, To(s, id, PickTo(s.config.stores, s.requests[id])))
  {
    var st := s.requests[id];
    PickCharges(t, s.config.stores, st);
    QuietLocalMove(h, t, s, To(s, id, PickTo(s.config.stores, st)), id, PickTo(s.config.stores, st));
  }

  lemma InvArrive(h: M.Hmac, t: S.Timing, s: State, id: nat, domain: string, q: Request)
    requires Inv(h, t, s) && RequestTimed(t, q)
    ensures Inv(h, t, ArriveStep(s, id, domain, q))
  {
    if id !in s.requests && domain in s.config.sites {
      var s' := ArriveStep(s, id, domain, q);
      QuietLocalMove(h, t, s, s', id, s'.requests[id]);
    }
  }

  lemma InvDispatch(h: M.Hmac, t: S.Timing, s: State, id: nat)
    requires Inv(h, t, s) && id in s.requests && s.requests[id].Ready?
    ensures Inv(h, t, To(s, id, Delivered(s.requests[id])))
  {
    var st := Delivered(s.requests[id]);
    QuietLocalMove(h, t, s, To(s, id, st), id, st);
  }

  // ---------- the free allowance ----------

  predicate Drew(before: Table, next: Table, verdict: R.Verdict) {
    |next.log| == |before.log| + 1 && next.log[..|before.log|] == before.log &&
    next.log[|before.log|].verdict == verdict
  }

  lemma LimiterConsumes(m: Money, h: Handle, before: Table, next: Table, verdict: R.Verdict)
    requires Drew(before, next, verdict) && (if h in m.limiters then before == m.limiters[h] else before.log == [])
    ensures var m' := m.(limiters := m.limiters[h := next]);
            && !Consumed(m, FreeToken(h, |before.log|))
            && forall r :: Consumed(m', r) <==> Consumed(m, r) || (verdict.Accepted? && r == FreeToken(h, |before.log|))
  {
    var m' := m.(limiters := m.limiters[h := next]);
    forall r ensures Consumed(m', r) <==> Consumed(m, r) || (verdict.Accepted? && r == FreeToken(h, |before.log|)) {
      if r.FreeToken? && r.limiter == h && r.index < |before.log| { assert next.log[r.index] == before.log[r.index]; }
    }
  }

  /** A check of the allowance gives out one token, to the request that asked, or none. */
  lemma AskBalances(hash: R.Hasher, m: Money, q: Requests, id: nat, at: nat, challenged: bool)
    requires Balanced(m, q) && id in q && q[id].Asking?
    ensures var (limiters, next) := AskTo(hash, m.limiters, q[id], at, challenged);
            Balanced(m.(limiters := limiters), q[id := next])
  {
    var st := q[id];
    var (limiters, st') := AskTo(hash, m.limiters, st, at, challenged);
    var m' := m.(limiters := limiters);
    if st.request.client.Some? && st.site.conf.free.Some? {
      var before := LimiterAt(m.limiters, st.site.free, st.site.conf.free.value, at);
      var (next, verdict) := CheckAt(hash, before, st.request.client.value, at);
      if verdict.Some? {
        LimiterConsumes(m, st.site.free, before, next, verdict.value);
        if verdict.value.Accepted? { ChargingMove(m, m', q, id, st', FreeToken(st.site.free, |before.log|)); return; }
      }
    }
    QuietMove(m, m', q, id, st');
  }

  lemma AskEndsIdle(hash: R.Hasher, t: S.Timing, limiters: map<Handle, Table>, st: Stage, at: nat, challenged: bool)
    requires st.Asking? && StageSound(t, st)
    ensures var next := AskTo(hash, limiters, st, at, challenged).1; Idle(next) && StageSound(t, next)
  {}

  lemma SoundAsk(h: M.Hmac, t: S.Timing, m: Money, owners: map<string, nat>, q: Requests, id: nat,
                 limiters: map<Handle, Table>, st: Stage)
    requires Sound(h, t, m, owners, q) && Movable(q, id) && Idle(st) && StageSound(t, st)
    requires Balanced(m.(limiters := limiters), q[id := st])
    ensures Sound(h, t, m.(limiters := limiters), owners, q[id := st])
  {
    TasksLocal(m.journal, q, id, st);
    OwnersLocal(m.mints, owners, q, id, st);
  }

  lemma InvAsk(h: M.Hmac, hash: R.Hasher, t: S.Timing, s: State, id: nat, at: nat, challenged: bool)
    requires Inv(h, t, s) && id in s.requests && s.requests[id].Asking?
    ensures Inv(h, t, AskStep(hash, s, id, s.requests[id], at, challenged))
  {
    var st := s.requests[id];
    AskBalances(hash, s.money, s.requests, id, at, challenged);
    AskEndsIdle(hash, t, s.money.limiters, st, at, challenged);
    var (limiters, next) := AskTo(hash, s.money.limiters, st, at, challenged);
    SoundAsk(h, t, s.money, s.owners, s.requests, id, limiters, next);
  }

  // ---------- answers of the journal ----------

  lemma JournalConsumes(m: Money, next: S.State)
    requires Answered(m.journal, next)
    ensures var a := next.log[|m.journal.log|];
            forall r :: Consumed(m.(journal := next), r) <==>
              Consumed(m, r) || (a.outcome.Admitted? && r == SpentKey(a.outcome.key))
  {
    var n := |m.journal.log|;
    var a := next.log[n];
    forall r: Resource | r.SpentKey?
      ensures Consumed(m.(journal := next), r) <==>
                Consumed(m, r) || (a.outcome.Admitted? && r == SpentKey(a.outcome.key))
    {
      assert forall i :: 0 <= i < n ==> next.log[i] == m.journal.log[i];
      if Consumed(m, r) {
        var i :| 0 <= i < n && Admits(m.journal.log[i], r.key);
        assert Admits(next.log[i], r.key);
      }
      if Admits(a, r.key) { assert Admits(next.log[n], r.key); }
    }
  }

  /** A request that is being settled, and the answer to it. */
  lemma AnswerBalances(m: Money, q: Requests, next: S.State)
    requires Balanced(m, q) && Answered(m.journal, next)
    requires var a := next.log[|m.journal.log|];
             && a.task in q && q[a.task].Settling?
             && (a.outcome.Admitted? ==> !KeyAdmitted(m.journal.log, a.outcome.key))
    ensures var a := next.log[|m.journal.log|];
            Balanced(m.(journal := next), q[a.task := Resolve(q[a.task], a.outcome)])
  {
    var a := next.log[|m.journal.log|];
    var st := Resolve(q[a.task], a.outcome);
    JournalConsumes(m, next);
    if a.outcome.Admitted? { ChargingMove(m, m.(journal := next), q, a.task, st, SpentKey(a.outcome.key)); }
    else { QuietMove(m, m.(journal := next), q, a.task, st); }
  }

  lemma SameMoney(m: Money, m': Money, q: Requests)
    requires Balanced(m, q) && SameConsumed(m, m')
    ensures Balanced(m', q)
  {}

  lemma OwnersElsewhere(ms: map<string, C.State>, owners: map<string, nat>, q: Requests, id: nat, st: Stage)
    requires OwnersSound(ms, owners, q) && (id in q ==> !q[id].Collecting?) && !st.Collecting?
    ensures OwnersSound(ms, owners, q[id := st])
  {
    forall m | m in owners ensures Owns(q[id := st], owners[m], m) { assert Owns(q, owners[m], m); }
  }

  /** Where the journal may go from `s`: every task belongs to a request, and an
      answer is for a request that waits for it. */
  ghost predicate Serves(q: Requests, j: S.State, next: S.State) {
    && (forall n :: n in next.tasks ==> n in q && (q[n].Settling? || Abandoned(q[n])))
    && (forall n :: Live(next, n) ==> n in q && q[n].Settling?)
    && (next.log == j.log ||
        (Answered(j, next) && var n := next.log[|j.log|].task; n in q && q[n].Settling? && n !in next.tasks))
  }

  lemma SoundAnswer(h: M.Hmac, t: S.Timing, m: Money, owners: map<string, nat>, q: Requests, next: S.State)
    requires Balanced(m, q) && Reachable(h, t, next) && Serves(q, m.journal, next) && Answered(m.journal, next)
    requires MintsSound(m.mints) && OwnersSound(m.mints, owners, q) && StagesSound(t, q)
    ensures var a := next.log[|m.journal.log|];
            Sound(h, t, m.(journal := next), owners, q[a.task := Resolve(q[a.task], a.outcome)])
  {
    var a := next.log[|m.journal.log|];
    if a.outcome.Admitted? { AdmittedIsNew(h, t, m.journal, next); }
    AnswerBalances(m, q, next);
    OwnersElsewhere(m.mints, owners, q, a.task, Resolve(q[a.task], a.outcome));
  }

  lemma InvAfterJournal(h: M.Hmac, t: S.Timing, s: State, next: S.State)
    requires Balanced(s.money, s.requests) && Reachable(h, t, next) && Serves(s.requests, s.money.journal, next)
    requires MintsSound(s.money.mints) && OwnersSound(s.money.mints, s.owners, s.requests) && StagesSound(t, s.requests)
    ensures Inv(h, t, AfterJournal(s, next))
  {
    if next.log == s.money.journal.log {
      SameMoney(s.money, s.money.(journal := next), s.requests);
    } else {
      SoundAnswer(h, t, s.money, s.owners, s.requests, next);
    }
  }

  lemma InvJournal(h: M.Hmac, t: S.Timing, s: State, e: S.Event)
    requires Inv(h, t, s) && Ongoing(e) && S.Consistent(t, e)
    ensures Inv(h, t, AfterJournal(s, S.Step(h, S.Pruning, s.money.journal, e)))
  {
    var next := S.Step(h, S.Pruning, s.money.journal, e);
    if e.VerifyL402? || e.Collected? || e.Commit? {
      TaskContinues(h, s.money.journal, e);
    } else {
      OthersContinue(h, s.money.journal, e);
    }
    ReachableStep(h, t, s.money.journal, e);
    InvAfterJournal(h, t, s, next);
  }

  lemma ServesBeginner(j: S.State, q: Requests, id: nat, st: Stage, next: S.State)
    requires TasksSound(j, q) && Begins(j, next, id) && id !in j.tasks && st.Settling?
    ensures Serves(q[id := st], j, next)
  {}

  lemma SettlingIsQuiet(h: M.Hmac, t: S.Timing, m: Money, owners: map<string, nat>, q: Requests, id: nat, st: Stage)
    requires Sound(h, t, m, owners, q) && id in q && q[id].Paying? && st.Settling?
    ensures var q' := q[id := st]; Balanced(m, q') && OwnersSound(m.mints, owners, q') && StagesSound(t, q')
  {
    QuietMove(m, m, q, id, st);
    OwnersElsewhere(m.mints, owners, q, id, st);
  }

  lemma SettleReaches(h: M.Hmac, t: S.Timing, j: S.State, q: Requests, id: nat)
    requires Reachable(h, t, j) && TasksSound(j, q) && id in q && q[id].Paying? && StageSound(t, q[id])
    ensures var next := S.Step(h, S.Pruning, j, SettleEvent(id, q[id].proof));
            Reachable(h, t, next) && Serves(q[id := Settling(q[id].site, q[id].request)], j, next)
  {
    var e := SettleEvent(id, q[id].proof);
    SettlementBegins(h, j, id, q[id].proof);
    ReachableStep(h, t, j, e);
    ServesBeginner(j, q, id, Settling(q[id].site, q[id].request), S.Step(h, S.Pruning, j, e));
  }

  lemma InvSettle(h: M.Hmac, t: S.Timing, s: State, id: nat)
    requires Inv(h, t, s) && id in s.requests && s.requests[id].Paying?
    ensures Inv(h, t, SettleStep(h, s, id, s.requests[id]))
  {
    var st := s.requests[id];
    assert StageSound(t, st);
    SettlingIsQuiet(h, t, s.money, s.owners, s.requests, id, Settling(st.site, st.request));
    SettleReaches(h, t, s.money.journal, s.requests, id);
    InvAfterJournal(h, t, To(s, id, Settling(st.site, st.request)),
                    S.Step(h, S.Pruning, s.money.journal, SettleEvent(id, st.proof)));
  }

  // ---------- the wallets ----------

  /** An unattended wallet step admits at most the token of the lock holder, and
      then lets go of the lock. */
  predicate WalletMoves(c: C.State, next: C.State) {
    && (next.admitted == c.admitted ||
        (|next.admitted| == |c.admitted| + 1 && next.admitted[..|c.admitted|] == c.admitted && c.holder.Held? &&
         next.holder.Free?))
    && (next.holder.Held? ==> c.holder.Held?)
  }

  lemma WalletStepMoves(c: C.State, e: C.Event)
    requires Unattended(e)
    ensures WalletMoves(c, C.Step(c, e))
  {}

  lemma WalletConsumes(m: Money, mint: string, next: C.State)
    requires mint in m.mints && C.Inv(next) && |next.admitted| == |m.mints[mint].admitted| + 1
    requires next.admitted[..|m.mints[mint].admitted|] == m.mints[mint].admitted
    ensures var a := next.admitted[|m.mints[mint].admitted|];
            var m' := m.(mints := m.mints[mint := next]);
            && !Consumed(m, LedgerClaim(mint, a.id))
            && forall r :: Consumed(m', r) <==> Consumed(m, r) || r == LedgerClaim(mint, a.id)
  {
    var c := m.mints[mint];
    var n := |c.admitted|;
    var a := next.admitted[n];
    assert forall i :: 0 <= i < n ==> next.admitted[i] == c.admitted[i];
    forall r: Resource | r.LedgerClaim? && r.mint == mint
      ensures TokenAdmitted(next.admitted, r.id) <==> TokenAdmitted(c.admitted, r.id) || r.id == a.id
    {
      if TokenAdmitted(c.admitted, r.id) {
        var i :| 0 <= i < n && c.admitted[i].id == r.id;
        assert next.admitted[i].id == r.id;
      }
    }
  }

  lemma OwnersReleased(ms: map<string, C.State>, owners: map<string, nat>, q: Requests, mint: string, next: C.State,
                       st: Stage)
    requires OwnersSound(ms, owners, q) && mint in owners && next.holder.Free? && !st.Collecting?
    ensures OwnersSound(ms[mint := next], owners - {mint}, q[owners[mint] := st])
  {
    assert Owns(q, owners[mint], mint);
    forall m | m in owners - {mint} ensures Owns(q[owners[mint] := st], (owners - {mint})[m], m) {
      assert Owns(q, owners[m], m);
    }
  }

  lemma WalletBalances(m: Money, q: Requests, mint: string, id: nat, next: C.State)
    requires Balanced(m, q) && mint in m.mints && C.Inv(next) && WalletMoves(m.mints[mint], next) && Owns(q, id, mint)
    ensures Balanced(m.(mints := m.mints[mint := next]), q[id := Released(q[id], mint, m.mints[mint], next)])
  {
    var before := m.mints[mint];
    var m' := m.(mints := m.mints[mint := next]);
    if |next.admitted| > |before.admitted| {
      WalletConsumes(m, mint, next);
      var r := LedgerClaim(mint, next.admitted[|next.admitted| - 1].id);
      ChargingMove(m, m', q, id, Ready(q[id].site, q[id].request, Some(r)), r);
    } else {
      QuietMove(m, m', q, id, Done(q[id].site, q[id].request, None, Declined));
    }
  }

  lemma MintsStay(ms: map<string, C.State>, mint: string, next: C.State)
    requires MintsSound(ms) && C.Inv(next)
    ensures MintsSound(ms[mint := next])
  {}

  lemma TasksElsewhere(j: S.State, q: Requests, id: nat, st: Stage)
    requires TasksSound(j, q) && (id in q ==> !q[id].Settling? && !q[id].Done?)
    ensures TasksSound(j, q[id := st])
  {}

  lemma SoundRelease(h: M.Hmac, t: S.Timing, m: Money, owners: map<string, nat>, q: Requests, mint: string,
                     next: C.State)
    requires Sound(h, t, m, owners, q) && mint in owners && mint in m.mints && Owns(q, owners[mint], mint)
    requires C.Inv(next) && next.holder.Free? && WalletMoves(m.mints[mint], next)
    ensures var st := Released(q[owners[mint]], mint, m.mints[mint], next);
            Sound(h, t, m.(mints := m.mints[mint := next]), owners - {mint}, q[owners[mint] := st])
  {
    var id := owners[mint];
    var st := Released(q[id], mint, m.mints[mint], next);
    WalletBalances(m, q, mint, id, next);
    OwnersReleased(m.mints, owners, q, mint, next, st);
    TasksElsewhere(m.journal, q, id, st);
    MintsStay(m.mints, mint, next);
  }

  lemma InvRelease(h: M.Hmac, t: S.Timing, s: State, mint: string, next: C.State)
    requires Inv(h, t, s) && mint in s.owners && C.Inv(next) && next.holder.Free? &&
             WalletMoves(s.money.mints[mint], next)
    ensures Inv(h, t, AfterWallet(s, mint, s.money.mints[mint], next))
  {
    assert Owns(s.requests, s.owners[mint], mint);
    SoundRelease(h, t, s.money, s.owners, s.requests, mint, next);
  }

  lemma OwnersKept(ms: map<string, C.State>, owners: map<string, nat>, q: Requests, mint: string, next: C.State)
    requires OwnersSound(ms, owners, q) && mint in ms && (next.holder.Held? <==> ms[mint].holder.Held?)
    ensures OwnersSound(ms[mint := next], owners, q)
  {}

  lemma InvKeepsLock(h: M.Hmac, t: S.Timing, s: State, mint: string, next: C.State)
    requires Inv(h, t, s) && mint in s.money.mints && C.Inv(next) && WalletMoves(s.money.mints[mint], next)
    requires mint !in s.owners || next.holder.Held?
    ensures Inv(h, t, AfterWallet(s, mint, s.money.mints[mint], next))
  {
    SameAdmitted(s.money, mint, next);
    SameMoney(s.money, s.money.(mints := s.money.mints[mint := next]), s.requests);
    MintsStay(s.money.mints, mint, next);
    OwnersKept(s.money.mints, s.owners, s.requests, mint, next);
  }

  lemma InvWallet(h: M.Hmac, t: S.Timing, s: State, mint: string, e: C.Event)
    requires Inv(h, t, s) && mint in s.money.mints && Unattended(e)
    ensures Inv(h, t, AfterWallet(s, mint, s.money.mints[mint], C.Step(s.money.mints[mint], e)))
  {
    var c := s.money.mints[mint];
    WalletStepMoves(c, e);
    C.InvStep(c, e);
    if mint in s.owners && C.Step(c, e).holder.Free? {
      InvRelease(h, t, s, mint, C.Step(c, e));
    } else {
      InvKeepsLock(h, t, s, mint, C.Step(c, e));
    }
  }

  lemma OwnersTaken(ms: map<string, C.State>, owners: map<string, nat>, q: Requests, mint: string, next: C.State,
                    id: nat, st: Stage)
    requires OwnersSound(ms, owners, q) && mint !in owners && next.holder.Held? && id in q && !q[id].Collecting?
    requires st.Collecting? && st.mint == mint
    ensures OwnersSound(ms[mint := next], owners[mint := id], q[id := st])
  {
    var q', owners' := q[id := st], owners[mint := id];
    forall m | m in owners' ensures Owns(q', owners'[m], m) { if m != mint { assert Owns(q, owners[m], m); } }
  }

  lemma StartHolds(c: C.State, token: C.Token, site: string, sats: nat)
    requires c.holder.Free? && C.Inv(c)
    ensures var next := C.Step(c, C.Start(token, site, sats));
            C.Inv(next) && next.holder.Held? && next.admitted == c.admitted
  {
    C.InvStep(c, C.Start(token, site, sats));
  }

  lemma MintAtSound(ms: map<string, C.State>, mint: string)
    requires MintsSound(ms)
    ensures C.Inv(MintAt(ms, mint))
  {}

  lemma SameAdmitted(m: Money, mint: string, next: C.State)
    requires next.admitted == MintAt(m.mints, mint).admitted
    ensures SameConsumed(m, m.(mints := m.mints[mint := next]))
  {}

  lemma SoundTake(h: M.Hmac, t: S.Timing, m: Money, owners: map<string, nat>, q: Requests, mint: string, next: C.State,
                  id: nat)
    requires Sound(h, t, m, owners, q) && id in q && q[id].Queued? && mint !in owners
    requires C.Inv(next) && next.holder.Held? && next.admitted == MintAt(m.mints, mint).admitted
    ensures Sound(h, t, m.(mints := m.mints[mint := next]), owners[mint := id],
                  q[id := Collecting(q[id].site, q[id].request, mint)])
  {
    var to := Collecting(q[id].site, q[id].request, mint);
    SameAdmitted(m, mint, next);
    QuietMove(m, m.(mints := m.mints[mint := next]), q, id, to);
    TasksElsewhere(m.journal, q, id, to);
    MintsStay(m.mints, mint, next);
    OwnersTaken(m.mints, owners, q, mint, next, id, to);
  }

  lemma InvCollect(h: M.Hmac, t: S.Timing, s: State, id: nat, busy: bool)
    requires Inv(h, t, s) && id in s.requests && s.requests[id].Queued?
    ensures Inv(h, t, CollectStep(s, id, s.requests[id], busy))
  {
    var st := s.requests[id];
    var mint := st.price.mint;
    var before := MintAt(s.money.mints, mint);
    if busy || before.holder.Held? {
      QuietLocalMove(h, t, s, CollectStep(s, id, st, busy), id, Done(st.site, st.request, None, Declined));
    } else {
      MintAtSound(s.money.mints, mint);
      StartHolds(before, st.token, st.site.domain, st.price.sats);
      SoundTake(h, t, s.money, s.owners, s.requests, mint,
                C.Step(before, C.Start(st.token, st.site.domain, st.price.sats)), id);
    }
  }

  // ---------- cancellation and crashes ----------

  lemma CancelReleases(c: C.State, inFlight: bool)
    requires c.holder.Held? && C.Inv(c)
    ensures var next := C.Step(c, C.Cancel(inFlight)); C.Inv(next) && next.holder.Free? && next.admitted == c.admitted
  {
    C.InvStep(c, C.Cancel(inFlight));
  }

  function Gone(st: Stage): Stage { Done(st.site, st.request, None, Cancelled) }

  lemma SoundLetGo(h: M.Hmac, t: S.Timing, m: Money, owners: map<string, nat>, q: Requests, mint: string, next: C.State)
    requires Sound(h, t, m, owners, q) && mint in owners && mint in m.mints && Owns(q, owners[mint], mint)
    requires C.Inv(next) && next.holder.Free? && next.admitted == m.mints[mint].admitted
    ensures var st := Gone(q[owners[mint]]);
            Sound(h, t, m.(mints := m.mints[mint := next]), owners - {mint}, q[owners[mint] := st])
  {
    var id := owners[mint];
    var st := Gone(q[id]);
    SameAdmitted(m, mint, next);
    QuietMove(m, m.(mints := m.mints[mint := next]), q, id, st);
    OwnersReleased(m.mints, owners, q, mint, next, st);
    TasksElsewhere(m.journal, q, id, st);
    MintsStay(m.mints, mint, next);
  }

  lemma SoundDetach(h: M.Hmac, t: S.Timing, m: Money, owners: map<string, nat>, q: Requests, id: nat)
    requires Sound(h, t, m, owners, q) && id in q && q[id].Settling?
    ensures var next := S.Step(h, S.Pruning, m.journal, S.Cancel(id));
            Sound(h, t, m.(journal := next), owners, q[id := Gone(q[id])])
  {
    var st := Gone(q[id]);
    var next := S.Step(h, S.Pruning, m.journal, S.Cancel(id));
    CancelEnds(h, m.journal, id);
    ReachableStep(h, t, m.journal, S.Cancel(id));
    QuietMove(m, m.(journal := next), q, id, st);
    OwnersElsewhere(m.mints, owners, q, id, st);
  }

  lemma InvCancel(h: M.Hmac, t: S.Timing, s: State, id: nat, inFlight: bool)
    requires Inv(h, t, s) && id in s.requests && !s.requests[id].Done?
    ensures Inv(h, t, CancelStep(h, s, id, s.requests[id], inFlight))
  {
    var st := s.requests[id];
    if st.Settling? {
      SoundDetach(h, t, s.money, s.owners, s.requests, id);
    } else if st.Collecting? {
      assert Owns(s.requests, s.owners[st.mint], st.mint);
      CancelReleases(s.money.mints[st.mint], inFlight);
      SoundLetGo(h, t, s.money, s.owners, s.requests, st.mint, C.Step(s.money.mints[st.mint], C.Cancel(inFlight)));
    } else {
      QuietLocalMove(h, t, s, CancelStep(h, s, id, st, inFlight), id,
                     Done(st.site, st.request, Charged(st), Cancelled));
    }
  }

  lemma CrashKeeps(c: C.State)
    requires C.Inv(c)
    ensures var next := C.Step(c, C.Crash); C.Inv(next) && next.holder.Free? && next.admitted == c.admitted
  {
    C.InvStep(c, C.Crash);
  }

  lemma LostBalances(m: Money, m': Money, q: Requests)
    requires Balanced(m, q) && SameConsumed(m, m')
    ensures Balanced(m', Lost(q))
  {
    assert forall i, r :: Charges(Lost(q), i, r) <==> Charges(q, i, r);
  }

  lemma CrashConsumes(h: M.Hmac, m: Money)
    requires MintsSound(m.mints)
    ensures SameConsumed(m, m.(journal := S.Step(h, S.Pruning, m.journal, S.Restart), mints := Crashed(m.mints)))
    ensures MintsSound(Crashed(m.mints)) && OwnersSound(Crashed(m.mints), map[], map[])
  {
    forall mint | mint in m.mints
      ensures var c := Crashed(m.mints)[mint]; C.Inv(c) && c.holder.Free? && c.admitted == m.mints[mint].admitted
    {
      CrashKeeps(m.mints[mint]);
    }
  }

  lemma SoundCrash(h: M.Hmac, t: S.Timing, m: Money, q: Requests)
    requires Balanced(m, q) && Reachable(h, t, m.journal) && MintsSound(m.mints) && StagesSound(t, q)
    ensures Sound(h, t, m.(journal := S.Step(h, S.Pruning, m.journal, S.Restart), mints := Crashed(m.mints)), map[],
                  Lost(q))
  {
    CrashConsumes(h, m);
    LostBalances(m, m.(journal := S.Step(h, S.Pruning, m.journal, S.Restart), mints := Crashed(m.mints)), q);
    ReachableStep(h, t, m.journal, S.Restart);
  }

  lemma InvCrash(h: M.Hmac, t: S.Timing, s: State)
    requires Inv(h, t, s)
    ensures Inv(h, t, CrashStep(h, s))
  {
    SoundCrash(h, t, s.money, s.requests);
  }

  // ---------- every step, every run ----------

  predicate OfRequest(e: Event) {
    e.Meter? || e.Acquire? || e.Pick? || e.AskFree? || e.BeginSettle? || e.BeginCollect? || e.Dispatch? || e.Cancel?
  }

  lemma InvRequest(h: M.Hmac, hash: R.Hasher, t: S.Timing, s: State, e: Event)
    requires Inv(h, t, s) && OfRequest(e)
    ensures Inv(h, t, RequestStep(h, hash, s, e))
  {
    if e.id in s.requests {
      var st := s.requests[e.id];
      if e.Meter? { if st.Entered? { InvMeter(h, hash, t, s, e.id, e.at); } }
      else if e.Acquire? { if st.Metered? { InvAcquire(h, t, s, e.id); } }
      else if e.Pick? { if st.Holding? { InvPick(h, t, s, e.id); } }
      else if e.AskFree? { if st.Asking? { InvAsk(h, hash, t, s, e.id, e.at, e.challenged); } }
      else if e.BeginSettle? { if st.Paying? { InvSettle(h, t, s, e.id); } }
      else if e.BeginCollect? { if st.Queued? { InvCollect(h, t, s, e.id, e.busy); } }
      else if e.Dispatch? { if st.Ready? { InvDispatch(h, t, s, e.id); } }
      else if !st.Done? { InvCancel(h, t, s, e.id, e.inFlight); }
    }
  }

  lemma InvStep(h: M.Hmac, hash: R.Hasher, t: S.Timing, s: State, e: Event)
    requires Inv(h, t, s) && Timed(t, e)
    ensures Inv(h, t, Step(h, hash, s, e))
  {
    if OfRequest(e) { InvRequest(h, hash, t, s, e); }
    else if e.Arrive? { InvArrive(h, t, s, e.id, e.domain, e.request); }
    else if e.Journal? { if Ongoing(e.step) { InvJournal(h, t, s, e.step); } }
    else if e.Wallet? { if e.mint in s.money.mints && Unattended(e.action) { InvWallet(h, t, s, e.mint, e.action); } }
    else if e.Crash? { InvCrash(h, t, s); }
  }

  lemma {:induction false} InvRun(h: M.Hmac, hash: R.Hasher, t: S.Timing, config: Config, run: seq<Event>)
    requires forall e :: e in run ==> Timed(t, e)
    ensures Inv(h, t, Run(h, hash, Initial(config), run))
    decreases |run|
  {
    if run == [] {
      assert S.Run(h, S.Pruning, S.INITIAL, []) == S.INITIAL;
      assert S.ConsistentRun(t, []);
    } else {
      var front, e := run[..|run| - 1], run[|run| - 1];
      assert e in run;
      InvRun(h, hash, t, config, front);
      InvStep(h, hash, t, Run(h, hash, Initial(config), front), e);
    }
  }

  // ---------- an ended request stays as it is ----------

  predicate Kept(q: Requests, q': Requests, id: nat) { id in q && id in q' && q'[id] == q[id] }

  lemma JournalKeepsEnded(s: State, next: S.State, id: nat)
    requires id in s.requests && s.requests[id].Done? && Serves(s.requests, s.money.journal, next)
    ensures Kept(s.requests, AfterJournal(s, next).requests, id)
  {}

  lemma OngoingServes(h: M.Hmac, j: S.State, q: Requests, e: S.Event)
    requires TasksSound(j, q) && Ongoing(e)
    ensures Serves(q, j, S.Step(h, S.Pruning, j, e))
  {
    if e.VerifyL402? || e.Collected? || e.Commit? { TaskContinues(h, j, e); } else { OthersContinue(h, j, e); }
  }

  lemma WalletKeepsEnded(s: State, mint: string, before: C.State, next: C.State, id: nat)
    requires id in s.requests && s.requests[id].Done? && OwnersSound(s.money.mints, s.owners, s.requests)
    ensures Kept(s.requests, AfterWallet(s, mint, before, next).requests, id)
  {
    if mint in s.owners { assert Owns(s.requests, s.owners[mint], mint); }
  }

  lemma SettleKeepsEnded(h: M.Hmac, t: S.Timing, s: State, n: nat, id: nat)
    requires Inv(h, t, s) && n in s.requests && s.requests[n].Paying? && id in s.requests && s.requests[id].Done?
    ensures Kept(s.requests, SettleStep(h, s, n, s.requests[n]).requests, id)
  {
    var st := s.requests[n];
    assert StageSound(t, st);
    SettleReaches(h, t, s.money.journal, s.requests, n);
    JournalKeepsEnded(To(s, n, Settling(st.site, st.request)),
                      S.Step(h, S.Pruning, s.money.journal, SettleEvent(n, st.proof)), id);
  }

  lemma RequestKeepsEnded(h: M.Hmac, hash: R.Hasher, t: S.Timing, s: State, e: Event, id: nat)
    requires Inv(h, t, s) && OfRequest(e) && id in s.requests && s.requests[id].Done?
    ensures Kept(s.requests, RequestStep(h, hash, s, e).requests, id)
  {
    if e.id in s.requests {
      var st := s.requests[e.id];
      if e.BeginSettle? { if st.Paying? { SettleKeepsEnded(h, t, s, e.id, id); } }
      else if e.Cancel? { if !st.Done? { CancelKeepsEnded(h, s, e.id, st, e.inFlight, id); } }
      else { GatesKeepEnded(h, hash, s, e, id); }
    }
  }

  lemma GatesKeepEnded(h: M.Hmac, hash: R.Hasher, s: State, e: Event, id: nat)
    requires OfRequest(e) && !e.BeginSettle? && !e.Cancel? && e.id in s.requests && id in s.requests &&
             s.requests[id].Done?
    ensures Kept(s.requests, RequestStep(h, hash, s, e).requests, id)
  {}

  lemma CancelKeepsEnded(h: M.Hmac, s: State, n: nat, st: Stage, inFlight: bool, id: nat)
    requires id in s.requests && id != n
    ensures Kept(s.requests, CancelStep(h, s, n, st, inFlight).requests, id)
  {}

  lemma StepKeepsEnded(h: M.Hmac, hash: R.Hasher, t: S.Timing, s: State, e: Event, id: nat)
    requires Inv(h, t, s) && id in s.requests && s.requests[id].Done?
    ensures Kept(s.requests, Step(h, hash, s, e).requests, id)
  {
    if OfRequest(e) { RequestKeepsEnded(h, hash, t, s, e, id); }
    else if e.Journal? {
      if Ongoing(e.step) {
        OngoingServes(h, s.money.journal, s.requests, e.step);
        JournalKeepsEnded(s, S.Step(h, S.Pruning, s.money.journal, e.step), id);
      }
    }
    else if e.Wallet? {
      if e.mint in s.money.mints {
        WalletKeepsEnded(s, e.mint, s.money.mints[e.mint], C.Step(s.money.mints[e.mint], e.action), id);
      }
    }
  }

  // ---------- the accounting ----------

  ghost predicate SoleUser(q: Requests, id: nat, r: Resource) {
    Charges(q, id, r) && forall other :: Charges(q, other, r) ==> other == id
  }

  /** Over every run, a request that a paid site's handler received has consumed
      exactly one free token, SPENT key or ledger claim, and no other request has
      consumed the same one. */
  lemma DispatchedHaveConsumedExactlyOne(h: M.Hmac, hash: R.Hasher, t: S.Timing, config: Config, run: seq<Event>,
                                         id: nat)
    requires forall e :: e in run ==> Timed(t, e)
    requires var q := Run(h, hash, Initial(config), run).requests;
             id in q && q[id].Done? && q[id].end.Dispatched? && Paid(q[id].site)
    ensures var s := Run(h, hash, Initial(config), run);
            exists r ::
              && SoleUser(s.requests, id, r) && Consumed(s.money, r)
              && forall x :: Charges(s.requests, id, x) ==> x == r
  {
    InvRun(h, hash, t, config, run);
    var s := Run(h, hash, Initial(config), run);
    var r := Charged(s.requests[id]).value;
    assert Charges(s.requests, id, r);
    assert SoleUser(s.requests, id, r);
  }

  /** Nothing is given out that no request has used, and nothing twice. */
  lemma NothingGivenOutTwice(h: M.Hmac, hash: R.Hasher, t: S.Timing, config: Config, run: seq<Event>, r: Resource)
    requires forall e :: e in run ==> Timed(t, e)
    requires Consumed(Run(h, hash, Initial(config), run).money, r)
    ensures exists id :: SoleUser(Run(h, hash, Initial(config), run).requests, id, r)
  {
    InvRun(h, hash, t, config, run);
    var q := Run(h, hash, Initial(config), run).requests;
    var id :| Charges(q, id, r);
    assert SoleUser(q, id, r);
  }

  lemma {:induction false} EndedForGood(h: M.Hmac, hash: R.Hasher, t: S.Timing, config: Config, run: seq<Event>, n: nat,
                                        id: nat)
    requires (forall e :: e in run ==> Timed(t, e)) && n <= |run|
    requires var q := Run(h, hash, Initial(config), run[..n]).requests; id in q && q[id].Done?
    ensures Kept(Run(h, hash, Initial(config), run[..n]).requests, Run(h, hash, Initial(config), run).requests, id)
    decreases |run|
  {
    if n == |run| {
      assert run[..n] == run;
    } else {
      var front := run[..|run| - 1];
      assert front[..n] == run[..n];
      EndedForGood(h, hash, t, config, front, n, id);
      InvRun(h, hash, t, config, front);
      StepKeepsEnded(h, hash, t, Run(h, hash, Initial(config), front), run[|run| - 1], id);
    }
  }

  /** A request refused by the verification limit, for lack of capacity, for its
      headers or for lack of allowance never consumes anything, and no transaction
      is or will be under way for it. */
  lemma RefusedConsumesNothing(h: M.Hmac, hash: R.Hasher, t: S.Timing, config: Config, run: seq<Event>, n: nat, id: nat)
    requires (forall e :: e in run ==> Timed(t, e)) && n <= |run|
    requires var q := Run(h, hash, Initial(config), run[..n]).requests; id in q && q[id].Done? && q[id].end.Refused?
    ensures var s := Run(h, hash, Initial(config), run);
            && (forall r :: !Charges(s.requests, id, r))
            && id !in s.money.journal.tasks && forall mint :: mint in s.owners ==> s.owners[mint] != id
  {
    EndedForGood(h, hash, t, config, run, n, id);
    InvRun(h, hash, t, config, run);
    var s := Run(h, hash, Initial(config), run);
    assert StageSound(t, s.requests[id]);
    forall mint | mint in s.owners ensures s.owners[mint] != id { assert Owns(s.requests, s.owners[mint], mint); }
  }
}
