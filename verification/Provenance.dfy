/** What a request was charged is what it offered: its own client's allowance, the
    payment its own proof proved, or its own token at its site's price. */
module Provenance {
  import opened Basics
  import M = L402
  import S = Settlement
  import C = CashuLedger
  import R = RateLimit
  import opened Admission

  // ---------- what justifies a charge ----------

  /** The wallet lock is held for this request: its token, at its site's price. */
  predicate HeldFor(c: C.State, mint: string, st: Stage) {
    && c.holder.Held? && c.holder.collect.site == st.site.domain
    && TokenAlone(st.site.conf, st.request, c.holder.collect.token, Price(mint, c.holder.collect.price))
  }

  predicate OwnAllowance(ls: map<Handle, Table>, st: Stage, h: Handle, index: nat) {
    && h == st.site.free && st.site.conf.free.Some? && st.request.client.Some?
    && h in ls && index < |ls[h].log| && ls[h].log[index].verdict.Accepted?
    && ls[h].log[index].client == R.ClientKey(st.request.client.value, ls[h].prefix)
  }

  predicate OwnAnswer(log: seq<S.Answer>, id: nat, key: S.Key) {
    exists i :: 0 <= i < |log| && log[i].task == id && Admits(log[i], key)
  }

  /** The claim is an admission of the token this request carried alone, at its site
      and at the price configured there. */
  predicate OwnToken(ms: map<string, C.State>, st: Stage, mint: string, id: C.Id) {
    && st.site.conf.cashu.Some? && st.site.conf.cashu.value.mint == mint
    && |st.request.cashu| == 1 && st.request.cashu[0].Some? && st.request.cashu[0].value.id == id
    && TokenAlone(st.site.conf, st.request, st.request.cashu[0].value, st.site.conf.cashu.value)
    && mint in ms && C.Admission(id, st.site.domain, st.site.conf.cashu.value.sats) in ms[mint].admitted
  }

  predicate ChargeJustified(m: Money, id: nat, st: Stage, r: Resource) {
    match r
    case FreeToken(h, index) => OwnAllowance(m.limiters, st, h, index)
    case SpentKey(key) => OwnAnswer(m.journal.log, id, key)
    case LedgerClaim(mint, token) => OwnToken(m.mints, st, mint, token)
  }

  predicate StageJustified(m: Money, id: nat, st: Stage) {
    && (st.Paying? ==> ProofAlone(st.site.conf, st.request, st.proof))
    && (st.Queued? ==> TokenAlone(st.site.conf, st.request, st.token, st.price))
    && (st.Collecting? ==> st.mint in m.mints && HeldFor(m.mints[st.mint], st.mint, st))
    && (Charged(st).Some? ==> ChargeJustified(m, id, st, Charged(st).value))
  }

  predicate AllJustified(m: Money, q: Requests) { forall id :: id in q ==> StageJustified(m, id, q[id]) }

  // ---------- what later steps keep ----------

  predicate SameOrigin(q: Requests, q': Requests) {
    forall id :: id in q ==> id in q' && q'[id].site == q[id].site && q'[id].request == q[id].request
  }

  predicate LimitersGrow(ls: map<Handle, Table>, ls': map<Handle, Table>) {
    forall h :: h in ls ==> h in ls' && ls[h].log <= ls'[h].log && ls'[h].prefix == ls[h].prefix
  }

  predicate MintsGrow(ms: map<string, C.State>, ms': map<string, C.State>) {
    forall m :: m in ms ==> m in ms' && ms[m].admitted <= ms'[m].admitted
  }

  predicate MoneyGrows(m: Money, m': Money) {
    m.journal.log <= m'.journal.log && LimitersGrow(m.limiters, m'.limiters) && MintsGrow(m.mints, m'.mints)
  }

  lemma ChargeStays(m: Money, m': Money, id: nat, st: Stage, r: Resource)
    requires ChargeJustified(m, id, st, r) && MoneyGrows(m, m')
    ensures ChargeJustified(m', id, st, r)
  {
    if r.SpentKey? {
      var i :| 0 <= i < |m.journal.log| && m.journal.log[i].task == id && Admits(m.journal.log[i], r.key);
      assert m'.journal.log[i] == m.journal.log[i];
    } else if r.LedgerClaim? {
      var a := C.Admission(r.id, st.site.domain, st.site.conf.cashu.value.sats);
      var i :| 0 <= i < |m.mints[r.mint].admitted| && m.mints[r.mint].admitted[i] == a;
      assert m'.mints[r.mint].admitted[i] == a;
    }
  }

  /** The collector keeps its token, site and price for as long as it holds the lock. */
  predicate SameCollector(c: C.State, c': C.State) {
    && c.holder.Held? && c'.holder.Held?
    && c'.holder.collect.(phase := C.Opened) == c.holder.collect.(phase := C.Opened)
  }

  predicate LocksStay(m: Money, m': Money, q: Requests, id: nat) {
    forall n :: n in q && n != id && q[n].Collecting? && q[n].mint in m.mints ==>
      q[n].mint in m'.mints &&
      (m'.mints[q[n].mint] == m.mints[q[n].mint] || SameCollector(m.mints[q[n].mint], m'.mints[q[n].mint]))
  }

  /** One request moves; what the others were charged stays justified. */
  lemma OneMoves(m: Money, m': Money, q: Requests, id: nat, st: Stage)
    requires AllJustified(m, q) && MoneyGrows(m, m') && LocksStay(m, m', q, id) && StageJustified(m', id, st)
    ensures AllJustified(m', q[id := st])
  {
    forall n | n in q && n != id ensures StageJustified(m', n, q[n]) {
      assert StageJustified(m, n, q[n]);
      if Charged(q[n]).Some? { ChargeStays(m, m', n, q[n], Charged(q[n]).value); }
    }
  }

  lemma SameStays(m: Money, q: Requests, id: nat)
    ensures MoneyGrows(m, m) && LocksStay(m, m, q, id)
  {}

  // ---------- the journal's own run ----------

  /** A settlement is started only by a request that carries its proof alone. */
  predicate FromRequest(q: Requests, e: S.Event) {
    && (e.SettleX402? ==> e.task in q && ProofAlone(q[e.task].site.conf, q[e.task].request, X402(e.payment)))
    && (e.ReadRoot? ==> e.task in q && ProofAlone(q[e.task].site.conf, q[e.task].request, L402(e.credential)))
  }

  ghost predicate JournalRun(h: M.Hmac, t: S.Timing, j: S.State, q: Requests, run: seq<S.Event>) {
    && S.ConsistentRun(t, run) && j == S.Run(h, S.Pruning, S.INITIAL, run)
    && forall i :: 0 <= i < |run| ==> FromRequest(q, run[i])
  }

  ghost predicate Sourced(h: M.Hmac, t: S.Timing, j: S.State, q: Requests) {
    exists run :: JournalRun(h, t, j, q, run)
  }

  lemma SourcedStays(h: M.Hmac, t: S.Timing, j: S.State, q: Requests, q': Requests)
    requires Sourced(h, t, j, q) && SameOrigin(q, q')
    ensures Sourced(h, t, j, q')
  {
    var run :| JournalRun(h, t, j, q, run);
    forall i | 0 <= i < |run| ensures FromRequest(q', run[i]) { assert FromRequest(q, run[i]); }
    assert JournalRun(h, t, j, q', run);
  }

  lemma SourcedStep(h: M.Hmac, t: S.Timing, j: S.State, q: Requests, e: S.Event)
    requires Sourced(h, t, j, q) && S.Consistent(t, e) && FromRequest(q, e)
    ensures Sourced(h, t, S.Step(h, S.Pruning, j, e), q)
  {
    var run :| JournalRun(h, t, j, q, run);
    S.RunSnoc(h, run, e);
    assert JournalRun(h, t, S.Step(h, S.Pruning, j, e), q, run + [e]);
  }

  ghost predicate Justified(h: M.Hmac, t: S.Timing, s: State) {
    AllJustified(s.money, s.requests) && Sourced(h, t, s.money.journal, s.requests)
  }

  // ---------- steps of one request ----------

  /** The stage of a request that no journal or wallet is asked about. */
  lemma MovesAlone(h: M.Hmac, t: S.Timing, s: State, s': State, id: nat, st: Stage)
    requires Justified(h, t, s) && s'.money == s.money && s'.requests == s.requests[id := st]
    requires StageJustified(s.money, id, st)
    requires id in s.requests ==> st.site == s.requests[id].site && st.request == s.requests[id].request
    ensures Justified(h, t, s')
  {
    SameStays(s.money, s.requests, id);
    OneMoves(s.money, s.money, s.requests, id, st);
    SourcedStays(h, t, s.money.journal, s.requests, s'.requests);
  }

  lemma JustifiedMeter(h: M.Hmac, hash: R.Hasher, t: S.Timing, s: State, id: nat, at: nat)
    requires Justified(h, t, s) && id in s.requests && s.requests[id].Entered?
    ensures Justified(h, t, MeterStep(hash, s, id, s.requests[id], at))
  {
    var st := s.requests[id];
    MovesAlone(h, t, s, MeterStep(hash, s, id, st, at), id, MeterTo(hash, s.gate.verify, st, at).1);
  }

  lemma JustifiedAcquire(h: M.Hmac, t: S.Timing, s: State, id: nat)
    requires Justified(h, t, s) && id in s.requests && s.requests[id].Metered?
    ensures Justified(h, t, AcquireStep(s, id, s.requests[id]))
  {
    var st := s.requests[id];
    MovesAlone(h, t, s, AcquireStep(s, id, st), id, AcquireTo(s.gate.pools, st).1);
  }

  /** The proof or token that is used is the one the headers carry. */
  lemma JustifiedPick(h: M.Hmac, t: S.Timing, s: State, id: nat)
    requires Justified(h, t, s) && id in s.requests && s.requests[id].Holding?
    ensures Justified(h, t, To(s, id, PickTo(s.config.stores, s.requests[id])))
  {
    var st := s.requests[id];
    ChoiceIsExact(st.site.conf, st.request, s.config.stores);
    MovesAlone(h, t, s, To(s, id, PickTo(s.config.stores, st)), id, PickTo(s.config.stores, st));
  }

  lemma JustifiedDispatch(h: M.Hmac, t: S.Timing, s: State, id: nat)
    requires Justified(h, t, s) && id in s.requests && s.requests[id].Ready?
    ensures Justified(h, t, To(s, id, Delivered(s.requests[id])))
  {
    var st := s.requests[id];
    assert StageJustified(s.money, id, st);
    MovesAlone(h, t, s, To(s, id, Delivered(st)), id, Delivered(st));
  }

  lemma JustifiedArrive(h: M.Hmac, t: S.Timing, s: State, id: nat, domain: string, q: Request)
    requires Justified(h, t, s)
    ensures Justified(h, t, ArriveStep(s, id, domain, q))
  {
    if id !in s.requests && domain in s.config.sites {
      var s' := ArriveStep(s, id, domain, q);
      MovesAlone(h, t, s, s', id, s'.requests[id]);
    }
  }

  // ---------- the allowance ----------

  lemma CheckRecordsClient(hash: R.Hasher, l: Table, client: R.Address, at: nat)
    ensures var (next, verdict) := CheckAt(hash, l, client, at);
            && next.prefix == l.prefix && l.log <= next.log
            && (verdict.Some? ==> next.log[|l.log|].client == R.ClientKey(client, l.prefix))
  {}

  lemma AskJustified(hash: R.Hasher, m: Money, id: nat, st: Stage, at: nat, challenged: bool)
    requires st.Asking?
    ensures var (limiters, st') := AskTo(hash, m.limiters, st, at, challenged);
            && MoneyGrows(m, m.(limiters := limiters)) && StageJustified(m.(limiters := limiters), id, st')
            && st'.site == st.site && st'.request == st.request
  {
    if st.request.client.Some? && st.site.conf.free.Some? {
      var own := LimiterAt(m.limiters, st.site.free, st.site.conf.free.value, at);
      CheckRecordsClient(hash, own, st.request.client.value, at);
    }
  }

  lemma JustifiedAsk(h: M.Hmac, hash: R.Hasher, t: S.Timing, s: State, id: nat, at: nat, challenged: bool)
    requires Justified(h, t, s) && id in s.requests && s.requests[id].Asking?
    ensures Justified(h, t, AskStep(hash, s, id, s.requests[id], at, challenged))
  {
    var (limiters, st) := AskTo(hash, s.money.limiters, s.requests[id], at, challenged);
    AskJustified(hash, s.money, id, s.requests[id], at, challenged);
    OneMoves(s.money, s.money.(limiters := limiters), s.requests, id, st);
    SourcedStays(h, t, s.money.journal, s.requests, s.requests[id := st]);
  }

  // ---------- the journal ----------

  /** A journal answers a task at most once in a step. */
  lemma JournalGrows(h: M.Hmac, j: S.State, e: S.Event)
    ensures var log := S.Step(h, S.Pruning, j, e).log; j.log <= log && |log| <= |j.log| + 1
  {
    S.OneAnswer(h, j, e);
  }

  lemma JustifiedAnswer(h: M.Hmac, t: S.Timing, s: State, next: S.State)
    requires AllJustified(s.money, s.requests) && Sourced(h, t, next, s.requests)
    requires s.money.journal.log <= next.log && |next.log| <= |s.money.journal.log| + 1
    ensures Justified(h, t, AfterJournal(s, next))
  {
    var m' := s.money.(journal := next);
    var n := |next.log| - 1;
    if |next.log| > |s.money.journal.log| && next.log[n].task in s.requests {
      var a := next.log[n];
      var st := Resolve(s.requests[a.task], a.outcome);
      if a.outcome.Admitted? { assert OwnAnswer(next.log, a.task, a.outcome.key); }
      OneMoves(s.money, m', s.requests, a.task, st);
      SourcedStays(h, t, next, s.requests, s.requests[a.task := st]);
    } else {
      forall id | id in s.requests ensures StageJustified(m', id, s.requests[id]) {
        var st := s.requests[id];
        assert StageJustified(s.money, id, st);
        if Charged(st).Some? { ChargeStays(s.money, m', id, st, Charged(st).value); }
      }
    }
  }

  lemma JustifiedJournal(h: M.Hmac, t: S.Timing, s: State, e: S.Event)
    requires Justified(h, t, s) && Ongoing(e) && S.Consistent(t, e)
    ensures Justified(h, t, AfterJournal(s, S.Step(h, S.Pruning, s.money.journal, e)))
  {
    SourcedStep(h, t, s.money.journal, s.requests, e);
    JournalGrows(h, s.money.journal, e);
    JustifiedAnswer(h, t, s, S.Step(h, S.Pruning, s.money.journal, e));
  }

  lemma JustifiedSettle(h: M.Hmac, t: S.Timing, s: State, id: nat)
    requires Justified(h, t, s) && id in s.requests && s.requests[id].Paying? && StageSound(t, s.requests[id])
    ensures Justified(h, t, SettleStep(h, s, id, s.requests[id]))
  {
    var st := s.requests[id];
    var e, begun := SettleEvent(id, st.proof), To(s, id, Settling(st.site, st.request));
    assert StageJustified(s.money, id, st);
    MovesAlone(h, t, s, begun, id, Settling(st.site, st.request));
    SourcedStep(h, t, s.money.journal, begun.requests, e);
    JournalGrows(h, s.money.journal, e);
    JustifiedAnswer(h, t, begun, S.Step(h, S.Pruning, s.money.journal, e));
  }

  // ---------- the wallets ----------

  /** A wallet step admits what the lock is held for, or nothing. */
  predicate AdmitsItsHolder(c: C.State, c': C.State) {
    && (c'.admitted == c.admitted ||
        (c.holder.Held? && c'.holder.Free? &&
         var x := c.holder.collect;
         c'.admitted == c.admitted + [C.Admission(x.token.id, x.site, x.price)]))
    && (c'.holder.Held? ==> SameCollector(c, c'))
  }

  lemma WalletAdmitsItsHolder(c: C.State, e: C.Event)
    requires Unattended(e)
    ensures AdmitsItsHolder(c, C.Step(c, e))
  {}

  lemma OtherLocksStay(m: Money, q: Requests, owners: map<string, nat>, mint: string, next: C.State, id: nat)
    requires OwnersSound(m.mints, owners, q) && mint in m.mints
    requires SameCollector(m.mints[mint], next) || (mint in owners ==> owners[mint] == id)
    ensures LocksStay(m, m.(mints := m.mints[mint := next]), q, id)
  {}

  lemma ReleasedJustified(m: Money, id: nat, st: Stage, next: C.State)
    requires StageJustified(m, id, st) && st.Collecting? && next.holder.Free? && AdmitsItsHolder(m.mints[st.mint], next)
    ensures StageJustified(m.(mints := m.mints[st.mint := next]), id, Released(st, st.mint, m.mints[st.mint], next))
  {
    var c := m.mints[st.mint];
    if |next.admitted| > |c.admitted| {
      var x := c.holder.collect;
      assert st.request.cashu == [Some(x.token)];
      assert next.admitted[|c.admitted|] == C.Admission(x.token.id, x.site, x.price);
    }
  }

  lemma WalletGrows(m: Money, mint: string, next: C.State)
    requires mint in m.mints && AdmitsItsHolder(m.mints[mint], next)
    ensures MoneyGrows(m, m.(mints := m.mints[mint := next]))
  {}

  lemma ReleaseMoves(m: Money, q: Requests, owners: map<string, nat>, mint: string, next: C.State)
    requires AllJustified(m, q) && OwnersSound(m.mints, owners, q) && mint in owners && mint in m.mints
    requires Owns(q, owners[mint], mint) && next.holder.Free? && AdmitsItsHolder(m.mints[mint], next)
    ensures var id := owners[mint];
            AllJustified(m.(mints := m.mints[mint := next]), q[id := Released(q[id], mint, m.mints[mint], next)])
  {
    var id := owners[mint];
    assert StageJustified(m, id, q[id]);
    ReleasedJustified(m, id, q[id], next);
    OtherLocksStay(m, q, owners, mint, next, id);
    WalletGrows(m, mint, next);
    OneMoves(m, m.(mints := m.mints[mint := next]), q, id, Released(q[id], mint, m.mints[mint], next));
  }

  lemma JustifiedRelease(h: M.Hmac, t: S.Timing, s: State, mint: string, next: C.State)
    requires Inv(h, t, s) && Justified(h, t, s) && mint in s.owners && mint in s.money.mints
    requires next.holder.Free? && AdmitsItsHolder(s.money.mints[mint], next)
    ensures Justified(h, t, AfterWallet(s, mint, s.money.mints[mint], next))
  {
    var id := s.owners[mint];
    assert Owns(s.requests, id, mint);
    ReleaseMoves(s.money, s.requests, s.owners, mint, next);
    SourcedStays(h, t, s.money.journal, s.requests,
                 s.requests[id := Released(s.requests[id], mint, s.money.mints[mint], next)]);
  }

  /** A wallet that nobody waits for, or that stays locked. */
  lemma BusyStays(m: Money, q: Requests, owners: map<string, nat>, mint: string, next: C.State)
    requires AllJustified(m, q) && OwnersSound(m.mints, owners, q) && mint in m.mints
    requires AdmitsItsHolder(m.mints[mint], next) && (mint !in owners || next.holder.Held?)
    ensures AllJustified(m.(mints := m.mints[mint := next]), q)
  {
    var m' := m.(mints := m.mints[mint := next]);
    WalletGrows(m, mint, next);
    forall id | id in q ensures StageJustified(m', id, q[id]) {
      assert StageJustified(m, id, q[id]);
      if Charged(q[id]).Some? { ChargeStays(m, m', id, q[id], Charged(q[id]).value); }
    }
  }

  lemma JustifiedWallet(h: M.Hmac, t: S.Timing, s: State, mint: string, next: C.State)
    requires Inv(h, t, s) && Justified(h, t, s) && mint in s.money.mints && AdmitsItsHolder(s.money.mints[mint], next)
    ensures Justified(h, t, AfterWallet(s, mint, s.money.mints[mint], next))
  {
    if mint in s.owners && next.holder.Free? {
      JustifiedRelease(h, t, s, mint, next);
    } else {
      BusyStays(s.money, s.requests, s.owners, mint, next);
    }
  }

  /** The lock is taken for the token and the price that the request was queued with. */
  lemma TakeMoves(m: Money, q: Requests, owners: map<string, nat>, id: nat, next: C.State)
    requires AllJustified(m, q) && OwnersSound(m.mints, owners, q) && id in q && q[id].Queued?
    requires var st := q[id];
             && st.price.mint !in owners && next.admitted == MintAt(m.mints, st.price.mint).admitted
             && next.holder == C.Held(C.Collect(st.token, st.site.domain, st.price.sats, C.Opened))
    ensures var st := q[id];
            AllJustified(m.(mints := m.mints[st.price.mint := next]),
                         q[id := Collecting(st.site, st.request, st.price.mint)])
  {
    var st := q[id];
    assert StageJustified(m, id, st);
    OneMoves(m, m.(mints := m.mints[st.price.mint := next]), q, id, Collecting(st.site, st.request, st.price.mint));
  }

  lemma JustifiedCollect(h: M.Hmac, t: S.Timing, s: State, id: nat, busy: bool)
    requires Inv(h, t, s) && Justified(h, t, s) && id in s.requests && s.requests[id].Queued?
    ensures Justified(h, t, CollectStep(s, id, s.requests[id], busy))
  {
    var st := s.requests[id];
    var before := MintAt(s.money.mints, st.price.mint);
    if busy || before.holder.Held? {
      MovesAlone(h, t, s, CollectStep(s, id, st, busy), id, Done(st.site, st.request, None, Declined));
    } else {
      TakeMoves(s.money, s.requests, s.owners, id,
                C.Step(before, C.Start(st.token, st.site.domain, st.price.sats)));
      SourcedStays(h, t, s.money.journal, s.requests,
                   s.requests[id := Collecting(st.site, st.request, st.price.mint)]);
    }
  }

  // ---------- cancellation and crashes ----------

  lemma JustifiedDetach(h: M.Hmac, t: S.Timing, s: State, id: nat)
    requires Justified(h, t, s) && id in s.requests && s.requests[id].Settling?
    ensures Justified(h, t, CancelStep(h, s, id, s.requests[id], false))
    ensures Justified(h, t, CancelStep(h, s, id, s.requests[id], true))
  {
    var next := S.Step(h, S.Pruning, s.money.journal, S.Cancel(id));
    var st := Gone(s.requests[id]);
    SourcedStep(h, t, s.money.journal, s.requests, S.Cancel(id));
    CancelEnds(h, s.money.journal, id);
    OneMoves(s.money, s.money.(journal := next), s.requests, id, st);
    SourcedStays(h, t, next, s.requests, s.requests[id := st]);
  }

  lemma LetGoMoves(m: Money, q: Requests, owners: map<string, nat>, id: nat, next: C.State)
    requires AllJustified(m, q) && OwnersSound(m.mints, owners, q) && id in q && q[id].Collecting?
    requires q[id].mint in m.mints && next.holder.Free? && next.admitted == m.mints[q[id].mint].admitted
    ensures AllJustified(m.(mints := m.mints[q[id].mint := next]), q[id := Gone(q[id])])
  {
    OtherLocksStay(m, q, owners, q[id].mint, next, id);
    OneMoves(m, m.(mints := m.mints[q[id].mint := next]), q, id, Gone(q[id]));
  }

  lemma JustifiedLetGo(h: M.Hmac, t: S.Timing, s: State, id: nat, next: C.State)
    requires OwnersSound(s.money.mints, s.owners, s.requests) && Justified(h, t, s)
    requires id in s.requests && s.requests[id].Collecting?
    requires next.holder.Free? && next.admitted == s.money.mints[s.requests[id].mint].admitted
    ensures var m' := s.money.(mints := s.money.mints[s.requests[id].mint := next]);
            Justified(h, t, s.(money := m', owners := s.owners - {s.requests[id].mint},
                               requests := s.requests[id := Gone(s.requests[id])]))
  {
    LetGoMoves(s.money, s.requests, s.owners, id, next);
    SourcedStays(h, t, s.money.journal, s.requests, s.requests[id := Gone(s.requests[id])]);
  }

  lemma JustifiedCancel(h: M.Hmac, t: S.Timing, s: State, id: nat, inFlight: bool)
    requires Inv(h, t, s) && Justified(h, t, s) && id in s.requests && !s.requests[id].Done?
    ensures Justified(h, t, CancelStep(h, s, id, s.requests[id], inFlight))
  {
    var st := s.requests[id];
    if st.Settling? { JustifiedDetach(h, t, s, id); }
    else if st.Collecting? {
      var c := s.money.mints[st.mint];
      CancelReleases(c, inFlight);
      JustifiedLetGo(h, t, s, id, C.Step(c, C.Cancel(inFlight)));
    }
    else {
      assert StageJustified(s.money, id, st);
      MovesAlone(h, t, s, CancelStep(h, s, id, st, inFlight), id, Ended(st));
    }
  }

  lemma LostJustified(m: Money, m': Money, q: Requests)
    requires AllJustified(m, q) && MoneyGrows(m, m')
    ensures AllJustified(m', Lost(q))
  {
    forall id | id in q ensures StageJustified(m', id, Ended(q[id])) {
      assert StageJustified(m, id, q[id]);
      if Charged(q[id]).Some? { ChargeStays(m, m', id, Ended(q[id]), Charged(q[id]).value); }
    }
  }

  lemma CrashedGrow(ms: map<string, C.State>)
    requires MintsSound(ms)
    ensures MintsGrow(ms, Crashed(ms))
  {
    forall mint | mint in ms ensures Crashed(ms)[mint].admitted == ms[mint].admitted { CrashKeeps(ms[mint]); }
  }

  lemma RestartSourced(h: M.Hmac, t: S.Timing, j: S.State, q: Requests)
    requires Sourced(h, t, j, q)
    ensures Sourced(h, t, S.Step(h, S.Pruning, j, S.Restart), Lost(q))
    ensures S.Step(h, S.Pruning, j, S.Restart).log == j.log
  {
    SourcedStep(h, t, j, q, S.Restart);
    SourcedStays(h, t, S.Step(h, S.Pruning, j, S.Restart), q, Lost(q));
  }

  lemma JustifiedCrash(h: M.Hmac, t: S.Timing, s: State)
    requires MintsSound(s.money.mints) && Justified(h, t, s)
    ensures Justified(h, t, CrashStep(h, s))
  {
    var next := S.Step(h, S.Pruning, s.money.journal, S.Restart);
    RestartSourced(h, t, s.money.journal, s.requests);
    CrashedGrow(s.money.mints);
    LostJustified(s.money, s.money.(journal := next, mints := Crashed(s.money.mints)), s.requests);
  }

  // ---------- every run ----------

  lemma JustifiedRequest(h: M.Hmac, hash: R.Hasher, t: S.Timing, s: State, e: Event)
    requires Inv(h, t, s) && Justified(h, t, s) && OfRequest(e)
    ensures Justified(h, t, RequestStep(h, hash, s, e))
  {
    if e.id in s.requests {
      var st := s.requests[e.id];
      if e.Meter? { if st.Entered? { JustifiedMeter(h, hash, t, s, e.id, e.at); } }
      else if e.Acquire? { if st.Metered? { JustifiedAcquire(h, t, s, e.id); } }
      else if e.Pick? { if st.Holding? { JustifiedPick(h, t, s, e.id); } }
      else if e.AskFree? { if st.Asking? { JustifiedAsk(h, hash, t, s, e.id, e.at, e.challenged); } }
      else if e.BeginSettle? { if st.Paying? { JustifiedSettle(h, t, s, e.id); } }
      else if e.BeginCollect? { if st.Queued? { JustifiedCollect(h, t, s, e.id, e.busy); } }
      else if e.Dispatch? { if st.Ready? { JustifiedDispatch(h, t, s, e.id); } }
      else if !st.Done? { JustifiedCancel(h, t, s, e.id, e.inFlight); }
    }
  }

  lemma JustifiedStep(h: M.Hmac, hash: R.Hasher, t: S.Timing, s: State, e: Event)
    requires Inv(h, t, s) && Justified(h, t, s) && Timed(t, e)
    ensures Justified(h, t, Step(h, hash, s, e))
  {
    if OfRequest(e) { JustifiedRequest(h, hash, t, s, e); }
    else if e.Arrive? { JustifiedArrive(h, t, s, e.id, e.domain, e.request); }
    else if e.Journal? { if Ongoing(e.step) { JustifiedJournal(h, t, s, e.step); } }
    else if e.Wallet? {
      if e.mint in s.money.mints && Unattended(e.action) {
        WalletAdmitsItsHolder(s.money.mints[e.mint], e.action);
        JustifiedWallet(h, t, s, e.mint, C.Step(s.money.mints[e.mint], e.action));
      }
    }
    else if e.Crash? { JustifiedCrash(h, t, s); }
  }

  lemma {:induction false} JustifiedRun(h: M.Hmac, hash: R.Hasher, t: S.Timing, config: Config, run: seq<Event>)
    requires forall e :: e in run ==> Timed(t, e)
    ensures Justified(h, t, Run(h, hash, Initial(config), run))
    decreases |run|
  {
    if run == [] {
      assert JournalRun(h, t, S.INITIAL, map[], []);
    } else {
      var front, e := run[..|run| - 1], run[|run| - 1];
      assert e in run;
      JustifiedRun(h, hash, t, config, front);
      InvRun(h, hash, t, config, front);
      JustifiedStep(h, hash, t, Run(h, hash, Initial(config), front), e);
    }
  }

  // ---------- a request stays what it was on arrival ----------

  predicate SameRequests(q: Requests, q': Requests) { q'.Keys == q.Keys && SameOrigin(q, q') }

  lemma JournalKeepsOrigin(s: State, next: S.State)
    ensures SameRequests(s.requests, AfterJournal(s, next).requests)
  {}

  lemma WalletKeepsOrigin(s: State, mint: string, before: C.State, next: C.State)
    ensures SameRequests(s.requests, AfterWallet(s, mint, before, next).requests)
  {}

  predicate Continues(st: Stage, st': Stage) { st'.site == st.site && st'.request == st.request }

  lemma GatesContinue(hash: R.Hasher, g: Gate, limiters: map<Handle, Table>, stores: Stores, st: Stage, at: nat,
                      challenged: bool)
    ensures st.Entered? ==> Continues(st, MeterTo(hash, g.verify, st, at).1)
    ensures st.Metered? ==> Continues(st, AcquireTo(g.pools, st).1)
    ensures st.Holding? ==> Continues(st, PickTo(stores, st))
    ensures st.Asking? ==> Continues(st, AskTo(hash, limiters, st, at, challenged).1)
  {}

  lemma MoveKeepsOrigin(q: Requests, q': Requests, id: nat, st: Stage)
    requires id in q && q' == q[id := st] && Continues(q[id], st)
    ensures SameRequests(q, q')
  {}

  lemma GatesKeepOrigin(h: M.Hmac, hash: R.Hasher, s: State, e: Event)
    requires (e.Meter? || e.Acquire? || e.Pick? || e.AskFree?) && e.id in s.requests
    ensures SameRequests(s.requests, RequestStep(h, hash, s, e).requests)
  {
    var st, q' := s.requests[e.id], RequestStep(h, hash, s, e).requests;
    GatesContinue(hash, s.gate, s.money.limiters, s.config.stores, st, if e.Meter? || e.AskFree? then e.at else 0,
                  e.AskFree? && e.challenged);
    if q' != s.requests { MoveKeepsOrigin(s.requests, q', e.id, q'[e.id]); }
  }

  lemma EndsKeepOrigin(h: M.Hmac, hash: R.Hasher, s: State, e: Event)
    requires (e.BeginCollect? || e.Dispatch? || e.Cancel?) && e.id in s.requests
    ensures SameRequests(s.requests, RequestStep(h, hash, s, e).requests)
  {
    var q' := RequestStep(h, hash, s, e).requests;
    if q' != s.requests { MoveKeepsOrigin(s.requests, q', e.id, q'[e.id]); }
  }

  lemma RequestKeepsOrigin(h: M.Hmac, hash: R.Hasher, s: State, e: Event)
    requires OfRequest(e)
    ensures SameRequests(s.requests, RequestStep(h, hash, s, e).requests)
  {
    if e.id in s.requests {
      var st := s.requests[e.id];
      if e.Meter? || e.Acquire? || e.Pick? || e.AskFree? { GatesKeepOrigin(h, hash, s, e); }
      else if !e.BeginSettle? { EndsKeepOrigin(h, hash, s, e); }
      else if st.Paying? {
        JournalKeepsOrigin(To(s, e.id, Settling(st.site, st.request)),
                           S.Step(h, S.Pruning, s.money.journal, SettleEvent(e.id, st.proof)));
      }
    }
  }

  lemma LostKeepsOrigin(q: Requests)
    ensures SameRequests(q, Lost(q))
  {}

  lemma StepKeepsOrigin(h: M.Hmac, hash: R.Hasher, s: State, e: Event)
    requires !e.Arrive?
    ensures SameRequests(s.requests, Step(h, hash, s, e).requests)
  {
    if OfRequest(e) { RequestKeepsOrigin(h, hash, s, e); }
    else if e.Journal? { JournalKeepsOrigin(s, S.Step(h, S.Pruning, s.money.journal, e.step)); }
    else if e.Wallet? {
      if e.mint in s.money.mints {
        WalletKeepsOrigin(s, e.mint, s.money.mints[e.mint], C.Step(s.money.mints[e.mint], e.action));
      }
    }
    else if e.Crash? { LostKeepsOrigin(s.requests); }
  }

  /** Event `i` brought request `id`, with these headers, to this site as configured then. */
  predicate ArrivedAt(h: M.Hmac, hash: R.Hasher, config: Config, run: seq<Event>, i: nat, id: nat, site: Site,
                      q: Request)
  {
    && i < |run| && run[i].Arrive? && run[i].id == id && run[i].request == q
    && var sites := Run(h, hash, Initial(config), run[..i]).config.sites;
       run[i].domain in sites && sites[run[i].domain] == site
  }

  /** Over every run, the site and the headers of a request are those of its arrival:
      reloads in the meantime change neither its price nor its proof. */
  lemma {:induction false} RequestsStayAsArrived(h: M.Hmac, hash: R.Hasher, config: Config, run: seq<Event>, id: nat)
    requires id in Run(h, hash, Initial(config), run).requests
    ensures var st := Run(h, hash, Initial(config), run).requests[id];
            exists i: nat :: ArrivedAt(h, hash, config, run, i, id, st.site, st.request)
    decreases |run|
  {
    var n := |run| - 1;
    var front, e := run[..n], run[n];
    var q, st := Run(h, hash, Initial(config), front).requests, Run(h, hash, Initial(config), run).requests[id];
    if id in q {
      RequestsStayAsArrived(h, hash, config, front, id);
      var i: nat :| ArrivedAt(h, hash, config, front, i, id, q[id].site, q[id].request);
      assert front[..i] == run[..i];
      if !e.Arrive? { StepKeepsOrigin(h, hash, Run(h, hash, Initial(config), front), e); }
      assert ArrivedAt(h, hash, config, run, i, id, st.site, st.request);
    } else {
      if !e.Arrive? { StepKeepsOrigin(h, hash, Run(h, hash, Initial(config), front), e); }
      assert ArrivedAt(h, hash, config, run, n, id, st.site, st.request);
    }
  }

  // ---------- main results ----------

  /** The steps of the journal in which the request proved its payment. */
  ghost predicate ProvedIn(h: M.Hmac, st: Stage, steps: seq<S.Event>, id: nat, key: S.Key) {
    || (exists i: nat ::
          S.PaymentProved(h, steps, i, id, key) && ProofAlone(st.site.conf, st.request, X402(steps[i].payment)))
    || (exists i: nat, j: nat ::
          && S.CredentialProved(h, steps, j, i, id, key)
          && ProofAlone(st.site.conf, st.request, L402(steps[j].credential)))
  }

  lemma AnswerWasProved(h: M.Hmac, t: S.Timing, j: S.State, q: Requests, steps: seq<S.Event>, id: nat, key: S.Key)
    requires JournalRun(h, t, j, q, steps) && OwnAnswer(j.log, id, key) && id in q
    ensures ProvedIn(h, q[id], steps, id, key)
  {
    var n :| 0 <= n < |j.log| && j.log[n].task == id && Admits(j.log[n], key);
    S.AdmittedWasProved(h, steps, j.log[n]);
    var i: nat, k: nat :| && i < k && S.Held(h, steps, id, i, k)
                && (S.PaymentProved(h, steps, i, id, key) || exists j :: S.CredentialProved(h, steps, j, i, id, key))
                && S.ClaimedAt(h, steps, k, id, j.log[n].outcome);
    if S.PaymentProved(h, steps, i, id, key) {
      assert FromRequest(q, steps[i]);
    } else {
      var j: nat :| S.CredentialProved(h, steps, j, i, id, key);
      assert FromRequest(q, steps[j]);
    }
  }

  /** Some course of the journal, with every settlement started by a request that
      carried its proof, in which this request proved its payment. */
  ghost predicate KeyWasProved(h: M.Hmac, t: S.Timing, s: State, id: nat, key: S.Key)
    requires id in s.requests
  {
    exists steps ::
      JournalRun(h, t, s.money.journal, s.requests, steps) && ProvedIn(h, s.requests[id], steps, id, key)
  }

  lemma ChargedKeyWasProved(h: M.Hmac, t: S.Timing, s: State, id: nat, key: S.Key)
    requires Justified(h, t, s) && Charges(s.requests, id, SpentKey(key))
    ensures KeyWasProved(h, t, s, id, key)
  {
    assert StageJustified(s.money, id, s.requests[id]);
    var steps :| JournalRun(h, t, s.money.journal, s.requests, steps);
    AnswerWasProved(h, t, s.money.journal, s.requests, steps, id, key);
  }

  /** Over every run, a request charged with a payment hash carried the proof of it
      alone: a genuine payment in its window, or a credential that the stored root
      authorized when it was verified. */
  lemma SpentKeyWasProved(h: M.Hmac, hash: R.Hasher, t: S.Timing, config: Config, run: seq<Event>, id: nat, key: S.Key)
    requires forall e :: e in run ==> Timed(t, e)
    requires Charges(Run(h, hash, Initial(config), run).requests, id, SpentKey(key))
    ensures KeyWasProved(h, t, Run(h, hash, Initial(config), run), id, key)
  {
    JustifiedRun(h, hash, t, config, run);
    ChargedKeyWasProved(h, t, Run(h, hash, Initial(config), run), id, key);
  }

  /** Over every run, a request charged with a ledger claim carried that token alone,
      and the ledger admitted it at the request's site and its configured price. */
  lemma ClaimPaidTheConfiguredPrice(h: M.Hmac, hash: R.Hasher, t: S.Timing, config: Config, run: seq<Event>, id: nat,
                                    mint: string, token: C.Id)
    requires forall e :: e in run ==> Timed(t, e)
    requires Charges(Run(h, hash, Initial(config), run).requests, id, LedgerClaim(mint, token))
    ensures var s := Run(h, hash, Initial(config), run);
            var site, q := s.requests[id].site, s.requests[id].request;
            && site.conf.cashu.Some? && site.conf.cashu.value.mint == mint
            && |q.cashu| == 1 && q.cashu[0].Some? && q.cashu[0].value.id == token
            && mint in s.money.mints
            && C.Admission(token, site.domain, site.conf.cashu.value.sats) in s.money.mints[mint].admitted
  {
    JustifiedRun(h, hash, t, config, run);
    var s := Run(h, hash, Initial(config), run);
    assert StageJustified(s.money, id, s.requests[id]);
  }

  /** Over every run, a request charged with a free token drew it as its own client
      from its own site's limiter. */
  lemma FreeTokenWasTheClients(h: M.Hmac, hash: R.Hasher, t: S.Timing, config: Config, run: seq<Event>, id: nat,
                               limiter: Handle, index: nat)
    requires forall e :: e in run ==> Timed(t, e)
    requires Charges(Run(h, hash, Initial(config), run).requests, id, FreeToken(limiter, index))
    ensures var s := Run(h, hash, Initial(config), run);
            OwnAllowance(s.money.limiters, s.requests[id], limiter, index)
  {
    JustifiedRun(h, hash, t, config, run);
    var s := Run(h, hash, Initial(config), run);
    assert StageJustified(s.money, id, s.requests[id]);
  }

  // ---------- the value received ----------

  predicate PaidAt(st: Stage, mint: string) {
    Charged(st).Some? && Charged(st).value.LedgerClaim? && Charged(st).value.mint == mint && st.site.conf.cashu.Some?
  }

  /** What the requests numbered below `n` owe a mint's wallet, at the prices
      configured for their sites. */
  function Bills(q: Requests, mint: string, n: nat): seq<C.Admission> {
    if n == 0 then []
    else
      Bills(q, mint, n - 1) +
      if n - 1 in q && PaidAt(q[n - 1], mint) then
        [C.Admission(Charged(q[n - 1]).value.id, q[n - 1].site.domain, q[n - 1].site.conf.cashu.value.sats)]
      else []
  }

  predicate Billed(q: Requests, mint: string, id: nat, a: C.Admission) {
    && id in q && PaidAt(q[id], mint)
    && a == C.Admission(Charged(q[id]).value.id, q[id].site.domain, q[id].site.conf.cashu.value.sats)
  }

  lemma {:induction false} BillsAreOfRequests(q: Requests, mint: string, n: nat)
    ensures forall a :: a in Bills(q, mint, n) ==> exists id :: 0 <= id < n && Billed(q, mint, id, a)
    decreases n
  {
    if n > 0 {
      BillsAreOfRequests(q, mint, n - 1);
      forall a | a in Bills(q, mint, n) ensures exists id :: 0 <= id < n && Billed(q, mint, id, a) {
        if a in Bills(q, mint, n - 1) {
          var id :| 0 <= id < n - 1 && Billed(q, mint, id, a);
          assert 0 <= id < n && Billed(q, mint, id, a);
        } else {
          assert Billed(q, mint, n - 1, a);
        }
      }
    }
  }

  predicate DistinctIds(b: seq<C.Admission>) { forall i, j :: 0 <= i < j < |b| ==> b[i].id != b[j].id }

  predicate AllFunded(done: seq<C.Transaction>, b: seq<C.Admission>) {
    forall i :: 0 <= i < |b| ==> C.Funded(done, b[i].id, b[i].price)
  }

  lemma OneMoreDistinct(b: seq<C.Admission>, a: C.Admission)
    requires DistinctIds(b) && forall x :: x in b ==> x.id != a.id
    ensures DistinctIds(b + [a])
  {}

  lemma {:induction false} BillsAreDistinct(m: Money, q: Requests, mint: string, n: nat)
    requires Balanced(m, q)
    ensures DistinctIds(Bills(q, mint, n))
    decreases n
  {
    if n > 0 {
      BillsAreDistinct(m, q, mint, n - 1);
      BillsAreOfRequests(q, mint, n - 1);
      var front := Bills(q, mint, n - 1);
      if n - 1 in q && PaidAt(q[n - 1], mint) {
        var last := C.Admission(Charged(q[n - 1]).value.id, q[n - 1].site.domain, q[n - 1].site.conf.cashu.value.sats);
        forall x | x in front ensures x.id != last.id {
          var id :| 0 <= id < n - 1 && Billed(q, mint, id, x);
          if x.id == last.id {
            assert Charges(q, id, LedgerClaim(mint, last.id)) && Charges(q, n - 1, LedgerClaim(mint, last.id));
          }
        }
        OneMoreDistinct(front, last);
      }
    }
  }

  lemma BillsAreFunded(m: Money, q: Requests, mint: string, n: nat)
    requires AllJustified(m, q) && mint in m.mints && C.Inv(m.mints[mint])
    ensures AllFunded(m.mints[mint].done, Bills(q, mint, n))
  {
    var b, c := Bills(q, mint, n), m.mints[mint];
    BillsAreOfRequests(q, mint, n);
    forall i | 0 <= i < |b| ensures C.Funded(c.done, b[i].id, b[i].price) {
      assert b[i] in b;
      var id :| 0 <= id < n && Billed(q, mint, id, b[i]);
      assert StageJustified(m, id, q[id]);
      assert b[i] in c.admitted;
      var k :| 0 <= k < |c.admitted| && c.admitted[k] == b[i];
      assert C.AdmissionSound(c, c.admitted[k]);
    }
  }

  lemma BillsAreCovered(m: Money, q: Requests, mint: string, n: nat)
    requires AllJustified(m, q) && Balanced(m, q) && mint in m.mints && C.Inv(m.mints[mint])
    ensures C.Prices(Bills(q, mint, n)) <= C.Received(m.mints[mint].done)
  {
    BillsAreDistinct(m, q, mint, n);
    BillsAreFunded(m, q, mint, n);
    C.PricesCovered(m.mints[mint].done, Bills(q, mint, n));
  }

  /** Over every run, what a mint's wallet has received covers the configured prices
      of all requests that were let in, or charged and then cancelled, for one of
      its tokens. */
  lemma ReceivedCoversConfiguredPrices(h: M.Hmac, hash: R.Hasher, t: S.Timing, config: Config, run: seq<Event>,
                                       mint: string, n: nat)
    requires (forall e :: e in run ==> Timed(t, e)) && mint in Run(h, hash, Initial(config), run).money.mints
    ensures var s := Run(h, hash, Initial(config), run);
            C.Prices(Bills(s.requests, mint, n)) <= C.Received(s.money.mints[mint].done)
  {
    InvRun(h, hash, t, config, run);
    JustifiedRun(h, hash, t, config, run);
    var s := Run(h, hash, Initial(config), run);
    BillsAreCovered(s.money, s.requests, mint, n);
  }
}
