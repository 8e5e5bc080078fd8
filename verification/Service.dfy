/** What an undisturbed request gets: one that passes the gates and offers a proof,
    a token or an allowance that holds is dispatched, and charged exactly that. */
module Service {
  import opened Basics
  import M = L402
  import S = Settlement
  import C = CashuLedger
  import R = RateLimit
  import P = Capacity
  import opened Admission

  lemma RunSnoc(h: M.Hmac, hash: R.Hasher, s: State, run: seq<Event>, e: Event)
    ensures Run(h, hash, s, run + [e]) == Step(h, hash, Run(h, hash, s, run), e)
  {
    assert (run + [e])[..|run|] == run;
  }

  lemma {:induction false} RunConcat(h: M.Hmac, hash: R.Hasher, s: State, a: seq<Event>, b: seq<Event>)
    ensures Run(h, hash, s, a + b) == Run(h, hash, Run(h, hash, s, a), b)
    decreases |b|
  {
    if b == [] {
      assert a + b == a;
    } else {
      var n := |b| - 1;
      RunConcat(h, hash, s, a, b[..n]);
      assert (a + b)[..|a + b| - 1] == a + b[..n];
    }
  }

  lemma RunTwo(h: M.Hmac, hash: R.Hasher, s: State, a: Event, b: Event)
    ensures Run(h, hash, s, [a, b]) == Step(h, hash, Step(h, hash, s, a), b)
  {
    RunSnoc(h, hash, s, [], a);
    RunSnoc(h, hash, s, [a], b);
    assert [] + [a] == [a] && [a] + [b] == [a, b];
  }

  // ---------- the gates before any proof is looked at ----------

  /** The verification limit lets the request through, or is not asked. */
  predicate MeterPasses(hash: R.Hasher, verify: map<Handle, Table>, site: Site, q: Request, at: nat) {
    Attempt(site.conf, q) ==>
      && q.client.Some?
      && CheckAt(hash, LimiterAt(verify, site.verify, site.conf.verify, at), q.client.value, at).1 == Some(R.Accepted)
  }

  predicate PoolPasses(pools: map<Handle, P.Site>, site: Site, q: Request) {
    site.conf.cap.Some? ==>
      && q.client.Some?
      && var cap := site.conf.cap.value;
         P.TryAcquire(PoolAt(pools, site.cap, cap).pool,
                      R.ClientKey(q.client.value, if cap.prefix <= 128 then cap.prefix else 128)).Some?
  }

  lemma MeterLetsIn(hash: R.Hasher, s: State, id: nat, st: Stage, at: nat)
    requires st.Entered? && MeterPasses(hash, s.gate.verify, st.site, st.request, at)
    ensures var s' := MeterStep(hash, s, id, st, at);
            && s'.requests == s.requests[id := Metered(st.site, st.request)]
            && s'.money == s.money && s'.owners == s.owners && s'.config == s.config && s'.gate.pools == s.gate.pools
  {
    MeterGateIsExact(hash, s.gate.verify, st, at);
  }

  lemma PoolLetsIn(s: State, id: nat, st: Stage)
    requires st.Metered? && PoolPasses(s.gate.pools, st.site, st.request)
    ensures var s' := AcquireStep(s, id, st);
            && s'.requests == s.requests[id := Holding(st.site, st.request)]
            && s'.money == s.money && s'.owners == s.owners && s'.config == s.config
  {}

  function Entry(id: nat, domain: string, q: Request, at: nat): seq<Event> {
    [Arrive(id, domain, q), Meter(id, at)] + [Acquire(id)]
  }

  /** A new request for a configured site, of a size that is read, that both gates
      let through. */
  predicate Enters(hash: R.Hasher, s: State, id: nat, domain: string, q: Request, at: nat) {
    && id !in s.requests && domain in s.config.sites && !q.tooLarge
    && MeterPasses(hash, s.gate.verify, s.config.sites[domain], q, at)
    && PoolPasses(s.gate.pools, s.config.sites[domain], q)
  }

  lemma ArriveEnters(h: M.Hmac, hash: R.Hasher, s: State, id: nat, domain: string, q: Request)
    requires id !in s.requests && domain in s.config.sites && !q.tooLarge
    ensures Step(h, hash, s, Arrive(id, domain, q)) == To(s, id, Entered(s.config.sites[domain], q))
  {}

  lemma EntryHolds(h: M.Hmac, hash: R.Hasher, s: State, id: nat, domain: string, q: Request, at: nat)
    requires Enters(hash, s, id, domain, q, at)
    ensures var s' := Run(h, hash, s, Entry(id, domain, q, at));
            && s'.money == s.money && s'.owners == s.owners && s'.config == s.config
            && s'.requests == s.requests[id := Holding(s.config.sites[domain], q)]
  {
    var site := s.config.sites[domain];
    RunSnoc(h, hash, s, [Arrive(id, domain, q), Meter(id, at)], Acquire(id));
    RunTwo(h, hash, s, Arrive(id, domain, q), Meter(id, at));
    ArriveEnters(h, hash, s, id, domain, q);
    MeterLetsIn(hash, To(s, id, Entered(site, q)), id, Entered(site, q), at);
    PoolLetsIn(MeterStep(hash, To(s, id, Entered(site, q)), id, Entered(site, q), at), id, Metered(site, q));
    assert s.requests[id := Entered(site, q)][id := Metered(site, q)][id := Holding(site, q)] ==
           s.requests[id := Holding(site, q)];
  }

  // ---------- a payment or a credential ----------

  lemma JournalGoesOn(s: State, next: S.State)
    requires next.log == s.money.journal.log
    ensures AfterJournal(s, next) == s.(money := s.money.(journal := next))
  {}

  lemma JournalAnswers(s: State, next: S.State, id: nat, key: S.Key, at: nat)
    requires next.log == s.money.journal.log + [S.Answer(id, S.Admitted(key, at))] && id in s.requests
    ensures var st := s.requests[id];
            AfterJournal(s, next).requests == s.requests[id := Ready(st.site, st.request, Some(SpentKey(key)))]
  {}

  lemma ClaimCommits(h: M.Hmac, j: S.State, id: nat, key: S.Key, retain: nat)
    requires id in j.tasks && j.tasks[id] == S.Claiming(key, retain, true)
    requires key !in j.tables.spent && j.clock < retain
    ensures S.Step(h, S.Pruning, j, S.Commit(id, S.Committed)).log == j.log + [S.Answer(id, S.Admitted(key, j.clock))]
  {
    S.CommitShape(j, id, j.tasks[id], S.Committed);
  }

  function ClaimSteps(id: nat): seq<Event> { [Journal(S.Commit(id, S.Committed)), Dispatch(id)] }

  function PaymentSteps(id: nat): seq<Event> { [Pick(id), BeginSettle(id)] + ClaimSteps(id) }

  /** The credential is verified, and a mint that receives the payment has paid it out. */
  function VerifySteps(id: nat): seq<Event> { [Journal(S.VerifyL402(id)), Journal(S.Collected(id, None))] }

  function CredentialSteps(id: nat): seq<Event> {
    [Pick(id), BeginSettle(id)] + (VerifySteps(id) + ClaimSteps(id))
  }

  /** A request whose claim is next is dispatched once the claim commits. */
  lemma ClaimIsServed(h: M.Hmac, hash: R.Hasher, s: State, id: nat, key: S.Key, retain: nat)
    requires var j := s.money.journal;
             && id in s.requests && s.requests[id].Settling? && id in j.tasks
             && j.tasks[id] == S.Claiming(key, retain, true) && key !in j.tables.spent && j.clock < retain
    ensures var st := s.requests[id];
            Run(h, hash, s, ClaimSteps(id)).requests ==
              s.requests[id := Done(st.site, st.request, Some(SpentKey(key)), Dispatched)]
  {
    RunTwo(h, hash, s, Journal(S.Commit(id, S.Committed)), Dispatch(id));
    var j, st := s.money.journal, s.requests[id];
    ClaimCommits(h, j, id, key, retain);
    JournalAnswers(s, S.Step(h, S.Pruning, j, S.Commit(id, S.Committed)), id, key, j.clock);
    assert s.requests[id := Ready(st.site, st.request, Some(SpentKey(key)))]
                     [id := Done(st.site, st.request, Some(SpentKey(key)), Dispatched)] ==
           s.requests[id := Done(st.site, st.request, Some(SpentKey(key)), Dispatched)];
  }

  lemma PicksProof(h: M.Hmac, hash: R.Hasher, s: State, id: nat, proof: Proof)
    requires id in s.requests && s.requests[id].Holding? && s.config.stores.lightning
    requires var st := s.requests[id]; ProofAlone(st.site.conf, st.request, proof) && st.request.secure &&
                                       st.request.bindable
    ensures var st := s.requests[id];
            Step(h, hash, s, Pick(id)) == To(s, id, Paying(st.site, st.request, proof))
  {
    ChoiceIsExact(s.requests[id].site.conf, s.requests[id].request, s.config.stores);
  }

  lemma SettlementGoesOn(h: M.Hmac, s: State, id: nat, st: Stage, task: S.Task)
    requires st.Paying? && id in s.requests
    requires S.Step(h, S.Pruning, s.money.journal, SettleEvent(id, st.proof)) == S.Begin(s.money.journal, id, task)
    ensures var s' := SettleStep(h, s, id, st);
            && s'.money.journal == S.Begin(s.money.journal, id, task) && s'.config == s.config
            && s'.requests == s.requests[id := Settling(st.site, st.request)]
  {
    JournalGoesOn(To(s, id, Settling(st.site, st.request)), S.Begin(s.money.journal, id, task));
  }

  /** From the choice of the proof to a task of the journal. */
  lemma ProofIsTaken(h: M.Hmac, hash: R.Hasher, s: State, id: nat, proof: Proof, task: S.Task)
    requires id in s.requests && s.requests[id].Holding? && s.config.stores.lightning
    requires var st := s.requests[id]; ProofAlone(st.site.conf, st.request, proof) && st.request.secure &&
                                       st.request.bindable
    requires S.Step(h, S.Pruning, s.money.journal, SettleEvent(id, proof)) == S.Begin(s.money.journal, id, task)
    ensures var s', st := Run(h, hash, s, [Pick(id), BeginSettle(id)]), s.requests[id];
            && s'.money.journal == S.Begin(s.money.journal, id, task)
            && s'.requests == s.requests[id := Settling(st.site, st.request)]
  {
    var st := s.requests[id];
    RunTwo(h, hash, s, Pick(id), BeginSettle(id));
    PicksProof(h, hash, s, id, proof);
    SettlementGoesOn(h, To(s, id, Paying(st.site, st.request, proof)), id, Paying(st.site, st.request, proof), task);
    assert s.requests[id := Paying(st.site, st.request, proof)][id := Settling(st.site, st.request)] ==
           s.requests[id := Settling(st.site, st.request)];
  }

  lemma PaymentFromGate(h: M.Hmac, hash: R.Hasher, s: State, id: nat, p: S.Payment)
    requires id in s.requests && s.requests[id].Holding? && s.config.stores.lightning && id !in s.money.journal.tasks
    requires var st := s.requests[id]; ProofAlone(st.site.conf, st.request, X402(p)) && st.request.secure &&
                                       st.request.bindable
    requires var j := s.money.journal;
             && p.genuine && S.InWindow(p.invoice, j.clock, S.SKEW) && j.clock < S.RetainX402(p.invoice)
             && S.Key(p.network, p.invoice.hash) !in j.tables.spent
    ensures var st := s.requests[id];
            Run(h, hash, s, PaymentSteps(id)).requests ==
              s.requests[id := Done(st.site, st.request, Some(SpentKey(S.Key(p.network, p.invoice.hash))), Dispatched)]
  {
    var st, key := s.requests[id], S.Key(p.network, p.invoice.hash);
    ProofIsTaken(h, hash, s, id, X402(p), S.Claiming(key, S.RetainX402(p.invoice), true));
    RunConcat(h, hash, s, [Pick(id), BeginSettle(id)], ClaimSteps(id));
    ClaimIsServed(h, hash, Run(h, hash, s, [Pick(id), BeginSettle(id)]), id, key, S.RetainX402(p.invoice));
    Overwrite(s.requests, id, Settling(st.site, st.request),
              Done(st.site, st.request, Some(SpentKey(key)), Dispatched));
  }

  lemma Overwrite(q: Requests, id: nat, a: Stage, b: Stage)
    ensures q[id := a][id := b] == q[id := b]
  {}

  /** A request that passes the gates and carries one genuine, unspent payment inside
      its window is dispatched, charged with that payment. */
  lemma PaymentIsServed(h: M.Hmac, hash: R.Hasher, s: State, id: nat, domain: string, q: Request, at: nat, p: S.Payment)
    requires Enters(hash, s, id, domain, q, at) && s.config.stores.lightning && id !in s.money.journal.tasks
    requires ProofAlone(s.config.sites[domain].conf, q, X402(p)) && q.secure && q.bindable
    requires var j := s.money.journal;
             && p.genuine && S.InWindow(p.invoice, j.clock, S.SKEW) && j.clock < S.RetainX402(p.invoice)
             && S.Key(p.network, p.invoice.hash) !in j.tables.spent
    ensures Run(h, hash, s, Entry(id, domain, q, at) + PaymentSteps(id)).requests ==
              s.requests[id := Done(s.config.sites[domain], q, Some(SpentKey(S.Key(p.network, p.invoice.hash))),
                                    Dispatched)]
  {
    var site, key := s.config.sites[domain], S.Key(p.network, p.invoice.hash);
    EntryHolds(h, hash, s, id, domain, q, at);
    RunConcat(h, hash, s, Entry(id, domain, q, at), PaymentSteps(id));
    PaymentFromGate(h, hash, Run(h, hash, s, Entry(id, domain, q, at)), id, p);
    Overwrite(s.requests, id, Holding(site, q), Done(site, q, Some(SpentKey(key)), Dispatched));
  }

  lemma RootIsRead(h: M.Hmac, j: S.State, id: nat, c: S.Credential)
    requires id !in j.tasks && c.parsed && c.id in j.tables.roots
    ensures S.Step(h, S.Pruning, j, S.ReadRoot(id, c)) == S.Begin(j, id, S.HaveRoot(c, Some(j.tables.roots[c.id])))
  {}

  lemma CredentialVerifies(h: M.Hmac, j: S.State, id: nat, c: S.Credential, root: S.Root)
    requires id in j.tasks && j.tasks[id] == S.HaveRoot(c, Some(root))
    requires M.Authorized(h, c.presented, c.macaroon, root.secret, root.validBefore, j.clock)
    ensures var key, retain := S.Key(c.network, c.id.hash), S.RetainL402(root.validBefore);
            var j1 := S.Step(h, S.Pruning, j, S.VerifyL402(id));
            && j1 == S.Begin(j, id, if c.mintReceiver then S.Collecting(key, retain) else S.Claiming(key, retain, true))
            && S.Step(h, S.Pruning, j1, S.Collected(id, None)) == S.Begin(j, id, S.Claiming(key, retain, true))
  {
    var key, retain := S.Key(c.network, c.id.hash), S.RetainL402(root.validBefore);
    assert j.tasks[id := S.Collecting(key, retain)][id := S.Claiming(key, retain, true)] ==
           j.tasks[id := S.Claiming(key, retain, true)];
  }

  lemma VerifiedGoesOn(h: M.Hmac, hash: R.Hasher, s: State, id: nat, c: S.Credential, root: S.Root)
    requires id in s.money.journal.tasks && s.money.journal.tasks[id] == S.HaveRoot(c, Some(root))
    requires M.Authorized(h, c.presented, c.macaroon, root.secret, root.validBefore, s.money.journal.clock)
    ensures var task := S.Claiming(S.Key(c.network, c.id.hash), S.RetainL402(root.validBefore), true);
            Run(h, hash, s, VerifySteps(id)) ==
              s.(money := s.money.(journal := S.Begin(s.money.journal, id, task)))
  {
    var j := s.money.journal;
    var j1 := S.Step(h, S.Pruning, j, S.VerifyL402(id));
    RunTwo(h, hash, s, Journal(S.VerifyL402(id)), Journal(S.Collected(id, None)));
    CredentialVerifies(h, j, id, c, root);
    JournalGoesOn(s, j1);
    JournalGoesOn(s.(money := s.money.(journal := j1)), S.Step(h, S.Pruning, j1, S.Collected(id, None)));
  }

  /** An authorized credential is verified and claimed, and its request dispatched. */
  lemma CredentialIsServed(h: M.Hmac, hash: R.Hasher, s: State, id: nat, c: S.Credential, root: S.Root)
    requires var j := s.money.journal;
             && id in s.requests && s.requests[id].Settling?
             && id in j.tasks && j.tasks[id] == S.HaveRoot(c, Some(root))
             && M.Authorized(h, c.presented, c.macaroon, root.secret, root.validBefore, j.clock)
             && S.Key(c.network, c.id.hash) !in j.tables.spent && j.clock < S.RetainL402(root.validBefore)
    ensures var st := s.requests[id];
            Run(h, hash, s, VerifySteps(id) + ClaimSteps(id)).requests ==
              s.requests[id := Done(st.site, st.request, Some(SpentKey(S.Key(c.network, c.id.hash))), Dispatched)]
  {
    RunConcat(h, hash, s, VerifySteps(id), ClaimSteps(id));
    VerifiedGoesOn(h, hash, s, id, c, root);
    ClaimIsServed(h, hash, Run(h, hash, s, VerifySteps(id)), id, S.Key(c.network, c.id.hash),
                  S.RetainL402(root.validBefore));
  }

  lemma CredentialFromGate(h: M.Hmac, hash: R.Hasher, s: State, id: nat, c: S.Credential)
    requires id in s.requests && s.requests[id].Holding? && s.config.stores.lightning && id !in s.money.journal.tasks
    requires var st := s.requests[id]; ProofAlone(st.site.conf, st.request, L402(c)) && st.request.secure &&
                                       st.request.bindable
    requires Redeemable(h, s.money.journal, c)
    ensures var st := s.requests[id];
            Run(h, hash, s, CredentialSteps(id)).requests ==
              s.requests[id := Done(st.site, st.request, Some(SpentKey(S.Key(c.network, c.id.hash))), Dispatched)]
  {
    var st, key, j := s.requests[id], S.Key(c.network, c.id.hash), s.money.journal;
    var root := j.tables.roots[c.id];
    var start := [Pick(id), BeginSettle(id)];
    RootIsRead(h, j, id, c);
    ProofIsTaken(h, hash, s, id, L402(c), S.HaveRoot(c, Some(root)));
    RunConcat(h, hash, s, start, VerifySteps(id) + ClaimSteps(id));
    CredentialIsServed(h, hash, Run(h, hash, s, start), id, c, root);
    Overwrite(s.requests, id, Settling(st.site, st.request),
              Done(st.site, st.request, Some(SpentKey(key)), Dispatched));
  }

  /** The stored root authorizes the credential now, and its payment is unspent. */
  predicate Redeemable(h: M.Hmac, j: S.State, c: S.Credential) {
    && c.parsed && c.id in j.tables.roots
    && var root := j.tables.roots[c.id];
       && M.Authorized(h, c.presented, c.macaroon, root.secret, root.validBefore, j.clock)
       && S.Key(c.network, c.id.hash) !in j.tables.spent && j.clock < S.RetainL402(root.validBefore)
  }

  /** A request that passes the gates and carries one credential that its stored root
      authorizes is dispatched, charged with the payment behind the credential. */
  lemma CredentialAdmits(h: M.Hmac, hash: R.Hasher, s: State, id: nat, domain: string, q: Request, at: nat,
                         c: S.Credential)
    requires Enters(hash, s, id, domain, q, at) && s.config.stores.lightning && id !in s.money.journal.tasks
    requires ProofAlone(s.config.sites[domain].conf, q, L402(c)) && q.secure && q.bindable
    requires Redeemable(h, s.money.journal, c)
    ensures Run(h, hash, s, Entry(id, domain, q, at) + CredentialSteps(id)).requests ==
              s.requests[id := Done(s.config.sites[domain], q, Some(SpentKey(S.Key(c.network, c.id.hash))), Dispatched)]
  {
    var site, key := s.config.sites[domain], S.Key(c.network, c.id.hash);
    EntryHolds(h, hash, s, id, domain, q, at);
    RunConcat(h, hash, s, Entry(id, domain, q, at), CredentialSteps(id));
    CredentialFromGate(h, hash, Run(h, hash, s, Entry(id, domain, q, at)), id, c);
    Overwrite(s.requests, id, Holding(site, q), Done(site, q, Some(SpentKey(key)), Dispatched));
  }

  // ---------- a Cashu token ----------

  function Wallets(mint: string, actions: seq<C.Event>): (run: seq<Event>)
    ensures |run| == |actions|
    decreases |actions|
  {
    if actions == [] then []
    else Wallets(mint, actions[..|actions| - 1]) + [Wallet(mint, actions[|actions| - 1])]
  }

  predicate AllUnattended(actions: seq<C.Event>) { forall a :: a in actions ==> Unattended(a) }

  function WithWallet(s: State, mint: string, c: C.State): State {
    s.(money := s.money.(mints := s.money.mints[mint := c]))
  }

  lemma WalletMovesAlone(h: M.Hmac, hash: R.Hasher, s: State, mint: string, c: C.State, a: C.Event)
    requires Unattended(a) && C.Step(c, a).holder.Held?
    ensures Step(h, hash, WithWallet(s, mint, c), Wallet(mint, a)) == WithWallet(s, mint, C.Step(c, a))
  {
    assert s.money.mints[mint := c][mint := C.Step(c, a)] == s.money.mints[mint := C.Step(c, a)];
  }

  /** While a request holds the lock, its wallet moves alone. */
  lemma {:induction false} WalletAlone(h: M.Hmac, hash: R.Hasher, s: State, mint: string, c: C.State,
                                       actions: seq<C.Event>)
    requires AllUnattended(actions) && C.Run(c, actions).holder.Held?
    ensures Run(h, hash, WithWallet(s, mint, c), Wallets(mint, actions)) == WithWallet(s, mint, C.Run(c, actions))
    decreases |actions|
  {
    if actions != [] {
      var n := |actions| - 1;
      var front, a := actions[..n], actions[n];
      assert a in actions;
      WalletStepMoves(C.Run(c, front), a);
      WalletAlone(h, hash, s, mint, c, front);
      RunSnoc(h, hash, WithWallet(s, mint, c), Wallets(mint, front), Wallet(mint, a));
      WalletMovesAlone(h, hash, s, mint, C.Run(c, front), a);
    }
  }

  lemma ClaimReleases(h: M.Hmac, hash: R.Hasher, s: State, id: nat, mint: string)
    requires id in s.requests && mint in s.owners && s.owners[mint] == id && mint in s.money.mints
    requires var c := s.money.mints[mint];
             && c.holder.Held? && c.holder.collect.phase.MustClaim? && c.holder.collect.token.id in c.payments
             && !c.payments[c.holder.collect.token.id].claimed
    ensures var st := s.requests[id];
            Step(h, hash, s, Wallet(mint, C.CommitClaim(C.Committed))).requests ==
              s.requests[id := Ready(st.site, st.request,
                                     Some(LedgerClaim(mint, s.money.mints[mint].holder.collect.token.id)))]
  {
    C.Claims(s.money.mints[mint]);
  }

  /** What is left to do after `Start`. */
  function Rest(saga: nat, amount: nat): seq<C.Event> {
    [C.Recover(true), C.CommitReserve(C.Committed)] + C.Redemption(saga, amount, true)
  }

  lemma RestUnattended(saga: nat, amount: nat)
    ensures AllUnattended(Rest(saga, amount))
  {}

  lemma RestClaims(c: C.State, token: C.Token, site: string, price: nat, amount: nat)
    requires c.holder.Free? && C.SagasNumbered(c) && price <= token.net && price <= amount
    requires token.secrets !! c.spent && (token.id in c.payments ==> c.payments[token.id] == C.Row(site, price, false))
    ensures var c' := C.Run(C.Step(c, C.Start(token, site, price)), Rest(c.nextSaga, amount));
            && c'.holder == C.Held(C.Collect(token, site, price, C.MustClaim))
            && token.id in c'.payments && !c'.payments[token.id].claimed
  {
    var start := C.Start(token, site, price);
    C.AfterRedemption(c, token, site, price, true, amount, true);
    C.RunConcat(c, [start], Rest(c.nextSaga, amount));
    C.RunSnoc(c, [], start);
    assert [] + [start] == [start];
    assert [start] + Rest(c.nextSaga, amount) ==
           C.Opening(token, site, price, true) + C.Redemption(c.nextSaga, amount, true);
  }

  lemma PicksToken(h: M.Hmac, hash: R.Hasher, s: State, id: nat, token: C.Token, price: Price)
    requires id in s.requests && s.requests[id].Holding? && s.config.stores.payments
    requires var st := s.requests[id]; TokenAlone(st.site.conf, st.request, token, price) && st.request.secure
    ensures var st := s.requests[id];
            Step(h, hash, s, Pick(id)) == To(s, id, Queued(st.site, st.request, token, price))
  {
    ChoiceIsExact(s.requests[id].site.conf, s.requests[id].request, s.config.stores);
  }

  lemma TakesLock(s: State, id: nat, st: Stage)
    requires st.Queued? && MintAt(s.money.mints, st.price.mint).holder.Free?
    ensures var mint, s' := st.price.mint, CollectStep(s, id, st, false);
            && s'.requests == s.requests[id := Collecting(st.site, st.request, mint)]
            && mint in s'.owners && s'.owners[mint] == id && mint in s'.money.mints
            && s'.money.mints[mint] ==
                 C.Step(MintAt(s.money.mints, mint), C.Start(st.token, st.site.domain, st.price.sats))
  {}

  lemma TokenIsTaken(h: M.Hmac, hash: R.Hasher, s: State, id: nat, token: C.Token, price: Price)
    requires id in s.requests && s.requests[id].Holding? && s.config.stores.payments
    requires var st := s.requests[id]; TokenAlone(st.site.conf, st.request, token, price) && st.request.secure
    requires MintAt(s.money.mints, price.mint).holder.Free?
    ensures var st, mint, s' := s.requests[id], price.mint, Run(h, hash, s, [Pick(id), BeginCollect(id, false)]);
            && s'.requests == s.requests[id := Collecting(st.site, st.request, mint)]
            && mint in s'.owners && s'.owners[mint] == id && mint in s'.money.mints
            && s'.money.mints[mint] == C.Step(MintAt(s.money.mints, mint), C.Start(token, st.site.domain, price.sats))
  {
    var st := s.requests[id];
    RunTwo(h, hash, s, Pick(id), BeginCollect(id, false));
    PicksToken(h, hash, s, id, token, price);
    var queued := Queued(st.site, st.request, token, price);
    TakesLock(To(s, id, queued), id, queued);
    Overwrite(s.requests, id, queued, Collecting(st.site, st.request, price.mint));
  }

  /** The token can be redeemed for the price now: the lock is free, its proofs are
      unspent, and its row is absent or this site's and unclaimed. */
  predicate Payable(c: C.State, token: C.Token, site: string, price: nat, amount: nat) {
    && c.holder.Free? && C.SagasNumbered(c) && price <= token.net && price <= amount
    && token.secrets !! c.spent && (token.id in c.payments ==> c.payments[token.id] == C.Row(site, price, false))
  }

  function LedgerSteps(id: nat, mint: string): seq<Event> { [Wallet(mint, C.CommitClaim(C.Committed)), Dispatch(id)] }

  lemma TokenFromLock(h: M.Hmac, hash: R.Hasher, s: State, id: nat, mint: string, actions: seq<C.Event>, token: C.Id)
    requires id in s.requests && mint in s.owners && s.owners[mint] == id && mint in s.money.mints
    requires AllUnattended(actions)
    requires var c := C.Run(s.money.mints[mint], actions);
             && c.holder.Held? && c.holder.collect.phase.MustClaim? && c.holder.collect.token.id == token
             && token in c.payments && !c.payments[token].claimed
    ensures var st := s.requests[id];
            Run(h, hash, s, Wallets(mint, actions) + LedgerSteps(id, mint)).requests ==
              s.requests[id := Done(st.site, st.request, Some(LedgerClaim(mint, token)), Dispatched)]
  {
    var st, last := s.requests[id], Wallet(mint, C.CommitClaim(C.Committed));
    RunConcat(h, hash, s, Wallets(mint, actions), [last, Dispatch(id)]);
    assert s.money.mints[mint := s.money.mints[mint]] == s.money.mints;
    WalletAlone(h, hash, s, mint, s.money.mints[mint], actions);
    var s1 := Run(h, hash, s, Wallets(mint, actions));
    RunTwo(h, hash, s1, last, Dispatch(id));
    ClaimReleases(h, hash, s1, id, mint);
    Dispatches(h, hash, Step(h, hash, s1, last), id);
    Overwrite(s.requests, id, Ready(st.site, st.request, Some(LedgerClaim(mint, token))),
              Done(st.site, st.request, Some(LedgerClaim(mint, token)), Dispatched));
  }

  lemma Dispatches(h: M.Hmac, hash: R.Hasher, s: State, id: nat)
    requires id in s.requests && s.requests[id].Ready?
    ensures Step(h, hash, s, Dispatch(id)).requests == s.requests[id := Delivered(s.requests[id])]
  {}

  /** The steps of an undisturbed collection, from the choice to the dispatch. */
  function TokenSteps(id: nat, mint: string, saga: nat, amount: nat): seq<Event> {
    [Pick(id), BeginCollect(id, false)] +
    (Wallets(mint, Rest(saga, amount)) + LedgerSteps(id, mint))
  }

  lemma TokenFromGate(h: M.Hmac, hash: R.Hasher, s: State, id: nat, token: C.Token, price: Price, amount: nat)
    requires id in s.requests && s.requests[id].Holding? && s.config.stores.payments
    requires var st := s.requests[id]; TokenAlone(st.site.conf, st.request, token, price) && st.request.secure
    requires Payable(MintAt(s.money.mints, price.mint), token, s.requests[id].site.domain, price.sats, amount)
    ensures var st, saga := s.requests[id], MintAt(s.money.mints, price.mint).nextSaga;
            Run(h, hash, s, TokenSteps(id, price.mint, saga, amount)).requests ==
              s.requests[id := Done(st.site, st.request, Some(LedgerClaim(price.mint, token.id)), Dispatched)]
  {
    var st, mint, c := s.requests[id], price.mint, MintAt(s.money.mints, price.mint);
    var start := [Pick(id), BeginCollect(id, false)];
    RunConcat(h, hash, s, start, Wallets(mint, Rest(c.nextSaga, amount)) + LedgerSteps(id, mint));
    TokenIsTaken(h, hash, s, id, token, price);
    RestClaims(c, token, st.site.domain, price.sats, amount);
    RestUnattended(c.nextSaga, amount);
    TokenFromLock(h, hash, Run(h, hash, s, start), id, mint, Rest(c.nextSaga, amount), token.id);
    Overwrite(s.requests, id, Collecting(st.site, st.request, mint),
              Done(st.site, st.request, Some(LedgerClaim(mint, token.id)), Dispatched));
  }

  /** A request that passes the gates and carries one token worth its site's price is
      dispatched, charged with the claim of that token. */
  lemma TokenIsServed(h: M.Hmac, hash: R.Hasher, s: State, id: nat, domain: string, q: Request, at: nat,
                      token: C.Token, price: Price, amount: nat)
    requires Enters(hash, s, id, domain, q, at) && s.config.stores.payments
    requires TokenAlone(s.config.sites[domain].conf, q, token, price) && q.secure
    requires Payable(MintAt(s.money.mints, price.mint), token, s.config.sites[domain].domain, price.sats, amount)
    ensures Run(h, hash, s, Entry(id, domain, q, at) +
                            TokenSteps(id, price.mint, MintAt(s.money.mints, price.mint).nextSaga, amount)).requests ==
              s.requests[id := Done(s.config.sites[domain], q, Some(LedgerClaim(price.mint, token.id)), Dispatched)]
  {
    var site := s.config.sites[domain];
    EntryHolds(h, hash, s, id, domain, q, at);
    RunConcat(h, hash, s, Entry(id, domain, q, at),
              TokenSteps(id, price.mint, MintAt(s.money.mints, price.mint).nextSaga, amount));
    TokenFromGate(h, hash, Run(h, hash, s, Entry(id, domain, q, at)), id, token, price, amount);
    Overwrite(s.requests, id, Holding(site, q),
              Done(site, q, Some(LedgerClaim(price.mint, token.id)), Dispatched));
  }
}
