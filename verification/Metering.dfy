/** The verification limit: over every run of the gateway, the requests whose
    proof was or is being examined are at most the tokens that the site's
    verification limiter gave out. */
module Metering {
  import opened Basics
  import opened Admission
  import M = L402
  import S = Settlement
  import C = CashuLedger
  import R = RateLimit
  import P = Capacity

  // ---------- counting ----------

  /** A proof of this request has been let through to be examined. */
  predicate Examined(st: Stage) {
    || ((st.Metered? || st.Holding?) && Attempt(st.site.conf, st.request))
    || st.Paying? || st.Settling? || st.Queued? || st.Collecting?
    || (Charged(st).Some? && !Charged(st).value.FreeToken?)
  }

  predicate ExaminedAt(q: Requests, id: nat, h: Handle) { id in q && Examined(q[id]) && q[id].site.verify == h }

  ghost function ExaminedBy(q: Requests, h: Handle): set<nat> { set id | id in q && ExaminedAt(q, id, h) }

  function Drawn(log: seq<R.Entry>): nat
    decreases |log|
  {
    if log == [] then 0 else Drawn(log[..|log| - 1]) + if log[|log| - 1].verdict.Accepted? then 1 else 0
  }

  /** The log of limiter `h`. */
  function Recorded(verify: map<Handle, Table>, h: Handle): seq<R.Entry> { if h in verify then verify[h].log else [] }

  function DrawnAt(verify: map<Handle, Table>, h: Handle): nat { Drawn(Recorded(verify, h)) }

  ghost predicate Counted(verify: map<Handle, Table>, q: Requests) {
    forall h :: |ExaminedBy(q, h)| <= DrawnAt(verify, h)
  }

  /** Nobody new is examined. */
  ghost predicate Fewer(q: Requests, q': Requests) { forall id, h :: ExaminedAt(q', id, h) ==> ExaminedAt(q, id, h) }

  predicate SmallerStage(q: Requests, id: nat, st: Stage) { Examined(st) ==> ExaminedAt(q, id, st.site.verify) }

  lemma FewerOne(q: Requests, id: nat, st: Stage)
    requires SmallerStage(q, id, st)
    ensures Fewer(q, q[id := st])
  {}

  lemma FewerCounted(verify: map<Handle, Table>, q: Requests, q': Requests)
    requires Counted(verify, q) && Fewer(q, q')
    ensures Counted(verify, q')
  {
    forall h ensures |ExaminedBy(q', h)| <= DrawnAt(verify, h) {
      SubsetSize(ExaminedBy(q', h), ExaminedBy(q, h));
    }
  }

  // ---------- the metering step ----------

  lemma DrawnSnoc(log: seq<R.Entry>, more: seq<R.Entry>)
    requires |more| == |log| + 1 && more[..|log|] == log
    ensures Drawn(more) == Drawn(log) + if more[|log|].verdict.Accepted? then 1 else 0
  {}

  /** What the gate records, if the check gave a verdict. */
  lemma MeterLogs(hash: R.Hasher, verify: map<Handle, Table>, st: Stage, at: nat, h: Handle)
    requires st.Entered? && Attempt(st.site.conf, st.request) && st.request.client.Some?
    ensures var own := LimiterAt(verify, st.site.verify, st.site.conf.verify, at);
            var (next, st') := MeterTo(hash, verify, st, at);
            var (table, verdict) := CheckAt(hash, own, st.request.client.value, at);
            && Recorded(verify, st.site.verify) == own.log
            && Recorded(next, h) == (if h == st.site.verify then table.log else Recorded(verify, h))
            && (st'.Metered? <==> verdict.Some? && verdict.value.Accepted?)
  {}

  lemma CheckDraws(hash: R.Hasher, l: Table, client: R.Address, at: nat)
    ensures var (next, v) := CheckAt(hash, l, client, at);
            Drawn(next.log) == Drawn(l.log) + if v.Some? && v.value.Accepted? then 1 else 0
  {
    var (next, v) := CheckAt(hash, l, client, at);
    if v.Some? { DrawnSnoc(l.log, next.log); }
  }

  lemma MeterStage(hash: R.Hasher, verify: map<Handle, Table>, st: Stage, at: nat)
    requires st.Entered?
    ensures var st' := MeterTo(hash, verify, st, at).1;
            st'.site == st.site &&
            (Examined(st') ==> Attempt(st.site.conf, st.request) && st.request.client.Some? && st'.Metered?)
  {}

  lemma UnmeteredKeeps(hash: R.Hasher, verify: map<Handle, Table>, st: Stage, at: nat)
    requires st.Entered? && !(Attempt(st.site.conf, st.request) && st.request.client.Some?)
    ensures MeterTo(hash, verify, st, at).0 == verify
  {}

  lemma MeterDraws(hash: R.Hasher, verify: map<Handle, Table>, st: Stage, at: nat, h: Handle)
    requires st.Entered?
    ensures var (next, st') := MeterTo(hash, verify, st, at);
            && DrawnAt(next, h) >= DrawnAt(verify, h)
            && (Examined(st') && st.site.verify == h ==>
                  st'.site == st.site && DrawnAt(next, h) == DrawnAt(verify, h) + 1)
  {
    var site, q := st.site, st.request;
    MeterStage(hash, verify, st, at);
    if !(Attempt(site.conf, q) && q.client.Some?) {
      UnmeteredKeeps(hash, verify, st, at);
    } else {
      MeterLogs(hash, verify, st, at, h);
      CheckDraws(hash, LimiterAt(verify, site.verify, site.conf.verify, at), q.client.value, at);
    }
  }

  lemma OneMoreExamined(q: Requests, id: nat, st: Stage, h: Handle)
    requires id in q && !Examined(q[id])
    ensures |ExaminedBy(q[id := st], h)| <= |ExaminedBy(q, h)| + if Examined(st) && st.site.verify == h then 1 else 0
  {
    var more: set<nat> := if Examined(st) && st.site.verify == h then {id} else {};
    SubsetSize(ExaminedBy(q[id := st], h), ExaminedBy(q, h) + more);
    assert |ExaminedBy(q, h) + more| <= |ExaminedBy(q, h)| + |more|;
  }

  lemma CountedMeter(hash: R.Hasher, verify: map<Handle, Table>, q: Requests, id: nat, at: nat)
    requires Counted(verify, q) && id in q && q[id].Entered?
    ensures var (next, st) := MeterTo(hash, verify, q[id], at); Counted(next, q[id := st])
  {
    var (next, st) := MeterTo(hash, verify, q[id], at);
    MeterStage(hash, verify, q[id], at);
    forall h ensures |ExaminedBy(q[id := st], h)| <= DrawnAt(next, h) {
      MeterDraws(hash, verify, q[id], at, h);
      OneMoreExamined(q, id, st, h);
      assert |ExaminedBy(q, h)| <= DrawnAt(verify, h);
    }
  }

  // ---------- every other step ----------

  lemma PickFewer(stores: Stores, q: Requests, id: nat)
    requires id in q && q[id].Holding?
    ensures SmallerStage(q, id, PickTo(stores, q[id]))
  {
    ProofsAreMetered(q[id].site.conf, q[id].request, stores);
  }

  lemma AcquireFewer(pools: map<Handle, P.Site>, q: Requests, id: nat)
    requires id in q && q[id].Metered?
    ensures SmallerStage(q, id, AcquireTo(pools, q[id]).1)
  {}

  lemma AskFewer(hash: R.Hasher, limiters: map<Handle, Table>, q: Requests, id: nat, at: nat, challenged: bool)
    requires id in q && q[id].Asking?
    ensures SmallerStage(q, id, AskTo(hash, limiters, q[id], at, challenged).1)
  {}

  lemma JournalFewer(s: State, next: S.State)
    requires Serves(s.requests, s.money.journal, next)
    ensures Fewer(s.requests, AfterJournal(s, next).requests)
  {
    if next.log != s.money.journal.log {
      var a := next.log[|s.money.journal.log|];
      FewerOne(s.requests, a.task, Resolve(s.requests[a.task], a.outcome));
    }
  }

  lemma WalletFewer(s: State, mint: string, before: C.State, next: C.State)
    requires OwnersSound(s.money.mints, s.owners, s.requests)
    ensures Fewer(s.requests, AfterWallet(s, mint, before, next).requests)
  {
    if mint in s.owners && next.holder.Free? {
      assert Owns(s.requests, s.owners[mint], mint);
      FewerOne(s.requests, s.owners[mint], Released(s.requests[s.owners[mint]], mint, before, next));
    }
  }

  lemma SettleFewer(h: M.Hmac, t: S.Timing, s: State, id: nat)
    requires Inv(h, t, s) && id in s.requests && s.requests[id].Paying?
    ensures Fewer(s.requests, SettleStep(h, s, id, s.requests[id]).requests)
  {
    var st := s.requests[id];
    var next := S.Step(h, S.Pruning, s.money.journal, SettleEvent(id, st.proof));
    assert StageSound(t, st);
    SettleReaches(h, t, s.money.journal, s.requests, id);
    FewerOne(s.requests, id, Settling(st.site, st.request));
    JournalFewer(To(s, id, Settling(st.site, st.request)), next);
  }

  lemma LostFewer(q: Requests)
    ensures Fewer(q, Lost(q))
  {}

  lemma CancelFewer(h: M.Hmac, s: State, id: nat, inFlight: bool)
    requires id in s.requests
    ensures Fewer(s.requests, CancelStep(h, s, id, s.requests[id], inFlight).requests)
  {
    var st := s.requests[id];
    FewerOne(s.requests, id, Done(st.site, st.request, Charged(st), Cancelled));
  }

  lemma CollectFewer(s: State, id: nat, busy: bool)
    requires id in s.requests && s.requests[id].Queued?
    ensures Fewer(s.requests, CollectStep(s, id, s.requests[id], busy).requests)
  {
    FewerOne(s.requests, id, CollectStep(s, id, s.requests[id], busy).requests[id]);
  }

  lemma AcquireStepFewer(s: State, id: nat)
    requires id in s.requests && s.requests[id].Metered?
    ensures Fewer(s.requests, AcquireStep(s, id, s.requests[id]).requests)
  {
    AcquireFewer(s.gate.pools, s.requests, id);
    FewerOne(s.requests, id, AcquireTo(s.gate.pools, s.requests[id]).1);
  }

  lemma PickStepFewer(s: State, id: nat)
    requires id in s.requests && s.requests[id].Holding?
    ensures Fewer(s.requests, To(s, id, PickTo(s.config.stores, s.requests[id])).requests)
  {
    PickFewer(s.config.stores, s.requests, id);
    FewerOne(s.requests, id, PickTo(s.config.stores, s.requests[id]));
  }

  lemma AskStepFewer(hash: R.Hasher, s: State, id: nat, at: nat, challenged: bool)
    requires id in s.requests && s.requests[id].Asking?
    ensures Fewer(s.requests, AskStep(hash, s, id, s.requests[id], at, challenged).requests)
  {
    AskFewer(hash, s.money.limiters, s.requests, id, at, challenged);
    FewerOne(s.requests, id, AskTo(hash, s.money.limiters, s.requests[id], at, challenged).1);
  }

  lemma RequestFewer(h: M.Hmac, hash: R.Hasher, t: S.Timing, s: State, e: Event)
    requires Inv(h, t, s) && OfRequest(e) && !e.Meter?
    ensures Fewer(s.requests, RequestStep(h, hash, s, e).requests)
  {
    if e.id in s.requests {
      var st := s.requests[e.id];
      if e.Acquire? { if st.Metered? { AcquireStepFewer(s, e.id); } }
      else if e.Pick? { if st.Holding? { PickStepFewer(s, e.id); } }
      else if e.AskFree? { if st.Asking? { AskStepFewer(hash, s, e.id, e.at, e.challenged); } }
      else if e.BeginSettle? { if st.Paying? { SettleFewer(h, t, s, e.id); } }
      else if e.BeginCollect? { if st.Queued? { CollectFewer(s, e.id, e.busy); } }
      else if e.Dispatch? { if st.Ready? { FewerOne(s.requests, e.id, Delivered(st)); } }
      else if !st.Done? { CancelFewer(h, s, e.id, e.inFlight); }
    }
  }

  lemma LimiterKept(h: M.Hmac, hash: R.Hasher, s: State, e: Event)
    requires !e.Meter?
    ensures Step(h, hash, s, e).gate.verify == s.gate.verify
  {}

  lemma ArriveFewer(s: State, id: nat, domain: string, q: Request)
    ensures Fewer(s.requests, ArriveStep(s, id, domain, q).requests)
  {
    if id !in s.requests && domain in s.config.sites {
      FewerOne(s.requests, id, ArriveStep(s, id, domain, q).requests[id]);
    }
  }

  lemma JournalStepFewer(h: M.Hmac, t: S.Timing, s: State, step: S.Event)
    requires Inv(h, t, s) && Ongoing(step)
    ensures Fewer(s.requests, AfterJournal(s, S.Step(h, S.Pruning, s.money.journal, step)).requests)
  {
    OngoingServes(h, s.money.journal, s.requests, step);
    JournalFewer(s, S.Step(h, S.Pruning, s.money.journal, step));
  }

  lemma OtherFewer(h: M.Hmac, hash: R.Hasher, t: S.Timing, s: State, e: Event)
    requires Inv(h, t, s) && !OfRequest(e)
    ensures Fewer(s.requests, Step(h, hash, s, e).requests)
  {
    if e.Arrive? { ArriveFewer(s, e.id, e.domain, e.request); }
    else if e.Journal? { if Ongoing(e.step) { JournalStepFewer(h, t, s, e.step); } }
    else if e.Wallet? {
      if e.mint in s.money.mints {
        WalletFewer(s, e.mint, s.money.mints[e.mint], C.Step(s.money.mints[e.mint], e.action));
      }
    }
    else if e.Crash? { LostFewer(s.requests); }
  }

  lemma CountedStep(h: M.Hmac, hash: R.Hasher, t: S.Timing, s: State, e: Event)
    requires Inv(h, t, s) && Counted(s.gate.verify, s.requests)
    ensures var s' := Step(h, hash, s, e); Counted(s'.gate.verify, s'.requests)
  {
    if e.Meter? {
      if e.id in s.requests && s.requests[e.id].Entered? { CountedMeter(hash, s.gate.verify, s.requests, e.id, e.at); }
    } else {
      if OfRequest(e) { RequestFewer(h, hash, t, s, e); } else { OtherFewer(h, hash, t, s, e); }
      LimiterKept(h, hash, s, e);
      FewerCounted(s.gate.verify, s.requests, Step(h, hash, s, e).requests);
    }
  }

  /** Over every run, the requests whose proof was or is being examined at a
      limiter are at most the tokens that it gave out. */
  lemma {:induction false} ExaminedAtMostDrawn(h: M.Hmac, hash: R.Hasher, t: S.Timing, config: Config, run: seq<Event>)
    requires forall e :: e in run ==> Timed(t, e)
    ensures var s := Run(h, hash, Initial(config), run); Counted(s.gate.verify, s.requests)
    decreases |run|
  {
    if run == [] {
      forall handle ensures |ExaminedBy(map[], handle)| == 0 { assert ExaminedBy(map[], handle) == {}; }
    } else {
      var front := run[..|run| - 1];
      ExaminedAtMostDrawn(h, hash, t, config, front);
      InvRun(h, hash, t, config, front);
      CountedStep(h, hash, t, Run(h, hash, Initial(config), front), run[|run| - 1]);
    }
  }

  // ---------- at most a burst and the refill, for every client and window ----------

  /** A limiter that grew out of a new one by checks alone. */
  ghost predicate Grown(hash: R.Hasher, l: Table) {
    exists start, run :: GrewBy(hash, l, start, run)
  }

  ghost predicate GrewBy(hash: R.Hasher, l: Table, start: nat, run: seq<R.Event>) {
    && l.prefix <= 128 && (forall e :: e in run ==> e.Request?)
    && l == R.Run(hash, R.Fresh(l.limit, l.prefix, start, []), run)
  }

  lemma GrownFresh(hash: R.Hasher, rate: Rate, at: nat)
    ensures Grown(hash, LimiterAt(map[], Handle(0, ""), rate, at))
  {
    var l := LimiterAt(map[], Handle(0, ""), rate, at);
    assert R.Run(hash, R.Fresh(l.limit, l.prefix, at, []), []) == l;
    assert GrewBy(hash, l, at, []);
  }

  lemma GrownCheck(hash: R.Hasher, l: Table, client: R.Address, at: nat)
    requires Grown(hash, l)
    ensures Grown(hash, CheckAt(hash, l, client, at).0)
  {
    var start, run :| GrewBy(hash, l, start, run);
    var e := R.Request(client, at);
    var next := CheckAt(hash, l, client, at).0;
    assert (run + [e])[..|run|] == run;
    assert next.limit == l.limit && next.prefix == l.prefix;
    assert GrewBy(hash, next, start, run + [e]);
  }

  lemma GrownBound(hash: R.Hasher, l: Table, client: R.Address, from: nat, to: nat)
    requires Grown(hash, l) && from <= to
    ensures R.AcceptedIn(l.log, client, from, to) * R.TOKEN <= l.limit.burst * R.TOKEN + (to - from) * l.limit.perSecond
  {
    var start, run :| GrewBy(hash, l, start, run);
    R.WindowBound(hash, l.limit, l.prefix, start, run, client, from, to);
  }

  ghost predicate AllGrown(hash: R.Hasher, verify: map<Handle, Table>) {
    forall h :: h in verify ==> Grown(hash, verify[h])
  }

  /** A proof of a request of `client` is let through at limiter `h`. */
  predicate Lets(hash: R.Hasher, verify: map<Handle, Table>, st: Stage, at: nat, h: Handle, client: R.Address) {
    && st.Entered? && Attempt(st.site.conf, st.request) && st.request.client.Some? && st.site.verify == h
    && R.ClientKey(st.request.client.value, LimiterAt(verify, h, st.site.conf.verify, at).prefix) == client
    && MeterTo(hash, verify, st, at).1.Metered?
  }

  predicate LetsThrough(hash: R.Hasher, s: State, e: Event, h: Handle, client: R.Address) {
    e.Meter? && e.id in s.requests && Lets(hash, s.gate.verify, s.requests[e.id], e.at, h, client)
  }

  /** How many proofs of a client were let through in a window of a run. */
  function LetIn(hm: M.Hmac, hash: R.Hasher, config: Config, run: seq<Event>, h: Handle, client: R.Address, from: nat,
                 to: nat): nat
    decreases |run|
  {
    if run == [] then 0
    else
      var front, e := run[..|run| - 1], run[|run| - 1];
      LetIn(hm, hash, config, front, h, client, from, to)
      + if LetsThrough(hash, Run(hm, hash, Initial(config), front), e, h, client) && from <= e.at <= to then 1 else 0
  }

  lemma CheckRecords(hash: R.Hasher, l: Table, client: R.Address, at: nat, who: R.Address, from: nat, to: nat)
    ensures var (next, v) := CheckAt(hash, l, client, at);
            R.AcceptedIn(next.log, who, from, to) == R.AcceptedIn(l.log, who, from, to)
            + if v.Some? && v.value.Accepted? && R.ClientKey(client, l.prefix) == who && from <= at <= to then 1 else 0
  {
    if at >= l.clock {
      R.LogGrows(hash, l, R.Request(client, at));
      var next := R.Step(hash, l, R.Request(client, at));
      R.AcceptedSnoc(l.log, next.log[|l.log|], who, from, to);
    }
  }

  lemma MeterRecords(hash: R.Hasher, verify: map<Handle, Table>, st: Stage, at: nat, h: Handle, client: R.Address,
                     from: nat, to: nat)
    requires st.Entered?
    ensures var next := MeterTo(hash, verify, st, at).0;
            R.AcceptedIn(Recorded(next, h), client, from, to) == R.AcceptedIn(Recorded(verify, h), client, from, to)
            + if Lets(hash, verify, st, at, h, client) && from <= at <= to then 1 else 0
  {
    var site, q := st.site, st.request;
    if Attempt(site.conf, q) && q.client.Some? {
      MeterLogs(hash, verify, st, at, h);
      CheckRecords(hash, LimiterAt(verify, site.verify, site.conf.verify, at), q.client.value, at, client, from, to);
    }
  }

  lemma MeterGrown(hash: R.Hasher, verify: map<Handle, Table>, st: Stage, at: nat)
    requires st.Entered? && AllGrown(hash, verify)
    ensures AllGrown(hash, MeterTo(hash, verify, st, at).0)
  {
    var site, q := st.site, st.request;
    if Attempt(site.conf, q) && q.client.Some? {
      GrownFresh(hash, site.conf.verify, at);
      GrownCheck(hash, LimiterAt(verify, site.verify, site.conf.verify, at), q.client.value, at);
    }
  }

  lemma GateStep(hm: M.Hmac, hash: R.Hasher, s: State, e: Event, h: Handle, client: R.Address, from: nat, to: nat)
    requires AllGrown(hash, s.gate.verify)
    ensures var s' := Step(hm, hash, s, e);
            && AllGrown(hash, s'.gate.verify)
            && R.AcceptedIn(Recorded(s'.gate.verify, h), client, from, to) ==
                 R.AcceptedIn(Recorded(s.gate.verify, h), client, from, to)
               + if LetsThrough(hash, s, e, h, client) && from <= e.at <= to then 1 else 0
  {
    if e.Meter? {
      if e.id in s.requests && s.requests[e.id].Entered? {
        MeterRecords(hash, s.gate.verify, s.requests[e.id], e.at, h, client, from, to);
        MeterGrown(hash, s.gate.verify, s.requests[e.id], e.at);
      }
    } else {
      LimiterKept(hm, hash, s, e);
    }
  }

  lemma {:induction false} LetInIsRecorded(hm: M.Hmac, hash: R.Hasher, config: Config, run: seq<Event>, h: Handle,
                                           client: R.Address, from: nat, to: nat)
    ensures var verify := Run(hm, hash, Initial(config), run).gate.verify;
            AllGrown(hash, verify) &&
            LetIn(hm, hash, config, run, h, client, from, to) == R.AcceptedIn(Recorded(verify, h), client, from, to)
    decreases |run|
  {
    if run != [] {
      var front := run[..|run| - 1];
      LetInIsRecorded(hm, hash, config, front, h, client, from, to);
      GateStep(hm, hash, Run(hm, hash, Initial(config), front), run[|run| - 1], h, client, from, to);
    }
  }

  /** Over every run and in every window, the proofs of one client that a limiter
      lets through to be examined are at most its burst plus its refill. */
  lemma ExaminedWithinTheRate(hm: M.Hmac, hash: R.Hasher, config: Config, run: seq<Event>, h: Handle, client: R.Address,
                              from: nat, to: nat)
    requires from <= to
    ensures var verify := Run(hm, hash, Initial(config), run).gate.verify;
            var n := LetIn(hm, hash, config, run, h, client, from, to);
            if h in verify then n * R.TOKEN <= verify[h].limit.burst * R.TOKEN + (to - from) * verify[h].limit.perSecond
            else n == 0
  {
    LetInIsRecorded(hm, hash, config, run, h, client, from, to);
    var verify := Run(hm, hash, Initial(config), run).gate.verify;
    if h in verify { GrownBound(hash, verify[h], client, from, to); }
  }

  // ---------- and nobody else is examined ----------

  ghost predicate WasLetThrough(hm: M.Hmac, hash: R.Hasher, config: Config, run: seq<Event>, id: nat, h: Handle) {
    exists i, client ::
      && 0 <= i < |run| && run[i].Meter? && run[i].id == id
      && LetsThrough(hash, Run(hm, hash, Initial(config), run[..i]), run[i], h, client)
  }

  lemma LetThroughStays(hm: M.Hmac, hash: R.Hasher, config: Config, run: seq<Event>, e: Event, id: nat, h: Handle)
    requires WasLetThrough(hm, hash, config, run, id, h)
    ensures WasLetThrough(hm, hash, config, run + [e], id, h)
  {
    var i, client :|
      && 0 <= i < |run| && run[i].Meter? && run[i].id == id
      && LetsThrough(hash, Run(hm, hash, Initial(config), run[..i]), run[i], h, client);
    var more := run + [e];
    assert more[..i] == run[..i] && more[i] == run[i];
    assert LetsThrough(hash, Run(hm, hash, Initial(config), more[..i]), more[i], h, client);
  }

  lemma LetThroughNow(hm: M.Hmac, hash: R.Hasher, config: Config, run: seq<Event>, e: Event, h: Handle,
                      client: R.Address)
    requires e.Meter? && LetsThrough(hash, Run(hm, hash, Initial(config), run), e, h, client)
    ensures WasLetThrough(hm, hash, config, run + [e], e.id, h)
  {
    var more := run + [e];
    assert more[..|run|] == run && more[|run|] == e;
    assert LetsThrough(hash, Run(hm, hash, Initial(config), more[..|run|]), more[|run|], h, client);
  }

  /** Only the verification gate makes a request examined. */
  lemma NewlyExamined(hm: M.Hmac, hash: R.Hasher, t: S.Timing, s: State, e: Event, id: nat,
                      h: Handle)
    returns (client: R.Address)
    requires Inv(hm, t, s) && ExaminedAt(Step(hm, hash, s, e).requests, id, h) && !ExaminedAt(s.requests, id, h)
    ensures e.Meter? && e.id == id && LetsThrough(hash, s, e, h, client)
  {
    if !e.Meter? {
      if OfRequest(e) { RequestFewer(hm, hash, t, s, e); } else { OtherFewer(hm, hash, t, s, e); }
    }
    var st := s.requests[id];
    client := R.ClientKey(st.request.client.value, LimiterAt(s.gate.verify, h, st.site.conf.verify, e.at).prefix);
  }

  /** Every request whose proof was or is being examined was let through by its
      site's limiter before. */
  lemma {:induction false} ExaminedWereLetThrough(hm: M.Hmac, hash: R.Hasher, t: S.Timing, config: Config,
                                                  run: seq<Event>, id: nat, h: Handle)
    requires forall e :: e in run ==> Timed(t, e)
    requires ExaminedAt(Run(hm, hash, Initial(config), run).requests, id, h)
    ensures WasLetThrough(hm, hash, config, run, id, h)
    decreases |run|
  {
    var front, e := run[..|run| - 1], run[|run| - 1];
    assert run == front + [e];
    var s := Run(hm, hash, Initial(config), front);
    InvRun(hm, hash, t, config, front);
    if ExaminedAt(s.requests, id, h) {
      ExaminedWereLetThrough(hm, hash, t, config, front, id, h);
      LetThroughStays(hm, hash, config, front, e, id, h);
    } else {
      var client := NewlyExamined(hm, hash, t, s, e, id, h);
      LetThroughNow(hm, hash, config, front, e, h, client);
    }
  }

  // ---------- capacity ----------

  /** A request gets past the capacity gate exactly when its client, up to the
      IPv6 prefix, is given a permit. */
  lemma CapacityGateIsExact(pools: map<Handle, P.Site>, st: Stage, h: Handle)
    requires st.Metered?
    ensures var (next, st') := AcquireTo(pools, st);
            && GivenOut(next, h) == GivenOut(pools, h) + (if TakesPermit(pools, st, h) then 1 else 0)
            && (st.site.conf.cap.Some? ==> (st'.Holding? <==> TakesPermit(pools, st, st.site.cap)))
            && (!st'.Holding? ==> next == pools)
  {}

  /** How many permits a pool has given out in all. */
  function GivenOut(pools: map<Handle, P.Site>, h: Handle): nat { if h in pools then pools[h].next else 0 }

  predicate TakesPermit(pools: map<Handle, P.Site>, st: Stage, h: Handle) {
    && st.Metered? && st.site.conf.cap.Some? && st.request.client.Some? && st.site.cap == h
    && var cap := st.site.conf.cap.value;
       var key := R.ClientKey(st.request.client.value, if cap.prefix <= 128 then cap.prefix else 128);
       P.TryAcquire(PoolAt(pools, h, cap).pool, key).Some?
  }

  /** The step lets a request of a capped site past the capacity gate of `h`. */
  predicate EntersAt(s: State, e: Event, h: Handle) {
    && e.Acquire? && e.id in s.requests && s.requests[e.id].Metered?
    && s.requests[e.id].site.conf.cap.Some? && s.requests[e.id].site.cap == h
    && AcquireTo(s.gate.pools, s.requests[e.id]).1.Holding?
  }

  function EnteredIn(hm: M.Hmac, hash: R.Hasher, config: Config, run: seq<Event>, h: Handle): nat
    decreases |run|
  {
    if run == [] then 0
    else
      var front := run[..|run| - 1];
      EnteredIn(hm, hash, config, front, h) +
      if EntersAt(Run(hm, hash, Initial(config), front), run[|run| - 1], h) then 1 else 0
  }

  /** A pool that grew out of a new one by acquisitions and drops. */
  ghost predicate PoolGrown(p: P.Site) { exists max, run :: p == P.SiteRun(max, run) }

  ghost predicate PoolsGrown(pools: map<Handle, P.Site>) { forall h :: h in pools ==> PoolGrown(pools[h]) }

  lemma PoolStepGrown(p: P.Site, e: P.Event)
    requires PoolGrown(p)
    ensures PoolGrown(P.SiteStep(p, e))
  {
    var max, run :| p == P.SiteRun(max, run);
    assert (run + [e])[..|run|] == run;
    assert P.SiteStep(p, e) == P.SiteRun(max, run + [e]);
  }

  lemma PoolAtGrown(pools: map<Handle, P.Site>, h: Handle, cap: Cap)
    requires PoolsGrown(pools)
    ensures PoolGrown(PoolAt(pools, h, cap))
  {
    assert P.Site(P.NewPool(cap.max), {}, map[], 0) == P.SiteRun(cap.max, []);
  }

  lemma AcquireGrown(pools: map<Handle, P.Site>, st: Stage)
    requires PoolsGrown(pools) && st.Metered?
    ensures PoolsGrown(AcquireTo(pools, st).0)
  {
    if st.site.conf.cap.Some? && st.request.client.Some? {
      var cap := st.site.conf.cap.value;
      PoolAtGrown(pools, st.site.cap, cap);
      var key := R.ClientKey(st.request.client.value, if cap.prefix <= 128 then cap.prefix else 128);
      PoolStepGrown(PoolAt(pools, st.site.cap, cap), P.Acquire(key));
    }
  }

  lemma PoolsKept(hm: M.Hmac, hash: R.Hasher, s: State, e: Event)
    requires !e.Acquire? && !e.DropPermit?
    ensures Step(hm, hash, s, e).gate.pools == s.gate.pools
  {}

  lemma DropKeeps(s: State, pool: Handle, drop: P.Event, h: Handle)
    requires PoolsGrown(s.gate.pools)
    ensures PoolsGrown(DropStep(s, pool, drop).gate.pools) &&
            GivenOut(DropStep(s, pool, drop).gate.pools, h) == GivenOut(s.gate.pools, h)
  {
    if pool in s.gate.pools { PoolStepGrown(s.gate.pools[pool], drop); }
  }

  lemma PoolsStep(hm: M.Hmac, hash: R.Hasher, s: State, e: Event, h: Handle)
    requires PoolsGrown(s.gate.pools)
    ensures var pools := Step(hm, hash, s, e).gate.pools;
            PoolsGrown(pools) && GivenOut(pools, h) == GivenOut(s.gate.pools, h) + if EntersAt(s, e, h) then 1 else 0
  {
    if e.Acquire? {
      if e.id in s.requests && s.requests[e.id].Metered? {
        CapacityGateIsExact(s.gate.pools, s.requests[e.id], h);
        AcquireGrown(s.gate.pools, s.requests[e.id]);
      }
    } else if e.DropPermit? {
      DropKeeps(s, e.pool, e.drop, h);
    } else {
      PoolsKept(hm, hash, s, e);
    }
  }

  lemma {:induction false} PoolsRun(hm: M.Hmac, hash: R.Hasher, config: Config, run: seq<Event>, h: Handle)
    ensures var pools := Run(hm, hash, Initial(config), run).gate.pools;
            PoolsGrown(pools) && EnteredIn(hm, hash, config, run, h) == GivenOut(pools, h)
    decreases |run|
  {
    if run != [] {
      PoolsRun(hm, hash, config, run[..|run| - 1], h);
      PoolsStep(hm, hash, Run(hm, hash, Initial(config), run[..|run| - 1]), run[|run| - 1], h);
    }
  }

  /** Over every run, the requests that entered a capped site are as many as the
      permits its pool gave out, and the permits held at any time stay within the
      pool's maximum and each client's within its share. */
  lemma EveryEntryTakesAPermit(hm: M.Hmac, hash: R.Hasher, config: Config, run: seq<Event>, h: Handle, client: P.Client)
    ensures var pools := Run(hm, hash, Initial(config), run).gate.pools;
            && EnteredIn(hm, hash, config, run, h) == GivenOut(pools, h)
            && (h in pools ==>
                  |pools[h].live.Keys| <= pools[h].pool.max &&
                  |P.Mine(pools[h].live, client)| <= pools[h].pool.perClient)
  {
    PoolsRun(hm, hash, config, run, h);
    var pools := Run(hm, hash, Initial(config), run).gate.pools;
    if h in pools {
      var max, prun :| pools[h] == P.SiteRun(max, prun);
      P.SiteCounts(max, prun);
      P.CountsBound(pools[h].pool, pools[h].semaphore, pools[h].live, client);
    }
  }
}
