/** Collecting Cashu tokens: reserve, redeem at the mint, claim, for the wallet
    of one mint. The lock holder can be cancelled at every await, the process can
    crash, and a ledger write begun by a cancelled caller may still commit. */
module CashuLedger {

  type Id = string

  datatype Row = Row(site: string, price: nat, claimed: bool)
  datatype Reservation = New | Pending | AlreadyClaimed | Mismatch
  type Payments = map<Id, Row>

  // ---------- the durable ledger ----------

  function Reserve(t: Payments, id: Id, site: string, price: nat): (r: (Payments, Reservation))
    ensures r.1.New? <==> id !in t
    ensures r.1.Pending? <==> id in t && t[id] == Row(site, price, false)
    ensures r.1.AlreadyClaimed? <==> id in t && t[id] == Row(site, price, true)
    ensures r.1.New? || r.1.Pending? ==> id in r.0 && r.0[id] == Row(site, price, false)
    ensures r.0 == if r.1.New? then t[id := Row(site, price, false)] else t
  {
    if id !in t then (t[id := Row(site, price, false)], New)
    else if t[id].site != site || t[id].price != price then (t, Mismatch)
    else if t[id].claimed then (t, AlreadyClaimed)
    else (t, Pending)
  }

  function Claim(t: Payments, id: Id): (r: (Payments, bool))
    ensures r.1 <==> id in t && !t[id].claimed
    ensures r.1 ==> r.0 == t[id := Row(t[id].site, t[id].price, true)]
    ensures !r.1 ==> r.0 == t
  {
    if id in t && !t[id].claimed then (t[id := t[id].(claimed := true)], true) else (t, false)
  }

  /** Each method is one write transaction on the PAYMENTS table. */
  class Ledger {
    var payments: Payments

    constructor ()
      ensures payments == map[]
    {
      payments := map[];
    }

    method ReserveToken(id: Id, site: string, price: nat) returns (r: Reservation)
      modifies this
      ensures (payments, r) == Reserve(old(payments), id, site, price)
    {
      if id in payments {
        var row := payments[id];
        if row.site != site || row.price != price { return Mismatch; }
        r := if row.claimed then AlreadyClaimed else Pending;
      } else {
        payments := payments[id := Row(site, price, false)];
        r := New;
      }
    }

    method ClaimToken(id: Id) returns (claimed: bool)
      modifies this
      ensures (payments, claimed) == Claim(old(payments), id)
    {
      claimed := false;
      if id in payments {
        var row := payments[id];
        if !row.claimed {
          payments := payments[id := Row(row.site, row.price, true)];
          claimed := true;
        }
      }
    }
  }

  // ---------- wallet, mint and collector ----------

  datatype Token = Token(id: Id, secrets: set<string>, net: nat)

  /** A redemption the wallet has recorded but not finished. */
  datatype Saga = Saga(memo: Id, secrets: set<string>, accepted: bool)
  datatype Transaction = Transaction(saga: nat, memo: Id, amount: nat, secrets: set<string>)

  datatype Phase = Opened | Recovered | MustRedeem | Redeeming(saga: nat) | MustClaim
  datatype Collect = Collect(token: Token, site: string, price: nat, phase: Phase)
  datatype Write = WriteReserve(id: Id, site: string, price: nat) | WriteClaim(id: Id)
  datatype Admission = Admission(id: Id, site: string, price: nat)

  /** `fates`: a reported failure leaves the old or the new content on disk. */
  datatype Fate = Committed | FailedOld | FailedNew

  datatype Holder = Free | Held(collect: Collect)

  datatype State = State(
    payments: Payments,            // durable
    sagas: map<nat, Saga>,         // durable, in the wallet
    nextSaga: nat,
    done: seq<Transaction>,        // completed incoming transactions, durable
    spent: set<string>,            // at the mint
    holder: Holder,                // the wallet lock
    detached: seq<Write>,          // writes of cancelled callers, still running
    admitted: seq<Admission>)

  datatype Event =
    | Start(token: Token, site: string, price: nat)
    | Recover(ok: bool)
    | CommitReserve(fate: Fate)
    | BeginRedeem
    | MintAccepts(saga: nat)
    | SagaCompletes(saga: nat, amount: nat)
    | SagaCompensated(saga: nat)
    | RedeemReturns(ok: bool)
    | CommitClaim(fate: Fate)
    | Cancel(inFlight: bool)
    | DetachedCommits(index: nat)
    | Crash

  const INITIAL := State(map[], map[], 0, [], {}, Free, [], [])

  function Release(s: State): State { s.(holder := Free) }
  function Goto(s: State, p: Phase): State
    requires s.holder.Held?
  {
    s.(holder := Held(s.holder.collect.(phase := p)))
  }

  predicate Funded(done: seq<Transaction>, id: Id, price: nat) {
    exists i :: 0 <= i < |done| && done[i].memo == id && done[i].amount >= price
  }

  predicate SagaDone(done: seq<Transaction>, saga: nat, id: Id, price: nat) {
    exists i :: 0 <= i < |done| && done[i].saga == saga && done[i].memo == id && done[i].amount >= price
  }

  function ReserveStep(s: State, fate: Fate): State
    requires s.holder.Held?
  {
    var c := s.holder.collect;
    var (next, result) := Reserve(s.payments, c.token.id, c.site, c.price);
    var stored := s.(payments := if fate.FailedOld? then s.payments else next);
    if !fate.Committed? || result.Mismatch? || result.AlreadyClaimed? then Release(stored)
    else if result.Pending? && Funded(s.done, c.token.id, c.price) then Goto(stored, MustClaim)
    else Goto(stored, MustRedeem)
  }

  function ClaimStep(s: State, fate: Fate): State
    requires s.holder.Held?
  {
    var c := s.holder.collect;
    var (next, claimed) := Claim(s.payments, c.token.id);
    var stored := Release(s.(payments := if fate.FailedOld? then s.payments else next));
    if fate.Committed? && claimed then stored.(admitted := s.admitted + [Admission(c.token.id, c.site, c.price)])
    else stored
  }

  function DetachedWrite(t: Payments, w: Write): Payments {
    match w
    case WriteReserve(id, site, price) => Reserve(t, id, site, price).0
    case WriteClaim(id) => Claim(t, id).0
  }

  /** Steps of the collector that holds the wallet lock. */
  function CollectStep(s: State, e: Event): State
    requires s.holder.Held?
  {
    var c := s.holder.collect;
    match (e, c.phase)
    case (Recover(ok), Opened) => if ok && c.token.net >= c.price then Goto(s, Recovered) else Release(s)
    case (CommitReserve(fate), Recovered) => ReserveStep(s, fate)
    case (BeginRedeem, MustRedeem) =>
      Goto(s.(sagas := s.sagas[s.nextSaga := Saga(c.token.id, c.token.secrets, false)], nextSaga := s.nextSaga + 1),
           Redeeming(s.nextSaga))
    case (RedeemReturns(ok), Redeeming(saga)) =>
      if ok && SagaDone(s.done, saga, c.token.id, c.price) then Goto(s, MustClaim) else Release(s)
    case (CommitClaim(fate), MustClaim) => ClaimStep(s, fate)
    case (Cancel(inFlight), Recovered) =>
      if inFlight then Release(s.(detached := s.detached + [WriteReserve(c.token.id, c.site, c.price)])) else Release(s)
    case (Cancel(inFlight), MustClaim) =>
      if inFlight then Release(s.(detached := s.detached + [WriteClaim(c.token.id)])) else Release(s)
    case (Cancel(_), _) => Release(s)
    case _ => s
  }

  /** The mint spends each proof at most once; an accepted redemption completes,
      one that was not accepted may be compensated. */
  function WalletStep(s: State, e: Event): State
    requires e.MintAccepts? || e.SagaCompletes? || e.SagaCompensated?
  {
    if e.saga !in s.sagas then s
    else
      var saga := s.sagas[e.saga];
      match e
      case MintAccepts(n) =>
        if saga.accepted || !(saga.secrets !! s.spent) then s
        else s.(sagas := s.sagas[n := saga.(accepted := true)], spent := s.spent + saga.secrets)
      case SagaCompletes(n, amount) =>
        if !saga.accepted then s
        else s.(sagas := s.sagas - {n}, done := s.done + [Transaction(n, saga.memo, amount, saga.secrets)])
      case SagaCompensated(n) => if saga.accepted then s else s.(sagas := s.sagas - {n})
  }

  function Step(s: State, e: Event): State {
    match e
    case Start(token, site, price) =>
      if s.holder.Held? then s else s.(holder := Held(Collect(token, site, price, Opened)))
    case MintAccepts(_) => WalletStep(s, e)
    case SagaCompletes(_, _) => WalletStep(s, e)
    case SagaCompensated(_) => WalletStep(s, e)
    case DetachedCommits(i) =>
      if i >= |s.detached| then s
      else s.(payments := DetachedWrite(s.payments, s.detached[i]), detached := s.detached[..i] + s.detached[i + 1..])
    case Crash => s.(holder := Free, detached := [])
    case _ => if s.holder.Held? then CollectStep(s, e) else s
  }

  function Run(s: State, run: seq<Event>): State
    decreases |run|
  {
    if run == [] then s else Step(Run(s, run[..|run| - 1]), run[|run| - 1])
  }

  // ---------- the invariant ----------

  predicate ReservedFor(t: Payments, id: Id, site: string, price: nat) {
    id in t && t[id].site == site && t[id].price == price
  }

  predicate HolderSound(s: State) {
    s.holder.Held? ==>
      var c := s.holder.collect;
      && (c.phase.MustRedeem? || c.phase.Redeeming? || c.phase.MustClaim? ==>
            ReservedFor(s.payments, c.token.id, c.site, c.price))
      && (c.phase.MustClaim? ==> Funded(s.done, c.token.id, c.price))
  }

  predicate WriteSound(s: State, w: Write) {
    w.WriteClaim? ==> w.id in s.payments && Funded(s.done, w.id, s.payments[w.id].price)
  }

  predicate AdmissionSound(s: State, a: Admission) {
    ReservedFor(s.payments, a.id, a.site, a.price) && s.payments[a.id].claimed
  }

  predicate Inv(s: State) {
    && HolderSound(s)
    && (forall i :: 0 <= i < |s.detached| ==> WriteSound(s, s.detached[i]))
    && (forall id :: id in s.payments && s.payments[id].claimed ==> Funded(s.done, id, s.payments[id].price))
    && (forall i :: 0 <= i < |s.admitted| ==> AdmissionSound(s, s.admitted[i]))
    && (forall i, j :: 0 <= i < j < |s.admitted| ==> s.admitted[i].id != s.admitted[j].id)
  }

  /** Rows keep the site and price of their first reservation; claims are final. */
  predicate Grows(t: Payments, t': Payments) {
    forall id :: id in t ==>
      id in t' && t'[id].site == t[id].site && t'[id].price == t[id].price && (t[id].claimed ==> t'[id].claimed)
  }

  predicate Extends(done: seq<Transaction>, done': seq<Transaction>) {
    |done| <= |done'| && done'[..|done|] == done
  }

  lemma FundedStays(done: seq<Transaction>, done': seq<Transaction>, id: Id, price: nat)
    requires Extends(done, done') && Funded(done, id, price)
    ensures Funded(done', id, price)
  {
    var i :| 0 <= i < |done| && done[i].memo == id && done[i].amount >= price;
    assert done'[i] == done[..][i];
  }

  lemma CollectGrows(s: State, e: Event)
    requires s.holder.Held?
    ensures Grows(s.payments, CollectStep(s, e).payments) && CollectStep(s, e).done == s.done
  {}

  lemma WriteGrows(t: Payments, w: Write)
    ensures Grows(t, DetachedWrite(t, w))
  {}

  lemma WalletExtends(s: State, e: Event)
    requires e.MintAccepts? || e.SagaCompletes? || e.SagaCompensated?
    ensures WalletStep(s, e).payments == s.payments && Extends(s.done, WalletStep(s, e).done)
  {}

  lemma StepGrows(s: State, e: Event)
    ensures Grows(s.payments, Step(s, e).payments) && Extends(s.done, Step(s, e).done)
  {
    if e.MintAccepts? || e.SagaCompletes? || e.SagaCompensated? { WalletExtends(s, e); }
    else if e.DetachedCommits? { if e.index < |s.detached| { WriteGrows(s.payments, s.detached[e.index]); } }
    else if !e.Start? && !e.Crash? && s.holder.Held? { CollectGrows(s, e); }
  }

  /** Steps that touch only the wallet, the mint, the lock or finished work. */
  lemma InvFrame(s: State, s': State)
    requires Inv(s) && s'.payments == s.payments && s'.admitted == s.admitted && Extends(s.done, s'.done)
    requires HolderSound(s')
    requires forall i :: 0 <= i < |s'.detached| ==> s'.detached[i] in s.detached || WriteSound(s', s'.detached[i])
    ensures Inv(s')
  {
    forall id | id in s'.payments && s'.payments[id].claimed ensures Funded(s'.done, id, s'.payments[id].price) {
      FundedStays(s.done, s'.done, id, s.payments[id].price);
    }
    forall i | 0 <= i < |s'.detached| ensures WriteSound(s', s'.detached[i]) {
      var w := s'.detached[i];
      if w in s.detached && w.WriteClaim? { FundedStays(s.done, s'.done, w.id, s.payments[w.id].price); }
    }
    forall i | 0 <= i < |s'.admitted| ensures AdmissionSound(s', s'.admitted[i]) {
      assert AdmissionSound(s, s.admitted[i]);
    }
  }

  lemma InvReserve(s: State, s': State, id: Id, site: string, price: nat)
    requires Inv(s) && s'.payments == Reserve(s.payments, id, site, price).0 && s'.admitted == s.admitted &&
             s'.done == s.done
    requires HolderSound(s')
    requires forall i :: 0 <= i < |s'.detached| ==> s'.detached[i] in s.detached
    ensures Inv(s')
  {
    forall i | 0 <= i < |s'.detached| ensures WriteSound(s', s'.detached[i]) {
      assert s'.detached[i] in s.detached;
    }
    forall i | 0 <= i < |s'.admitted| ensures AdmissionSound(s', s'.admitted[i]) {
      assert AdmissionSound(s, s.admitted[i]);
    }
  }

  lemma InvClaim(s: State, s': State, id: Id)
    requires Inv(s) && s'.payments == Claim(s.payments, id).0 && s'.admitted == s.admitted && s'.done == s.done
    requires id in s.payments && Funded(s.done, id, s.payments[id].price) && HolderSound(s')
    requires forall i :: 0 <= i < |s'.detached| ==> s'.detached[i] in s.detached
    ensures Inv(s')
  {
    forall i | 0 <= i < |s'.detached| ensures WriteSound(s', s'.detached[i]) {
      assert s'.detached[i] in s.detached;
    }
    forall i | 0 <= i < |s'.admitted| ensures AdmissionSound(s', s'.admitted[i]) {
      assert AdmissionSound(s, s.admitted[i]);
    }
  }

  lemma InvCollect(s: State, e: Event)
    requires Inv(s) && s.holder.Held? && !e.CommitReserve? && !e.CommitClaim?
    ensures Inv(CollectStep(s, e))
  {
    var s', c := CollectStep(s, e), s.holder.collect;
    if e.RedeemReturns? && c.phase.Redeeming? && SagaDone(s.done, c.phase.saga, c.token.id, c.price) {
      var i :|
        && 0 <= i < |s.done| && s.done[i].saga == c.phase.saga
        && s.done[i].memo == c.token.id && s.done[i].amount >= c.price;
      assert Funded(s.done, c.token.id, c.price);
    }
    InvFrame(s, s');
  }

  lemma InvCommits(s: State, e: Event)
    requires Inv(s) && s.holder.Held? && (e.CommitReserve? || e.CommitClaim?)
    ensures Inv(CollectStep(s, e))
  {
    var s', c := CollectStep(s, e), s.holder.collect;
    if e.CommitReserve? && c.phase.Recovered? {
      if e.fate.FailedOld? { InvFrame(s, s'); } else { InvReserve(s, s', c.token.id, c.site, c.price); }
    } else if e.CommitClaim? && c.phase.MustClaim? {
      var quiet := s'.(admitted := s.admitted);
      if e.fate.FailedOld? { InvFrame(s, quiet); } else { InvClaim(s, quiet, c.token.id); }
      if s'.admitted != s.admitted { InvAdmit(s, quiet, Admission(c.token.id, c.site, c.price)); }
    }
  }

  /** A fresh claim is never a second admission: its row was unclaimed before. */
  lemma InvAdmit(s: State, quiet: State, a: Admission)
    requires Inv(s) && Inv(quiet) && quiet.admitted == s.admitted
    requires a.id in s.payments && !s.payments[a.id].claimed && AdmissionSound(quiet, a)
    ensures Inv(quiet.(admitted := s.admitted + [a]))
  {
    var s' := quiet.(admitted := s.admitted + [a]);
    forall i | 0 <= i < |s'.admitted|
      ensures AdmissionSound(s', s'.admitted[i]) && (i < |s.admitted| ==> s'.admitted[i].id != a.id)
    {
      if i < |s.admitted| { assert AdmissionSound(s, s.admitted[i]) && AdmissionSound(quiet, s.admitted[i]); }
    }
  }

  lemma InvDetached(s: State, i: nat)
    requires Inv(s) && i < |s.detached|
    ensures Inv(Step(s, DetachedCommits(i)))
  {
    var s', w := Step(s, DetachedCommits(i)), s.detached[i];
    StepGrows(s, DetachedCommits(i));
    assert WriteSound(s, w);
    match w
    case WriteReserve(id, site, price) => InvReserve(s, s', id, site, price);
    case WriteClaim(id) => InvClaim(s, s', id);
  }

  lemma InvStep(s: State, e: Event)
    requires Inv(s)
    ensures Inv(Step(s, e))
  {
    var s' := Step(s, e);
    if e.DetachedCommits? {
      if e.index < |s.detached| { InvDetached(s, e.index); }
    } else if e.CommitReserve? || e.CommitClaim? {
      if s.holder.Held? { InvCommits(s, e); }
    } else if e.MintAccepts? || e.SagaCompletes? || e.SagaCompensated? {
      if s.holder.Held? && s.holder.collect.phase.MustClaim? {
        FundedStays(s.done, s'.done, s.holder.collect.token.id, s.holder.collect.price);
      }
      InvFrame(s, s');
    } else if e.Start? || e.Crash? {
      InvFrame(s, s');
    } else if s.holder.Held? {
      InvCollect(s, e);
    }
  }

  lemma {:induction false} InvRun(run: seq<Event>)
    ensures Inv(Run(INITIAL, run))
    decreases |run|
  {
    if run != [] {
      InvRun(run[..|run| - 1]);
      InvStep(Run(INITIAL, run[..|run| - 1]), run[|run| - 1]);
    }
  }

  // ---------- main results ----------

  lemma {:induction false} RowsPersist(s: State, run: seq<Event>)
    ensures Grows(s.payments, Run(s, run).payments)
    decreases |run|
  {
    if run != [] {
      RowsPersist(s, run[..|run| - 1]);
      StepGrows(Run(s, run[..|run| - 1]), run[|run| - 1]);
    }
  }

  /** Over every run with crashes and cancellations a token is admitted at most
      once, at the site and price of the row its first reservation wrote. */
  lemma AdmittedOnceAsReserved(before: seq<Event>, after: seq<Event>, i: nat, j: nat)
    requires var a := Run(Run(INITIAL, before), after).admitted; i < |a| && j < |a|
    ensures var t := Run(INITIAL, before).payments;
            var a := Run(Run(INITIAL, before), after).admitted;
            && (a[i].id == a[j].id ==> i == j)
            && (a[i].id in t ==> t[a[i].id].site == a[i].site && t[a[i].id].price == a[i].price)
  {
    RunSplit(before, after);
    InvRun(before + after);
    RowsPersist(Run(INITIAL, before), after);
    var s := Run(Run(INITIAL, before), after);
    assert AdmissionSound(s, s.admitted[i]);
  }

  lemma {:induction false} RunSplit(before: seq<Event>, after: seq<Event>)
    ensures Run(INITIAL, before + after) == Run(Run(INITIAL, before), after)
    decreases |after|
  {
    if after == [] {
      assert before + after == before;
    } else {
      var n := |after| - 1;
      assert (before + after)[..|before| + n] == before + after[..n];
      RunSplit(before, after[..n]);
    }
  }

  function Prices(a: seq<Admission>): nat { if a == [] then 0 else Prices(a[..|a| - 1]) + a[|a| - 1].price }

  function Received(done: seq<Transaction>): nat {
    if done == [] then 0 else Received(done[..|done| - 1]) + done[|done| - 1].amount
  }

  /** The value received under the memos of `ids`. */
  function ReceivedFor(done: seq<Transaction>, ids: set<Id>): (v: nat)
    ensures v <= Received(done)
  {
    if done == [] then 0
    else
      var t := done[|done| - 1];
      ReceivedFor(done[..|done| - 1], ids) + if t.memo in ids then t.amount else 0
  }

  lemma {:induction false} OneMoreMemo(done: seq<Transaction>, ids: set<Id>, id: Id)
    requires id !in ids
    ensures ReceivedFor(done, ids + {id}) == ReceivedFor(done, ids) + ReceivedFor(done, {id})
    decreases |done|
  {
    if done != [] { OneMoreMemo(done[..|done| - 1], ids, id); }
  }

  lemma {:induction false} FundedValue(done: seq<Transaction>, id: Id, price: nat)
    requires Funded(done, id, price)
    ensures ReceivedFor(done, {id}) >= price
    decreases |done|
  {
    var i :| 0 <= i < |done| && done[i].memo == id && done[i].amount >= price;
    var front := done[..|done| - 1];
    if i < |front| {
      assert front[i] == done[i];
      FundedValue(front, id, price);
    }
  }

  function Ids(a: seq<Admission>): set<Id> { set i | 0 <= i < |a| :: a[i].id }

  lemma {:induction false} PricesCovered(done: seq<Transaction>, a: seq<Admission>)
    requires forall i :: 0 <= i < |a| ==> Funded(done, a[i].id, a[i].price)
    requires forall i, j :: 0 <= i < j < |a| ==> a[i].id != a[j].id
    ensures Prices(a) <= ReceivedFor(done, Ids(a))
    decreases |a|
  {
    if a != [] {
      var front, last := a[..|a| - 1], a[|a| - 1];
      PricesCovered(done, front);
      assert Ids(a) == Ids(front) + {last.id} by {
        forall id | id in Ids(a) ensures id in Ids(front) + {last.id} {
          var i :| 0 <= i < |a| && a[i].id == id;
          if i < |front| { assert front[i].id == id; }
        }
        forall i | 0 <= i < |front| ensures front[i].id in Ids(a) { assert a[i] == front[i]; }
      }
      OneMoreMemo(done, Ids(front), last.id);
      FundedValue(done, last.id, last.price);
    }
  }

  /** Completed incoming value covers the prices of all admissions of a run. */
  lemma ReceivedCoversAdmissions(run: seq<Event>)
    ensures Prices(Run(INITIAL, run).admitted) <= Received(Run(INITIAL, run).done)
  {
    InvRun(run);
    var s := Run(INITIAL, run);
    forall i | 0 <= i < |s.admitted| ensures Funded(s.done, s.admitted[i].id, s.admitted[i].price) {
      assert AdmissionSound(s, s.admitted[i]);
    }
    PricesCovered(s.done, s.admitted);
  }

  // ---------- no proof pays twice ----------

  predicate ProofsInv(s: State) {
    && (forall n :: n in s.sagas ==> n < s.nextSaga && (s.sagas[n].accepted ==> s.sagas[n].secrets <= s.spent))
    && (forall m, n :: m in s.sagas && n in s.sagas && m != n && s.sagas[m].accepted && s.sagas[n].accepted ==>
          s.sagas[m].secrets !! s.sagas[n].secrets)
    && (forall i :: 0 <= i < |s.done| ==> s.done[i].secrets <= s.spent)
    && (forall i, n :: 0 <= i < |s.done| && n in s.sagas && s.sagas[n].accepted ==>
          s.done[i].secrets !! s.sagas[n].secrets)
    && (forall i, j :: 0 <= i < j < |s.done| ==> s.done[i].secrets !! s.done[j].secrets)
  }

  /** Newly accepted proofs were unspent, so they meet no other redemption. */
  lemma ProofsAccepted(s: State, n: nat)
    requires ProofsInv(s)
    ensures ProofsInv(WalletStep(s, MintAccepts(n)))
  {
    var s' := WalletStep(s, MintAccepts(n));
    if s' != s {
      var added := s.sagas[n].secrets;
      assert added !! s.spent;
      forall m | m in s.sagas && m != n && s.sagas[m].accepted ensures s.sagas[m].secrets !! added {}
      forall i | 0 <= i < |s.done| ensures s.done[i].secrets !! added {}
    }
  }

  predicate TouchesWallet(e: Event) { e.MintAccepts? || e.SagaCompletes? || e.SagaCompensated? || e.BeginRedeem? }

  lemma WalletUntouched(s: State, e: Event)
    requires !TouchesWallet(e)
    ensures var s' := Step(s, e);
            s'.sagas == s.sagas && s'.done == s.done && s'.spent == s.spent && s'.nextSaga == s.nextSaga
  {}

  lemma ProofsCompleted(s: State, n: nat, amount: nat)
    requires ProofsInv(s)
    ensures ProofsInv(WalletStep(s, SagaCompletes(n, amount)))
  {}

  lemma ProofsStep(s: State, e: Event)
    requires ProofsInv(s)
    ensures ProofsInv(Step(s, e))
  {
    match e
    case MintAccepts(n) => ProofsAccepted(s, n);
    case SagaCompletes(n, amount) => ProofsCompleted(s, n, amount);
    case SagaCompensated(_) =>
    case BeginRedeem =>
    case _ => WalletUntouched(s, e);
  }

  lemma {:induction false} ProofsRun(run: seq<Event>)
    ensures ProofsInv(Run(INITIAL, run))
    decreases |run|
  {
    if run != [] {
      ProofsRun(run[..|run| - 1]);
      ProofsStep(Run(INITIAL, run[..|run| - 1]), run[|run| - 1]);
    }
  }

  /** Every completed transaction carries the proofs of the token it names. */
  predicate Tagged(secrets: Id -> set<string>, s: State) {
    && (s.holder.Held? ==> s.holder.collect.token.secrets == secrets(s.holder.collect.token.id))
    && (forall n :: n in s.sagas ==> s.sagas[n].secrets == secrets(s.sagas[n].memo))
    && (forall i :: 0 <= i < |s.done| ==> s.done[i].secrets == secrets(s.done[i].memo))
  }

  lemma TaggedStep(secrets: Id -> set<string>, s: State, e: Event)
    requires Tagged(secrets, s) && (e.Start? ==> e.token.secrets == secrets(e.token.id))
    ensures Tagged(secrets, Step(s, e))
  {
    if !TouchesWallet(e) { WalletUntouched(s, e); }
  }

  lemma {:induction false} TaggedRun(secrets: Id -> set<string>, run: seq<Event>)
    requires forall e :: e in run && e.Start? ==> e.token.secrets == secrets(e.token.id)
    ensures Tagged(secrets, Run(INITIAL, run))
    decreases |run|
  {
    if run != [] {
      assert run[|run| - 1] in run;
      TaggedRun(secrets, run[..|run| - 1]);
      TaggedStep(secrets, Run(INITIAL, run[..|run| - 1]), run[|run| - 1]);
    }
  }

  /** Where a token id determines its proofs, two admitted tokens share none:
      one proof never pays for two requests, whatever tokens carry it. */
  lemma AdmittedTokensShareNoProof(secrets: Id -> set<string>, run: seq<Event>, i: nat, j: nat)
    requires forall e :: e in run && e.Start? ==> e.token.secrets == secrets(e.token.id)
    requires i < j < |Run(INITIAL, run).admitted|
    ensures var a := Run(INITIAL, run).admitted; secrets(a[i].id) !! secrets(a[j].id)
  {
    InvRun(run);
    ProofsRun(run);
    TaggedRun(secrets, run);
    var s := Run(INITIAL, run);
    assert AdmissionSound(s, s.admitted[i]) && AdmissionSound(s, s.admitted[j]);
    var x :| 0 <= x < |s.done| && s.done[x].memo == s.admitted[i].id;
    var y :| 0 <= y < |s.done| && s.done[y].memo == s.admitted[j].id;
    assert x != y;
  }

  // ---------- an undisturbed collection ----------

  /** Numbers of sagas are not reused. */
  predicate SagasNumbered(s: State) {
    && (forall n :: n in s.sagas ==> n < s.nextSaga)
    && (forall i :: 0 <= i < |s.done| ==> s.done[i].saga < s.nextSaga)
  }

  lemma SagasNumberedStep(s: State, e: Event)
    requires SagasNumbered(s)
    ensures SagasNumbered(Step(s, e))
  {
    if !TouchesWallet(e) { WalletUntouched(s, e); }
  }

  lemma {:induction false} SagasNumberedRun(run: seq<Event>)
    ensures SagasNumbered(Run(INITIAL, run))
    decreases |run|
  {
    if run != [] {
      SagasNumberedRun(run[..|run| - 1]);
      SagasNumberedStep(Run(INITIAL, run[..|run| - 1]), run[|run| - 1]);
    }
  }

  lemma RunSnoc(s: State, run: seq<Event>, e: Event)
    ensures Run(s, run + [e]) == Step(Run(s, run), e)
  {
    assert (run + [e])[..|run|] == run;
  }

  lemma {:induction false} RunConcat(s: State, a: seq<Event>, b: seq<Event>)
    ensures Run(s, a + b) == Run(Run(s, a), b)
    decreases |b|
  {
    if b == [] {
      assert a + b == a;
    } else {
      var n := |b| - 1;
      RunConcat(s, a, b[..n]);
      assert (a + b)[..|a + b| - 1] == a + b[..n];
    }
  }

  lemma RunTwo(s: State, a: Event, b: Event)
    ensures Run(s, [a, b]) == Step(Step(s, a), b)
  {
    RunSnoc(s, [], a);
    RunSnoc(s, [a], b);
    assert [] + [a] == [a] && [a] + [b] == [a, b];
  }

  function Opening(token: Token, site: string, price: nat, recovered: bool): seq<Event> {
    [Start(token, site, price), Recover(recovered)] + [CommitReserve(Committed)]
  }

  function Redemption(saga: nat, amount: nat, returned: bool): seq<Event> {
    [BeginRedeem, MintAccepts(saga)] + [SagaCompletes(saga, amount), RedeemReturns(returned)]
  }

  /** `collect_inner` from beginning to end; `amount` is what the mint gives for the
      proofs if it accepts them, `returned` whether `receive_proofs` succeeds then. */
  function Undisturbed(s: State, token: Token, site: string, price: nat, recovered: bool, amount: nat, returned: bool)
    : seq<Event>
  {
    Opening(token, site, price, recovered) + Redemption(s.nextSaga, amount, returned) + [CommitClaim(Committed)]
  }

  lemma Opens(s: State, token: Token, site: string, price: nat, recovered: bool)
    requires s.holder.Free?
    ensures Step(Step(s, Start(token, site, price)), Recover(recovered)) ==
              s.(holder := if recovered && price <= token.net then Held(Collect(token, site, price, Recovered))
                           else Free)
  {
    assert Step(s, Start(token, site, price)) == s.(holder := Held(Collect(token, site, price, Opened)));
  }

  lemma Reserves(s: State)
    requires s.holder.Held? && s.holder.collect.phase.Recovered?
    ensures var c := s.holder.collect;
            var t, id := s.payments, c.token.id;
            Step(s, CommitReserve(Committed)) ==
              if id !in t then
                s.(payments := t[id := Row(c.site, c.price, false)], holder := Held(c.(phase := MustRedeem)))
              else if t[id] != Row(c.site, c.price, false) then s.(holder := Free)
              else s.(holder := Held(c.(phase := if Funded(s.done, id, c.price) then MustClaim else MustRedeem)))
  {}

  lemma Accepts(s: State)
    requires s.holder.Held? && s.holder.collect.phase.MustRedeem? && s.nextSaga !in s.sagas
    ensures var n, c := s.nextSaga, s.holder.collect;
            var accepted := c.token.secrets !! s.spent;
            Step(Step(s, BeginRedeem), MintAccepts(n)) ==
              s.(sagas := s.sagas[n := Saga(c.token.id, c.token.secrets, accepted)], nextSaga := n + 1,
                 spent := if accepted then s.spent + c.token.secrets else s.spent,
                 holder := Held(c.(phase := Redeeming(n))))
  {
    var n, c := s.nextSaga, s.holder.collect;
    var begun := s.sagas[n := Saga(c.token.id, c.token.secrets, false)];
    assert begun[n := Saga(c.token.id, c.token.secrets, true)] ==
           s.sagas[n := Saga(c.token.id, c.token.secrets, true)];
  }

  lemma Completes(s: State, n: nat, amount: nat, returned: bool)
    requires s.holder.Held? && s.holder.collect.phase == Redeeming(n)
    requires n in s.sagas && s.sagas[n].memo == s.holder.collect.token.id
    requires forall i :: 0 <= i < |s.done| ==> s.done[i].saga != n
    ensures var c, s' := s.holder.collect, Step(Step(s, SagaCompletes(n, amount)), RedeemReturns(returned));
            && s'.payments == s.payments && s'.admitted == s.admitted
            && s'.holder == if s.sagas[n].accepted && returned && c.price <= amount then Held(c.(phase := MustClaim))
                            else Free
  {
    var c, s1 := s.holder.collect, Step(s, SagaCompletes(n, amount));
    if s.sagas[n].accepted {
      var i := |s.done|;
      assert s1.done[i] == Transaction(n, c.token.id, amount, s.sagas[n].secrets);
      assert SagaDone(s1.done, n, c.token.id, c.price) <==> c.price <= amount;
    } else {
      assert !SagaDone(s1.done, n, c.token.id, c.price);
    }
  }

  lemma Redeems(s: State, amount: nat, returned: bool)
    requires s.holder.Held? && s.holder.collect.phase.MustRedeem? && SagasNumbered(s)
    ensures var c, s' := s.holder.collect, Run(s, Redemption(s.nextSaga, amount, returned));
            && s'.payments == s.payments && s'.admitted == s.admitted
            && s'.holder == if c.token.secrets !! s.spent && returned && c.price <= amount then
                              Held(c.(phase := MustClaim))
                            else Free
  {
    var n := s.nextSaga;
    RunConcat(s, [BeginRedeem, MintAccepts(n)], [SagaCompletes(n, amount), RedeemReturns(returned)]);
    RunTwo(s, BeginRedeem, MintAccepts(n));
    Accepts(s);
    var s2 := Run(s, [BeginRedeem, MintAccepts(n)]);
    RunTwo(s2, SagaCompletes(n, amount), RedeemReturns(returned));
    Completes(s2, n, amount, returned);
  }

  lemma NothingToRedeem(s: State, n: nat, amount: nat, returned: bool)
    requires n !in s.sagas && (s.holder.Held? ==> s.holder.collect.phase.MustClaim?)
    ensures Run(s, Redemption(n, amount, returned)) == s
  {
    RunConcat(s, [BeginRedeem, MintAccepts(n)], [SagaCompletes(n, amount), RedeemReturns(returned)]);
    RunTwo(s, BeginRedeem, MintAccepts(n));
    RunTwo(s, SagaCompletes(n, amount), RedeemReturns(returned));
  }

  lemma Claims(s: State)
    requires s.holder.Held? ==> s.holder.collect.phase.MustClaim? && s.holder.collect.token.id in s.payments &&
                                !s.payments[s.holder.collect.token.id].claimed
    ensures var s' := Step(s, CommitClaim(Committed));
            if s.holder.Free? then s' == s
            else
              var c := s.holder.collect;
              var row := s.payments[c.token.id];
              s' == s.(holder := Free, payments := s.payments[c.token.id := Row(row.site, row.price, true)],
                       admitted := s.admitted + [Admission(c.token.id, c.site, c.price)])
  {}

  /** The mint accepts the proofs, `receive_proofs` returns and brings in the price. */
  predicate Redeemable(s: State, token: Token, price: nat, amount: nat, returned: bool) {
    token.secrets !! s.spent && returned && price <= amount
  }

  /** The row of the token belongs to this site and price and is unclaimed, or there
      is none yet, and its funds are here or can be redeemed. */
  predicate Admissible(s: State, token: Token, site: string, price: nat, redeemable: bool) {
    if token.id in s.payments then
      s.payments[token.id] == Row(site, price, false) && (redeemable || Funded(s.done, token.id, price))
    else redeemable
  }

  lemma AfterOpening(s: State, token: Token, site: string, price: nat, recovered: bool)
    requires s.holder.Free?
    ensures var s', id := Run(s, Opening(token, site, price, recovered)), token.id;
            && s'.done == s.done && s'.spent == s.spent && s'.sagas == s.sagas && s'.nextSaga == s.nextSaga
            && s'.admitted == s.admitted
            && if !recovered || token.net < price then s'.holder.Free? && s'.payments == s.payments
               else if id !in s.payments then
                 && s'.payments == s.payments[id := Row(site, price, false)]
                 && s'.holder == Held(Collect(token, site, price, MustRedeem))
               else
                 && s'.payments == s.payments
                 && s'.holder == if s.payments[id] != Row(site, price, false) then Free
                                 else if Funded(s.done, id, price) then Held(Collect(token, site, price, MustClaim))
                                 else Held(Collect(token, site, price, MustRedeem))
  {
    RunSnoc(s, [Start(token, site, price), Recover(recovered)], CommitReserve(Committed));
    RunTwo(s, Start(token, site, price), Recover(recovered));
    Opens(s, token, site, price, recovered);
    var s2 := Run(s, [Start(token, site, price), Recover(recovered)]);
    if s2.holder.Held? { Reserves(s2); }
  }

  lemma AfterRedemption(s: State, token: Token, site: string, price: nat, recovered: bool, amount: nat, returned: bool)
    requires s.holder.Free? && SagasNumbered(s)
    ensures var s' := Run(s, Opening(token, site, price, recovered) + Redemption(s.nextSaga, amount, returned));
            var covers := recovered && price <= token.net;
            && s'.admitted == s.admitted
            && s'.payments == (if covers && token.id !in s.payments then
                                 s.payments[token.id := Row(site, price, false)]
                               else s.payments)
            && s'.holder ==
                 if covers && Admissible(s, token, site, price, Redeemable(s, token, price, amount, returned)) then
                   Held(Collect(token, site, price, MustClaim))
                 else Free
  {
    var first, middle := Opening(token, site, price, recovered), Redemption(s.nextSaga, amount, returned);
    RunConcat(s, first, middle);
    AfterOpening(s, token, site, price, recovered);
    var s3 := Run(s, first);
    if s3.holder.Held? && s3.holder.collect.phase.MustRedeem? {
      Redeems(s3, amount, returned);
    } else {
      NothingToRedeem(s3, s.nextSaga, amount, returned);
    }
  }

  /** From every state with a free lock, a collection that nothing disturbs admits
      the token exactly when the token covers the price, its row is this site's and
      unclaimed or absent, and its funds are here or can be redeemed now. It then
      claims that row and no other; otherwise at most a fresh reservation is left. */
  lemma UndisturbedAdmitsExactlyWhen(s: State, token: Token, site: string, price: nat, recovered: bool, amount: nat,
                                     returned: bool)
    requires s.holder.Free? && SagasNumbered(s)
    ensures var s' := Run(s, Undisturbed(s, token, site, price, recovered, amount, returned));
            var covers := recovered && price <= token.net;
            var admits := covers && Admissible(s, token, site, price, Redeemable(s, token, price, amount, returned));
            && s'.holder.Free?
            && s'.admitted == (if admits then s.admitted + [Admission(token.id, site, price)] else s.admitted)
            && s'.payments == if admits then s.payments[token.id := Row(site, price, true)]
                              else if covers && token.id !in s.payments then
                                s.payments[token.id := Row(site, price, false)]
                              else s.payments
  {
    var steps := Opening(token, site, price, recovered) + Redemption(s.nextSaga, amount, returned);
    RunSnoc(s, steps, CommitClaim(Committed));
    AfterRedemption(s, token, site, price, recovered, amount, returned);
    Claims(Run(s, steps));
  }

  /** The first use of a token, or a retry of one that was never redeemed, is
      admitted once its proofs are redeemed: for every state of every run. */
  lemma RedeemedTokenIsAdmitted(run: seq<Event>, token: Token, site: string, price: nat, amount: nat)
    requires var s := Run(INITIAL, run);
             && s.holder.Free? && price <= token.net && price <= amount && token.secrets !! s.spent
             && (token.id in s.payments ==> s.payments[token.id] == Row(site, price, false))
    ensures var s := Run(INITIAL, run);
            var s' := Run(s, [Start(token, site, price), Recover(true), CommitReserve(Committed), BeginRedeem,
                              MintAccepts(s.nextSaga), SagaCompletes(s.nextSaga, amount), RedeemReturns(true),
                              CommitClaim(Committed)]);
            && s'.admitted == s.admitted + [Admission(token.id, site, price)]
            && s'.payments == s.payments[token.id := Row(site, price, true)]
  {
    var s := Run(INITIAL, run);
    SagasNumberedRun(run);
    UndisturbedAdmitsExactlyWhen(s, token, site, price, true, amount, true);
    assert Undisturbed(s, token, site, price, true, amount, true) ==
           [Start(token, site, price), Recover(true), CommitReserve(Committed), BeginRedeem, MintAccepts(s.nextSaga),
            SagaCompletes(s.nextSaga, amount), RedeemReturns(true), CommitClaim(Committed)];
  }

  /** `collect_inner` without interruption, on the ledger's own transactions: the same
      rows and the same verdict as the steps of the protocol. The wallet's completed
      transactions and the answers of the mint are given. */
  method CollectToken(ledger: Ledger, token: Token, site: string, price: nat, recovered: bool, done: seq<Transaction>,
                      accepted: bool, amount: nat, returned: bool, ghost s: State)
    returns (ok: bool)
    requires s.holder.Free? && SagasNumbered(s) && s.payments == ledger.payments && s.done == done
    requires accepted == (token.secrets !! s.spent)
    modifies ledger
    ensures var s' := Run(s, Undisturbed(s, token, site, price, recovered, amount, returned));
            && ledger.payments == s'.payments
            && s'.admitted == s.admitted + (if ok then [Admission(token.id, site, price)] else [])
    ensures var t, id, redeemed := old(ledger.payments), token.id, accepted && returned && price <= amount;
            ok <==>
              && recovered && price <= token.net
              && (id in t ==> t[id] == Row(site, price, false))
              && (redeemed || (id in t && Funded(done, id, price)))
  {
    UndisturbedAdmitsExactlyWhen(s, token, site, price, recovered, amount, returned);
    if !recovered || token.net < price { return false; }
    var r := ledger.ReserveToken(token.id, site, price);
    if r.Mismatch? || r.AlreadyClaimed? { return false; }
    if r.Pending? {
      var funded := FindFunds(done, token.id, price);
      if funded {
        ok := ledger.ClaimToken(token.id);
        return;
      }
    }
    if !accepted || !returned || amount < price { return false; }
    ok := ledger.ClaimToken(token.id);
  }

  /** The search through the completed incoming transactions. */
  method FindFunds(done: seq<Transaction>, id: Id, price: nat) returns (found: bool)
    ensures found <==> Funded(done, id, price)
  {
    found := false;
    for i := 0 to |done|
      invariant found <==> Funded(done[..i], id, price)
    {
      FundedSnoc(done, i, id, price);
      if done[i].memo == id && done[i].amount >= price { found := true; }
    }
    assert done[..|done|] == done;
  }

  lemma FundedSnoc(done: seq<Transaction>, i: nat, id: Id, price: nat)
    requires i < |done|
    ensures Funded(done[..i + 1], id, price) <==>
            Funded(done[..i], id, price) || (done[i].memo == id && done[i].amount >= price)
  {
    if Funded(done[..i], id, price) { FundedStays(done[..i], done[..i + 1], id, price); }
    if done[i].memo == id && done[i].amount >= price { assert done[..i + 1][i] == done[i]; }
  }

  // ---------- retrying after an interruption ----------

  /** A token whose redemption completed but whose claim was lost is admitted by
      an undisturbed retry at the same site and price. */
  lemma RetryAdmits(s: State, token: Token, site: string, price: nat)
    requires s.holder.Free? && token.net >= price
    requires token.id in s.payments && s.payments[token.id] == Row(site, price, false) &&
             Funded(s.done, token.id, price)
    ensures var retry := [Start(token, site, price), Recover(true), CommitReserve(Committed), CommitClaim(Committed)];
            Run(s, retry).admitted == s.admitted + [Admission(token.id, site, price)]
  {
    var retry := [Start(token, site, price), Recover(true), CommitReserve(Committed), CommitClaim(Committed)];
    var s1 := Step(s, retry[0]);
    var s2 := Step(s1, retry[1]);
    var s3 := Step(s2, retry[2]);
    assert s3.holder == Held(Collect(token, site, price, MustClaim)) && s3.payments == s.payments;
    assert retry[..1][..0] == [] && retry[..2][..1] == retry[..1] && retry[..3][..2] == retry[..2];
    assert Run(s, retry[..1]) == s1 && Run(s, retry[..2]) == s2 && Run(s, retry[..3]) == s3;
  }
}
