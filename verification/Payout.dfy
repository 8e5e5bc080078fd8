/** Operator payouts for one mint: cooldown, prepare, durable guard, confirm,
    clear. Every holder of the wallet lock can be cancelled or crash between two
    steps; a write it had begun is then on disk or dropped before the next holder. */
module Payout {
  import opened Basics

  const I64_MAX: int := 0x7FFF_FFFF_FFFF_FFFF

  function SatAdd(a: int, b: nat): (r: int)
    requires a <= I64_MAX
    ensures a <= r <= I64_MAX
  {
    if a + b > I64_MAX then I64_MAX else a + b
  }

  type Time = t: int | 0 <= t <= I64_MAX

  datatype PayoutState = PayoutState(lastPaid: Time, retryAt: Time, pending: Option<nat>)
  const DEFAULT := PayoutState(0, 0, None)

  datatype Policy = Policy(amount: nat, maxFee: nat, interval: Option<nat>, threshold: Option<nat>)

  predicate Due(p: Policy, s: PayoutState, now: Time, balance: nat) {
    && s.pending.None?
    && now >= s.retryAt
    && balance >= p.amount
    && ((p.threshold.Some? && balance >= p.threshold.value)
        || (p.interval.Some? && now >= SatAdd(s.lastPaid, p.interval.value)))
  }

  /** Life of a send operation in the wallet. `Confirming`: the token may have
      been delivered. `Delivered`: confirmed, but the guard is not cleared yet. */
  datatype Status = Prepared | Confirming | Delivered | Recorded | Resolved
  datatype Op = Op(total: nat, cap: nat, status: Status, confirmed: bool)

  datatype Holder =
    | Idle
    | Loaded(policy: Policy, state: PayoutState, now: Time)
    | Cooling(policy: Policy, state: PayoutState, now: Time)
    | Sending(cap: nat, state: PayoutState)
    | HavePrepared(id: nat, state: PayoutState)
    | Guarded(id: nat, state: PayoutState)
    | InConfirm(id: nat, state: PayoutState)
    | Confirmed(id: nat, state: PayoutState)

  datatype Fate = Committed | FailedOld | FailedNew

  datatype State = State(
    clock: Time,
    durable: Option<PayoutState>,
    ops: map<nat, Op>,
    next: nat,
    holder: Holder,
    attempts: seq<Time>)     // when automatic attempts started

  datatype Event =
    | Advance(to: Time)
    | AutoBegin(policy: Policy, init: Fate)
    | AutoDue(recovered: bool, balance: nat)
    | CoolSave(fate: Fate)
    | PayBegin(amount: nat, maxTotal: nat, recovered: bool)
    | Prepare(ok: bool, total: nat, cancelled: bool)
    | GuardSave(fate: Fate, cancelled: bool)
    | Confirm
    | ConfirmReturns(ok: bool)
    | ClearSave(fate: Fate)
    | Abandon
    | SagaGone(id: nat)
    | PendingCommand(fate: Fate)

  const INITIAL := State(0, None, map[], 0, Idle, [])

  function Saved(s: State, fate: Fate, p: PayoutState): State { if fate.FailedOld? then s else s.(durable := Some(p)) }
  function Leave(s: State): State { s.(holder := Idle) }
  function Mark(s: State, id: nat, status: Status): State
    requires id in s.ops
  {
    s.(ops := s.ops[id := s.ops[id].(status := status)])
  }

  function HeldOp(h: Holder): Option<nat> {
    if h.HavePrepared? || h.Guarded? || h.InConfirm? || h.Confirmed? then Some(h.id) else None
  }

  function LoadStep(s: State, policy: Policy, init: Fate): State {
    var state := if s.durable.Some? then s.durable.value else PayoutState(s.clock, 0, None);
    var saved := if s.durable.Some? then s else Saved(s, init, state);
    if s.durable.None? && !init.Committed? then saved
    else if state.pending.Some? || s.clock < state.retryAt then saved
    else saved.(holder := Loaded(policy, state, s.clock))
  }

  /** Persist the cooldown before any funds are prepared. */
  function CoolStep(s: State, fate: Fate): State
    requires s.holder.Cooling?
  {
    var cooled := s.holder.state.(retryAt := SatAdd(s.holder.now, 60));
    var saved := Saved(s, fate, cooled);
    if fate.Committed? then
      saved.(holder := Sending(s.holder.policy.amount + s.holder.policy.maxFee, cooled),
             attempts := s.attempts + [s.holder.now])
    else Leave(saved)
  }

  /** `prepare_pay_request`, with the fee cap checked before anything is confirmed. */
  function PrepareStep(s: State, ok: bool, total: nat, cancelled: bool): State
    requires s.holder.Sending?
  {
    if !ok then Leave(s)
    else
      var id, cap := s.next, s.holder.cap;
      var made := s.(next := id + 1);
      if total > cap then
        Leave(made.(ops := s.ops[id := Op(total, cap, if cancelled then Resolved else Prepared, false)]))
      else made.(ops := s.ops[id := Op(total, cap, Prepared, false)], holder := HavePrepared(id, s.holder.state))
  }

  function GuardStep(s: State, fate: Fate, cancelled: bool): State
    requires s.holder.HavePrepared?
  {
    var id, state := s.holder.id, s.holder.state.(pending := Some(s.holder.id));
    var saved := Saved(s, fate, state);
    if fate.Committed? then saved.(holder := Guarded(id, state))
    else Leave(if cancelled && id in s.ops then Mark(saved, id, Resolved) else saved)
  }

  function ClearStep(s: State, fate: Fate): State
    requires s.holder.Confirmed?
  {
    var id := s.holder.id;
    var saved := Leave(Saved(s, fate, s.holder.state.(pending := None, lastPaid := s.clock)));
    if fate.FailedOld? || id !in s.ops then saved else Mark(saved, id, Recorded)
  }

  /** `wallet pending`: the guard is cleared only when recovery has removed the saga. */
  function PendingStep(s: State, fate: Fate): State {
    var state := if s.durable.Some? then s.durable.value else DEFAULT;
    if state.pending.None? then s
    else
      var id := state.pending.value;
      if id in s.ops && !s.ops[id].status.Resolved? then s
      else Saved(s, fate, PayoutState(s.clock, SatAdd(s.clock, 60), None))
  }

  /** Recovery completes or compensates an operation nobody is working on. */
  function GoneStep(s: State, id: nat): State {
    if id in s.ops && HeldOp(s.holder) != Some(id) then Mark(s, id, Resolved) else s
  }

  function HolderStep(s: State, e: Event): State {
    match (e, s.holder)
    case (AutoDue(recovered, balance), Loaded(policy, state, now)) =>
      if recovered && Due(policy, state, now, balance) then s.(holder := Cooling(policy, state, now)) else Leave(s)
    case (CoolSave(fate), Cooling(_, _, _)) => CoolStep(s, fate)
    case (Prepare(ok, total, cancelled), Sending(_, _)) => PrepareStep(s, ok, total, cancelled)
    case (GuardSave(fate, cancelled), HavePrepared(_, _)) => GuardStep(s, fate, cancelled)
    case (Confirm, Guarded(id, state)) =>
      if id !in s.ops then s
      else s.(ops := s.ops[id := s.ops[id].(status := Confirming, confirmed := true)], holder := InConfirm(id, state))
    case (ConfirmReturns(ok), InConfirm(id, state)) =>
      if ok && id in s.ops then Mark(s, id, Delivered).(holder := Confirmed(id, state)) else Leave(s)
    case (ClearSave(fate), Confirmed(_, _)) => ClearStep(s, fate)
    case (Abandon, _) => Leave(s)
    case _ => s
  }

  function Step(s: State, e: Event): State {
    match e
    case Advance(to) => if to >= s.clock then s.(clock := to) else s
    case AutoBegin(policy, init) => if s.holder.Idle? then LoadStep(s, policy, init) else s
    case PayBegin(amount, maxTotal, recovered) =>
      var state := if s.durable.Some? then s.durable.value else DEFAULT;
      if s.holder.Idle? && maxTotal >= amount && recovered && state.pending.None? then
        s.(holder := Sending(maxTotal, state))
      else s
    case PendingCommand(fate) => if s.holder.Idle? then PendingStep(s, fate) else s
    case SagaGone(id) => GoneStep(s, id)
    case _ => HolderStep(s, e)
  }

  function Run(s: State, run: seq<Event>): State
    decreases |run|
  {
    if run == [] then s else Step(Run(s, run[..|run| - 1]), run[|run| - 1])
  }

  // ---------- the invariant ----------

  /** Confirmation has begun and its outcome is neither recorded nor recovered. */
  predicate Unresolved(op: Op) { op.status.Confirming? || op.status.Delivered? }

  predicate Guards(d: Option<PayoutState>, id: nat) { d.Some? && d.value.pending == Some(id) }

  /** What the lock holder knows about the disk. */
  predicate HolderSound(s: State) {
    match s.holder
    case Idle => true
    case Loaded(_, state, now) =>
      s.durable == Some(state) && state.pending.None? && now <= s.clock && now >= state.retryAt
    case Cooling(_, state, now) =>
      s.durable == Some(state) && state.pending.None? && now <= s.clock && now >= state.retryAt
    case Sending(_, state) => state == (if s.durable.Some? then s.durable.value else DEFAULT) && state.pending.None?
    case HavePrepared(id, state) =>
      && state == (if s.durable.Some? then s.durable.value else DEFAULT) && state.pending.None?
      && id in s.ops && s.ops[id].status.Prepared? && s.ops[id].total <= s.ops[id].cap
    case Guarded(id, state) =>
      && s.durable == Some(state) && state.pending == Some(id)
      && id in s.ops && s.ops[id].status.Prepared? && s.ops[id].total <= s.ops[id].cap
    case InConfirm(id, state) =>
      s.durable == Some(state) && state.pending == Some(id) && id in s.ops && s.ops[id].status.Confirming?
    case Confirmed(id, state) =>
      s.durable == Some(state) && state.pending == Some(id) && id in s.ops && s.ops[id].status.Delivered?
  }

  predicate OpsSound(s: State) {
    && (forall id :: id in s.ops && Unresolved(s.ops[id]) ==> Guards(s.durable, id))
    && (forall id :: id in s.ops && s.ops[id].confirmed ==> s.ops[id].total <= s.ops[id].cap)
    && (forall id :: id in s.ops ==> id < s.next)
  }

  predicate Spaced(s: State) {
    && (forall i :: 0 <= i < |s.attempts| ==> s.attempts[i] <= s.clock)
    && (forall i :: 0 < i < |s.attempts| ==> s.attempts[i] >= SatAdd(s.attempts[i - 1], 60))
    && (s.attempts != [] ==> s.durable.Some? && s.durable.value.retryAt >= SatAdd(s.attempts[|s.attempts| - 1], 60))
  }

  predicate Inv(s: State) { HolderSound(s) && OpsSound(s) && Spaced(s) }

  lemma InvCool(s: State, fate: Fate)
    requires Inv(s) && s.holder.Cooling?
    ensures Inv(CoolStep(s, fate))
  {
    var now := s.holder.now;
    if s.attempts != [] { assert now >= s.durable.value.retryAt >= SatAdd(s.attempts[|s.attempts| - 1], 60); }
  }

  lemma InvPrepare(s: State, ok: bool, total: nat, cancelled: bool)
    requires Inv(s) && s.holder.Sending?
    ensures Inv(PrepareStep(s, ok, total, cancelled))
  {}

  lemma InvGuard(s: State, fate: Fate, cancelled: bool)
    requires Inv(s) && s.holder.HavePrepared?
    ensures Inv(GuardStep(s, fate, cancelled))
  {}

  lemma InvClear(s: State, fate: Fate)
    requires Inv(s) && s.holder.Confirmed?
    ensures Inv(ClearStep(s, fate))
  {}

  lemma InvHolderStep(s: State, e: Event)
    requires Inv(s)
    ensures Inv(HolderStep(s, e))
  {
    match (e, s.holder)
    case (CoolSave(fate), Cooling(_, _, _)) => InvCool(s, fate);
    case (Prepare(ok, total, cancelled), Sending(_, _)) => InvPrepare(s, ok, total, cancelled);
    case (GuardSave(fate, cancelled), HavePrepared(_, _)) => InvGuard(s, fate, cancelled);
    case (ClearSave(fate), Confirmed(_, _)) => InvClear(s, fate);
    case _ =>
  }

  lemma InvLoad(s: State, policy: Policy, init: Fate)
    requires Inv(s) && s.holder.Idle?
    ensures Inv(LoadStep(s, policy, init))
  {}

  lemma InvPending(s: State, fate: Fate)
    requires Inv(s) && s.holder.Idle?
    ensures Inv(PendingStep(s, fate))
  {}

  lemma InvGone(s: State, id: nat)
    requires Inv(s)
    ensures Inv(GoneStep(s, id))
  {}

  lemma InvAdvance(s: State, time: Time)
    requires Inv(s)
    ensures time >= s.clock ==> Inv(s.(clock := time))
  {}

  lemma InvPay(s: State, e: Event)
    requires Inv(s) && e.PayBegin?
    ensures Inv(Step(s, e))
  {}

  lemma InvStep(s: State, e: Event)
    requires Inv(s)
    ensures Inv(Step(s, e))
  {
    if e.Advance? { InvAdvance(s, e.to); }
    else if e.AutoBegin? { if s.holder.Idle? { InvLoad(s, e.policy, e.init); } }
    else if e.PayBegin? { InvPay(s, e); }
    else if e.PendingCommand? { if s.holder.Idle? { InvPending(s, e.fate); } }
    else if e.SagaGone? { InvGone(s, e.id); }
    else { InvHolderStep(s, e); }
  }

  lemma {:induction false} InvRun(run: seq<Event>)
    ensures Inv(Run(INITIAL, run))
    decreases |run|
  {
    if run != [] {
      InvRun(run[..|run| - 1]);
      InvStep(Run(INITIAL, run[..|run| - 1]), run[|run| - 1]);
    }
  }

  // ---------- main results ----------

  /** In every run at most one payout is unresolved, and the durable guard names it. */
  lemma OneUnresolvedPayoutGuarded(run: seq<Event>, a: nat, b: nat)
    requires var ops := Run(INITIAL, run).ops; a in ops && b in ops && Unresolved(ops[a]) && Unresolved(ops[b])
    ensures a == b && Guards(Run(INITIAL, run).durable, a)
  {
    InvRun(run);
  }

  /** While a payout is unresolved no step prepares another one, and no step but
      recovery or its own completion can make it resolved. */
  lemma NothingPreparedWhileUnresolved(run: seq<Event>, id: nat, e: Event)
    requires var s := Run(INITIAL, run); id in s.ops && Unresolved(s.ops[id])
    ensures var s := Run(INITIAL, run);
            var s' := Step(s, e);
            && s'.ops.Keys == s.ops.Keys
            && (Unresolved(s'.ops[id]) || e == SagaGone(id) || e.ClearSave?)
            && (Unresolved(s'.ops[id]) ==> Guards(s'.durable, id))
  {
    InvRun(run);
    InvStep(Run(INITIAL, run), e);
    UnresolvedStays(Run(INITIAL, run), id, e);
  }

  lemma UnresolvedStays(s: State, id: nat, e: Event)
    requires Inv(s) && id in s.ops && Unresolved(s.ops[id])
    ensures var s' := Step(s, e);
            s'.ops.Keys == s.ops.Keys && (Unresolved(s'.ops[id]) || e == SagaGone(id) || e.ClearSave?)
  {}

  /** Step `e` allows a debit of up to `cap`: the operator's `max_total`, or `amount`
      plus `max_fee` of a policy that is due by the durable record. */
  predicate Authorizes(s: State, e: Event, cap: nat) {
    || (e.PayBegin? && e.recovered && s.holder.Idle? && e.amount <= e.maxTotal && cap == e.maxTotal)
    || (&& e.AutoDue? && e.recovered && s.holder.Loaded? && s.durable.Some?
        && Due(s.holder.policy, s.durable.value, s.holder.now, e.balance) && s.holder.now <= s.clock
        && cap == s.holder.policy.amount + s.holder.policy.maxFee)
  }

  function CapOf(h: Holder): Option<nat> {
    if h.Cooling? then Some(h.policy.amount + h.policy.maxFee) else if h.Sending? then Some(h.cap) else None
  }

  // ---------- one authorization, one debit ----------

  /** The step that authorized what the lock holder may send, and the step that
      authorized each operation, as positions in the run. */
  datatype Origins = Origins(current: Option<nat>, ops: map<nat, nat>)

  function OriginsOf(run: seq<Event>): Origins
    decreases |run|
  {
    if run == [] then Origins(None, map[])
    else
      var n := |run| - 1;
      var before, s, s' := OriginsOf(run[..n]), Run(INITIAL, run[..n]), Run(INITIAL, run);
      var current := if CapOf(s'.holder).None? then None else if CapOf(s.holder).Some? then before.current else Some(n);
      var made := s'.next > s.next && before.current.Some?;
      Origins(current, if made then before.ops[s.next := before.current.value] else before.ops)
  }

  /** Position `i` of the run authorizes `cap`. */
  predicate AuthorizedAt(run: seq<Event>, i: nat, cap: nat) {
    i < |run| && Authorizes(Run(INITIAL, run[..i]), run[i], cap)
  }

  lemma AuthorizedAtStays(run: seq<Event>, e: Event, i: nat, cap: nat)
    requires AuthorizedAt(run, i, cap)
    ensures AuthorizedAt(run + [e], i, cap)
  {
    assert (run + [e])[..i] == run[..i] && (run + [e])[i] == run[i];
  }

  predicate OriginsSound(run: seq<Event>, s: State, o: Origins) {
    && (CapOf(s.holder).Some? ==> o.current.Some? && AuthorizedAt(run, o.current.value, CapOf(s.holder).value))
    && (o.current.Some? ==> forall id :: id in o.ops ==> o.ops[id] != o.current.value)
    && o.ops.Keys == s.ops.Keys
    && (forall id :: id in o.ops ==> AuthorizedAt(run, o.ops[id], s.ops[id].cap))
    && (forall a, b :: a in o.ops && b in o.ops && o.ops[a] == o.ops[b] ==> a == b)
  }

  /** The cap of an operation was the holder's, and stays. */
  predicate OpsMove(s: State, s': State) {
    && (forall id :: id in s.ops ==> id in s'.ops && s'.ops[id].cap == s.ops[id].cap)
    && if s'.next == s.next then s'.ops.Keys == s.ops.Keys
       else
         && s'.next == s.next + 1 && CapOf(s.holder).Some? && CapOf(s'.holder).None?
         && s'.ops.Keys == s.ops.Keys + {s.next} && Some(s'.ops[s.next].cap) == CapOf(s.holder)
  }

  lemma OpsStep(s: State, e: Event)
    requires Inv(s)
    ensures OpsMove(s, Step(s, e))
  {}

  /** The holder's cap stays until it is used, and a new one is authorized. */
  lemma HolderCap(s: State, e: Event)
    requires Inv(s) && CapOf(Step(s, e).holder).Some?
    ensures var cap := CapOf(Step(s, e).holder);
            if CapOf(s.holder).Some? then cap == CapOf(s.holder) else Authorizes(s, e, cap.value)
  {}

  lemma CapsMove(s: State, e: Event)
    requires Inv(s)
    ensures OpsMove(s, Step(s, e))
    ensures var cap := CapOf(Step(s, e).holder);
            cap.Some? ==> if CapOf(s.holder).Some? then cap == CapOf(s.holder) else Authorizes(s, e, cap.value)
  {
    OpsStep(s, e);
    if CapOf(Step(s, e).holder).Some? { HolderCap(s, e); }
  }

  lemma OriginsStep(front: seq<Event>, e: Event)
    requires Inv(Run(INITIAL, front)) && OriginsSound(front, Run(INITIAL, front), OriginsOf(front))
    ensures OriginsSound(front + [e], Run(INITIAL, front + [e]), OriginsOf(front + [e]))
  {
    var run, n := front + [e], |front|;
    assert run[..n] == front && run[n] == e;
    var s, o := Run(INITIAL, front), OriginsOf(front);
    var s', o' := Step(s, e), OriginsOf(run);
    CapsMove(s, e);
    if o.current.Some? && CapOf(s.holder).Some? { AuthorizedAtStays(front, e, o.current.value, CapOf(s.holder).value); }
    forall id | id in o.ops ensures AuthorizedAt(run, o.ops[id], s'.ops[id].cap) {
      AuthorizedAtStays(front, e, o.ops[id], s.ops[id].cap);
    }
  }

  lemma {:induction false} OriginsRun(run: seq<Event>)
    ensures OriginsSound(run, Run(INITIAL, run), OriginsOf(run))
    decreases |run|
  {
    if run != [] {
      var front := run[..|run| - 1];
      OriginsRun(front);
      InvRun(front);
      OriginsStep(front, run[|run| - 1]);
      assert run == front + [run[|run| - 1]];
    }
  }

  /** Every confirmed debit is within `max_total` of a command of this run, or
      within `amount` plus `max_fee` of a policy that was due in it. */
  lemma DebitsAuthorized(run: seq<Event>, id: nat)
    requires var ops := Run(INITIAL, run).ops; id in ops && ops[id].confirmed
    ensures var op, o := Run(INITIAL, run).ops[id], OriginsOf(run).ops;
            op.total <= op.cap && id in o && AuthorizedAt(run, o[id], op.cap)
  {
    InvRun(run);
    OriginsRun(run);
  }

  /** Two operations of a run never rest on one command or one due pass. */
  lemma EachAuthorizationOnce(run: seq<Event>, a: nat, b: nat)
    requires var ops := Run(INITIAL, run).ops; a in ops && b in ops && a != b
    ensures var o, ops := OriginsOf(run).ops, Run(INITIAL, run).ops;
            && a in o && b in o && o[a] != o[b]
            && AuthorizedAt(run, o[a], ops[a].cap) && AuthorizedAt(run, o[b], ops[b].cap)
  {
    OriginsRun(run);
  }

  // ---------- the total ----------

  /** Sum of the caps of the operations numbered below `n`. */
  function Caps(ops: map<nat, Op>, n: nat): nat {
    if n == 0 then 0 else Caps(ops, n - 1) + if n - 1 in ops then ops[n - 1].cap else 0
  }

  function Debits(ops: map<nat, Op>, n: nat): nat {
    if n == 0 then 0 else Debits(ops, n - 1) + if n - 1 in ops && ops[n - 1].confirmed then ops[n - 1].total else 0
  }

  function HeldCap(h: Holder): nat { if CapOf(h).Some? then CapOf(h).value else 0 }

  /** What the step authorizes, if it authorizes anything. */
  function Granted(s: State, e: Event): nat {
    var h := Step(s, e).holder;
    if CapOf(s.holder).None? && CapOf(h).Some? then CapOf(h).value else 0
  }

  function GrantedIn(run: seq<Event>): nat
    decreases |run|
  {
    if run == [] then 0 else GrantedIn(run[..|run| - 1]) + Granted(Run(INITIAL, run[..|run| - 1]), run[|run| - 1])
  }

  lemma {:induction false} SameCaps(a: map<nat, Op>, b: map<nat, Op>, n: nat)
    requires forall id :: 0 <= id < n ==> (id in a <==> id in b) && (id in a ==> a[id].cap == b[id].cap)
    ensures Caps(a, n) == Caps(b, n)
    decreases n
  {
    if n > 0 { SameCaps(a, b, n - 1); }
  }

  lemma {:induction false} DebitsWithinCaps(ops: map<nat, Op>, n: nat)
    requires forall id :: id in ops && ops[id].confirmed ==> ops[id].total <= ops[id].cap
    ensures Debits(ops, n) <= Caps(ops, n)
    decreases n
  {
    if n > 0 { DebitsWithinCaps(ops, n - 1); }
  }

  lemma CapsConserved(s: State, e: Event)
    requires Inv(s)
    ensures var s' := Step(s, e);
            Caps(s'.ops, s'.next) + HeldCap(s'.holder) <= Caps(s.ops, s.next) + HeldCap(s.holder) + Granted(s, e)
  {
    var s' := Step(s, e);
    CapsMove(s, e);
    SameCaps(s'.ops, s.ops, s.next);
  }

  lemma {:induction false} CapsWithinGrants(run: seq<Event>)
    ensures var s := Run(INITIAL, run); Caps(s.ops, s.next) + HeldCap(s.holder) <= GrantedIn(run)
    decreases |run|
  {
    if run != [] {
      CapsWithinGrants(run[..|run| - 1]);
      InvRun(run[..|run| - 1]);
      CapsConserved(Run(INITIAL, run[..|run| - 1]), run[|run| - 1]);
    }
  }

  /** Everything debited in a run is at most the sum of what its commands and due
      passes authorized. */
  lemma DebitsWithinGrants(run: seq<Event>)
    ensures var s := Run(INITIAL, run);
            Debits(s.ops, s.next) <= GrantedIn(run) && forall id :: id in s.ops ==> id < s.next
  {
    InvRun(run);
    CapsWithinGrants(run);
    var s := Run(INITIAL, run);
    DebitsWithinCaps(s.ops, s.next);
  }

  /** An automatic payout starts only when the durable record is free of a pending
      one and past its cooldown, and the balance covers the amount and either
      reaches the threshold or the interval since the last payout is over. */
  lemma AutomaticOnlyWhenDue(run: seq<Event>, e: Event)
    requires var s := Run(INITIAL, run); !s.holder.Cooling? && Step(s, e).holder.Cooling?
    ensures var s := Run(INITIAL, run);
            var p := Step(s, e).holder.policy;
            && e.AutoDue? && e.recovered && s.durable.Some?
            && s.durable.value.pending.None? && s.clock >= s.durable.value.retryAt && e.balance >= p.amount
            && ((p.threshold.Some? && e.balance >= p.threshold.value)
                || (p.interval.Some? && s.clock >= SatAdd(s.durable.value.lastPaid, p.interval.value)))
  {
    InvRun(run);
  }

  /** Automatic attempts start at least 60 seconds apart (until the clock type
      saturates), however the ones before them ended. */
  lemma AttemptsSpaced(run: seq<Event>, i: nat, j: nat)
    requires i < j < |Run(INITIAL, run).attempts|
    ensures var a := Run(INITIAL, run).attempts; a[j] as int - a[i] as int >= 60 || a[j] == I64_MAX
    decreases j
  {
    InvRun(run);
    var a := Run(INITIAL, run).attempts;
    assert a[j] >= SatAdd(a[j - 1], 60);
    if i < j - 1 { AttemptsSpaced(run, i, j - 1); }
  }

  /** Without recovery the pause stays: the command alone never clears it. */
  lemma PauseOutlivesCommand(run: seq<Event>, id: nat, fate: Fate)
    requires var s := Run(INITIAL, run); id in s.ops && Unresolved(s.ops[id]) && s.holder.Idle?
    ensures Step(Run(INITIAL, run), PendingCommand(fate)) == Run(INITIAL, run)
  {
    InvRun(run);
  }

  // ---------- when a payout was recorded ----------

  predicate Paused(d: Option<PayoutState>) { d.Some? && d.value.pending.Some? }

  /** From `s` to `s'` the interval starts anew: automatic payouts are observed for
      the first time, an operation becomes recorded, or the pause ends. */
  ghost predicate StartsInterval(s: State, e: Event, s': State) {
    || (e.AutoBegin? && s.durable.None? && s'.durable.Some?)
    || (Paused(s.durable) && !Paused(s'.durable))
    || (exists id :: id in s.ops && id in s'.ops && !s.ops[id].status.Recorded? && s'.ops[id].status.Recorded?)
  }

  ghost predicate IntervalStartsAt(run: seq<Event>, i: nat) {
    i < |run| && StartsInterval(Run(INITIAL, run[..i]), run[i], Run(INITIAL, run[..i + 1]))
  }

  predicate NotAhead(s: State) { s.durable.Some? ==> s.durable.value.lastPaid <= s.clock }

  /** The record is dated by the clock where the interval starts anew; it is never
      dropped and its date never goes back. */
  lemma DatedStep(s: State, e: Event)
    requires Inv(s) && NotAhead(s)
    ensures var s' := Step(s, e);
            && NotAhead(s') && s'.clock >= s.clock
            && (s.durable.Some? ==> s'.durable.Some? && s'.durable.value.lastPaid >= s.durable.value.lastPaid)
            && (StartsInterval(s, e, s') ==> s'.durable.Some? && s'.durable.value.lastPaid == s.clock)
  {
    if e.ClearSave? && s.holder.Confirmed? {
      assert s.ops[s.holder.id].status.Delivered?;
    } else {
      OnlyClearRecords(s, e);
    }
  }

  lemma OnlyClearRecords(s: State, e: Event)
    requires !(e.ClearSave? && s.holder.Confirmed?)
    ensures var s' := Step(s, e);
            forall id :: id in s.ops && id in s'.ops && s'.ops[id].status.Recorded? ==> s.ops[id].status.Recorded?
  {}

  lemma DatedLast(run: seq<Event>)
    requires run != []
    ensures var d, d' := Run(INITIAL, run[..|run| - 1]).durable, Run(INITIAL, run).durable;
            d.Some? ==> d'.Some? && d'.value.lastPaid >= d.value.lastPaid
    ensures var s, s' := Run(INITIAL, run[..|run| - 1]), Run(INITIAL, run);
            IntervalStartsAt(run, |run| - 1) ==> s'.durable.Some? && s'.durable.value.lastPaid == s.clock
  {
    var front := run[..|run| - 1];
    InvRun(front);
    NeverAhead(front);
    DatedStep(Run(INITIAL, front), run[|run| - 1]);
    assert run[..|run|] == run;
  }

  lemma StartsInPrefix(run: seq<Event>, i: nat, k: nat)
    requires i < k <= |run| && IntervalStartsAt(run, i)
    ensures IntervalStartsAt(run[..k], i) && run[..k][..i] == run[..i]
  {
    assert run[..k][..i] == run[..i] && run[..k][..i + 1] == run[..i + 1];
  }

  lemma {:induction false} DatedRun(run: seq<Event>, i: nat)
    requires IntervalStartsAt(run, i)
    ensures var d := Run(INITIAL, run).durable; d.Some? && d.value.lastPaid >= Run(INITIAL, run[..i]).clock
    decreases |run|
  {
    var n := |run| - 1;
    DatedLast(run);
    if i < n {
      StartsInPrefix(run, i, n);
      DatedRun(run[..n], i);
    }
  }

  lemma {:induction false} NeverAhead(run: seq<Event>)
    ensures NotAhead(Run(INITIAL, run))
    decreases |run|
  {
    if run != [] {
      var front := run[..|run| - 1];
      NeverAhead(front);
      InvRun(front);
      DatedStep(Run(INITIAL, front), run[|run| - 1]);
    }
  }

  /** Over every run, the durable record is dated no earlier than any moment at
      which a payout was recorded, a pause ended, or automatic payouts were first
      observed: at that moment it took the clock, and later steps only move it on. */
  lemma RecordedPayoutsAreDated(run: seq<Event>, i: nat)
    requires IntervalStartsAt(run, i)
    ensures var s, s' := Run(INITIAL, run[..i]), Run(INITIAL, run[..i + 1]);
            && s'.durable.Some? && s'.durable.value.lastPaid == s.clock
            && Run(INITIAL, run).durable.Some? && Run(INITIAL, run).durable.value.lastPaid >= s.clock
  {
    DatedRun(run, i);
    StartsInPrefix(run, i, i + 1);
    DatedLast(run[..i + 1]);
  }

  /** Under a policy that has only an interval, an automatic payout starts at least
      that interval after every payout recorded before, every pause ended before,
      and the first observation, unless the clock type saturates. */
  lemma IntervalBetweenPayouts(run: seq<Event>, i: nat, k: nat)
    requires i < k < |run| && IntervalStartsAt(run, i)
    requires !Run(INITIAL, run[..k]).holder.Cooling? && Step(Run(INITIAL, run[..k]), run[k]).holder.Cooling?
    requires Step(Run(INITIAL, run[..k]), run[k]).holder.policy.threshold.None?
    ensures var p := Step(Run(INITIAL, run[..k]), run[k]).holder.policy;
            && p.interval.Some?
            && Run(INITIAL, run[..k]).clock >= SatAdd(Run(INITIAL, run[..i]).clock, p.interval.value)
  {
    StartsInPrefix(run, i, k);
    DatedRun(run[..k], i);
    AutomaticOnlyWhenDue(run[..k], run[k]);
  }

  // ---------- an undisturbed payout ----------

  lemma RunSnoc(s: State, run: seq<Event>, e: Event)
    ensures Run(s, run + [e]) == Step(Run(s, run), e)
  {
    assert (run + [e])[..|run|] == run;
  }

  lemma {:induction false} RunConcat(s: State, a: seq<Event>, b: seq<Event>)
    ensures Run(s, a + b) == Run(Run(s, a), b)
    decreases |b|
  {
    if b == [] {
      assert a + b == a;
    } else {
      var n := |b| - 1;
      RunConcat(s, a, b[..n]);
      assert (a + b)[..|a + b| - 1] == a + b[..n];
    }
  }

  lemma RunTwo(s: State, a: Event, b: Event)
    ensures Run(s, [a, b]) == Step(Step(s, a), b)
  {
    RunSnoc(s, [], a);
    RunSnoc(s, [a], b);
    assert [] + [a] == [a] && [a] + [b] == [a, b];
  }

  lemma SendPrepares(s: State, total: nat)
    requires s.holder.Sending? && total <= s.holder.cap
    ensures Step(s, Prepare(true, total, false)) ==
              s.(next := s.next + 1, holder := HavePrepared(s.next, s.holder.state),
                 ops := s.ops[s.next := Op(total, s.holder.cap, Prepared, false)])
  {}

  /** Preparing within the cap and saving the guard. */
  lemma SendGuards(s: State, total: nat)
    requires s.holder.Sending? && total <= s.holder.cap
    ensures var state := s.holder.state.(pending := Some(s.next));
            Run(s, [Prepare(true, total, false), GuardSave(Committed, false)]) ==
              s.(durable := Some(state), next := s.next + 1, holder := Guarded(s.next, state),
                 ops := s.ops[s.next := Op(total, s.holder.cap, Prepared, false)])
  {
    RunTwo(s, Prepare(true, total, false), GuardSave(Committed, false));
    SendPrepares(s, total);
    SavesGuard(Step(s, Prepare(true, total, false)));
  }

  lemma SavesGuard(s: State)
    requires s.holder.HavePrepared?
    ensures var state := s.holder.state.(pending := Some(s.holder.id));
            Step(s, GuardSave(Committed, false)) ==
              s.(durable := Some(state), holder := Guarded(s.holder.id, state))
  {}

  lemma SendConfirms(s: State)
    requires s.holder.Guarded? && s.holder.id in s.ops
    ensures var id := s.holder.id;
            Run(s, [Confirm, ConfirmReturns(true)]) ==
              s.(holder := Confirmed(id, s.holder.state),
                 ops := s.ops[id := s.ops[id].(status := Delivered, confirmed := true)])
  {
    RunTwo(s, Confirm, ConfirmReturns(true));
    var id := s.holder.id;
    assert s.ops[id := s.ops[id].(status := Confirming, confirmed := true)]
             [id := s.ops[id].(status := Delivered, confirmed := true)] ==
           s.ops[id := s.ops[id].(status := Delivered, confirmed := true)];
  }

  lemma SendClears(s: State)
    requires s.holder.Confirmed? && s.holder.id in s.ops
    ensures var id := s.holder.id;
            Step(s, ClearSave(Committed)) ==
              s.(durable := Some(s.holder.state.(pending := None, lastPaid := s.clock)), holder := Idle,
                 ops := s.ops[id := s.ops[id].(status := Recorded)])
  {}

  function Sent(total: nat): seq<Event> {
    [Prepare(true, total, false), GuardSave(Committed, false)] + [Confirm, ConfirmReturns(true)]
    + [ClearSave(Committed)]
  }

  /** A holder with the lock and an amount within its cap sends and records it:
      one more operation, the pause over, the record dated now. */
  lemma SendsOnce(s: State, total: nat)
    requires s.holder.Sending? && total <= s.holder.cap
    ensures Run(s, Sent(total)) ==
              s.(durable := Some(s.holder.state.(pending := None, lastPaid := s.clock)), next := s.next + 1,
                 ops := s.ops[s.next := Op(total, s.holder.cap, Recorded, true)], holder := Idle)
  {
    var a, b := [Prepare(true, total, false), GuardSave(Committed, false)], [Confirm, ConfirmReturns(true)];
    RunSnoc(s, a + b, ClearSave(Committed));
    RunConcat(s, a, b);
    SendGuards(s, total);
    var s2 := Run(s, a);
    SendConfirms(s2);
    SendClears(Run(s2, b));
    var id, op := s.next, Op(total, s.holder.cap, Recorded, true);
    assert Step(Run(s2, b), ClearSave(Committed)).ops == s.ops[id := op];
  }

  lemma AutomaticSends(s: State, p: Policy, balance: nat)
    requires s.holder.Idle? && s.durable.Some? && s.durable.value.pending.None? && s.durable.value.retryAt <= s.clock
    requires p.amount <= balance
    requires (p.threshold.Some? && p.threshold.value <= balance) ||
             (p.interval.Some? && SatAdd(s.durable.value.lastPaid, p.interval.value) <= s.clock)
    ensures var state := s.durable.value.(retryAt := SatAdd(s.clock, 60));
            Run(s, [AutoBegin(p, Committed), AutoDue(true, balance)] + [CoolSave(Committed)]) ==
              s.(durable := Some(state), holder := Sending(p.amount + p.maxFee, state),
                 attempts := s.attempts + [s.clock])
  {
    RunTwo(s, AutoBegin(p, Committed), AutoDue(true, balance));
    RunSnoc(s, [AutoBegin(p, Committed), AutoDue(true, balance)], CoolSave(Committed));
    DueIsFound(s, p, balance);
    Cools(s.(holder := Cooling(p, s.durable.value, s.clock)));
  }

  lemma DueIsFound(s: State, p: Policy, balance: nat)
    requires s.holder.Idle? && s.durable.Some? && s.durable.value.pending.None? && s.durable.value.retryAt <= s.clock
    requires p.amount <= balance
    requires (p.threshold.Some? && p.threshold.value <= balance) ||
             (p.interval.Some? && SatAdd(s.durable.value.lastPaid, p.interval.value) <= s.clock)
    ensures Step(Step(s, AutoBegin(p, Committed)), AutoDue(true, balance)) ==
              s.(holder := Cooling(p, s.durable.value, s.clock))
  {
    assert Step(s, AutoBegin(p, Committed)) == s.(holder := Loaded(p, s.durable.value, s.clock));
  }

  lemma Cools(s: State)
    requires s.holder.Cooling?
    ensures var state := s.holder.state.(retryAt := SatAdd(s.holder.now, 60));
            Step(s, CoolSave(Committed)) ==
              s.(durable := Some(state), attempts := s.attempts + [s.holder.now],
                 holder := Sending(s.holder.policy.amount + s.holder.policy.maxFee, state))
  {}

  /** A due automatic payout that nothing disturbs is sent once, recorded and dated:
      the next one waits for the cooldown, and for the interval where that decides. */
  lemma DuePayoutIsSent(s: State, p: Policy, balance: nat, total: nat)
    requires s.holder.Idle? && s.durable.Some? && s.durable.value.pending.None? && s.durable.value.retryAt <= s.clock
    requires p.amount <= balance && total <= p.amount + p.maxFee
    requires (p.threshold.Some? && p.threshold.value <= balance) ||
             (p.interval.Some? && SatAdd(s.durable.value.lastPaid, p.interval.value) <= s.clock)
    ensures Run(s, [AutoBegin(p, Committed), AutoDue(true, balance)] + [CoolSave(Committed)] + Sent(total)) ==
              s.(durable := Some(PayoutState(s.clock, SatAdd(s.clock, 60), None)), next := s.next + 1, holder := Idle,
                 ops := s.ops[s.next := Op(total, p.amount + p.maxFee, Recorded, true)],
                 attempts := s.attempts + [s.clock])
  {
    var start := [AutoBegin(p, Committed), AutoDue(true, balance)] + [CoolSave(Committed)];
    RunConcat(s, start, Sent(total));
    AutomaticSends(s, p, balance);
    SendsOnce(Run(s, start), total);
  }

  /** So is a payout the operator orders, which keeps the cooldown as it was. */
  lemma OrderedPayoutIsSent(s: State, amount: nat, maxTotal: nat, total: nat)
    requires s.holder.Idle? && amount <= maxTotal && total <= maxTotal && !Paused(s.durable)
    ensures var retryAt := if s.durable.Some? then s.durable.value.retryAt else 0;
            Run(s, [PayBegin(amount, maxTotal, true)] + Sent(total)) ==
              s.(durable := Some(PayoutState(s.clock, retryAt, None)), next := s.next + 1, holder := Idle,
                 ops := s.ops[s.next := Op(total, maxTotal, Recorded, true)])
  {
    var e := PayBegin(amount, maxTotal, true);
    RunConcat(s, [e], Sent(total));
    RunSnoc(s, [], e);
    assert [] + [e] == [e];
    SendsOnce(Step(s, e), total);
  }

  /** `wallet pending` ends a pause if and only if the paused operation is over. */
  lemma PauseEndsExactlyWhen(s: State, id: nat)
    requires s.holder.Idle? && Guards(s.durable, id)
    ensures Step(s, PendingCommand(Committed)) ==
              if id in s.ops && !s.ops[id].status.Resolved? then s
              else s.(durable := Some(PayoutState(s.clock, SatAdd(s.clock, 60), None)))
  {}
}
