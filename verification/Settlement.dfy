/** The Lightning settlement journal: x402 and L402 proofs consume the same
    `network:payment_hash` row of SPENT, while expired rows are pruned.
    ROOTS is keyed by the credential identifier itself (its digest in the store). */
module Settlement {
  import opened Basics
  import opened DecimalText
  import L402

  const U64_MAX: nat := L402.U64_MAX
  const SKEW: nat := 60
  const MAX_CHALLENGE_RECORDS: nat := 10_000

  function SatAdd(a: nat, b: nat): nat { if a + b > U64_MAX then U64_MAX else a + b }

  datatype Key = Key(network: string, hash: string)
  datatype Identifier = Identifier(hash: string, nonce: string)
  datatype Root = Root(secret: string, validBefore: nat)

  /** The times signed into an invoice; `genuine` is the verdict of the checks that
      do not read the clock (signature, receiver, network, amount, request, preimage). */
  datatype Invoice = Invoice(hash: string, created: nat, expiry: nat)
  datatype Payment = Payment(network: string, invoice: Invoice, genuine: bool)
  datatype Credential = Credential(network: string, id: Identifier, macaroon: L402.Macaroon, presented: L402.Presented,
                                   parsed: bool, mintReceiver: bool)

  // ---------- time bounds ----------

  function End(i: Invoice): nat { i.created + i.expiry }

  /** The clock window of `validate_invoice`. */
  predicate InWindow(i: Invoice, time: nat, grace: nat) {
    && i.created <= SatAdd(time, SKEW)
    && End(i) <= U64_MAX
    && (time < End(i) || (grace > 0 && time <= SatAdd(End(i), grace)))
  }

  /** `valid_before` of an L402 credential, when it does not overflow. */
  function ValidBefore(i: Invoice): Option<nat> {
    if End(i) + SKEW + 1 > U64_MAX then None else Some(End(i) + SKEW + 1)
  }

  function RetainX402(i: Invoice): nat { SatAdd(SatAdd(SatAdd(0, i.created), i.expiry), SKEW + 3600) }
  function RetainL402(validBefore: nat): nat { SatAdd(validBefore, 3599) }

  /** Both protocols compute one retention deadline, saturation included. */
  lemma SameRetention(i: Invoice)
    requires ValidBefore(i).Some?
    ensures RetainL402(ValidBefore(i).value) == RetainX402(i)
  {}

  /** Both protocols stop accepting at the same instant, and a proof accepted at
      that instant still has an hour of retention unless the clock type ends first. */
  lemma SameLastInstant(i: Invoice, time: nat)
    requires ValidBefore(i).Some? && time <= U64_MAX && i.created <= time
    ensures InWindow(i, time, SKEW) <==> time < ValidBefore(i).value
    ensures InWindow(i, time, SKEW) ==>
              time < RetainX402(i) && (RetainX402(i) - time >= 3600 || RetainX402(i) == U64_MAX)
  {}

  // ---------- the durable tables ----------

  datatype Tables = Tables(spent: map<Key, nat>, roots: map<Identifier, Root>, quotes: set<Key>)

  function Live(t: Tables, time: nat): Tables {
    Tables(map k | k in t.spent && t.spent[k] > time :: t.spent[k],
           map i | i in t.roots && t.roots[i].validBefore > time :: t.roots[i],
           t.quotes)
  }

  datatype ClaimResult = Claimed | AlreadySpent | RetentionExpired

  function Claim(t: Tables, key: Key, retainUntil: nat, time: nat): (r: (Tables, ClaimResult))
    ensures r.1.Claimed? ==> key !in t.spent && key in r.0.spent && time < r.0.spent[key]
    ensures !r.1.Claimed? ==> r.0 == t
  {
    if retainUntil <= time then (t, RetentionExpired)
    else if key in t.spent then (t, AlreadySpent)
    else (t.(spent := t.spent[key := retainUntil]), Claimed)
  }

  predicate HasCapacity(t: Tables, needed: nat) { |t.roots| + |t.quotes| + needed <= MAX_CHALLENGE_RECORDS }

  function Issue(t: Tables, id: Identifier, root: Root): Option<Tables> {
    if HasCapacity(t, 1) && id !in t.roots then Some(t.(roots := t.roots[id := root])) else None
  }

  function Associate(t: Tables, key: Key): Option<Tables> {
    if HasCapacity(t, 1) && key !in t.quotes then Some(t.(quotes := t.quotes + {key})) else None
  }

  /** The store as the code sees it: each method is one write transaction. */
  class Journal {
    var spent: map<Key, nat>
    var roots: map<Identifier, Root>
    var quotes: set<Key>

    ghost function Rows(): Tables reads this { Tables(spent, roots, quotes) }

    constructor ()
      ensures Rows() == Tables(map[], map[], {})
    {
      spent, roots, quotes := map[], map[], {};
    }

    method ClaimKey(key: Key, retainUntil: nat, now: nat) returns (r: ClaimResult)
      modifies this
      ensures (Rows(), r) == Claim(old(Rows()), key, retainUntil, now)
      ensures r.RetentionExpired? <==> retainUntil <= now
      ensures r.AlreadySpent? <==> now < retainUntil && key in old(spent)
      ensures spent == (if r.Claimed? then old(spent)[key := retainUntil] else old(spent))
    {
      if retainUntil <= now { return RetentionExpired; }
      if key in spent { return AlreadySpent; }
      spent := spent[key := retainUntil];
      r := Claimed;
    }

    method Prune(now: nat)
      modifies this
      ensures Rows() == Live(old(Rows()), now)
      ensures forall k :: k in spent <==> k in old(spent) && now < old(spent)[k]
      ensures forall i :: i in roots <==> i in old(roots) && now < old(roots)[i].validBefore
      ensures forall k :: k in spent ==> spent[k] == old(spent)[k]
      ensures forall i :: i in roots ==> roots[i] == old(roots)[i]
    {
      roots := map i | i in roots && roots[i].validBefore > now :: roots[i];
      spent := map k | k in spent && spent[k] > now :: spent[k];
    }

    method MintRoot(id: Identifier, root: Root) returns (ok: bool)
      modifies this
      ensures ok == Issue(old(Rows()), id, root).Some?
      ensures Rows() == if ok then Issue(old(Rows()), id, root).value else old(Rows())
      ensures ok <==> id !in old(roots) && |old(roots)| + |old(quotes)| < 10_000
      ensures roots == if ok then old(roots)[id := root] else old(roots)
    {
      if |roots| + |quotes| + 1 > MAX_CHALLENGE_RECORDS || id in roots { return false; }
      roots := roots[id := root];
      ok := true;
    }

    method InsertQuote(key: Key) returns (ok: bool)
      modifies this
      ensures ok == Associate(old(Rows()), key).Some?
      ensures Rows() == if ok then Associate(old(Rows()), key).value else old(Rows())
      ensures ok <==> key !in old(quotes) && |old(roots)| + |old(quotes)| < 10_000
      ensures quotes == if ok then old(quotes) + {key} else old(quotes)
    {
      if |roots| + |quotes| + 1 > MAX_CHALLENGE_RECORDS || key in quotes { return false; }
      quotes := quotes + {key};
      ok := true;
    }
  }

  // ---------- the protocol as steps ----------

  datatype Outcome = Admitted(key: Key, at: nat) | Invalid | Unavailable
  datatype Answer = Answer(task: nat, outcome: Outcome)

  /** Where a settlement stands between two awaits. */
  datatype Task =
    | HaveRoot(credential: Credential, root: Option<Root>)
    | Collecting(key: Key, retainUntil: nat)
    | Claiming(key: Key, retainUntil: nat, attached: bool)

  /** A write that reports failure may or may not have reached the disk. */
  datatype Write = Committed | FailedOld | FailedNew

  datatype Event =
    | Advance(to: nat)
    | Mint(id: Identifier, secret: string, invoice: Invoice)
    | AddQuote(key: Key)
    | DropQuote(key: Key)
    | DecideRetirement(job: nat, key: Key)
    | JournalRetirement(job: nat, write: Write)
    | SettleX402(task: nat, payment: Payment)
    | ReadRoot(task: nat, credential: Credential)
    | VerifyL402(task: nat)
    | Collected(task: nat, outcome: Option<Outcome>)
    | Commit(task: nat, write: Write)
    | Cancel(task: nat)
    | Prune(write: Write)
    | Restart

  /** `retiring`: writes on their way that journal the retirement of an association,
      also on behalf of a cleanup pass that was cancelled in the meantime. */
  datatype State = State(clock: nat, tables: Tables, tasks: map<nat, Task>, log: seq<Answer>, retiring: map<nat, Key>)

  /** `Pruning` is the journal as written; `Retaining` never deletes a row. */
  datatype Mode = Pruning | Retaining

  const INITIAL := State(0, Tables(map[], map[], {}), map[], [], map[])

  function Reply(s: State, task: nat, outcome: Outcome): State {
    s.(tasks := s.tasks - {task}, log := s.log + [Answer(task, outcome)])
  }

  function Begin(s: State, task: nat, t: Task): State { s.(tasks := s.tasks[task := t]) }

  function Stored(s: State, write: Write, next: Tables): State {
    s.(tables := if write.FailedOld? then s.tables else next)
  }

  /** Continue `settle_l402` after its read of ROOTS. */
  function FinishL402(h: L402.Hmac, s: State, task: nat, c: Credential, root: Option<Root>): State {
    if root.None? then Reply(s, task, Invalid)
    else if !L402.Authorized(h, c.presented, c.macaroon, root.value.secret, root.value.validBefore, s.clock) then
      Reply(s, task, Invalid)
    else
      var key, retain := Key(c.network, c.id.hash), RetainL402(root.value.validBefore);
      Begin(s, task, if c.mintReceiver then Collecting(key, retain) else Claiming(key, retain, true))
  }

  /** The claim transaction, answered only if its caller is still there. */
  function CommitClaim(s: State, task: nat, t: Task, write: Write): State
    requires t.Claiming?
  {
    var (next, result) := Claim(s.tables, t.key, t.retainUntil, s.clock);
    var stored := Stored(s, write, next);
    if !t.attached then stored.(tasks := stored.tasks - {task})
    else if !write.Committed? || result.RetentionExpired? then Reply(stored, task, Unavailable)
    else if result.AlreadySpent? then Reply(stored, task, Invalid)
    else Reply(stored, task, Admitted(t.key, s.clock))
  }

  function IssueStep(mode: Mode, s: State, e: Event): State
    requires e.Mint?
  {
    if ValidBefore(e.invoice).None? then s
    else
      var root := Root(e.secret, ValidBefore(e.invoice).value);
      if mode.Retaining? then s.(tables := s.tables.(roots := s.tables.roots[e.id := root]))
      else match Issue(s.tables, e.id, root)
        case Some(t) => s.(tables := t)
        case None => s
  }

  function QuoteStep(mode: Mode, s: State, e: Event): State
    requires e.AddQuote? || e.DropQuote?
  {
    if e.DropQuote? then s.(tables := s.tables.(quotes := s.tables.quotes - {e.key}))
    else if mode.Retaining? then s.(tables := s.tables.(quotes := s.tables.quotes + {e.key}))
    else match Associate(s.tables, e.key)
      case Some(t) => s.(tables := t)
      case None => s
  }

  /** A cleanup pass journals the retirement of a row it has read: an insert
      without a capacity check, whether or not the row is still there. */
  function RetireStep(s: State, e: Event): State
    requires e.DecideRetirement? || e.JournalRetirement?
  {
    if e.DecideRetirement? then
      if e.key in s.tables.quotes && e.job !in s.retiring then s.(retiring := s.retiring[e.job := e.key]) else s
    else if e.job !in s.retiring then s
    else
      var quotes := if e.write.FailedOld? then s.tables.quotes else s.tables.quotes + {s.retiring[e.job]};
      s.(retiring := s.retiring - {e.job}, tables := s.tables.(quotes := quotes))
  }

  function TaskStep(h: L402.Hmac, s: State, e: Event): State
    requires e.VerifyL402? || e.Collected? || e.Commit? || e.Cancel?
  {
    if e.task !in s.tasks then s
    else
      var t := s.tasks[e.task];
      match e
      case VerifyL402(task) => if t.HaveRoot? then FinishL402(h, s, task, t.credential, t.root) else s
      case Collected(task, outcome) =>
        if !t.Collecting? || (outcome.Some? && outcome.value.Admitted?) then s
        else if outcome.Some? then Reply(s, task, outcome.value)
        else Begin(s, task, Claiming(t.key, t.retainUntil, true))
      case Commit(task, write) => if t.Claiming? then CommitClaim(s, task, t, write) else s
      case Cancel(task) =>
        if t.Claiming? then Begin(s, task, t.(attached := false)) else s.(tasks := s.tasks - {task})
  }

  function Step(h: L402.Hmac, mode: Mode, s: State, e: Event): State {
    match e
    case Advance(to) => if to >= s.clock then s.(clock := to) else s
    case Mint(_, _, _) => IssueStep(mode, s, e)
    case AddQuote(_) => QuoteStep(mode, s, e)
    case DropQuote(_) => QuoteStep(mode, s, e)
    case DecideRetirement(_, _) => RetireStep(s, e)
    case JournalRetirement(_, _) => RetireStep(s, e)
    case SettleX402(task, p) =>
      if task in s.tasks then s
      else if !p.genuine || !InWindow(p.invoice, s.clock, SKEW) then Reply(s, task, Invalid)
      else Begin(s, task, Claiming(Key(p.network, p.invoice.hash), RetainX402(p.invoice), true))
    case ReadRoot(task, c) =>
      if task in s.tasks then s
      else if !c.parsed then Reply(s, task, Invalid)
      else Begin(s, task, HaveRoot(c, if c.id in s.tables.roots then Some(s.tables.roots[c.id]) else None))
    case Prune(write) => if mode.Retaining? then s else Stored(s, write, Live(s.tables, s.clock))
    case Restart => s.(tasks := map[], retiring := map[])
    case _ => TaskStep(h, s, e)
  }

  function Run(h: L402.Hmac, mode: Mode, s: State, run: seq<Event>): State
    decreases |run|
  {
    if run == [] then s else Step(h, mode, Run(h, mode, s, run[..|run| - 1]), run[|run| - 1])
  }

  // ---------- what the payment hash determines ----------

  /** Creation time and expiry of the one invoice with a given payment hash. */
  type Timing = string -> (nat, nat)

  function Signed(t: Timing, hash: string): Invoice { Invoice(hash, t(hash).0, t(hash).1) }

  predicate Consistent(t: Timing, e: Event) {
    match e
    case Mint(id, _, invoice) => invoice == Signed(t, id.hash)
    case SettleX402(_, p) => p.invoice == Signed(t, p.invoice.hash)
    case _ => true
  }

  predicate ConsistentRun(t: Timing, run: seq<Event>) { forall e :: e in run ==> Consistent(t, e) }

  /** No issuance of this run is refused: a refused one changes nothing. */
  predicate AllIssued(h: L402.Hmac, s: State, run: seq<Event>)
    decreases |run|
  {
    run == [] ||
    var before := Run(h, Pruning, s, run[..|run| - 1]);
    var e := run[|run| - 1];
    && AllIssued(h, s, run[..|run| - 1])
    && (e.Mint? ==> ValidBefore(e.invoice).Some? ==>
          Issue(before.tables, e.id, Root(e.secret, ValidBefore(e.invoice).value)).Some?)
    && (e.AddQuote? ==> Associate(before.tables, e.key).Some?)
  }

  // ---------- invariant: one deadline per payment hash ----------

  predicate RootTimed(t: Timing, id: Identifier, r: Root) {
    var v := ValidBefore(Signed(t, id.hash));
    v.Some? && r.validBefore == v.value
  }

  predicate TaskTimed(t: Timing, task: Task) {
    match task
    case HaveRoot(c, root) => root.Some? ==> RootTimed(t, c.id, root.value)
    case Collecting(key, retain) => retain == RetainX402(Signed(t, key.hash))
    case Claiming(key, retain, _) => retain == RetainX402(Signed(t, key.hash))
  }

  predicate Timed(t: Timing, s: State) {
    && (forall k :: k in s.tables.spent ==> s.tables.spent[k] == RetainX402(Signed(t, k.hash)))
    && (forall i :: i in s.tables.roots ==> RootTimed(t, i, s.tables.roots[i]))
    && (forall n :: n in s.tasks ==> TaskTimed(t, s.tasks[n]))
  }

  /** What one claim transaction leaves behind. */
  lemma CommitShape(s: State, task: nat, t: Task, write: Write)
    requires t.Claiming?
    ensures var s' := CommitClaim(s, task, t, write);
            var (next, verdict) := Claim(s.tables, t.key, t.retainUntil, s.clock);
            && s'.clock == s.clock && s'.tasks == s.tasks - {task}
            && s'.tables == (if write.FailedOld? then s.tables else next)
            && s'.log == (if !t.attached then s.log
                          else s.log + [Answer(task, if !write.Committed? || verdict.RetentionExpired? then Unavailable
                                                     else if verdict.AlreadySpent? then Invalid
                                                     else Admitted(t.key, s.clock))])
  {}

  lemma TimedTasks(t: Timing, s: State, s': State, task: nat)
    requires Timed(t, s) && s'.tables == s.tables
    requires s'.tasks.Keys <= s.tasks.Keys + {task}
    requires forall n :: n in s'.tasks && n != task ==> n in s.tasks && s'.tasks[n] == s.tasks[n]
    requires task in s'.tasks ==> TaskTimed(t, s'.tasks[task])
    ensures Timed(t, s')
  {}

  lemma TimedFinish(h: L402.Hmac, t: Timing, s: State, task: nat, c: Credential, root: Option<Root>)
    requires Timed(t, s) && TaskTimed(t, HaveRoot(c, root))
    ensures Timed(t, FinishL402(h, s, task, c, root))
  {
    if root.Some? { SameRetention(Signed(t, c.id.hash)); }
    TimedTasks(t, s, FinishL402(h, s, task, c, root), task);
  }

  lemma TimedCommit(t: Timing, s: State, task: nat, c: Task, write: Write)
    requires Timed(t, s) && TaskTimed(t, c) && c.Claiming?
    ensures Timed(t, CommitClaim(s, task, c, write))
  {
    CommitShape(s, task, c, write);
  }

  lemma TimedTaskStep(h: L402.Hmac, t: Timing, s: State, e: Event)
    requires Timed(t, s) && (e.VerifyL402? || e.Collected? || e.Commit? || e.Cancel?)
    ensures Timed(t, TaskStep(h, s, e))
  {
    if e.task in s.tasks {
      var x := s.tasks[e.task];
      assert TaskTimed(t, x);
      if e.VerifyL402? && x.HaveRoot? { TimedFinish(h, t, s, e.task, x.credential, x.root); }
      else if e.Commit? && x.Claiming? { TimedCommit(t, s, e.task, x, e.write); }
      else { TimedTasks(t, s, TaskStep(h, s, e), e.task); }
    }
  }

  lemma TimedIssue(mode: Mode, t: Timing, s: State, e: Event)
    requires Timed(t, s) && e.Mint? && Consistent(t, e)
    ensures Timed(t, IssueStep(mode, s, e))
  {}

  lemma TimedQuote(mode: Mode, t: Timing, s: State, e: Event)
    requires Timed(t, s) && (e.AddQuote? || e.DropQuote?)
    ensures Timed(t, QuoteStep(mode, s, e))
  {}

  /** Every stored deadline stays the one the payment hash determines. */
  lemma TimedStep(h: L402.Hmac, mode: Mode, t: Timing, s: State, e: Event)
    requires Timed(t, s) && Consistent(t, e)
    ensures Timed(t, Step(h, mode, s, e))
  {
    if e.VerifyL402? || e.Collected? || e.Commit? || e.Cancel? { TimedTaskStep(h, t, s, e); }
    else if e.SettleX402? || e.ReadRoot? { TimedTasks(t, s, Step(h, mode, s, e), e.task); }
    else if e.Mint? { TimedIssue(mode, t, s, e); }
    else if e.AddQuote? || e.DropQuote? { TimedQuote(mode, t, s, e); }
  }

  // ---------- simulation: pruning is invisible ----------

  /** A root the pruning journal may have lost: expired, so nothing it signs verifies. */
  predicate RootMatches(clock: nat, pruned: Option<Root>, kept: Option<Root>) {
    || pruned == kept
    || (kept.Some? && kept.value.validBefore <= clock &&
        (pruned.Some? ==> pruned.value.validBefore == kept.value.validBefore))
  }

  function Lookup(m: map<Identifier, Root>, id: Identifier): Option<Root> { if id in m then Some(m[id]) else None }

  predicate TaskMatches(clock: nat, a: Task, b: Task) {
    a == b || (a.HaveRoot? && b.HaveRoot? && a.credential == b.credential && RootMatches(clock, a.root, b.root))
  }

  predicate SpentMatches(t: Timing, clock: nat, pruned: map<Key, nat>, kept: map<Key, nat>) {
    && (forall k :: k in pruned ==> k in kept)
    && (forall k :: k in kept && k !in pruned ==> RetainX402(Signed(t, k.hash)) <= clock)
  }

  ghost predicate Matches(t: Timing, a: State, b: State) {
    && a.clock == b.clock && a.log == b.log
    && SpentMatches(t, a.clock, a.tables.spent, b.tables.spent)
    && (forall i: Identifier :: RootMatches(a.clock, Lookup(a.tables.roots, i), Lookup(b.tables.roots, i)))
    && a.tasks.Keys == b.tasks.Keys
    && (forall n :: n in a.tasks ==> TaskMatches(a.clock, a.tasks[n], b.tasks[n]))
  }

  /** A claim gets one verdict from both journals: the row a prune removed is
      replaced by the retention re-check inside the transaction. */
  lemma ClaimVerdictsAgree(t: Timing, clock: nat, pruned: Tables, kept: Tables, key: Key)
    requires SpentMatches(t, clock, pruned.spent, kept.spent)
    ensures var retain := RetainX402(Signed(t, key.hash));
            var (p, x) := Claim(pruned, key, retain, clock);
            var (k, y) := Claim(kept, key, retain, clock);
            x == y && SpentMatches(t, clock, p.spent, k.spent) && p.roots == pruned.roots && k.roots == kept.roots
  {}

  /** Both journals end or continue one task the same way. */
  lemma MatchesTask(t: Timing, a: State, b: State, a': State, b': State, task: nat)
    requires Matches(t, a, b)
    requires a'.clock == a.clock && b'.clock == b.clock && a'.log == b'.log
    requires SpentMatches(t, a.clock, a'.tables.spent, b'.tables.spent)
    requires a'.tables.roots == a.tables.roots && b'.tables.roots == b.tables.roots
    requires a'.tasks - {task} == a.tasks - {task} && b'.tasks - {task} == b.tasks - {task}
    requires task in a'.tasks <==> task in b'.tasks
    requires task in a'.tasks ==> TaskMatches(a.clock, a'.tasks[task], b'.tasks[task])
    ensures Matches(t, a', b')
  {
    forall n ensures n in a'.tasks <==> n in b'.tasks {
      if n != task {
        assert n in a'.tasks <==> n in a'.tasks - {task};
        assert n in b'.tasks <==> n in b'.tasks - {task};
      }
    }
    forall n | n in a'.tasks ensures TaskMatches(a'.clock, a'.tasks[n], b'.tasks[n]) {
      if n != task {
        assert (a'.tasks - {task})[n] == (a.tasks - {task})[n];
        assert (b'.tasks - {task})[n] == (b.tasks - {task})[n];
        assert TaskMatches(a.clock, a.tasks[n], b.tasks[n]);
      }
    }
  }

  lemma MatchesReply(t: Timing, a: State, b: State, task: nat, outcome: Outcome)
    requires Matches(t, a, b)
    ensures Matches(t, Reply(a, task, outcome), Reply(b, task, outcome))
  {
    MatchesTask(t, a, b, Reply(a, task, outcome), Reply(b, task, outcome), task);
  }

  lemma MatchesBegin(t: Timing, a: State, b: State, task: nat, x: Task)
    requires Matches(t, a, b)
    ensures Matches(t, Begin(a, task, x), Begin(b, task, x))
  {
    MatchesTask(t, a, b, Begin(a, task, x), Begin(b, task, x), task);
  }

  lemma MatchesDrop(t: Timing, a: State, b: State, task: nat)
    requires Matches(t, a, b)
    ensures Matches(t, a.(tasks := a.tasks - {task}), b.(tasks := b.tasks - {task}))
  {
    MatchesTask(t, a, b, a.(tasks := a.tasks - {task}), b.(tasks := b.tasks - {task}), task);
  }

  lemma MatchesClaim(h: L402.Hmac, t: Timing, a: State, b: State, task: nat, write: Write)
    requires Matches(t, a, b) && Timed(t, a)
    ensures Matches(t, Step(h, Pruning, a, Commit(task, write)), Step(h, Retaining, b, Commit(task, write)))
  {
    if task in a.tasks {
      var c := a.tasks[task];
      assert TaskMatches(a.clock, c, b.tasks[task]) && TaskTimed(t, c);
      if c.Claiming? {
        ClaimVerdictsAgree(t, a.clock, a.tables, b.tables, c.key);
        CommitShape(a, task, c, write);
        CommitShape(b, task, c, write);
        MatchesTask(t, a, b, CommitClaim(a, task, c, write), CommitClaim(b, task, c, write), task);
      }
    }
  }

  /** An expired root verifies nothing, so losing it changes no answer. */
  lemma FinishAgrees(h: L402.Hmac, s: State, task: nat, c: Credential, pruned: Option<Root>, kept: Option<Root>)
    requires RootMatches(s.clock, pruned, kept)
    ensures FinishL402(h, s, task, c, pruned) == FinishL402(h, s, task, c, kept)
  {
    if pruned != kept {
      L402.NeverBecomesValid(h, c.presented, c.macaroon, kept.value.secret, kept.value.validBefore, s.clock, s.clock);
      if pruned.Some? {
        L402.NeverBecomesValid(h, c.presented, c.macaroon, pruned.value.secret, pruned.value.validBefore, s.clock,
                               s.clock);
      }
    }
  }

  lemma MatchesFinish(h: L402.Hmac, t: Timing, a: State, b: State, task: nat, c: Credential, root: Option<Root>)
    requires Matches(t, a, b)
    ensures Matches(t, FinishL402(h, a, task, c, root), FinishL402(h, b, task, c, root))
  {
    MatchesReply(t, a, b, task, Invalid);
    if root.Some? {
      var key, retain := Key(c.network, c.id.hash), RetainL402(root.value.validBefore);
      MatchesBegin(t, a, b, task, if c.mintReceiver then Collecting(key, retain) else Claiming(key, retain, true));
    }
  }

  lemma MatchesVerify(h: L402.Hmac, t: Timing, a: State, b: State, task: nat)
    requires Matches(t, a, b)
    ensures Matches(t, Step(h, Pruning, a, VerifyL402(task)), Step(h, Retaining, b, VerifyL402(task)))
  {
    if task in a.tasks {
      assert TaskMatches(a.clock, a.tasks[task], b.tasks[task]);
      var x, y := a.tasks[task], b.tasks[task];
      if x.HaveRoot? {
        FinishAgrees(h, b, task, x.credential, x.root, y.root);
        MatchesFinish(h, t, a, b, task, x.credential, x.root);
      }
    }
  }

  lemma MatchesRead(h: L402.Hmac, t: Timing, a: State, b: State, task: nat, c: Credential)
    requires Matches(t, a, b)
    ensures Matches(t, Step(h, Pruning, a, ReadRoot(task, c)), Step(h, Retaining, b, ReadRoot(task, c)))
  {
    assert RootMatches(a.clock, Lookup(a.tables.roots, c.id), Lookup(b.tables.roots, c.id));
  }

  lemma MatchesPrune(h: L402.Hmac, t: Timing, a: State, b: State, write: Write)
    requires Matches(t, a, b) && Timed(t, a) && Timed(t, b)
    ensures Matches(t, Step(h, Pruning, a, Prune(write)), Step(h, Retaining, b, Prune(write)))
  {
    var a' := Step(h, Pruning, a, Prune(write));
    forall i: Identifier
      ensures RootMatches(a'.clock, Lookup(a'.tables.roots, i), Lookup(b.tables.roots, i))
    {
      assert RootMatches(a.clock, Lookup(a.tables.roots, i), Lookup(b.tables.roots, i));
    }
  }

  lemma MatchesMint(h: L402.Hmac, t: Timing, a: State, b: State, e: Event)
    requires Matches(t, a, b) && e.Mint?
    requires ValidBefore(e.invoice).Some? ==> Issue(a.tables, e.id, Root(e.secret, ValidBefore(e.invoice).value)).Some?
    ensures Matches(t, Step(h, Pruning, a, e), Step(h, Retaining, b, e))
  {
    var a', b' := Step(h, Pruning, a, e), Step(h, Retaining, b, e);
    forall i: Identifier
      ensures RootMatches(a'.clock, Lookup(a'.tables.roots, i), Lookup(b'.tables.roots, i))
    {
      assert RootMatches(a.clock, Lookup(a.tables.roots, i), Lookup(b.tables.roots, i));
    }
  }

  lemma MatchesAdvance(h: L402.Hmac, t: Timing, a: State, b: State, to: nat)
    requires Matches(t, a, b)
    ensures Matches(t, Step(h, Pruning, a, Advance(to)), Step(h, Retaining, b, Advance(to)))
  {
    var a', b' := Step(h, Pruning, a, Advance(to)), Step(h, Retaining, b, Advance(to));
    forall i: Identifier
      ensures RootMatches(a'.clock, Lookup(a'.tables.roots, i), Lookup(b'.tables.roots, i))
    {
      assert RootMatches(a.clock, Lookup(a.tables.roots, i), Lookup(b.tables.roots, i));
    }
    forall n | n in a'.tasks ensures TaskMatches(a'.clock, a'.tasks[n], b'.tasks[n]) {
      assert TaskMatches(a.clock, a.tasks[n], b.tasks[n]);
    }
  }

  lemma MatchesCancel(h: L402.Hmac, t: Timing, a: State, b: State, task: nat)
    requires Matches(t, a, b)
    ensures Matches(t, Step(h, Pruning, a, Cancel(task)), Step(h, Retaining, b, Cancel(task)))
  {
    if task in a.tasks {
      var x := a.tasks[task];
      assert TaskMatches(a.clock, x, b.tasks[task]);
      if x.Claiming? { MatchesBegin(t, a, b, task, x.(attached := false)); } else { MatchesDrop(t, a, b, task); }
    }
  }

  lemma MatchesCollected(h: L402.Hmac, t: Timing, a: State, b: State, task: nat, outcome: Option<Outcome>)
    requires Matches(t, a, b)
    ensures Matches(t, Step(h, Pruning, a, Collected(task, outcome)), Step(h, Retaining, b, Collected(task, outcome)))
  {
    if task in a.tasks {
      var x := a.tasks[task];
      assert TaskMatches(a.clock, x, b.tasks[task]);
      if outcome.Some? { MatchesReply(t, a, b, task, outcome.value); }
      else if x.Collecting? { MatchesBegin(t, a, b, task, Claiming(x.key, x.retainUntil, true)); }
    }
  }

  lemma MatchesX402(h: L402.Hmac, t: Timing, a: State, b: State, e: Event)
    requires Matches(t, a, b) && e.SettleX402?
    ensures Matches(t, Step(h, Pruning, a, e), Step(h, Retaining, b, e))
  {
    if e.task !in a.tasks {
      MatchesReply(t, a, b, e.task, Invalid);
      MatchesBegin(t, a, b, e.task,
                   Claiming(Key(e.payment.network, e.payment.invoice.hash), RetainX402(e.payment.invoice), true));
    }
  }

  lemma MatchesFrame(t: Timing, a: State, b: State, a': State, b': State)
    requires Matches(t, a, b)
    requires a'.clock == a.clock && a'.log == a.log && a'.tasks == a.tasks
    requires b'.clock == b.clock && b'.log == b.log && b'.tasks == b.tasks
    requires a'.tables.spent == a.tables.spent && a'.tables.roots == a.tables.roots
    requires b'.tables.spent == b.tables.spent && b'.tables.roots == b.tables.roots
    ensures Matches(t, a', b')
  {}

  lemma MatchesQuote(h: L402.Hmac, t: Timing, a: State, b: State, e: Event)
    requires Matches(t, a, b) && (e.AddQuote? || e.DropQuote?)
    ensures Matches(t, Step(h, Pruning, a, e), Step(h, Retaining, b, e))
  {
    MatchesFrame(t, a, b, QuoteStep(Pruning, a, e), QuoteStep(Retaining, b, e));
  }

  lemma MatchesRetire(h: L402.Hmac, t: Timing, a: State, b: State, e: Event)
    requires Matches(t, a, b) && (e.DecideRetirement? || e.JournalRetirement?)
    ensures Matches(t, Step(h, Pruning, a, e), Step(h, Retaining, b, e))
  {
    MatchesFrame(t, a, b, RetireStep(a, e), RetireStep(b, e));
  }

  lemma MatchesRestart(h: L402.Hmac, t: Timing, a: State, b: State)
    requires Matches(t, a, b)
    ensures Matches(t, Step(h, Pruning, a, Restart), Step(h, Retaining, b, Restart))
  {}

  lemma MatchesStep(h: L402.Hmac, t: Timing, a: State, b: State, e: Event)
    requires Matches(t, a, b) && Timed(t, a) && Timed(t, b)
    requires e.Mint? ==> ValidBefore(e.invoice).Some? ==>
               Issue(a.tables, e.id, Root(e.secret, ValidBefore(e.invoice).value)).Some?
    ensures Matches(t, Step(h, Pruning, a, e), Step(h, Retaining, b, e))
  {
    if e.Advance? { MatchesAdvance(h, t, a, b, e.to); }
    else if e.Mint? { MatchesMint(h, t, a, b, e); }
    else if e.ReadRoot? { MatchesRead(h, t, a, b, e.task, e.credential); }
    else if e.VerifyL402? { MatchesVerify(h, t, a, b, e.task); }
    else if e.Commit? { MatchesClaim(h, t, a, b, e.task, e.write); }
    else if e.Prune? { MatchesPrune(h, t, a, b, e.write); }
    else if e.Collected? { MatchesCollected(h, t, a, b, e.task, e.outcome); }
    else if e.Cancel? { MatchesCancel(h, t, a, b, e.task); }
    else if e.SettleX402? { MatchesX402(h, t, a, b, e); }
    else if e.AddQuote? || e.DropQuote? { MatchesQuote(h, t, a, b, e); }
    else if e.Restart? { MatchesRestart(h, t, a, b); }
    else { MatchesRetire(h, t, a, b, e); }
  }

  lemma {:induction false} RunMatches(h: L402.Hmac, t: Timing, run: seq<Event>)
    requires ConsistentRun(t, run) && AllIssued(h, INITIAL, run)
    ensures Timed(t, Run(h, Pruning, INITIAL, run)) && Timed(t, Run(h, Retaining, INITIAL, run))
    ensures Matches(t, Run(h, Pruning, INITIAL, run), Run(h, Retaining, INITIAL, run))
    decreases |run|
  {
    if run != [] {
      var front, e := run[..|run| - 1], run[|run| - 1];
      assert e in run;
      RunMatches(h, t, front);
      TimedStep(h, Pruning, t, Run(h, Pruning, INITIAL, front), e);
      TimedStep(h, Retaining, t, Run(h, Retaining, INITIAL, front), e);
      MatchesStep(h, t, Run(h, Pruning, INITIAL, front), Run(h, Retaining, INITIAL, front), e);
    }
  }

  // ---------- at most one admission ----------

  function Admissions(log: seq<Answer>, key: Key): nat
    decreases |log|
  {
    if log == [] then 0
    else
      Admissions(log[..|log| - 1], key) +
      (var o := log[|log| - 1].outcome; if o.Admitted? && o.key == key then 1 else 0)
  }

  lemma AdmissionsSnoc(log: seq<Answer>, a: Answer, key: Key)
    ensures Admissions(log + [a], key) ==
              Admissions(log, key) + (if a.outcome.Admitted? && a.outcome.key == key then 1 else 0)
  {
    assert (log + [a])[..|log|] == log;
  }

  predicate Barred(s: State, key: Key) {
    Admissions(s.log, key) <= 1 && (Admissions(s.log, key) == 1 ==> key in s.tables.spent)
  }

  /** Only a claim transaction admits, and only it adds to SPENT. */
  lemma OnlyClaimsAdmit(h: L402.Hmac, s: State, e: Event)
    requires !e.Commit?
    ensures var s' := Step(h, Retaining, s, e);
            && s'.tables.spent == s.tables.spent
            && (s'.log == s.log ||
                (s'.log != [] && s'.log == s.log + [s'.log[|s'.log| - 1]] && !s'.log[|s'.log| - 1].outcome.Admitted?))
  {}

  lemma BarredStep(h: L402.Hmac, s: State, e: Event, key: Key)
    requires Barred(s, key)
    ensures Barred(Step(h, Retaining, s, e), key)
  {
    var s' := Step(h, Retaining, s, e);
    if !e.Commit? {
      OnlyClaimsAdmit(h, s, e);
    } else if e.task in s.tasks && s.tasks[e.task].Claiming? {
      CommitShape(s, e.task, s.tasks[e.task], e.write);
    }
    if s'.log != s.log { AdmissionsSnoc(s.log, s'.log[|s'.log| - 1], key); }
  }

  lemma {:induction false} RetainingBars(h: L402.Hmac, run: seq<Event>, key: Key)
    ensures Barred(Run(h, Retaining, INITIAL, run), key)
    decreases |run|
  {
    if run != [] {
      RetainingBars(h, run[..|run| - 1], key);
      BarredStep(h, Run(h, Retaining, INITIAL, run[..|run| - 1]), run[|run| - 1], key);
    }
  }

  /** The run without its refused issuances, which leave no trace. */
  function Issued(h: L402.Hmac, run: seq<Event>): seq<Event>
    decreases |run|
  {
    if run == [] then []
    else
      var front, e := run[..|run| - 1], run[|run| - 1];
      var before := Run(h, Pruning, INITIAL, front);
      if (e.Mint? || e.AddQuote?) && Step(h, Pruning, before, e) == before then Issued(h, front)
      else Issued(h, front) + [e]
  }

  lemma {:induction false} IssuedIsTheSame(h: L402.Hmac, t: Timing, run: seq<Event>)
    requires ConsistentRun(t, run)
    ensures ConsistentRun(t, Issued(h, run))
    ensures Run(h, Pruning, INITIAL, Issued(h, run)) == Run(h, Pruning, INITIAL, run)
    ensures AllIssued(h, INITIAL, Issued(h, run))
    decreases |run|
  {
    if run != [] {
      var front, e := run[..|run| - 1], run[|run| - 1];
      assert e in run;
      IssuedIsTheSame(h, t, front);
      var kept := Issued(h, front);
      assert (kept + [e])[..|kept|] == kept;
    }
  }

  /** Pruning is invisible: every settlement of every run gets the answer, Invalid
      or Unavailable included, that it would get from a journal that never deletes
      and holds what was issued, in the same order. */
  lemma PruningIsInvisible(h: L402.Hmac, t: Timing, run: seq<Event>)
    requires ConsistentRun(t, run)
    ensures Run(h, Pruning, INITIAL, run).log == Run(h, Retaining, INITIAL, Issued(h, run)).log
  {
    IssuedIsTheSame(h, t, run);
    RunMatches(h, t, Issued(h, run));
  }

  /** Over every interleaving of x402 and L402 settlements, stalled and
      cancelled claims, failed writes, prunes and restarts, a payment hash is
      admitted at most once, although its row may be gone. */
  lemma AdmittedAtMostOnce(h: L402.Hmac, t: Timing, run: seq<Event>, key: Key)
    requires ConsistentRun(t, run)
    ensures Admissions(Run(h, Pruning, INITIAL, run).log, key) <= 1
  {
    IssuedIsTheSame(h, t, run);
    RunMatches(h, t, Issued(h, run));
    RetainingBars(h, Issued(h, run), key);
  }

  // ---------- what was admitted had been proved ----------

  /** The state of the journal before event `i` of a run. */
  function At(h: L402.Hmac, run: seq<Event>, i: nat): State
    requires i <= |run|
  {
    Run(h, Pruning, INITIAL, run[..i])
  }

  /** Task `n` was never answered or dropped between events `i` and `k`. */
  predicate Held(h: L402.Hmac, run: seq<Event>, n: nat, i: nat, k: nat) {
    k <= |run| && forall m :: i < m <= k ==> n in At(h, run, m).tasks
  }

  /** Event `i` starts task `n` with a payment that passes every check at that time. */
  predicate PaymentProved(h: L402.Hmac, run: seq<Event>, i: nat, n: nat, key: Key) {
    && i < |run| && run[i].SettleX402? && run[i].task == n
    && var p := run[i].payment;
       p.genuine && InWindow(p.invoice, At(h, run, i).clock, SKEW) && key == Key(p.network, p.invoice.hash)
  }

  /** Event `j` reads the stored root of a well-formed credential for task `n`. */
  predicate RootRead(h: L402.Hmac, run: seq<Event>, j: nat, n: nat) {
    && j < |run| && run[j].ReadRoot? && run[j].task == n
    && run[j].credential.parsed && run[j].credential.id in At(h, run, j).tables.roots
  }

  /** Event `i` verifies, against the root read at `j`, the credential of task `n`. */
  predicate CredentialProved(h: L402.Hmac, run: seq<Event>, j: nat, i: nat, n: nat, key: Key) {
    && j < i < |run| && RootRead(h, run, j, n) && run[i] == VerifyL402(n) && Held(h, run, n, j, i)
    && var c := run[j].credential;
       var root := At(h, run, j).tables.roots[c.id];
       && key == Key(c.network, c.id.hash)
       && L402.Authorized(h, c.presented, c.macaroon, root.secret, root.validBefore, At(h, run, i).clock)
  }

  ghost predicate ProvedAt(h: L402.Hmac, run: seq<Event>, i: nat, n: nat, key: Key) {
    PaymentProved(h, run, i, n, key) || exists j :: CredentialProved(h, run, j, i, n, key)
  }

  /** Event `k` commits the claim of task `n` on a key that was not spent. */
  predicate ClaimedAt(h: L402.Hmac, run: seq<Event>, k: nat, n: nat, o: Outcome)
    requires o.Admitted?
  {
    && k < |run| && run[k] == Commit(n, Committed)
    && At(h, run, k).clock == o.at && o.key !in At(h, run, k).tables.spent
  }

  ghost predicate AnswerProved(h: L402.Hmac, run: seq<Event>, a: Answer) {
    a.outcome.Admitted? ==>
      exists i, k ::
        && i < k && ProvedAt(h, run, i, a.task, a.outcome.key) && Held(h, run, a.task, i, k)
        && ClaimedAt(h, run, k, a.task, a.outcome)
  }

  /** How a task got where it stands. */
  ghost predicate TaskProved(h: L402.Hmac, run: seq<Event>, n: nat, x: Task) {
    if x.HaveRoot? then
      x.root.Some? ==>
        exists j: nat ::
          && RootRead(h, run, j, n) && Held(h, run, n, j, |run|)
          && x == HaveRoot(run[j].credential, Some(At(h, run, j).tables.roots[run[j].credential.id]))
    else
      exists i :: ProvedAt(h, run, i, n, x.key) && Held(h, run, n, i, |run|)
  }

  lemma AtExtends(h: L402.Hmac, run: seq<Event>, e: Event, i: nat)
    requires i <= |run|
    ensures At(h, run + [e], i) == At(h, run, i)
  {
    assert (run + [e])[..i] == run[..i];
  }

  lemma HeldExtends(h: L402.Hmac, run: seq<Event>, e: Event, n: nat, i: nat, k: nat)
    requires Held(h, run, n, i, k)
    ensures Held(h, run + [e], n, i, k)
    ensures k == |run| && n in At(h, run + [e], k + 1).tasks ==> Held(h, run + [e], n, i, k + 1)
  {
    forall m | i < m <= k ensures n in At(h, run + [e], m).tasks { AtExtends(h, run, e, m); }
  }

  lemma ProvedExtends(h: L402.Hmac, run: seq<Event>, e: Event, i: nat, n: nat, key: Key)
    requires ProvedAt(h, run, i, n, key)
    ensures ProvedAt(h, run + [e], i, n, key)
  {
    AtExtends(h, run, e, i);
    if !PaymentProved(h, run, i, n, key) {
      var j :| CredentialProved(h, run, j, i, n, key);
      AtExtends(h, run, e, j);
      HeldExtends(h, run, e, n, j, i);
      assert CredentialProved(h, run + [e], j, i, n, key);
    }
  }

  lemma AnswerExtends(h: L402.Hmac, run: seq<Event>, e: Event, a: Answer)
    requires AnswerProved(h, run, a)
    ensures AnswerProved(h, run + [e], a)
  {
    if a.outcome.Admitted? {
      var i, k :| && i < k && ProvedAt(h, run, i, a.task, a.outcome.key) && Held(h, run, a.task, i, k)
                  && ClaimedAt(h, run, k, a.task, a.outcome);
      ProvedExtends(h, run, e, i, a.task, a.outcome.key);
      HeldExtends(h, run, e, a.task, i, k);
      AtExtends(h, run, e, k);
      assert ClaimedAt(h, run + [e], k, a.task, a.outcome);
    }
  }

  predicate Concerns(e: Event, n: nat) {
    (e.SettleX402? || e.ReadRoot? || e.VerifyL402? || e.Collected? || e.Commit? || e.Cancel?) && e.task == n
  }

  lemma OtherTasksStay(h: L402.Hmac, s: State, e: Event, n: nat)
    requires !Concerns(e, n) && n in Step(h, Pruning, s, e).tasks
    ensures n in s.tasks && Step(h, Pruning, s, e).tasks[n] == s.tasks[n]
  {}

  /** A step answers one task at most, and admits only by claiming an unspent key. */
  lemma OneAnswer(h: L402.Hmac, s: State, e: Event)
    ensures var log := Step(h, Pruning, s, e).log;
            log == s.log ||
            (|log| == |s.log| + 1 && log[..|s.log|] == s.log &&
             var a := log[|s.log|];
             a.outcome.Admitted? ==>
               && e == Commit(a.task, Committed) && a.task in s.tasks && s.tasks[a.task].Claiming?
               && s.tasks[a.task].key == a.outcome.key && a.outcome.at == s.clock
               && a.outcome.key !in s.tables.spent)
  {}

  lemma TaskExtends(h: L402.Hmac, run: seq<Event>, e: Event, n: nat, x: Task, x': Task)
    requires TaskProved(h, run, n, x) && n in At(h, run + [e], |run| + 1).tasks
    requires x' == x || (!x.HaveRoot? && !x'.HaveRoot? && x'.key == x.key)
    ensures TaskProved(h, run + [e], n, x')
  {
    if x.HaveRoot? {
      if x.root.Some? {
        var j: nat :| && RootRead(h, run, j, n) && Held(h, run, n, j, |run|)
                 && x == HaveRoot(run[j].credential, Some(At(h, run, j).tables.roots[run[j].credential.id]));
        AtExtends(h, run, e, j);
        HeldExtends(h, run, e, n, j, |run|);
        assert RootRead(h, run + [e], j, n);
      }
    } else {
      var i :| ProvedAt(h, run, i, n, x.key) && Held(h, run, n, i, |run|);
      ProvedExtends(h, run, e, i, n, x.key);
      HeldExtends(h, run, e, n, i, |run|);
    }
  }

  lemma AtSnoc(h: L402.Hmac, run: seq<Event>, e: Event)
    ensures At(h, run + [e], |run| + 1) == Step(h, Pruning, At(h, run, |run|), e)
    ensures At(h, run + [e], |run|) == At(h, run, |run|)
  {
    assert run[..|run|] == run && (run + [e])[..|run| + 1] == run + [e];
    RunSnoc(h, run, e);
    AtExtends(h, run, e, |run|);
  }

  lemma OnlyAuthorizedGoOn(h: L402.Hmac, s: State, n: nat)
    requires n in s.tasks && s.tasks[n].HaveRoot? && n in Step(h, Pruning, s, VerifyL402(n)).tasks
    ensures var x, y := s.tasks[n], Step(h, Pruning, s, VerifyL402(n)).tasks[n];
            && !y.HaveRoot? && x.root.Some? && y.key == Key(x.credential.network, x.credential.id.hash)
            && L402.Authorized(h, x.credential.presented, x.credential.macaroon, x.root.value.secret,
                               x.root.value.validBefore, s.clock)
  {}

  /** A verified credential is the one whose root its settlement had read. */
  lemma VerifyProves(h: L402.Hmac, run: seq<Event>, n: nat)
    requires var s := At(h, run, |run|); n in s.tasks && s.tasks[n].HaveRoot? && TaskProved(h, run, n, s.tasks[n])
    requires n in At(h, run + [VerifyL402(n)], |run| + 1).tasks
    ensures TaskProved(h, run + [VerifyL402(n)], n, At(h, run + [VerifyL402(n)], |run| + 1).tasks[n])
  {
    var e, i := VerifyL402(n), |run|;
    AtSnoc(h, run, e);
    OnlyAuthorizedGoOn(h, At(h, run, i), n);
    var x, y := At(h, run, i).tasks[n], At(h, run + [e], i + 1).tasks[n];
    var j: nat :| && RootRead(h, run, j, n) && Held(h, run, n, j, i)
                  && x == HaveRoot(run[j].credential, Some(At(h, run, j).tables.roots[run[j].credential.id]));
    AtExtends(h, run, e, j);
    HeldExtends(h, run, e, n, j, i);
    assert RootRead(h, run + [e], j, n);
    assert CredentialProved(h, run + [e], j, i, n, y.key);
    assert ProvedAt(h, run + [e], i, n, y.key);
    assert Held(h, run + [e], n, i, i + 1);
  }

  lemma BeginProves(h: L402.Hmac, run: seq<Event>, e: Event)
    requires (e.SettleX402? || e.ReadRoot?) && e.task !in At(h, run, |run|).tasks
    requires e.task in At(h, run + [e], |run| + 1).tasks
    ensures TaskProved(h, run + [e], e.task, At(h, run + [e], |run| + 1).tasks[e.task])
  {
    var i, n := |run|, e.task;
    AtSnoc(h, run, e);
    var x := At(h, run + [e], i + 1).tasks[n];
    assert Held(h, run + [e], n, i, i + 1);
    if e.SettleX402? {
      assert PaymentProved(h, run + [e], i, n, x.key);
      assert ProvedAt(h, run + [e], i, n, x.key);
    } else if x.root.Some? {
      assert RootRead(h, run + [e], i, n);
    }
  }

  lemma TaskProvedStep(h: L402.Hmac, run: seq<Event>, e: Event, n: nat)
    requires var s := At(h, run, |run|); forall m :: m in s.tasks ==> TaskProved(h, run, m, s.tasks[m])
    requires n in At(h, run + [e], |run| + 1).tasks
    ensures TaskProved(h, run + [e], n, At(h, run + [e], |run| + 1).tasks[n])
  {
    var s := At(h, run, |run|);
    AtSnoc(h, run, e);
    var s' := At(h, run + [e], |run| + 1);
    if !Concerns(e, n) {
      OtherTasksStay(h, s, e, n);
      TaskExtends(h, run, e, n, s.tasks[n], s'.tasks[n]);
    } else if n !in s.tasks {
      BeginProves(h, run, e);
    } else if e.VerifyL402? && s.tasks[n].HaveRoot? {
      VerifyProves(h, run, n);
    } else {
      TaskExtends(h, run, e, n, s.tasks[n], s'.tasks[n]);
    }
  }

  lemma AnswerProvedStep(h: L402.Hmac, run: seq<Event>, e: Event, a: Answer)
    requires var s := At(h, run, |run|);
             && (forall m :: m in s.tasks ==> TaskProved(h, run, m, s.tasks[m]))
             && (forall b :: b in s.log ==> AnswerProved(h, run, b))
    requires a in At(h, run + [e], |run| + 1).log
    ensures AnswerProved(h, run + [e], a)
  {
    var s, k := At(h, run, |run|), |run|;
    AtSnoc(h, run, e);
    OneAnswer(h, s, e);
    if a in s.log {
      AnswerExtends(h, run, e, a);
    } else if a.outcome.Admitted? {
      var n, key := a.task, a.outcome.key;
      var log := At(h, run + [e], k + 1).log;
      assert log == log[..|s.log|] + [log[|s.log|]];
      assert TaskProved(h, run, n, s.tasks[n]);
      var i :| ProvedAt(h, run, i, n, key) && Held(h, run, n, i, k);
      ProvedExtends(h, run, e, i, n, key);
      HeldExtends(h, run, e, n, i, k);
      assert ClaimedAt(h, run + [e], k, n, a.outcome);
    }
  }

  lemma {:induction false} TasksAndAnswersProved(h: L402.Hmac, run: seq<Event>)
    ensures var s := At(h, run, |run|);
            && (forall m :: m in s.tasks ==> TaskProved(h, run, m, s.tasks[m]))
            && (forall b :: b in s.log ==> AnswerProved(h, run, b))
    decreases |run|
  {
    if run != [] {
      var front, e := run[..|run| - 1], run[|run| - 1];
      TasksAndAnswersProved(h, front);
      assert run == front + [e];
      var s := At(h, run, |run|);
      forall m | m in s.tasks ensures TaskProved(h, run, m, s.tasks[m]) { TaskProvedStep(h, front, e, m); }
      forall b | b in s.log ensures AnswerProved(h, run, b) { AnswerProvedStep(h, front, e, b); }
    }
  }

  /** Over every run, an admission answers a settlement that proved its payment
      before: a genuine payment in its window, or a credential authorized, at the
      time of its verification, by the stored root that this settlement had read;
      and the key was not spent when the claim of that settlement was committed. */
  lemma AdmittedWasProved(h: L402.Hmac, run: seq<Event>, a: Answer)
    requires a in Run(h, Pruning, INITIAL, run).log && a.outcome.Admitted?
    ensures exists i, k ::
              && i < k && Held(h, run, a.task, i, k)
              && (PaymentProved(h, run, i, a.task, a.outcome.key) ||
                  exists j :: CredentialProved(h, run, j, i, a.task, a.outcome.key))
              && ClaimedAt(h, run, k, a.task, a.outcome)
  {
    TasksAndAnswersProved(h, run);
    assert run[..|run|] == run;
    assert AnswerProved(h, run, a);
    var i, k :| && i < k && ProvedAt(h, run, i, a.task, a.outcome.key) && Held(h, run, a.task, i, k)
                && ClaimedAt(h, run, k, a.task, a.outcome);
  }

  // ---------- the shared deadline is needed ----------

  /** If one payment hash could carry two expiries, a prune between them would
      let the same payment in twice. */
  lemma TwoDeadlinesAdmitTwice(h: L402.Hmac)
    ensures Admissions(Run(h, Pruning, INITIAL, DoubleSpend()).log, Key("n", "x")) == 2
  {
    var run, key := DoubleSpend(), Key("n", "x");
    var s2 := Settles(h, INITIAL, 0, Short());
    RunTwo(h, run, 0);
    assert run[..0] == [];
    var s4 := State(3661, Tables(map[], map[], {}), map[], s2.log, map[]);
    assert s4 == Step(h, Pruning, Step(h, Pruning, s2, Advance(3661)), Prune(Committed));
    RunTwo(h, run, 2);
    var s6 := Settles(h, s4, 1, Long());
    RunTwo(h, run, 4);
    assert run[..6] == run;
    AdmissionsSnoc([], Answer(0, Admitted(key, 0)), key);
    AdmissionsSnoc(s2.log, Answer(1, Admitted(key, 3661)), key);
  }

  lemma RunTwo(h: L402.Hmac, run: seq<Event>, k: nat)
    requires k + 1 < |run|
    ensures Run(h, Pruning, INITIAL, run[..k + 2]) ==
            Step(h, Pruning, Step(h, Pruning, Run(h, Pruning, INITIAL, run[..k]), run[k]), run[k + 1])
  {
    RunPrefix(h, run, k);
    RunPrefix(h, run, k + 1);
  }

  function Short(): Payment { Payment("n", Invoice("x", 0, 1), true) }
  function Long(): Payment { Payment("n", Invoice("x", 0, 9000), true) }

  function DoubleSpend(): seq<Event> {
    [SettleX402(0, Short()), Commit(0, Committed), Advance(3661), Prune(Committed), SettleX402(1, Long()),
     Commit(1, Committed)]
  }

  /** An undisturbed x402 settlement of an unspent payment inside its window. */
  lemma Settles(h: L402.Hmac, s: State, task: nat, p: Payment) returns (after: State)
    requires s.tasks == map[] && p.genuine && InWindow(p.invoice, s.clock, SKEW) && s.clock < RetainX402(p.invoice)
    requires Key(p.network, p.invoice.hash) !in s.tables.spent
    ensures after == Step(h, Pruning, Step(h, Pruning, s, SettleX402(task, p)), Commit(task, Committed))
    ensures var key := Key(p.network, p.invoice.hash);
            after == State(s.clock, s.tables.(spent := s.tables.spent[key := RetainX402(p.invoice)]), map[],
                           s.log + [Answer(task, Admitted(key, s.clock))], s.retiring)
  {
    after := Step(h, Pruning, Step(h, Pruning, s, SettleX402(task, p)), Commit(task, Committed));
    assert after.tasks == map[];
  }

  lemma RunPrefix(h: L402.Hmac, run: seq<Event>, k: nat)
    requires k < |run|
    ensures Run(h, Pruning, INITIAL, run[..k + 1]) == Step(h, Pruning, Run(h, Pruning, INITIAL, run[..k]), run[k])
  {
    assert run[..k + 1][..k] == run[..k];
  }

  // ---------- an undisturbed settlement ----------

  /** The journal alone at a point in time, with nothing under way. */
  ghost function Quiet(time: nat, t: Tables): State { State(time, t, map[], [], map[]) }

  /** `settle` without interruption, the proof verified at one time and claimed at
      another: the same rows and the same answer as the steps of the protocol. */
  method SettlePayment(j: Journal, p: Payment, time: nat, later: nat, ghost h: L402.Hmac) returns (o: Outcome)
    requires time <= later
    modifies j
    ensures var begun := Step(h, Pruning, Quiet(time, old(j.Rows())), SettleX402(0, p));
            var done := Step(h, Pruning, Step(h, Pruning, begun, Advance(later)), Commit(0, Committed));
            done.log == [Answer(0, o)] && done.tables == j.Rows()
    ensures var key, end := Key(p.network, p.invoice.hash), p.invoice.created + p.invoice.expiry;
            var proved := p.genuine && p.invoice.created <= SatAdd(time, 60) &&
                          end <= U64_MAX && time <= SatAdd(end, 60);
            && (o.Admitted? <==> proved && key !in old(j.spent) && later < SatAdd(end, 3660))
            && (o.Unavailable? <==> proved && later >= SatAdd(end, 3660))
            && (o.Admitted? ==> o == Admitted(key, later))
            && j.spent == (if o.Admitted? then old(j.spent)[key := SatAdd(end, 3660)] else old(j.spent))
            && j.roots == old(j.roots) && j.quotes == old(j.quotes)
  {
    if !p.genuine || !InWindow(p.invoice, time, SKEW) { return Invalid; }
    var key := Key(p.network, p.invoice.hash);
    var result := j.ClaimKey(key, RetainX402(p.invoice), later);
    o := Answered(key, result, later);
  }

  function Answered(key: Key, r: ClaimResult, time: nat): Outcome {
    match r
    case Claimed => Admitted(key, time)
    case AlreadySpent => Invalid
    case RetentionExpired => Unavailable
  }

  /** `settle_l402` likewise; `refused` is the answer of a receiving mint that does not
      pay the deposit out. */
  method SettleCredential(h: L402.Hmac, j: Journal, c: Credential, refused: Option<Outcome>, time: nat, later: nat)
    returns (o: Outcome)
    requires time <= later && (refused.Some? ==> !refused.value.Admitted?)
    modifies j
    ensures var begun := Step(h, Pruning, Step(h, Pruning, Quiet(time, old(j.Rows())), ReadRoot(0, c)), VerifyL402(0));
            var paid := Step(h, Pruning, begun, Collected(0, refused));
            var done := Step(h, Pruning, Step(h, Pruning, paid, Advance(later)), Commit(0, Committed));
            done.log == [Answer(0, o)] && done.tables == j.Rows()
    ensures var key := Key(c.network, c.id.hash);
            var root := if c.id in old(j.roots) then old(j.roots)[c.id] else Root("", 0);
            var proved := c.parsed && c.id in old(j.roots) &&
                          L402.Authorized(h, c.presented, c.macaroon, root.secret, root.validBefore, time);
            var paid := proved && (c.mintReceiver ==> refused.None?);
            && (o.Admitted? <==> paid && key !in old(j.spent) && later < SatAdd(root.validBefore, 3599))
            && (paid ==> (o.Unavailable? <==> later >= SatAdd(root.validBefore, 3599)))
            && (proved && !paid ==> o == refused.value)
            && (!proved ==> o == Invalid)
            && (o.Admitted? ==> o == Admitted(key, later))
            && j.spent == (if o.Admitted? then old(j.spent)[key := SatAdd(root.validBefore, 3599)] else old(j.spent))
            && j.roots == old(j.roots) && j.quotes == old(j.quotes)
  {
    if !c.parsed || c.id !in j.roots { return Invalid; }
    var root := j.roots[c.id];
    var ok := L402.Verify(h, c.presented, c.macaroon, root.secret, root.validBefore, time);
    if !ok { return Invalid; }
    if c.mintReceiver && refused.Some? { return refused.value; }
    var key := Key(c.network, c.id.hash);
    var result := j.ClaimKey(key, RetainL402(root.validBefore), later);
    o := Answered(key, result, later);
  }

  // ---------- bounded outstanding challenges ----------

  function Records(t: Tables): nat { |t.roots| + |t.quotes| }

  /** A retirement that reaches the disk after its row was removed. */
  predicate Revives(s: State, e: Event) {
    e.JournalRetirement? && !e.write.FailedOld? && e.job in s.retiring && s.retiring[e.job] !in s.tables.quotes
  }

  /** The associations that a late retirement brought back in a run. */
  function Revived(h: L402.Hmac, run: seq<Event>): set<Key>
    decreases |run|
  {
    if run == [] then {}
    else
      var front, e := run[..|run| - 1], run[|run| - 1];
      var s := Run(h, Pruning, INITIAL, front);
      Revived(h, front) + if Revives(s, e) then {s.retiring[e.job]} else {}
  }

  lemma ChallengesOnlyShrink(h: L402.Hmac, s: State, e: Event)
    requires !e.Mint? && !e.AddQuote? && !Revives(s, e)
    ensures var t := Step(h, Pruning, s, e).tables; t.roots.Keys <= s.tables.roots.Keys && t.quotes <= s.tables.quotes
  {
    if e.Commit? && e.task in s.tasks && s.tasks[e.task].Claiming? { CommitShape(s, e.task, s.tasks[e.task], e.write); }
  }

  lemma FewerRecords(t: Tables, t': Tables, aside: set<Key>)
    requires t'.roots.Keys <= t.roots.Keys && t'.quotes <= t.quotes
    ensures |t'.roots| + |t'.quotes - aside| <= |t.roots| + |t.quotes - aside|
  {
    SubsetSize(t'.roots.Keys, t.roots.Keys);
    SubsetSize(t'.quotes - aside, t.quotes - aside);
    assert |t.roots| == |t.roots.Keys| && |t'.roots| == |t'.roots.Keys|;
  }

  lemma AsideIsFewer(quotes: set<Key>, aside: set<Key>)
    ensures |quotes - aside| <= |quotes| == |quotes - aside| + |quotes * aside|
  {
    SubsetSize(quotes - aside, quotes);
    assert quotes == (quotes - aside) + (quotes * aside);
  }

  lemma IssueRecords(h: L402.Hmac, s: State, e: Event, aside: set<Key>)
    requires (e.Mint? || e.AddQuote?) && |s.tables.roots| + |s.tables.quotes - aside| <= MAX_CHALLENGE_RECORDS
    ensures var t := Step(h, Pruning, s, e).tables; |t.roots| + |t.quotes - aside| <= MAX_CHALLENGE_RECORDS
  {
    var t := Step(h, Pruning, s, e).tables;
    if t != s.tables { AsideIsFewer(t.quotes, aside); }
  }

  lemma ReviveRecords(h: L402.Hmac, s: State, e: Event, aside: set<Key>)
    requires Revives(s, e)
    ensures var t := Step(h, Pruning, s, e).tables;
            t.roots == s.tables.roots && |t.quotes - (aside + {s.retiring[e.job]})| <= |s.tables.quotes - aside|
  {
    var t := Step(h, Pruning, s, e).tables;
    SubsetSize(t.quotes - (aside + {s.retiring[e.job]}), s.tables.quotes - aside);
  }

  /** Over every run, roots and associations are at most 10000 but for the
      associations in the table that a late retirement has brought back. */
  lemma {:induction false} OutstandingChallengesBounded(h: L402.Hmac, run: seq<Event>)
    ensures var t := Run(h, Pruning, INITIAL, run).tables;
            && |t.roots| + |t.quotes - Revived(h, run)| <= MAX_CHALLENGE_RECORDS
            && Records(t) <= MAX_CHALLENGE_RECORDS + |t.quotes * Revived(h, run)|
    decreases |run|
  {
    var t := Run(h, Pruning, INITIAL, run).tables;
    if run != [] {
      var front, e := run[..|run| - 1], run[|run| - 1];
      OutstandingChallengesBounded(h, front);
      var s, aside := Run(h, Pruning, INITIAL, front), Revived(h, front);
      if Revives(s, e) { ReviveRecords(h, s, e, aside); }
      else if e.Mint? || e.AddQuote? { IssueRecords(h, s, e, aside); }
      else {
        ChallengesOnlyShrink(h, s, e);
        FewerRecords(s.tables, t, aside);
      }
    }
    AsideIsFewer(t.quotes, Revived(h, run));
  }

  /** A step passes the limit if and only if it brings back an association whose
      slot was taken in the meantime: a late retirement of an absent row on full tables. */
  lemma LimitPassedExactlyWhen(h: L402.Hmac, s: State, e: Event)
    requires Records(s.tables) <= MAX_CHALLENGE_RECORDS
    ensures Records(Step(h, Pruning, s, e).tables) > MAX_CHALLENGE_RECORDS <==>
            Revives(s, e) && Records(s.tables) == MAX_CHALLENGE_RECORDS
  {
    var t := Step(h, Pruning, s, e).tables;
    if Revives(s, e) {
      assert t.roots == s.tables.roots && t.quotes == s.tables.quotes + {s.retiring[e.job]};
    } else if e.Mint? || e.AddQuote? {
      assert s.tables.quotes - {} == s.tables.quotes && t.quotes - {} == t.quotes;
      IssueRecords(h, s, e, {});
    } else {
      ChallengesOnlyShrink(h, s, e);
      FewerRecords(s.tables, t, {});
      assert s.tables.quotes - {} == s.tables.quotes && t.quotes - {} == t.quotes;
    }
  }

  // ---------- a run that passes the limit ----------

  function NumberedKey(n: nat): Key { Key("n", Decimal(n)) }

  function Numbered(n: nat): set<Key> { if n == 0 then {} else Numbered(n - 1) + {NumberedKey(n - 1)} }

  lemma {:induction false} NumberedIsNew(n: nat, k: nat)
    requires k >= n
    ensures NumberedKey(k) !in Numbered(n)
    decreases n
  {
    if n > 0 {
      NumberedIsNew(n - 1, k);
      assert ParseNat(Decimal(k)) == k && ParseNat(Decimal(n - 1)) == n - 1;
    }
  }

  lemma {:induction false} NumberedSize(n: nat)
    ensures |Numbered(n)| == n
    decreases n
  {
    if n > 0 {
      NumberedSize(n - 1);
      NumberedIsNew(n - 1, n - 1);
    }
  }

  /** Associates the first `n` keys. */
  function Filling(n: nat): seq<Event> { if n == 0 then [] else Filling(n - 1) + [AddQuote(NumberedKey(n - 1))] }

  function Filled(n: nat, retiring: map<nat, Key>): State {
    State(0, Tables(map[], map[], Numbered(n)), map[], [], retiring)
  }

  lemma RunSnoc(h: L402.Hmac, run: seq<Event>, e: Event)
    ensures Run(h, Pruning, INITIAL, run + [e]) == Step(h, Pruning, Run(h, Pruning, INITIAL, run), e)
  {
    assert (run + [e])[..|run|] == run;
  }

  lemma AddsQuote(h: L402.Hmac, s: State, key: Key)
    requires HasCapacity(s.tables, 1) && key !in s.tables.quotes
    ensures Step(h, Pruning, s, AddQuote(key)) == s.(tables := s.tables.(quotes := s.tables.quotes + {key}))
  {}

  lemma FillsOneMore(h: L402.Hmac, n: nat, quotes: set<Key>, key: Key, retiring: map<nat, Key>)
    requires |quotes| == n < MAX_CHALLENGE_RECORDS && key !in quotes
    ensures var s := State(0, Tables(map[], map[], quotes), map[], [], retiring);
            Step(h, Pruning, s, AddQuote(key)) == State(0, Tables(map[], map[], quotes + {key}), map[], [], retiring)
  {
    AddsQuote(h, State(0, Tables(map[], map[], quotes), map[], [], retiring), key);
  }

  lemma {:induction false} FillingFills(h: L402.Hmac, n: nat)
    requires n <= MAX_CHALLENGE_RECORDS
    ensures Run(h, Pruning, INITIAL, Filling(n)) == Filled(n, map[])
    decreases n
  {
    if n > 0 {
      FillingFills(h, n - 1);
      NumberedSize(n - 1);
      NumberedIsNew(n - 1, n - 1);
      RunSnoc(h, Filling(n - 1), AddQuote(NumberedKey(n - 1)));
      FillsOneMore(h, n - 1, Numbered(n - 1), NumberedKey(n - 1), map[]);
    }
  }

  /** On full tables one pass decides to retire the last row and is cancelled, the
      next one removes the row, a new challenge takes the slot, and the write of
      the first pass arrives. */
  function Overfull(): seq<Event> {
    var last := NumberedKey(MAX_CHALLENGE_RECORDS - 1);
    Filling(MAX_CHALLENGE_RECORDS) + [DecideRetirement(0, last)] + [DropQuote(last)]
    + [AddQuote(NumberedKey(MAX_CHALLENGE_RECORDS))] + [JournalRetirement(0, Committed)]
  }

  lemma FreesLast(h: L402.Hmac, n: nat)
    requires 0 < n
    ensures var last := NumberedKey(n - 1);
            Step(h, Pruning, Step(h, Pruning, Filled(n, map[]), DecideRetirement(0, last)), DropQuote(last)) ==
              Filled(n - 1, map[0 := last])
  {
    NumberedIsNew(n - 1, n - 1);
    assert Numbered(n) - {NumberedKey(n - 1)} == Numbered(n - 1);
  }

  lemma LimitIsPassed(h: L402.Hmac)
    ensures Records(Run(h, Pruning, INITIAL, Overfull()).tables) == MAX_CHALLENGE_RECORDS + 1
  {
    var n := MAX_CHALLENGE_RECORDS;
    var last, other := NumberedKey(n - 1), NumberedKey(n);
    var a := Filling(n) + [DecideRetirement(0, last)];
    var b := a + [DropQuote(last)];
    FillingFills(h, n);
    RunSnoc(h, Filling(n), DecideRetirement(0, last));
    RunSnoc(h, a, DropQuote(last));
    FreesLast(h, n);
    RunSnoc(h, b, AddQuote(other));
    RunSnoc(h, b + [AddQuote(other)], JournalRetirement(0, Committed));
    NumberedSize(n - 1);
    NumberedIsNew(n - 1, n - 1);
    NumberedIsNew(n - 1, n);
    NumberedIsNew(n, n);
    Overflows(h, Numbered(n - 1), last, other);
  }

  lemma JournalsQuote(h: L402.Hmac, quotes: set<Key>, key: Key)
    ensures var s := State(0, Tables(map[], map[], quotes), map[], [], map[0 := key]);
            Step(h, Pruning, s, JournalRetirement(0, Committed)).tables == Tables(map[], map[], quotes + {key})
  {}

  lemma Overflows(h: L402.Hmac, quotes: set<Key>, last: Key, other: Key)
    requires |quotes| == MAX_CHALLENGE_RECORDS - 1 && last !in quotes && other !in quotes && last != other
    ensures var s := State(0, Tables(map[], map[], quotes), map[], [], map[0 := last]);
            var full := Step(h, Pruning, s, AddQuote(other));
            Records(Step(h, Pruning, full, JournalRetirement(0, Committed)).tables) == MAX_CHALLENGE_RECORDS + 1
  {
    FillsOneMore(h, |quotes|, quotes, other, map[0 := last]);
    JournalsQuote(h, quotes + {other}, last);
    var all := quotes + {other} + {last};
    assert |all| == |quotes| + 2;
  }
}
