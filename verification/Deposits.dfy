/** Mint deposits: a wallet quote and its journaled association with an invoice,
    their two-store retirement, and the recovery pass over unassociated quotes.
    The mint answers honestly, and no invoice is paid once its grace is over. */
module Deposits {

  const U64_MAX: nat := 0xFFFF_FFFF_FFFF_FFFF
  const GRACE: nat := 3660

  /** A bolt11 mint quote: its own expiry and the end of its invoice. */
  datatype Quote = Quote(expiry: nat, end: nat)

  datatype Deposit = Deposit(quote: string, retired: bool)

  /** `past_quote_grace`. */
  predicate PastGrace(expiry: nat, time: nat) { expiry != 0 && expiry + GRACE <= U64_MAX && time >= expiry + GRACE }

  function SatAdd(a: nat, b: nat): nat { if a + b > U64_MAX then U64_MAX else a + b }

  datatype Fate = Committed | FailedOld | FailedNew

  /** Where the cleanup pass stands with the deposit it is visiting. */
  datatype Cleaner =
    | Idle
    | Visiting(key: string, deposit: Deposit)
    | Decided(key: string, deposit: Deposit)
    | Removing(key: string, deposit: Deposit)
    | Dropping(key: string, deposit: Deposit)

  /** A write of a cancelled pass that is still on its way to the disk. */
  datatype Late = LateRetire(key: string, deposit: Deposit) | LateDrop(key: string)

  /** The clock, the wallet and the mint. */
  datatype Bank = Bank(
    clock: nat,
    wallet: map<string, Quote>,      // unissued quotes in the wallet, durable
    known: map<string, Quote>,       // every quote the mint ever gave us
    completed: set<string>,          // quotes with a matching completed transaction, durable
    paid: set<string>,               // at the mint
    deleted: set<string>)            // quotes removed from the wallet

  /** The QUOTES table and the passes that work on it. */
  datatype Book = Book(
    associations: map<string, Deposit>,  // durable
    owner: map<string, string>,          // the quote each invoice key was given, for good
    bound: map<string, nat>,             // when a quote was associated
    cleaner: Cleaner,
    late: seq<Late>,
    snapshot: set<string>,               // associated quotes as the recovery pass read them
    snapshotAt: nat)

  datatype State = State(bank: Bank, book: Book)

  datatype Event =
    | Advance(to: nat)
    | CreateQuote(id: string, quote: Quote)
    | Associate(key: string, id: string)
    | Pay(id: string)
    | MintFunds(id: string)
    | TakeSnapshot
    | RecoverDelete(id: string)
    | Visit(key: string)
    | Decide
    | JournalRetired(fate: Fate)
    | RemoveQuote(ok: bool)
    | DropAssociation(fate: Fate)
    | Abandon(inFlight: bool)
    | LateCommit(index: nat)
    | Restart

  const INITIAL := State(Bank(0, map[], map[], {}, {}, {}), Book(map[], map[], map[], Idle, [], {}, 0))

  // ---------- wallet and mint ----------

  /** `definitively_unpaid`: unpaid both locally and in a fresh answer of the mint,
      with every expiry past its grace. */
  predicate DefinitivelyUnpaid(b: Bank, id: string) {
    && id in b.wallet && id !in b.paid
    && PastGrace(b.wallet[id].expiry, b.clock) && PastGrace(b.wallet[id].end, b.clock)
  }

  /** `can_prune_mint_deposit`. */
  predicate CanPrune(b: Bank, id: string) { id in b.completed || DefinitivelyUnpaid(b, id) }

  function Delete(b: Bank, id: string): Bank { b.(wallet := b.wallet - {id}, deleted := b.deleted + {id}) }

  function BankStep(b: Bank, book: Book, e: Event): Bank {
    match e
    case Advance(to) => if to >= b.clock then b.(clock := to) else b
    case CreateQuote(id, q) => if id in b.known then b else b.(wallet := b.wallet[id := q], known := b.known[id := q])
    case Pay(id) => if id in b.known && b.clock < b.known[id].end + GRACE then b.(paid := b.paid + {id}) else b
    case MintFunds(id) => if id in b.paid && id in b.wallet then b.(completed := b.completed + {id}) else b
    case RecoverDelete(id) => if id !in book.snapshot && DefinitivelyUnpaid(b, id) then Delete(b, id) else b
    case RemoveQuote(ok) => if ok && book.cleaner.Removing? then Delete(b, book.cleaner.deposit.quote) else b
    case _ => b
  }

  // ---------- the journal of associations ----------

  function Rest(k: Book): Book { k.(cleaner := Idle) }
  function Retire(k: Book, key: string, d: Deposit): Book {
    k.(associations := k.associations[key := d.(retired := true)])
  }
  function Drop(k: Book, key: string): Book { k.(associations := k.associations - {key}) }

  /** `cashu_invoice` after the mint answered; invoice hashes are never reused. */
  function AssociateStep(k: Book, b: Bank, key: string, id: string): Book {
    if || key in k.owner || id !in b.known || id in k.bound
       || b.known[id].expiry < b.known[id].end || b.known[id].end > SatAdd(b.clock, 86400)
    then k
    else k.(associations := k.associations[key := Deposit(id, false)], owner := k.owner[key := id],
            bound := k.bound[id := b.clock])
  }

  /** Only deposits past their retention are looked at; a retired one resumes. */
  function VisitStep(k: Book, b: Bank, key: string): Book {
    if && key in k.associations && k.associations[key].quote in b.known
       && b.clock >= SatAdd(b.known[k.associations[key].quote].end, GRACE)
    then
      var d := k.associations[key];
      k.(cleaner := if d.retired then Removing(key, d) else Visiting(key, d))
    else k
  }

  /** The decision is journaled before either record is touched. */
  function JournalStep(k: Book, fate: Fate): Book
    requires k.cleaner.Decided?
  {
    var key, d := k.cleaner.key, k.cleaner.deposit;
    var stored := if fate.FailedOld? then k else Retire(k, key, d);
    if fate.Committed? then stored.(cleaner := Removing(key, d.(retired := true))) else Rest(stored)
  }

  /** Cancelling a pass leaves the write it was waiting for running. */
  function AbandonStep(k: Book, inFlight: bool): Book {
    match k.cleaner
    case Decided(key, d) => if inFlight then Rest(k.(late := k.late + [LateRetire(key, d)])) else Rest(k)
    case Dropping(key, _) => if inFlight then Rest(k.(late := k.late + [LateDrop(key)])) else Rest(k)
    case _ => Rest(k)
  }

  function LateStep(k: Book, i: nat): Book {
    if i >= |k.late| then k
    else
      var rest := k.(late := k.late[..i] + k.late[i + 1..]);
      match k.late[i]
      case LateRetire(key, d) => Retire(rest, key, d)
      case LateDrop(key) => Drop(rest, key)
  }

  /** `prune_cashu_deposits` one await at a time, with the other users of QUOTES. */
  function BookStep(k: Book, b: Bank, e: Event): Book {
    match e
    case Associate(key, id) => AssociateStep(k, b, key, id)
    case TakeSnapshot => k.(snapshot := set x | x in k.associations :: k.associations[x].quote, snapshotAt := b.clock)
    case Visit(key) => if k.cleaner.Idle? then VisitStep(k, b, key) else k
    case Decide =>
      if !k.cleaner.Visiting? then k
      else if CanPrune(b, k.cleaner.deposit.quote) then k.(cleaner := Decided(k.cleaner.key, k.cleaner.deposit))
      else Rest(k)
    case JournalRetired(fate) => if k.cleaner.Decided? then JournalStep(k, fate) else k
    case RemoveQuote(ok) =>
      if !k.cleaner.Removing? then k else if ok then k.(cleaner := Dropping(k.cleaner.key, k.cleaner.deposit))
      else Rest(k)
    case DropAssociation(fate) =>
      if !k.cleaner.Dropping? then k else Rest(if fate.FailedOld? then k else Drop(k, k.cleaner.key))
    case Abandon(inFlight) => AbandonStep(k, inFlight)
    case LateCommit(i) => LateStep(k, i)
    case Restart => k.(cleaner := Idle, late := [])
    case _ => k
  }

  function Step(s: State, e: Event): State { State(BankStep(s.bank, s.book, e), BookStep(s.book, s.bank, e)) }

  function Run(s: State, run: seq<Event>): State
    decreases |run|
  {
    if run == [] then s else Step(Run(s, run[..|run| - 1]), run[|run| - 1])
  }

  // ---------- funds are never stranded ----------

  /** Nothing can be owed for this quote: its funds are here, or it was never
      paid and can no longer be. */
  predicate Settled(b: Bank, id: string) {
    id in b.completed || (id in b.known && id !in b.paid && b.clock >= b.known[id].end + GRACE)
  }

  predicate BankSound(b: Bank) {
    && (forall id :: id in b.wallet ==> id in b.known && b.wallet[id] == b.known[id])
    && (forall id :: id in b.known ==> id in b.wallet || id in b.deleted)
    && b.paid <= b.known.Keys && b.completed <= b.known.Keys
    && (forall id :: id in b.deleted ==> Settled(b, id) && id !in b.wallet)
  }

  predicate Owns(k: Book, key: string, d: Deposit) { key in k.owner && k.owner[key] == d.quote }

  /** The retention of a known quote is over. */
  predicate Over(b: Bank, id: string) { id in b.known && b.clock >= SatAdd(b.known[id].end, GRACE) }

  /** The retirement of `key` is journaled, or already carried out. */
  predicate Retired(k: Book, key: string) { key in k.owner && (key in k.associations ==> k.associations[key].retired) }

  /** Associations only disappear or become retired. */
  predicate Shrinks(before: map<string, Deposit>, after: map<string, Deposit>) {
    forall x :: x in after && !after[x].retired ==> x in before && before[x] == after[x]
  }

  predicate CleanerSound(k: Book, b: Bank) {
    k.cleaner.Idle? ||
    var key, d := k.cleaner.key, k.cleaner.deposit;
    && Owns(k, key, d) && Over(b, d.quote)
    && (!k.cleaner.Visiting? ==> Settled(b, d.quote))
    && (k.cleaner.Removing? || k.cleaner.Dropping? ==> Retired(k, key))
  }

  predicate LateSound(k: Book, b: Bank, l: Late) {
    match l
    case LateRetire(key, d) => Owns(k, key, d) && Over(b, d.quote) && Settled(b, d.quote)
    case LateDrop(key) => Retired(k, key)
  }

  predicate TableSound(associations: map<string, Deposit>, owner: map<string, string>, bound: map<string, nat>,
                       b: Bank) {
    && (forall x :: x in associations ==> x in owner && owner[x] == associations[x].quote)
    && (forall x :: x in associations && associations[x].retired ==>
          Settled(b, associations[x].quote) && Over(b, associations[x].quote))
    && (forall x :: x in owner ==> owner[x] in bound && owner[x] in b.known)
    && (forall x, y :: x in owner && y in owner && owner[x] == owner[y] ==> x == y)
  }

  predicate LatesSound(k: Book, b: Bank) { forall i :: 0 <= i < |k.late| ==> LateSound(k, b, k.late[i]) }

  predicate BookSound(k: Book, b: Bank) {
    TableSound(k.associations, k.owner, k.bound, b) && LatesSound(k, b) && CleanerSound(k, b)
  }

  predicate Inv(s: State) { BankSound(s.bank) && BookSound(s.book, s.bank) }

  /** Once settled, a quote stays settled: funds stay and late payment is impossible. */
  lemma SettledStays(b: Bank, k: Book, e: Event, id: string)
    requires Settled(b, id)
    ensures Settled(BankStep(b, k, e), id)
  {}

  lemma KnownStays(b: Bank, k: Book, e: Event, id: string)
    requires id in b.known
    ensures id in BankStep(b, k, e).known && BankStep(b, k, e).known[id] == b.known[id]
  {}

  lemma BankSoundStep(s: State, e: Event)
    requires Inv(s)
    ensures BankSound(BankStep(s.bank, s.book, e))
  {
    forall id | Settled(s.bank, id) ensures Settled(BankStep(s.bank, s.book, e), id) {
      SettledStays(s.bank, s.book, e, id);
    }
  }

  lemma TableAssociate(k: Book, b: Bank, key: string, id: string)
    requires TableSound(k.associations, k.owner, k.bound, b)
    ensures var k' := AssociateStep(k, b, key, id); TableSound(k'.associations, k'.owner, k'.bound, b)
  {}

  lemma LatesAssociate(k: Book, b: Bank, key: string, id: string)
    requires LatesSound(k, b)
    ensures LatesSound(AssociateStep(k, b, key, id), b)
  {
    var k' := AssociateStep(k, b, key, id);
    forall i | 0 <= i < |k'.late| ensures LateSound(k', b, k'.late[i]) { assert LateSound(k, b, k.late[i]); }
  }

  lemma BookAssociate(k: Book, b: Bank, key: string, id: string)
    requires BookSound(k, b)
    ensures BookSound(AssociateStep(k, b, key, id), b)
  {
    TableAssociate(k, b, key, id);
    LatesAssociate(k, b, key, id);
  }

  lemma BookLate(k: Book, b: Bank, i: nat)
    requires BookSound(k, b)
    ensures BookSound(LateStep(k, i), b)
  {
    var k' := LateStep(k, i);
    if i < |k.late| { assert LateSound(k, b, k.late[i]); }
    forall j | 0 <= j < |k'.late| ensures LateSound(k', b, k'.late[j]) {
      assert k'.late[j] in k.late;
      var n :| 0 <= n < |k.late| && k.late[n] == k'.late[j];
      assert LateSound(k, b, k.late[n]);
    }
  }

  lemma LatesAppended(k: Book, k': Book, b: Bank, l: Late)
    requires LatesSound(k, b)
    requires k'.late == k.late + [l] && k'.owner == k.owner && Shrinks(k.associations, k'.associations) &&
             LateSound(k', b, l)
    ensures LatesSound(k', b)
  {
    forall i | 0 <= i < |k'.late| ensures LateSound(k', b, k'.late[i]) {
      if i < |k.late| { assert LateSound(k, b, k.late[i]); }
    }
  }

  lemma BookAbandon(k: Book, b: Bank, inFlight: bool)
    requires BookSound(k, b)
    ensures BookSound(AbandonStep(k, inFlight), b)
  {
    var k' := AbandonStep(k, inFlight);
    assert k'.cleaner.Idle? && k'.associations == k.associations && k'.owner == k.owner && k'.bound == k.bound;
    if k.cleaner.Decided? && inFlight {
      LatesAppended(k, k', b, LateRetire(k.cleaner.key, k.cleaner.deposit));
    } else if k.cleaner.Dropping? && inFlight {
      LatesAppended(k, k', b, LateDrop(k.cleaner.key));
    } else {
      LatesKept(k, k', b);
    }
  }

  lemma LatesKept(k: Book, k': Book, b: Bank)
    requires LatesSound(k, b)
    requires k'.late == k.late && k'.owner == k.owner && Shrinks(k.associations, k'.associations)
    ensures LatesSound(k', b)
  {
    forall i | 0 <= i < |k'.late| ensures LateSound(k', b, k'.late[i]) { assert LateSound(k, b, k.late[i]); }
  }

  lemma BookJournal(k: Book, b: Bank, fate: Fate)
    requires BookSound(k, b) && k.cleaner.Decided?
    ensures BookSound(JournalStep(k, fate), b)
  {
    LatesKept(k, JournalStep(k, fate), b);
  }

  lemma BookVisit(k: Book, b: Bank, key: string)
    requires BookSound(k, b) && k.cleaner.Idle?
    ensures BookSound(VisitStep(k, b, key), b)
  {
    LatesKept(k, VisitStep(k, b, key), b);
  }

  lemma BookDecide(k: Book, b: Bank)
    requires BookSound(k, b) && BankSound(b)
    ensures BookSound(BookStep(k, b, Decide), b)
  {
    LatesKept(k, BookStep(k, b, Decide), b);
  }

  lemma BookRemove(k: Book, b: Bank, e: Event)
    requires BookSound(k, b) && (e.RemoveQuote? || e.DropAssociation?)
    ensures BookSound(BookStep(k, b, e), b)
  {
    LatesKept(k, BookStep(k, b, e), b);
  }

  lemma BookSoundStep(k: Book, b: Bank, e: Event)
    requires BookSound(k, b) && BankSound(b)
    ensures BookSound(BookStep(k, b, e), b)
  {
    if e.Associate? { BookAssociate(k, b, e.key, e.id); }
    else if e.LateCommit? { BookLate(k, b, e.index); }
    else if e.Abandon? { BookAbandon(k, b, e.inFlight); }
    else if e.JournalRetired? { if k.cleaner.Decided? { BookJournal(k, b, e.fate); } }
    else if e.Visit? { if k.cleaner.Idle? { BookVisit(k, b, e.key); } }
    else if e.Decide? { BookDecide(k, b); }
    else if e.RemoveQuote? || e.DropAssociation? { BookRemove(k, b, e); }
    else if e.TakeSnapshot? { LatesKept(k, BookStep(k, b, e), b); }
  }

  lemma InvStep(s: State, e: Event)
    requires Inv(s)
    ensures Inv(Step(s, e))
  {
    BankSoundStep(s, e);
    BookSoundStep(s.book, s.bank, e);
    BookMovesOn(s, e);
  }

  lemma BookMovesOn(s: State, e: Event)
    requires BookSound(BookStep(s.book, s.bank, e), s.bank)
    ensures BookSound(Step(s, e).book, Step(s, e).bank)
  {
    var k', b' := BookStep(s.book, s.bank, e), BankStep(s.bank, s.book, e);
    forall id | Settled(s.bank, id) ensures Settled(b', id) { SettledStays(s.bank, s.book, e, id); }
    forall i | 0 <= i < |k'.late| ensures LateSound(k', b', k'.late[i]) { assert LateSound(k', s.bank, k'.late[i]); }
    forall x | x in k'.owner ensures k'.owner[x] in b'.known { KnownStays(s.bank, s.book, e, k'.owner[x]); }
  }

  lemma {:induction false} InvRun(run: seq<Event>)
    ensures Inv(Run(INITIAL, run))
    decreases |run|
  {
    if run != [] {
      InvRun(run[..|run| - 1]);
      InvStep(Run(INITIAL, run[..|run| - 1]), run[|run| - 1]);
    }
  }

  /** A quote is deleted only when its funds are in a completed transaction, or
      it was found unpaid after its grace and is unpaid for good. */
  lemma DeletedOnlyWhenSettled(run: seq<Event>, id: string)
    requires id in Run(INITIAL, run).bank.deleted
    ensures var b := Run(INITIAL, run).bank;
            id in b.completed || (id !in b.paid && id in b.known && b.clock >= b.known[id].end + GRACE)
  {
    InvRun(run);
  }

  /** Paid funds are never stranded: they are in the wallet, or the quote that
      mints them still is and minting it works. */
  lemma PaidFundsAreRecoverable(run: seq<Event>, id: string)
    requires id in Run(INITIAL, run).bank.paid
    ensures id in Step(Run(INITIAL, run), MintFunds(id)).bank.completed
  {
    InvRun(run);
  }

  // ---------- an interrupted retirement resumes ----------

  predicate SameRecords(k: Book, k': Book) {
    k'.owner == k.owner && k'.bound == k.bound && k'.snapshot == k.snapshot && k'.snapshotAt == k.snapshotAt
  }

  lemma JournalQuiet(k: Book, fate: Fate)
    requires k.cleaner.Decided?
    ensures SameRecords(k, JournalStep(k, fate)) && Shrinks(k.associations, JournalStep(k, fate).associations)
  {}

  lemma LateQuiet(k: Book, i: nat)
    ensures SameRecords(k, LateStep(k, i)) && Shrinks(k.associations, LateStep(k, i).associations)
  {}

  lemma AbandonQuiet(k: Book, inFlight: bool)
    ensures SameRecords(k, AbandonStep(k, inFlight)) && Shrinks(k.associations, AbandonStep(k, inFlight).associations)
  {}

  /** Outside `Associate`, nothing is added to the journal. */
  lemma BookQuiet(k: Book, b: Bank, e: Event)
    requires !e.Associate?
    ensures var k' := BookStep(k, b, e);
            && k'.owner == k.owner && k'.bound == k.bound
            && (!e.TakeSnapshot? ==> k'.snapshot == k.snapshot && k'.snapshotAt == k.snapshotAt)
            && Shrinks(k.associations, k'.associations)
  {
    if e.JournalRetired? { if k.cleaner.Decided? { JournalQuiet(k, e.fate); } }
    else if e.LateCommit? { LateQuiet(k, e.index); }
    else if e.Abandon? { AbandonQuiet(k, e.inFlight); }
  }

  /** Nothing takes a journaled decision back short of removing the association. */
  lemma RetiredStays(k: Book, b: Bank, key: string, e: Event)
    requires Retired(k, key)
    ensures Retired(BookStep(k, b, e), key)
  {
    if !e.Associate? { BookQuiet(k, b, e); }
  }

  lemma {:induction false} RetiredForGood(before: seq<Event>, after: seq<Event>, key: string)
    requires Retired(Run(INITIAL, before).book, key)
    ensures Retired(Run(INITIAL, before + after).book, key)
    decreases |after|
  {
    if after == [] {
      assert before + after == before;
    } else {
      var n := |after| - 1;
      assert (before + after)[..|before| + n] == before + after[..n];
      RetiredForGood(before, after[..n], key);
      var s := Run(INITIAL, before + after[..n]);
      RetiredStays(s.book, s.bank, key, after[n]);
    }
  }

  /** The rest of a visit to an association found retired. */
  function Resumed(s: State, key: string): State {
    Step(Step(Step(Step(s, Abandon(false)), Visit(key)), RemoveQuote(true)), DropAssociation(Committed))
  }

  predicate Visitable(s: State, key: string) {
    && key in s.book.associations && s.book.associations[key].quote in s.bank.known
    && s.bank.clock >= SatAdd(s.bank.known[s.book.associations[key].quote].end, GRACE)
  }

  lemma ResumedRemoves(s: State, key: string)
    requires Visitable(s, key) && s.book.associations[key].retired
    ensures Resumed(s, key).book.associations == s.book.associations - {key}
    ensures Resumed(s, key).bank.wallet == s.bank.wallet - {s.book.associations[key].quote}
  {
    var d := s.book.associations[key];
    var s0 := Step(s, Abandon(false));
    assert s0.book.associations == s.book.associations && s0.book.cleaner.Idle? && s0.bank == s.bank;
    var s1 := Step(s0, Visit(key));
    assert s1 == State(s.bank, s0.book.(cleaner := Removing(key, d)));
    var s2 := Step(s1, RemoveQuote(true));
    assert s2 == State(Delete(s.bank, d.quote), s0.book.(cleaner := Dropping(key, d)));
  }

  /** A crash or cancellation after the decision was journaled is harmless: at
      any later point of any run, the association is gone or one undisturbed
      visit removes it and its quote, and nothing else. */
  lemma RetirementResumes(before: seq<Event>, after: seq<Event>, key: string)
    requires key in Run(INITIAL, before).book.associations && Run(INITIAL, before).book.associations[key].retired
    ensures var s := Run(INITIAL, before + after);
            || key !in s.book.associations
            || (&& Resumed(s, key).book.associations == s.book.associations - {key}
                && Resumed(s, key).bank.wallet == s.bank.wallet - {s.book.associations[key].quote})
  {
    InvRun(before);
    InvRun(before + after);
    RetiredForGood(before, after, key);
    var s := Run(INITIAL, before + after);
    if key in s.book.associations { ResumedRemoves(s, key); }
  }

  // ---------- an undisturbed visit ----------

  function FullVisit(s: State, key: string): State {
    var decided := Step(Step(s, Visit(key)), Decide);
    Step(Step(Step(decided, JournalRetired(Committed)), RemoveQuote(true)), DropAssociation(Committed))
  }

  /** Nothing is owed for the quote any more, by what wallet and mint say: its funds
      are here, or it is unpaid an hour and a minute after both expiries. */
  predicate NothingOwed(b: Bank, id: string) { id in b.completed || UnpaidForGood(b, id) }

  predicate UnpaidForGood(b: Bank, id: string) {
    && id in b.wallet && id !in b.paid
    && 0 < b.wallet[id].expiry && b.wallet[id].expiry + 3660 <= U64_MAX && b.wallet[id].expiry + 3660 <= b.clock
    && 0 < b.wallet[id].end && b.wallet[id].end + 3660 <= U64_MAX && b.wallet[id].end + 3660 <= b.clock
  }

  lemma VisitDecides(s: State, key: string)
    requires s.book.cleaner.Idle? && Visitable(s, key) && !s.book.associations[key].retired
    ensures var d := s.book.associations[key];
            var s' := Step(Step(Step(s, Visit(key)), Decide), JournalRetired(Committed));
            if NothingOwed(s.bank, d.quote) then
              s' == State(s.bank, Retire(s.book, key, d).(cleaner := Removing(key, d.(retired := true))))
            else s' == s
  {
    var d := s.book.associations[key];
    var s1 := Step(s, Visit(key));
    assert s1 == State(s.bank, s.book.(cleaner := Visiting(key, d)));
    var s2 := Step(s1, Decide);
    assert s2 == if NothingOwed(s.bank, d.quote) then State(s.bank, s.book.(cleaner := Decided(key, d))) else s;
  }

  lemma VisitResumes(s: State, key: string)
    requires s.book.cleaner.Idle? && Visitable(s, key) && s.book.associations[key].retired
    ensures Step(Step(Step(s, Visit(key)), Decide), JournalRetired(Committed)) ==
              State(s.bank, s.book.(cleaner := Removing(key, s.book.associations[key])))
  {
    var s1 := Step(s, Visit(key));
    assert s1 == State(s.bank, s.book.(cleaner := Removing(key, s.book.associations[key])));
    assert Step(s1, Decide) == s1;
  }

  lemma RemovalEnds(s: State)
    requires s.book.cleaner.Idle? || s.book.cleaner.Removing?
    ensures Step(Step(s, RemoveQuote(true)), DropAssociation(Committed)) ==
              if s.book.cleaner.Idle? then s
              else State(Delete(s.bank, s.book.cleaner.deposit.quote), Rest(Drop(s.book, s.book.cleaner.key)))
  {
    if s.book.cleaner.Removing? {
      var c := s.book.cleaner;
      assert Step(s, RemoveQuote(true)) ==
             State(Delete(s.bank, c.deposit.quote), s.book.(cleaner := Dropping(c.key, c.deposit)));
    }
  }

  /** A visit that nothing disturbs removes an association and its quote exactly if
      the retention is over and the retirement is journaled or nothing is owed any
      more; otherwise it changes nothing. */
  lemma VisitRetiresExactlyWhen(s: State, key: string)
    requires s.book.cleaner.Idle?
    ensures var retires := Visitable(s, key) && (s.book.associations[key].retired ||
                                                 NothingOwed(s.bank, s.book.associations[key].quote));
            FullVisit(s, key) ==
              if retires then
                State(Delete(s.bank, s.book.associations[key].quote),
                      s.book.(associations := s.book.associations - {key}))
              else s
  {
    if Visitable(s, key) {
      var d := s.book.associations[key];
      if d.retired { VisitResumes(s, key); } else { VisitDecides(s, key); }
      RemovalEnds(Step(Step(Step(s, Visit(key)), Decide), JournalRetired(Committed)));
      assert s.book.associations[key := d.(retired := true)] - {key} == s.book.associations - {key};
    }
  }

  /** The recovery pass deletes exactly the quotes its list lacks and that nothing can
      be owed for. */
  lemma RecoveryDeletesExactlyWhen(s: State, id: string)
    ensures Step(s, RecoverDelete(id)) ==
              if id !in s.book.snapshot && UnpaidForGood(s.bank, id) then
                State(s.bank.(wallet := s.bank.wallet - {id}, deleted := s.bank.deleted + {id}), s.book)
              else s
  {}

  /** Over every run, an invoice is associated only with a quote that outlives it, and
      only if it ends within a day from then. */
  lemma {:induction false} QuotesOutliveInvoices(run: seq<Event>, key: string)
    requires key in Run(INITIAL, run).book.owner
    ensures var s := Run(INITIAL, run);
            var id := s.book.owner[key];
            && id in s.bank.known && s.bank.known[id].end <= s.bank.known[id].expiry
            && id in s.book.bound && s.bank.known[id].end <= SatAdd(s.book.bound[id], 86400)
    decreases |run|
  {
    var front, e := run[..|run| - 1], run[|run| - 1];
    var s := Run(INITIAL, front);
    if !e.Associate? { BookQuiet(s.book, s.bank, e); }
    if key in s.book.owner {
      QuotesOutliveInvoices(front, key);
      KnownStays(s.bank, s.book, e, s.book.owner[key]);
    }
  }

  // ---------- associations whose quote is gone ----------

  /** An association that no later pass can retire: its quote was deleted
      without it, so the record keeps its challenge slot. */
  predicate Orphan(s: State, key: string) {
    && key in s.book.associations && !s.book.associations[key].retired
    && s.book.associations[key].quote !in s.bank.wallet && s.book.associations[key].quote !in s.bank.completed
  }

  /** A retirement of `key` was decided before, and may still be journaled. */
  predicate Retiring(k: Book, key: string) {
    || (k.cleaner.Decided? && k.cleaner.key == key)
    || LateRetiring(k.late, key)
  }

  predicate LateRetiring(late: seq<Late>, key: string) { exists l :: l in late && l.LateRetire? && l.key == key }

  predicate Stuck(s: State, key: string) { Orphan(s, key) && !Retiring(s.book, key) }

  lemma StuckBank(s: State, key: string, e: Event)
    requires Inv(s) && Orphan(s, key)
    ensures var id := s.book.associations[key].quote;
            id !in BankStep(s.bank, s.book, e).wallet && id !in BankStep(s.bank, s.book, e).completed
  {}

  lemma StuckLate(k: Book, b: Bank, key: string, i: nat)
    requires BookSound(k, b) && key in k.associations && !k.associations[key].retired && !Retiring(k, key)
    ensures var k' := LateStep(k, i);
            key in k'.associations && k'.associations[key] == k.associations[key] && !Retiring(k', key)
  {
    if i < |k.late| {
      assert LateSound(k, b, k.late[i]) && k.late[i] in k.late;
      assert forall l :: l in LateStep(k, i).late ==> l in k.late;
    }
  }

  lemma StuckAbandon(k: Book, key: string, inFlight: bool)
    requires !Retiring(k, key)
    ensures var k' := AbandonStep(k, inFlight); k'.associations == k.associations && !Retiring(k', key)
  {
    var late := AbandonStep(k, inFlight).late;
    assert forall l :: l in late && l !in k.late ==> !(l.LateRetire? && l.key == key);
  }

  /** The cleaner cannot decide to retire what is in neither store. */
  lemma StuckDecide(s: State, key: string)
    requires Inv(s) && Stuck(s, key)
    ensures var k' := BookStep(s.book, s.bank, Decide); k'.associations == s.book.associations && !Retiring(k', key)
  {}

  lemma StuckJournal(s: State, key: string, fate: Fate)
    requires Inv(s) && Stuck(s, key) && s.book.cleaner.Decided?
    ensures var k' := JournalStep(s.book, fate);
            key in k'.associations && k'.associations[key] == s.book.associations[key] && !Retiring(k', key)
  {}

  lemma StuckClean(s: State, key: string, e: Event)
    requires Inv(s) && Stuck(s, key) && (e.DropAssociation? || e.RemoveQuote? || e.Visit?)
    ensures var k' := BookStep(s.book, s.bank, e);
            key in k'.associations && k'.associations[key] == s.book.associations[key] && !Retiring(k', key)
  {}

  lemma StuckElse(s: State, key: string, e: Event)
    requires Inv(s) && Stuck(s, key) &&
             (e.Associate? || e.TakeSnapshot? || e.Restart? || e.Advance? || e.CreateQuote? || e.Pay? ||
              e.MintFunds? || e.RecoverDelete?)
    ensures var k' := BookStep(s.book, s.bank, e);
            key in k'.associations && k'.associations[key] == s.book.associations[key] && !Retiring(k', key)
  {}

  lemma StuckStep(s: State, key: string, e: Event)
    requires Inv(s) && Stuck(s, key)
    ensures Stuck(Step(s, e), key)
  {
    StuckBank(s, key, e);
    if e.LateCommit? { StuckLate(s.book, s.bank, key, e.index); }
    else if e.Abandon? { StuckAbandon(s.book, key, e.inFlight); }
    else if e.Decide? { StuckDecide(s, key); }
    else if e.JournalRetired? { if s.book.cleaner.Decided? { StuckJournal(s, key, e.fate); } }
    else if e.DropAssociation? || e.RemoveQuote? || e.Visit? { StuckClean(s, key, e); }
    else { StuckElse(s, key, e); }
  }

  lemma {:induction false} StuckForGood(before: seq<Event>, after: seq<Event>, key: string)
    requires Stuck(Run(INITIAL, before), key)
    ensures Stuck(Run(INITIAL, before + after), key)
    decreases |after|
  {
    if after == [] {
      assert before + after == before;
    } else {
      var n := |after| - 1;
      assert (before + after)[..|before| + n] == before + after[..n];
      StuckForGood(before, after[..n], key);
      InvRun(before + after[..n]);
      StuckStep(Run(INITIAL, before + after[..n]), key, after[n]);
    }
  }

  /** The write that frees an orphan whose retirement was decided before. */
  lemma FreeingWrite(s: State, key: string) returns (e: Event)
    requires Orphan(s, key) && Retiring(s.book, key)
    ensures !Orphan(Step(s, e), key)
  {
    if s.book.cleaner.Decided? && s.book.cleaner.key == key {
      e := JournalRetired(Committed);
    } else {
      var l :| l in s.book.late && l.LateRetire? && l.key == key;
      var i :| 0 <= i < |s.book.late| && s.book.late[i] == l;
      e := LateCommit(i);
    }
  }

  ghost predicate OrphanForGood(before: seq<Event>, key: string) {
    forall after :: Orphan(Run(INITIAL, before + after), key)
  }

  /** In every reachable state an orphan stays one, and keeps its association, over
      every continuation if and only if no retirement of it was decided before its
      quote went and is still on its way to the journal. */
  lemma OrphanForGoodExactlyWhen(before: seq<Event>, key: string)
    requires Orphan(Run(INITIAL, before), key)
    ensures OrphanForGood(before, key) <==> !Retiring(Run(INITIAL, before).book, key)
  {
    var s := Run(INITIAL, before);
    if Retiring(s.book, key) {
      var e := FreeingWrite(s, key);
      assert (before + [e])[..|before|] == before;
      assert Run(INITIAL, before + [e]) == Step(s, e);
    } else {
      forall after ensures Orphan(Run(INITIAL, before + after), key) { StuckForGood(before, after, key); }
    }
  }

  function StaleRun(): seq<Event> {
    [CreateQuote("q", Quote(10, 10)), TakeSnapshot, Associate("k", "q"), Advance(3670), RecoverDelete("q")]
  }

  /** The recovery pass works from a list read earlier: if a quote is associated
      after that and the pass is an hour late, the quote goes and its association
      stays. */
  lemma StaleSnapshotOrphans()
    ensures Orphan(Run(INITIAL, StaleRun()), "k")
  {
    var run := StaleRun();
    var s1 := Step(INITIAL, run[0]);
    var s2 := Step(s1, run[1]);
    assert s2.book.snapshot == {};
    var s3 := Step(s2, run[2]);
    var s4 := Step(s3, run[3]);
    assert DefinitivelyUnpaid(s4.bank, "q");
    var s5 := Step(s4, run[4]);
    assert Orphan(s5, "k");
    assert run[..1][..0] == [] && run[..2][..1] == run[..1] && run[..3][..2] == run[..2] &&
           run[..4][..3] == run[..3] && run[..5] == run;
    assert Run(INITIAL, run[..1]) == s1;
    assert Run(INITIAL, run[..2]) == s2;
    assert Run(INITIAL, run[..3]) == s3;
    assert Run(INITIAL, run[..4]) == s4;
  }

  /** The recovery pass deletes the quote of a live association that its list does
      not have, or a quote is associated after it was deleted. */
  predicate MakesOrphan(s: State, key: string, e: Event) {
    match e
    case RecoverDelete(id) =>
      && id !in s.book.snapshot && DefinitivelyUnpaid(s.bank, id) && id !in s.bank.completed
      && key in s.book.associations && s.book.associations[key] == Deposit(id, false)
    case Associate(k, id) =>
      && k == key && AssociateStep(s.book, s.bank, k, id) != s.book
      && id !in s.bank.wallet && id !in s.bank.completed
    case _ => false
  }

  lemma DeletingOrphans(s: State, key: string, e: Event)
    requires Inv(s) && !Orphan(s, key) && (e.RecoverDelete? || e.RemoveQuote?)
    ensures Orphan(Step(s, e), key) <==> MakesOrphan(s, key, e)
  {}

  lemma OthersOrphanNothing(s: State, key: string, e: Event)
    requires !Orphan(s, key) && !e.Associate? && !e.RecoverDelete? && !e.RemoveQuote?
    ensures !Orphan(Step(s, e), key)
  {
    BookQuiet(s.book, s.bank, e);
  }

  /** In every reachable state, a step makes an orphan exactly in these two ways. */
  lemma OrphanedExactlyWhen(run: seq<Event>, key: string, e: Event)
    requires !Orphan(Run(INITIAL, run), key)
    ensures Orphan(Step(Run(INITIAL, run), e), key) <==> MakesOrphan(Run(INITIAL, run), key, e)
  {
    InvRun(run);
    var s := Run(INITIAL, run);
    if e.RecoverDelete? || e.RemoveQuote? {
      DeletingOrphans(s, key, e);
    } else if !e.Associate? {
      OthersOrphanNothing(s, key, e);
    }
  }

  /** Callers that keep their promises: a quote is associated before its invoice
      ends (as checked when it is validated), and a recovery pass deletes within
      the grace of reading its list. */
  predicate Prompt(s: State, e: Event) {
    match e
    case Associate(_, id) => id in s.bank.known ==> s.bank.clock < s.bank.known[id].end
    case RecoverDelete(_) => s.bank.clock < s.book.snapshotAt + GRACE
    case _ => true
  }

  predicate PromptRun(run: seq<Event>)
    decreases |run|
  {
    run == [] || (PromptRun(run[..|run| - 1]) && Prompt(Run(INITIAL, run[..|run| - 1]), run[|run| - 1]))
  }

  /** Live associations are bound in time, seen by every snapshot taken since,
      and their quote is still in the wallet. */
  predicate Live(k: Book, b: Bank, id: string) {
    id in k.bound && id in b.wallet && (k.bound[id] < k.snapshotAt ==> id in k.snapshot)
  }

  predicate BoundInTime(k: Book, b: Bank, id: string)
    requires id in k.bound
  {
    id in b.known && k.bound[id] < b.known[id].end && k.bound[id] <= b.clock
  }

  predicate DeletedLate(k: Book, b: Bank, id: string) { id in k.bound || (id in b.known && b.clock >= b.known[id].end) }

  predicate Tracked(k: Book, b: Bank) {
    && k.snapshotAt <= b.clock
    && (forall id :: id in k.bound ==> BoundInTime(k, b, id))
    && (forall x :: x in k.associations && !k.associations[x].retired ==> Live(k, b, k.associations[x].quote))
    && (forall id :: id in b.deleted ==> DeletedLate(k, b, id))
  }

  /** A recovery pass within the grace has seen every association it could break. */
  lemma TrackedRecoverDelete(s: State, id: string)
    requires Inv(s) && Tracked(s.book, s.bank) && Prompt(s, RecoverDelete(id))
    ensures Tracked(s.book, BankStep(s.bank, s.book, RecoverDelete(id)))
  {}

  /** A retirement deletes the quote of its own association, which is retired. */
  lemma TrackedRemove(s: State, ok: bool)
    requires Inv(s) && Tracked(s.book, s.bank)
    ensures Tracked(s.book, BankStep(s.bank, s.book, RemoveQuote(ok)))
  {}

  lemma TrackedAssociate(k: Book, b: Bank, key: string, id: string)
    requires BankSound(b) && Tracked(k, b) && (id in b.known ==> b.clock < b.known[id].end)
    ensures Tracked(AssociateStep(k, b, key, id), b)
  {
    var k' := AssociateStep(k, b, key, id);
    if k' != k {
      assert id in b.wallet by { assert id in b.deleted ==> DeletedLate(k, b, id); }
      forall i | i in k'.bound ensures BoundInTime(k', b, i) { if i != id { assert BoundInTime(k, b, i); } }
      forall x | x in k'.associations && !k'.associations[x].retired ensures Live(k', b, k'.associations[x].quote) {
        if x != key { assert Live(k, b, k.associations[x].quote); }
      }
      forall i | i in b.deleted ensures DeletedLate(k', b, i) { assert DeletedLate(k, b, i); }
    }
  }

  lemma TrackedBook(k: Book, b: Bank, e: Event)
    requires BankSound(b) && BookSound(k, b) && Tracked(k, b)
    requires e.Associate? ==> e.id in b.known ==> b.clock < b.known[e.id].end
    ensures Tracked(BookStep(k, b, e), b)
  {
    if e.Associate? { TrackedAssociate(k, b, e.key, e.id); } else { BookQuiet(k, b, e); }
  }

  lemma TrackedBank(k: Book, b: Bank, book: Book, e: Event)
    requires Tracked(k, b) && !e.RecoverDelete? && !e.RemoveQuote?
    ensures Tracked(k, BankStep(b, book, e))
  {
    var b' := BankStep(b, book, e);
    forall id | id in k.bound ensures BoundInTime(k, b', id) {
      assert BoundInTime(k, b, id);
      KnownStays(b, book, e, id);
    }
    forall id | id in b'.deleted ensures DeletedLate(k, b', id) {
      assert DeletedLate(k, b, id);
      if id !in k.bound { KnownStays(b, book, e, id); }
    }
    forall x | x in k.associations && !k.associations[x].retired ensures Live(k, b', k.associations[x].quote) {
      assert Live(k, b, k.associations[x].quote);
    }
  }

  lemma TrackedStep(s: State, e: Event)
    requires Inv(s) && Tracked(s.book, s.bank) && Prompt(s, e)
    ensures Tracked(Step(s, e).book, Step(s, e).bank)
  {
    if e.RecoverDelete? {
      TrackedRecoverDelete(s, e.id);
    } else if e.RemoveQuote? {
      TrackedRemove(s, e.ok);
      BookQuiet(s.book, s.bank, e);
    } else {
      TrackedBook(s.book, s.bank, e);
      TrackedBank(BookStep(s.book, s.bank, e), s.bank, s.book, e);
    }
  }

  lemma {:induction false} TrackedRun(run: seq<Event>)
    requires PromptRun(run)
    ensures Tracked(Run(INITIAL, run).book, Run(INITIAL, run).bank)
    decreases |run|
  {
    if run != [] {
      TrackedRun(run[..|run| - 1]);
      InvRun(run[..|run| - 1]);
      TrackedStep(Run(INITIAL, run[..|run| - 1]), run[|run| - 1]);
    }
  }

  /** Prompt callers leave no orphan, so every association can be retired. */
  lemma NoOrphanWhenPrompt(run: seq<Event>, key: string)
    requires PromptRun(run)
    ensures !Orphan(Run(INITIAL, run), key)
  {
    TrackedRun(run);
  }
}
