/** Back-off and cooldown times of certificate issuance, in Unix seconds (i64). */
module Retry {
  import opened Basics

  const MAX: int := 0x7FFF_FFFF_FFFF_FFFF
  const MIN: int := -0x8000_0000_0000_0000

  type Time = t: int | MIN <= t <= MAX

  function Clip(n: int): Time { if n > MAX then MAX else if n < MIN then MIN else n }
  function SatAdd(a: Time, b: int): Time { Clip(a + b) }
  function SatSub(a: Time, b: Time): Time { Clip(a - b) }

  /** Division of i64 truncates toward zero. */
  function TruncDiv(a: int, b: int): int
    requires b > 0
  {
    if a >= 0 then a / b else -((-a) / b)
  }

  function Pow2(n: nat): nat { if n == 0 then 1 else 2 * Pow2(n - 1) }
  function Min(a: int, b: int): int { if a <= b then a else b }
  function Clamp(n: int, lo: int, hi: int): int
    requires lo <= hi
  {
    if n < lo then lo else if n > hi then hi else n
  }

  datatype Entry = Entry(failures: nat, next: Time)
  const FRESH := Entry(0, 0)

  function Base(failures: nat): int { Min(30 * Pow2(Min(if failures == 0 then 0 else failures - 1, 12)), 86400) }

  function Delay(failures: nat, now: Time, expiry: Option<Time>, random: nat): int
    requires 30 <= Base(failures)
  {
    var jitter := random % (Base(failures) / 5 + 1);
    var cap := if expiry.None? then 86400 else Clamp(TruncDiv(SatSub(expiry.value, now), 3), 5, 86400);
    Min(Base(failures) + jitter, cap)
  }

  lemma BaseBounds(failures: nat)
    ensures 30 <= Base(failures) <= 86400
  {
    Pow2AtLeastOne(Min(if failures == 0 then 0 else failures - 1, 12));
  }

  lemma Pow2AtLeastOne(n: nat)
    ensures Pow2(n) >= 1
  {}

  function Failed(e: Entry, now: Time, expiry: Option<Time>, random: nat): Entry {
    BaseBounds(e.failures);
    e.(next := SatAdd(now, Delay(e.failures, now, expiry, random)))
  }

  /** The attempt is counted, and the timeout covered, before the CA is contacted. */
  function Begin(e: Entry, now: Time, expiry: Option<Time>, timeout: nat, random: nat): Entry {
    var counted := e.(failures := if e.failures >= 0xFFFF_FFFF then 0xFFFF_FFFF else e.failures + 1);
    var failed := Failed(counted, now, expiry, random);
    failed.(next := if failed.next >= SatAdd(now, timeout) then failed.next else SatAdd(now, timeout))
  }

  predicate Ready(e: Entry, now: Time) { now >= e.next }

  /** A recorded failure schedules the next try 5 to 86400 seconds ahead, unless
      the clock type ends before that. */
  lemma FailureSchedulesWithinADay(e: Entry, now: Time, expiry: Option<Time>, random: nat)
    ensures var next := Failed(e, now, expiry, random).next; next == MAX || 5 <= next - now <= 86400
  {
    BaseBounds(e.failures);
  }

  /** A started attempt keeps the next one away for the timeout, whatever the
      certificate's expiry asks for; without expiry each failure backs off further. */
  lemma BeginCoversTimeout(e: Entry, now: Time, expiry: Option<Time>, timeout: nat, random: nat)
    ensures var b := Begin(e, now, expiry, timeout, random);
            && b.next >= SatAdd(now, timeout)
            && (Ready(b, now) ==> timeout == 0 || now == MAX)
            && (e.failures < 0xFFFF_FFFF ==> b.failures == e.failures + 1) && b.failures >= 1
  {
    FailureSchedulesWithinADay(e.(failures := if e.failures >= 0xFFFF_FFFF then 0xFFFF_FFFF else e.failures + 1), now,
                               expiry, random);
  }

  lemma {:induction false} Pow2Grows(a: nat, b: nat)
    requires a <= b
    ensures Pow2(a) <= Pow2(b)
    decreases b
  {
    if a < b { Pow2Grows(a, b - 1); }
  }

  /** Back-off never shrinks as failures accumulate. */
  lemma BackOffGrows(a: nat, b: nat)
    requires a <= b
    ensures Base(a) <= Base(b)
  {
    Pow2Grows(Min(if a == 0 then 0 else a - 1, 12), Min(if b == 0 then 0 else b - 1, 12));
  }

  /** It starts at half a minute and doubles with every failure, up to a day. */
  lemma BackOffDoubles(failures: nat)
    requires failures > 0
    ensures Base(1) == 30 && Base(failures + 1) == Min(2 * Base(failures), 86400)
  {
    if failures > 12 {
      assert Pow2(12) == 4096;
    } else {
      assert Pow2(failures) == 2 * Pow2(failures - 1);
    }
  }

  /** The wait is the back-off plus at most a fifth of it; a certificate about to
      expire shortens it to a third of its remaining life, but not below 5 seconds. */
  lemma FailureBacksOff(failures: nat, now: Time, expiry: Option<Time>, random: nat)
    ensures 30 <= Base(failures)
    ensures var delay := Delay(failures, now, expiry, random);
            && delay <= 86400 && 5 * delay <= 6 * Base(failures)
            && (expiry.None? ==> Base(failures) <= delay)
            && (expiry.Some? ==>
                  && (delay == 5 || 3 * delay <= expiry.value - now)
                  && (Base(failures) <= delay || expiry.value - now < 3 * delay + 3))
  {
    BaseBounds(failures);
  }

  /** The retry record of one domain, updated in place. */
  class RetryRecord {
    var failures: nat
    var next: Time

    ghost function Value(): Entry reads this { Entry(failures, next) }

    constructor ()
      ensures Value() == FRESH
    {
      failures, next := 0, 0;
    }

    method FailedAt(now: Time, expiry: Option<Time>, random: nat)
      modifies this
      ensures Value() == Failed(old(Value()), now, expiry, random)
    {
      BaseBounds(failures);
      var base := Base(failures);
      var jitter := random % (base / 5 + 1);
      var cap := 86400;
      if expiry.Some? { cap := Clamp(TruncDiv(SatSub(expiry.value, now), 3), 5, 86400); }
      next := SatAdd(now, Min(base + jitter, cap));
    }

    method BeginAt(now: Time, expiry: Option<Time>, timeout: nat, random: nat)
      modifies this
      ensures Value() == Begin(old(Value()), now, expiry, timeout, random)
    {
      if failures < 0xFFFF_FFFF { failures := failures + 1; } else { failures := 0xFFFF_FFFF; }
      FailedAt(now, expiry, random);
      if next < SatAdd(now, timeout) { next := SatAdd(now, timeout); }
    }
  }

  // ---------- the CA's own request to wait ----------

  datatype Header = Absent | Seconds(n: nat) | Date(t: Time) | Unparsable

  /** `retry_deadline`: RFC 9110 section 10.2.3, RFC 8555 section 6.6. A date
      before 1970 is not parsed. */
  function RetryDeadline(status: nat, header: Header, now: Time): Option<Time> {
    if !(400 <= status < 600) then None
    else
      var parsed :=
        match header
        case Seconds(n) => Some(SatAdd(now, Min(n, MAX)))
        case Date(t) => if t >= 0 then Some(t) else None
        case _ => None;
      if parsed.Some? then Some(if parsed.value >= SatAdd(now, 1) then parsed.value else SatAdd(now, 1))
      else if status == 429 then Some(SatAdd(now, 60))
      else None
  }

  /** A deadline is never in the past; a rate-limited answer always has one; a
      success never has; a relative wait is honoured in full. */
  lemma RetryDeadlineHonoured(status: nat, header: Header, now: Time)
    ensures var d := RetryDeadline(status, header, now);
            && (d.Some? ==> 400 <= status < 600 && (d.value > now || d.value == MAX))
            && (d.Some? <==>
                  400 <= status < 600 && (status == 429 || header.Seconds? || (header.Date? && header.t >= 0)))
            && (d.Some? && !header.Seconds? && !(header.Date? && header.t >= 0) ==> d.value == SatAdd(now, 60))
            && (d.Some? && header.Seconds? && header.n > 0 ==> d.value == SatAdd(now, Min(header.n, MAX)))
            && (d.Some? && header.Date? && header.t >= 0 && header.t > now ==> d.value == header.t)
            && (400 <= status < 600 && header.Seconds? ==> d.Some? && d.value >= SatAdd(now, Min(header.n, MAX)))
            && (400 <= status < 600 && header.Date? && header.t >= 0 ==> d.Some? && d.value >= header.t)
  {}
}

/** The certificate loop: worker slots and job ids, certificates waiting to be
    saved, the retry journal on disk and the CA-wide cooldown. */
module Scheduler {
  import opened Basics
  import opened Retry

  const WORKERS: nat := 4
  const ORDER_TIMEOUT: nat := 180

  // ---------- workers ----------

  datatype Workers = Workers(jobs: set<nat>, active: map<string, nat>, next: nat)

  function Spawn(w: Workers, domain: string): Workers {
    Workers(w.jobs + {w.next}, w.active[domain := w.next], w.next + 1)
  }

  ghost function Owner(w: Workers, id: nat): Option<string> {
    if exists d :: d in w.active && w.active[d] == id then
      var d :| d in w.active && w.active[d] == id;
      Some(d)
    else None
  }

  /** Jobs of removed sites are aborted; they stay in the set until joined. */
  function Retain(w: Workers, domains: set<string>): Workers {
    w.(active := map d | d in w.active && d in domains :: w.active[d])
  }

  /** Every active domain runs a job of its own, among at most four. */
  predicate WorkersSound(w: Workers) {
    && |w.jobs| <= WORKERS
    && (forall n :: n in w.jobs ==> n < w.next)
    && (forall d :: d in w.active ==> w.active[d] in w.jobs)
    && (forall d, e :: d in w.active && e in w.active && w.active[d] == w.active[e] ==> d == e)
  }

  class WorkerSet {
    var jobs: set<nat>
    var active: map<string, nat>
    var next: nat

    ghost function Value(): Workers reads this { Workers(jobs, active, next) }

    constructor ()
      ensures Value() == Workers({}, map[], 0)
    {
      jobs, active, next := {}, map[], 0;
    }

    method SpawnFor(domain: string)
      modifies this
      ensures Value() == Spawn(old(Value()), domain)
    {
      jobs := jobs + {next};
      active := active[domain := next];
      next := next + 1;
    }

    /** The job ended; its domain is returned unless the job was given up before. */
    method Remove(id: nat) returns (domain: Option<string>)
      modifies this
      ensures domain.None? ==> active == old(active) && forall d :: d in active ==> active[d] != id
      ensures domain.Some? ==>
                domain.value in old(active) && old(active)[domain.value] == id && active == old(active) - {domain.value}
      ensures jobs == old(jobs) && next == old(next)
    {
      var rest := active.Keys;
      domain := None;
      while rest != {} && domain.None?
        invariant rest <= active.Keys && active == old(active) && jobs == old(jobs) && next == old(next)
        invariant domain.None? ==> forall d :: d in active && d !in rest ==> active[d] != id
        invariant domain.Some? ==> domain.value in active && active[domain.value] == id
        decreases rest
      {
        var d :| d in rest;
        if active[d] == id { domain := Some(d); }
        rest := rest - {d};
      }
      if domain.Some? { active := active - {domain.value}; }
    }

    method RetainOnly(domains: set<string>)
      modifies this
      ensures Value() == Retain(old(Value()), domains)
    {
      active := map d | d in active && d in domains :: active[d];
    }
  }

  /** One domain in a scheduling pass: workers of removed domains are given up, and
      an order starts exactly when the domain is configured, has no worker, is past
      its retry time and a slot is free; the attempt is counted before the spawn. */
  method ScheduleDomain(w: WorkerSet, r: RetryRecord, domains: set<string>, d: string, now: Time, expiry: Option<Time>,
                        random: nat)
    returns (started: bool)
    modifies w, r
    ensures var kept := Retain(old(w.Value()), domains);
            && (started <==> d in domains && d !in kept.active && |kept.jobs| < WORKERS && Ready(old(r.Value()), now))
            && w.Value() == (if started then Spawn(kept, d) else kept)
            && r.Value() == (if started then Begin(old(r.Value()), now, expiry, ORDER_TIMEOUT, random)
                             else old(r.Value()))
  {
    w.RetainOnly(domains);
    started := d in domains && d !in w.active && |w.jobs| < WORKERS && now >= r.next;
    if started {
      r.BeginAt(now, expiry, ORDER_TIMEOUT, random);
      w.SpawnFor(d);
    }
  }

  // ---------- state ----------

  /** The retry journal and the cooldown, in memory and on disk. */
  datatype Journal = Journal(memory: map<string, Entry>, disk: map<string, Entry>, cooldown: Time, diskCooldown: Time)

  /** What happened, for the statements below. */
  datatype History = History(
    spawnedFor: map<nat, string>,   // domain of every job
    latest: map<string, nat>,       // newest job of a domain
    started: map<string, Time>,     // when its newest order started
    unfinished: set<string>)        // orders whose result was never processed

  /** A scheduling pass: when it checked the cooldown, and what it found. */
  datatype Pass = Pass(at: Time, cooldown: Time)

  datatype State = State(
    clock: Time,
    domains: set<string>,
    workers: Workers,
    pending: set<string>,           // issued, not yet saved
    journal: Journal,
    pass: Option<Pass>,             // a scheduling pass is starting orders
    history: History)

  datatype Fate = Committed | FailedOld | FailedNew

  datatype Event =
    | Advance(to: Time)
    | JobEnded(id: nat, ok: bool, expiry: Option<Time>, random: nat, fate: Fate)
    | Reconfigure(domains: set<string>)
    | SavePass(expired: set<string>, installed: set<string>, fate: Fate)
    | PassBegins(cooldown: Fate, retries: Fate)
    | StartOrder(domain: string, expiry: Option<Time>, random: nat, fate: Fate)
    | Defer(deadline: Time, fate: Fate)
    | Crash

  function Written(j: Journal, fate: Fate): Journal { if fate.FailedOld? then j else j.(disk := j.memory) }

  function EntryOf(j: Journal, d: string): Entry { if d in j.memory then j.memory[d] else FRESH }

  // ---------- steps ----------

  ghost function EndStep(s: State, e: Event): State
    requires e.JobEnded?
  {
    if e.id !in s.workers.jobs then s
    else
      var workers := s.workers.(jobs := s.workers.jobs - {e.id});
      var s := s.(pass := None);
      match Owner(s.workers, e.id)
      case None => s.(workers := workers, journal := Written(s.journal, e.fate))
      case Some(d) =>
        var s := s.(workers := workers.(active := s.workers.active - {d}),
                    history := s.history.(unfinished := s.history.unfinished - {d}));
        if e.ok then s.(pending := s.pending + {d}, journal := Written(s.journal, e.fate))
        else
          var failed := Failed(EntryOf(s.journal, d), s.clock, e.expiry, e.random);
          s.(journal := Written(s.journal.(memory := s.journal.memory[d := failed]), e.fate))
  }

  function SaveStep(s: State, e: Event): State
    requires e.SavePass?
  {
    var installed := e.installed * (s.pending - e.expired);
    var journal := s.journal.(memory := s.journal.memory - installed);
    s.(pass := None, pending := s.pending - e.expired - installed,
       journal := if installed == {} then journal else Written(journal, e.fate))
  }

  /** The checks before any order: cooldown over, a slot free, and the cooldown
      and then the retry journal written. */
  function PassStep(s: State, cooldown: Fate, retries: Fate): State {
    if s.clock < s.journal.cooldown || |s.workers.jobs| >= WORKERS then s.(pass := None)
    else
      var j := if cooldown.FailedOld? then s.journal else s.journal.(diskCooldown := s.journal.cooldown);
      if !cooldown.Committed? then s.(journal := j, pass := None)
      else
        s.(journal := Written(j, retries),
           pass := if retries.Committed? then Some(Pass(s.clock, s.journal.cooldown)) else None)
  }

  predicate Startable(s: State, d: string) {
    && s.pass.Some? && |s.workers.jobs| < WORKERS
    && d in s.domains && d !in s.workers.active && d !in s.pending
    && (d in s.journal.memory ==> Ready(s.journal.memory[d], s.clock))
  }

  function Recorded(h: History, job: nat, d: string, at: Time): History {
    History(h.spawnedFor[job := d], h.latest[d := job], h.started[d := at], h.unfinished + {d})
  }

  /** The attempt is journaled durably before its job is spawned. */
  function StartStep(s: State, e: Event): State
    requires e.StartOrder?
  {
    if !Startable(s, e.domain) then s
    else
      var entry := Begin(EntryOf(s.journal, e.domain), s.clock, e.expiry, ORDER_TIMEOUT, e.random);
      Started(s, e.domain, entry, e.fate)
  }

  function Started(s: State, d: string, entry: Entry, fate: Fate): State {
    var j := Written(s.journal.(memory := s.journal.memory[d := entry]), fate);
    if !fate.Committed? then s.(journal := j, pass := None)
    else s.(journal := j, workers := Spawn(s.workers, d), history := Recorded(s.history, s.workers.next, d, s.clock))
  }

  ghost function Step(s: State, e: Event): State {
    match e
    case Advance(to) => if to >= s.clock then s.(clock := to) else s
    case JobEnded(_, _, _, _, _) => EndStep(s, e)
    case Reconfigure(domains) =>
      s.(domains := domains, workers := Retain(s.workers, domains), pending := s.pending * domains, pass := None)
    case SavePass(_, _, _) => SaveStep(s, e)
    case PassBegins(cooldown, retries) => PassStep(s, cooldown, retries)
    case StartOrder(_, _, _, _) => StartStep(s, e)
    case Defer(deadline, fate) =>
      var until := if deadline >= s.journal.cooldown then deadline else s.journal.cooldown;
      s.(journal := s.journal.(cooldown := until,
                               diskCooldown := if fate.FailedOld? then s.journal.diskCooldown else until))
    case Crash =>
      s.(workers := s.workers.(jobs := {}, active := map[]), pending := {}, pass := None,
         journal := s.journal.(memory := s.journal.disk, cooldown := s.journal.diskCooldown))
  }

  const INITIAL := State(0, {}, Workers({}, map[], 0), {}, Journal(map[], map[], 0, 0), None,
                         History(map[], map[], map[], {}))

  ghost function Run(run: seq<Event>): State
    decreases |run|
  {
    if run == [] then INITIAL else Step(Run(run[..|run| - 1]), run[|run| - 1])
  }

  // ---------- the invariant ----------

  predicate Kept(m: map<string, Entry>, started: map<string, Time>, d: string) {
    d in started && d in m && m[d].next >= SatAdd(started[d], ORDER_TIMEOUT)
  }

  predicate HistorySound(h: History, w: Workers, pending: set<string>) {
    && (forall d :: d in w.active ==> d in h.latest && h.latest[d] == w.active[d])
    && (forall d :: d in w.active ==> d in h.unfinished)
    && (forall d :: d in h.latest ==>
          h.latest[d] < w.next && h.latest[d] in h.spawnedFor && h.spawnedFor[h.latest[d]] == d)
    && h.unfinished !! pending
  }

  predicate JournalSound(j: Journal, h: History, clock: Time) {
    && (forall d :: d in h.unfinished ==> Kept(j.memory, h.started, d) && Kept(j.disk, h.started, d))
    && (forall d :: d in h.started ==> h.started[d] <= clock)
  }

  /** A pass that starts orders found the cooldown over, and it is on disk. */
  predicate PassSound(s: State) {
    s.pass.Some? ==>
      && s.pass.value.cooldown <= s.pass.value.at <= s.clock
      && s.journal.diskCooldown >= s.pass.value.cooldown && s.journal.cooldown >= s.pass.value.cooldown
  }

  predicate Inv(s: State) {
    && WorkersSound(s.workers)
    && HistorySound(s.history, s.workers, s.pending)
    && JournalSound(s.journal, s.history, s.clock)
    && PassSound(s)
  }

  lemma InvEnd(s: State, e: Event)
    requires Inv(s) && e.JobEnded?
    ensures Inv(EndStep(s, e))
  {}

  lemma InvSave(s: State, e: Event)
    requires Inv(s) && e.SavePass?
    ensures Inv(SaveStep(s, e))
  {}

  lemma InvPass(s: State, cooldown: Fate, retries: Fate)
    requires Inv(s)
    ensures Inv(PassStep(s, cooldown, retries))
  {}

  /** Journaling an attempt at `clock` keeps every unfinished order covered. */
  lemma BegunKept(j: Journal, h: History, clock: Time, d: string, entry: Entry, fate: Fate)
    requires JournalSound(j, h, clock) && entry.next >= SatAdd(clock, ORDER_TIMEOUT)
    ensures var j' := Written(j.(memory := j.memory[d := entry]), fate);
            && JournalSound(j', h, clock)
            && (fate.Committed? ==>
                  JournalSound(j', h.(started := h.started[d := clock], unfinished := h.unfinished + {d}), clock))
  {
    var j' := Written(j.(memory := j.memory[d := entry]), fate);
    forall x | x in h.unfinished ensures Kept(j'.memory, h.started, x) && Kept(j'.disk, h.started, x) {
      assert Kept(j.memory, h.started, x) && Kept(j.disk, h.started, x);
    }
  }

  lemma SpawnSound(w: Workers, h: History, pending: set<string>, d: string, at: Time)
    requires WorkersSound(w) && HistorySound(h, w, pending) && |w.jobs| < WORKERS && d !in w.active && d !in pending
    ensures WorkersSound(Spawn(w, d)) && HistorySound(Recorded(h, w.next, d, at), Spawn(w, d), pending)
  {}

  lemma InvStart(s: State, e: Event)
    requires Inv(s) && e.StartOrder?
    ensures Inv(StartStep(s, e))
  {
    if Startable(s, e.domain) {
      var entry := Begin(EntryOf(s.journal, e.domain), s.clock, e.expiry, ORDER_TIMEOUT, e.random);
      BeginCoversTimeout(EntryOf(s.journal, e.domain), s.clock, e.expiry, ORDER_TIMEOUT, e.random);
      BegunKept(s.journal, s.history, s.clock, e.domain, entry, e.fate);
      SpawnSound(s.workers, s.history, s.pending, e.domain, s.clock);
    }
  }

  lemma InvStep(s: State, e: Event)
    requires Inv(s)
    ensures Inv(Step(s, e))
  {
    if e.JobEnded? { InvEnd(s, e); }
    else if e.SavePass? { InvSave(s, e); }
    else if e.PassBegins? { InvPass(s, e.cooldown, e.retries); }
    else if e.StartOrder? { InvStart(s, e); }
  }

  lemma {:induction false} InvRun(run: seq<Event>)
    ensures Inv(Run(run))
    decreases |run|
  {
    if run != [] {
      InvRun(run[..|run| - 1]);
      InvStep(Run(run[..|run| - 1]), run[|run| - 1]);
    }
  }

  // ---------- main results ----------

  lemma {:induction false} ActiveCount(active: map<string, nat>, jobs: set<nat>)
    requires forall d :: d in active ==> active[d] in jobs
    requires forall d, e :: d in active && e in active && active[d] == active[e] ==> d == e
    ensures |active| <= |jobs|
    decreases |active|
  {
    if active != map[] {
      var d :| d in active;
      var rest := active - {d};
      ActiveCount(rest, jobs - {active[d]});
      assert rest.Keys == active.Keys - {d};
      assert |rest| == |rest.Keys| && |active| == |active.Keys|;
    }
  }

  /** In every reachable state active workers are at most the jobs, which are at
      most four; each active domain owns a distinct job; none is also waiting to
      be saved. */
  lemma SlotsBounded(run: seq<Event>)
    ensures var s := Run(run);
            && |s.workers.active| <= |s.workers.jobs| <= WORKERS
            && (forall d, e ::
                  d in s.workers.active && e in s.workers.active && s.workers.active[d] == s.workers.active[e] ==>
                    d == e)
            && (forall d :: d in s.workers.active ==> s.workers.active[d] in s.workers.jobs && d !in s.pending)
  {
    InvRun(run);
    ActiveCount(Run(run).workers.active, Run(run).workers.jobs);
  }

  /** A job that ends is attributed to a domain only if it was spawned for that
      domain and no newer worker was: stale jobs of a removed and re-added site
      change nothing. */
  lemma StaleJobsAreNotAttributed(run: seq<Event>, e: Event)
    requires e.JobEnded?
    ensures var s := Run(run);
            var s' := Step(s, e);
            && (forall d :: d in s.workers.active && d !in s'.workers.active ==>
                  e.id in s.history.spawnedFor && s.history.spawnedFor[e.id] == d && d in s.history.latest &&
                  s.history.latest[d] == e.id)
            && (e.id !in s.workers.jobs || Owner(s.workers, e.id).None? ==>
                  s'.pending == s.pending && s'.workers.active == s.workers.active &&
                  s'.journal.memory == s.journal.memory)
  {
    InvRun(run);
  }

  /** For every order whose result was not processed, the record on disk keeps
      the next one away for 180 seconds, under any pattern of write failures. */
  lemma DiskCoversActiveOrders(run: seq<Event>, d: string)
    requires d in Run(run).workers.active
    ensures var s := Run(run);
            d in s.history.started && d in s.journal.disk &&
            s.journal.disk[d].next >= SatAdd(s.history.started[d], ORDER_TIMEOUT)
  {
    InvRun(run);
  }

  /** So neither a crash and restart nor removing and re-adding the site starts
      a second order sooner. */
  lemma NoEarlySecondOrder(run: seq<Event>, e: Event)
    requires e.StartOrder? && e.domain in Run(run).history.unfinished
    requires Step(Run(run), e).workers != Run(run).workers
    ensures e.domain in Run(run).history.started &&
            Run(run).clock >= SatAdd(Run(run).history.started[e.domain], ORDER_TIMEOUT)
  {
    InvRun(run);
  }

  /** An order starts only in a pass that found the cooldown over at its check,
      with that cooldown already on disk. */
  lemma OrdersRespectCooldown(run: seq<Event>, e: Event)
    requires e.StartOrder? && Step(Run(run), e).workers != Run(run).workers
    ensures var s := Run(run);
            && s.pass.Some? && s.pass.value.cooldown <= s.pass.value.at <= s.clock
            && s.journal.diskCooldown >= s.pass.value.cooldown
  {
    InvRun(run);
  }

  /** The cooldown only grows while the process lives. */
  lemma CooldownMonotone(s: State, e: Event)
    requires !e.Crash?
    ensures Step(s, e).journal.cooldown >= s.journal.cooldown
  {}

  /** Every pass under way found at least this cooldown, and the disk has it. */
  predicate Deferred(s: State, until: Time, durable: bool) {
    && s.journal.cooldown >= until && (s.pass.Some? ==> s.pass.value.cooldown >= until)
    && (durable ==> s.journal.diskCooldown >= until)
  }

  lemma DeferredStep(s: State, e: Event, until: Time, durable: bool)
    requires Deferred(s, until, durable) && (e.Crash? ==> durable)
    ensures Deferred(Step(s, e), until, durable)
  {
    if !e.Crash? { CooldownMonotone(s, e); }
  }

  lemma {:induction false} DeferredRun(before: seq<Event>, after: seq<Event>, until: Time, durable: bool)
    requires Deferred(Run(before), until, durable) && (Crash in after ==> durable)
    ensures Deferred(Run(before + after), until, durable)
    decreases |after|
  {
    if after == [] {
      assert before + after == before;
    } else {
      var n := |after| - 1;
      assert (before + after)[..|before| + n] == before + after[..n];
      DeferredRun(before, after[..n], until, durable);
      assert after[n] in after;
      DeferredStep(Run(before + after[..n]), after[n], until, durable);
    }
  }

  /** Once the CA has asked for a wait, no pass that begins afterwards starts an
      order before the wait is over: for as long as the process lives, and across
      restarts too if the request reached the disk. */
  lemma NoOrderBeforeDeadline(before: seq<Event>, deadline: Time, fate: Fate, after: seq<Event>, e: Event)
    requires Run(before).pass.None? && (Crash in after ==> !fate.FailedOld?) && e.StartOrder?
    requires var s := Run(before + [Defer(deadline, fate)] + after); Step(s, e).workers != s.workers
    ensures Run(before + [Defer(deadline, fate)] + after).clock >= deadline
  {
    var asked := before + [Defer(deadline, fate)];
    RunSnoc(before, Defer(deadline, fate));
    InvRun(before);
    DeferredRun(asked, after, deadline, !fate.FailedOld?);
    OrdersRespectCooldown(asked + after, e);
  }

  lemma RunSnoc(run: seq<Event>, e: Event)
    ensures Run(run + [e]) == Step(Run(run), e)
  {
    assert (run + [e])[..|run|] == run;
  }

  // ---------- what an ended order leads to ----------

  lemma OwnerIs(w: Workers, d: string)
    requires WorkersSound(w) && d in w.active
    ensures Owner(w, w.active[d]) == Some(d)
  {}

  /** An order that ends for its domain frees the slot. If it succeeded, the
      certificate waits to be saved and no retry is scheduled; if it failed,
      nothing waits and the next try is 5 to 86400 seconds ahead. */
  lemma EndedOrderIsRecorded(run: seq<Event>, e: Event, d: string)
    requires e.JobEnded? && d in Run(run).workers.active && Run(run).workers.active[d] == e.id
    ensures var s, s' := Run(run), Step(Run(run), e);
            && s'.workers.active == s.workers.active - {d} && s'.workers.jobs == s.workers.jobs - {e.id}
            && s'.pending == (if e.ok then s.pending + {d} else s.pending)
            && s'.journal.memory - {d} == s.journal.memory - {d}
            && (e.ok ==> s'.journal.memory == s.journal.memory)
            && (!e.ok ==>
                  && d in s'.journal.memory
                  && (s'.journal.memory[d].next == MAX || 5 <= s'.journal.memory[d].next - s.clock <= 86400))
            && (!e.fate.FailedOld? ==> s'.journal.disk == s'.journal.memory)
  {
    var s := Run(run);
    InvRun(run);
    OwnerIs(s.workers, d);
    FailureSchedulesWithinADay(EntryOf(s.journal, d), s.clock, e.expiry, e.random);
  }

  /** Event `i` ends, with success, the newest order of `d`. */
  ghost predicate IssuedAt(run: seq<Event>, i: nat, d: string) {
    && i < |run| && run[i].JobEnded? && run[i].ok
    && var s := Run(run[..i]);
       && d in s.workers.active && s.workers.active[d] == run[i].id
       && run[i].id in s.history.spawnedFor && s.history.spawnedFor[run[i].id] == d
       && d in s.history.latest && s.history.latest[d] == run[i].id
  }

  ghost predicate IssuedBefore(run: seq<Event>, d: string) {
    var s := Run(run);
    exists i: nat :: IssuedAt(run, i, d) && d in s.history.latest && s.history.latest[d] == run[i].id
  }

  lemma LatestStays(s: State, e: Event, d: string)
    requires Inv(s) && d in s.pending
    ensures var h, h' := s.history, Step(s, e).history;
            d in h.latest ==> d in h'.latest && h'.latest[d] == h.latest[d]
  {}

  lemma BecomesPending(s: State, e: Event, d: string)
    requires Inv(s) && d !in s.pending && d in Step(s, e).pending
    ensures e.JobEnded? && e.ok && d in s.workers.active && s.workers.active[d] == e.id
    ensures Step(s, e).history.latest == s.history.latest
  {}

  /** Over every run, a certificate that waits to be saved comes from an order for
      its domain that ended with success, and no order has started for it since. */
  lemma {:induction false} PendingWasIssued(run: seq<Event>, d: string)
    requires d in Run(run).pending
    ensures IssuedBefore(run, d)
    decreases |run|
  {
    var n := |run| - 1;
    var front, e := run[..n], run[n];
    var s := Run(front);
    InvRun(front);
    if d in s.pending {
      PendingWasIssued(front, d);
      var i: nat :| IssuedAt(front, i, d) && d in s.history.latest && s.history.latest[d] == front[i].id;
      assert front[..i] == run[..i];
      LatestStays(s, e, d);
      assert IssuedAt(run, i, d);
    } else {
      BecomesPending(s, e, d);
      assert IssuedAt(run, n, d);
    }
  }

  /** A waiting certificate is given up only when it was installed, is no longer
      valid, its site is gone, or the process stops; and a saving pass forgets the
      retries of exactly the certificates it installed. */
  lemma IssuedIsKept(s: State, e: Event, d: string)
    requires d in s.pending
    ensures d !in Step(s, e).pending <==>
            || e.Crash?
            || (e.Reconfigure? && d !in e.domains)
            || (e.SavePass? && (d in e.expired || d in e.installed))
    ensures e.SavePass? ==>
              (d in Step(s, e).journal.memory <==> d in s.journal.memory && (d in e.expired || d !in e.installed))
  {}

  // ---------- a failed order waits ----------

  /** The newest order of `d` is `job` or a later one; as long as it is `job`, the
      retry record keeps `d` waiting. */
  predicate Waiting(s: State, d: string, job: nat, until: Time, durable: bool) {
    && d in s.history.latest && s.history.latest[d] >= job
    && (s.history.latest[d] == job ==>
          d !in s.pending && d !in s.workers.active && RecordWaits(s.journal, d, until, durable))
  }

  predicate RecordWaits(j: Journal, d: string, until: Time, durable: bool) {
    && d in j.memory && j.memory[d].next >= until
    && (durable ==> d in j.disk && j.disk[d].next >= until)
  }

  lemma RecordStillWaits(j: Journal, d: string, until: Time, durable: bool, x: string, entry: Entry, fate: Fate)
    requires RecordWaits(j, d, until, durable) && (x == d ==> entry.next >= until)
    ensures RecordWaits(Written(j.(memory := j.memory[x := entry]), fate), d, until, durable)
  {}

  lemma BeginWaits(s: State, e: Event, d: string, until: Time, durable: bool)
    requires e.StartOrder? && Startable(s, e.domain) && RecordWaits(s.journal, d, until, durable)
    ensures RecordWaits(StartStep(s, e).journal, d, until, durable)
  {
    var entry := Begin(EntryOf(s.journal, e.domain), s.clock, e.expiry, ORDER_TIMEOUT, e.random);
    BeginCoversTimeout(EntryOf(s.journal, e.domain), s.clock, e.expiry, ORDER_TIMEOUT, e.random);
    RecordStillWaits(s.journal, d, until, durable, e.domain, entry, e.fate);
  }

  lemma WaitingStart(s: State, e: Event, d: string, job: nat, until: Time, durable: bool)
    requires Inv(s) && e.StartOrder? && Waiting(s, d, job, until, durable)
    ensures Waiting(StartStep(s, e), d, job, until, durable)
  {
    if Startable(s, e.domain) && s.history.latest[d] == job { BeginWaits(s, e, d, until, durable); }
  }

  lemma WaitingEnd(s: State, e: Event, d: string, job: nat, until: Time, durable: bool)
    requires Inv(s) && e.JobEnded? && Waiting(s, d, job, until, durable)
    ensures Waiting(EndStep(s, e), d, job, until, durable)
  {}

  lemma WaitingStep(s: State, e: Event, d: string, job: nat, until: Time, durable: bool)
    requires Inv(s) && Waiting(s, d, job, until, durable) && (e.Crash? ==> durable)
    ensures Waiting(Step(s, e), d, job, until, durable)
  {
    if e.StartOrder? { WaitingStart(s, e, d, job, until, durable); }
    else if e.JobEnded? { WaitingEnd(s, e, d, job, until, durable); }
  }

  lemma {:induction false} WaitingRun(before: seq<Event>, after: seq<Event>, d: string, job: nat, until: Time,
                                      durable: bool)
    requires Waiting(Run(before), d, job, until, durable) && (Crash in after ==> durable)
    ensures Waiting(Run(before + after), d, job, until, durable)
    decreases |after|
  {
    if after == [] {
      assert before + after == before;
    } else {
      var n := |after| - 1;
      assert (before + after)[..|before| + n] == before + after[..n];
      WaitingRun(before, after[..n], d, job, until, durable);
      InvRun(before + after[..n]);
      assert after[n] in after;
      WaitingStep(Run(before + after[..n]), after[n], d, job, until, durable);
    }
  }

  /** After a failed order the next one for its domain starts no earlier than the
      time its failure scheduled, 5 to 86400 seconds ahead: for as long as the
      process lives, and across restarts too if that record reached the disk. */
  lemma FailedOrderWaits(before: seq<Event>, end: Event, after: seq<Event>, start: Event, d: string)
    requires end.JobEnded? && !end.ok && d in Run(before).workers.active && Run(before).workers.active[d] == end.id
    requires Crash in after ==> !end.fate.FailedOld?
    requires var s := Run(before + [end] + after);
             start.StartOrder? && start.domain == d && Step(s, start).workers != s.workers &&
             d in s.history.latest && s.history.latest[d] == end.id
    ensures var s := Run(before + [end]);
            && d in s.journal.memory && (s.journal.memory[d].next == MAX || 5 <= s.journal.memory[d].next - s.clock)
            && Run(before + [end] + after).clock >= s.journal.memory[d].next
  {
    RunSnoc(before, end);
    InvRun(before);
    EndedOrderIsRecorded(before, end, d);
    var s := Run(before + [end]);
    assert Waiting(s, d, end.id, s.journal.memory[d].next, !end.fate.FailedOld?);
    WaitingRun(before + [end], after, d, end.id, s.journal.memory[d].next, !end.fate.FailedOld?);
  }

  /** A pass may start orders exactly if the cooldown is over, a slot is free and both
      the cooldown and the retries could be written; both are then on disk. */
  lemma PassBeginsExactlyWhen(s: State, cooldown: Fate, retries: Fate)
    ensures var s' := Step(s, PassBegins(cooldown, retries));
            && (s'.pass.Some? <==>
                s.clock >= s.journal.cooldown && |s.workers.jobs| < 4 && cooldown.Committed? && retries.Committed?)
            && (s'.pass.Some? ==>
                  && s'.pass == Some(Pass(s.clock, s.journal.cooldown))
                  && s'.journal.diskCooldown == s.journal.cooldown && s'.journal.disk == s.journal.memory)
            && s'.journal.cooldown == s.journal.cooldown && s'.journal.memory == s.journal.memory
  {}

  /** What a start leaves in the stores. */
  lemma StartedStores(s: State, d: string, entry: Entry, fate: Fate)
    requires entry.failures >= 1 && entry.next >= SatAdd(s.clock, ORDER_TIMEOUT)
    ensures var s' := Started(s, d, entry, fate);
            if !fate.Committed? then s'.workers == s.workers
            else
              && s'.workers == Spawn(s.workers, d) && s'.journal.disk == s'.journal.memory && d in s'.journal.memory
              && s'.journal.memory[d].failures >= 1 && s'.journal.memory[d].next >= SatAdd(s.clock, ORDER_TIMEOUT)
  {}

  /** An order starts exactly in a pass, for a configured domain without a worker or
      a waiting certificate whose retry time has come, while a slot is free and the
      attempt can be journaled; it is then counted and on disk. */
  lemma OrderStartsExactlyWhen(s: State, e: Event)
    requires Inv(s) && e.StartOrder?
    ensures var s' := Step(s, e);
            && (s'.workers.jobs != s.workers.jobs <==>
                && s.pass.Some? && |s.workers.jobs| < 4 && e.fate.Committed?
                && e.domain in s.domains && e.domain !in s.workers.active && e.domain !in s.pending
                && (e.domain in s.journal.memory ==> s.clock >= s.journal.memory[e.domain].next))
            && (s'.workers.jobs != s.workers.jobs ==>
                  && s'.workers.active == s.workers.active[e.domain := s.workers.next]
                  && s'.workers.jobs == s.workers.jobs + {s.workers.next}
                  && e.domain in s'.journal.disk && s'.journal.disk == s'.journal.memory
                  && s'.journal.disk[e.domain].next >= SatAdd(s.clock, 180)
                  && s'.journal.disk[e.domain].failures >= 1)
  {
    var entry := Begin(EntryOf(s.journal, e.domain), s.clock, e.expiry, ORDER_TIMEOUT, e.random);
    BeginCoversTimeout(EntryOf(s.journal, e.domain), s.clock, e.expiry, ORDER_TIMEOUT, e.random);
    StartedStores(s, e.domain, entry, e.fate);
    assert s.workers.next !in s.workers.jobs;
  }
}
