/** Per-client token buckets: fixed-point refill, lazily created and swept in
    bounded shards. Times are nanoseconds of the monotonic clock. */
module RateLimit {
  import opened Basics

  const TOKEN: nat := 1_000_000_000
  const IDLE: nat := 60_000_000_000
  const SHARDS: nat := 16
  const CLIENTS_PER_SHARD: nat := 1024

  /** Positive 32-bit rates, as the configuration demands. */
  type Count = n: nat | 1 <= n <= 0xFFFF_FFFF witness 1
  datatype Limit = Limit(perSecond: Count, burst: Count)

  datatype Address = V4(bits: nat) | V6(bits: nat)
  datatype Bucket = Bucket(credit: nat, updated: nat)
  datatype Verdict = Accepted | Exhausted(wait: nat) | TableFull

  // ---------- client identities ----------

  function Pow2(n: nat): (r: nat)
    ensures r > 0
  {
    if n == 0 then 1 else 2 * Pow2(n - 1)
  }

  /** An IPv4-mapped IPv6 address is its IPv4 address. */
  function Canonical(a: Address): Address {
    if a.V6? && a.bits / 0x1_0000_0000 == 0xFFFF then V4(a.bits % 0x1_0000_0000) else a
  }

  /** Clears the bits below `d`, a power of two. */
  function Masked(n: nat, d: nat): nat
    requires d > 0
  {
    n / d * d
  }

  function ClientKey(a: Address, prefix: nat): Address
    requires prefix <= 128
  {
    match Canonical(a)
    case V6(bits) => V6(Masked(bits, Pow2(128 - prefix)))
    case V4(bits) => V4(bits)
  }

  /** IPv6 clients share an identity exactly when their prefixes agree; an IPv4
      client shares one only with its own mapped form. */
  lemma IdentitiesSharedByPrefix(a: Address, b: Address, prefix: nat)
    requires prefix <= 128
    ensures ClientKey(a, prefix) == ClientKey(b, prefix) <==>
            var x, y := Canonical(a), Canonical(b);
            (x.V4? && x == y) || (x.V6? && y.V6? && x.bits / Pow2(128 - prefix) == y.bits / Pow2(128 - prefix))
  {
    MaskedEqual(Canonical(a).bits, Canonical(b).bits, Pow2(128 - prefix));
  }

  /** An IPv4 client has one identity on both kinds of socket, and shares it with no
      other IPv4 client and with no address outside the mapped range. */
  lemma MappedAddressIsTheSameClient(n: nat, other: nat, prefix: nat)
    requires n < 0x1_0000_0000 && prefix <= 128
    ensures ClientKey(V6(0xFFFF_0000_0000 + n), prefix) == ClientKey(V4(n), prefix) == V4(n)
    ensures ClientKey(V4(other), prefix) == V4(n) <==> other == n
    ensures ClientKey(V6(other), prefix) == V4(n) <==> other == 0xFFFF_0000_0000 + n
  {
    assert (0xFFFF_0000_0000 + n) / 0x1_0000_0000 == 0xFFFF;
    assert other == other / 0x1_0000_0000 * 0x1_0000_0000 + other % 0x1_0000_0000;
  }

  lemma MaskedEqual(m: nat, n: nat, d: nat)
    requires d > 0
    ensures Masked(m, d) == Masked(n, d) <==> m / d == n / d
  {
    if m / d < n / d { MulMono(m / d + 1, n / d, d); }
    if n / d < m / d { MulMono(n / d + 1, m / d, d); }
  }

  // ---------- one bucket ----------

  function Capacity(l: Limit): nat { l.burst * TOKEN }

  /** `Instant::duration_since` saturates at zero. */
  function Elapsed(now: nat, since: nat): nat { if now >= since then now - since else 0 }

  function Min(a: nat, b: nat): nat { if a <= b then a else b }

  function Refilled(b: Bucket, l: Limit, now: nat): (r: nat)
    ensures r <= Capacity(l)
  {
    Min(b.credit + Elapsed(now, b.updated) * l.perSecond, Capacity(l))
  }

  function DivCeil(a: nat, b: nat): nat
    requires b > 0
  {
    (a + b - 1) / b
  }

  function Draw(b: Bucket, l: Limit, now: nat): (Bucket, Verdict) {
    var credit := Refilled(b, l, now);
    if credit >= TOKEN then (Bucket(credit - TOKEN, now), Accepted)
    else (Bucket(credit, now), Exhausted(DivCeil(TOKEN - credit, l.perSecond)))
  }

  lemma RefillAdds(b: Bucket, l: Limit, t0: nat, t1: nat)
    requires b.updated <= t0 <= t1
    ensures Refilled(b, l, t0) <= Refilled(b, l, t1) <= Refilled(b, l, t0) + (t1 - t0) * l.perSecond
  {
    var p := l.perSecond;
    assert (t1 - b.updated) * p == (t0 - b.updated) * p + (t1 - t0) * p;
    MulMono(t0 - b.updated, t1 - b.updated, p);
  }

  lemma MulMono(a: nat, b: nat, c: nat)
    requires a <= b
    ensures a * c <= b * c
  {}

  /** The refill of any bucket after any `Duration` stays within u128. */
  lemma RefillFits(b: Bucket, l: Limit, seconds: nat, nanos: nat)
    requires b.credit <= Capacity(l) && seconds <= 0xFFFF_FFFF_FFFF_FFFF && nanos < TOKEN
    ensures b.credit + (seconds * TOKEN + nanos) * l.perSecond < 0x8000_0000_0000_0000_0000_0000_0000_0000
  {
    var elapsed := seconds * TOKEN + nanos;
    MulMono(l.perSecond, 0xFFFF_FFFF, elapsed);
  }

  /** A returned wait is at least a nanosecond and at most a second, so it fits u64. */
  lemma WaitFits(b: Bucket, l: Limit, now: nat)
    ensures var (_, v) := Draw(b, l, now); v.Exhausted? ==> 1 <= v.wait <= TOKEN
  {
    var credit := Refilled(b, l, now);
    if credit < TOKEN { WaitBounds(TOKEN - credit, l.perSecond); }
  }

  lemma WaitBounds(missing: nat, rate: nat)
    requires 0 < missing && rate >= 1
    ensures 1 <= DivCeil(missing, rate) <= missing
  {
    WaitIsExact(missing, rate, 0);
    WaitIsExact(missing, rate, missing);
    MulMono(1, rate, missing);
  }

  /** `div_ceil` is the first number of nanoseconds after which the missing credit is there. */
  lemma WaitIsExact(missing: nat, rate: nat, t: nat)
    requires missing > 0 && rate >= 1
    ensures t * rate >= missing <==> t >= DivCeil(missing, rate)
  {
    var w := DivCeil(missing, rate);
    assert w * rate >= missing && (w - 1) * rate < missing by {
      var n := missing + rate - 1;
      assert n == (n / rate) * rate + n % rate;
      assert (w - 1) * rate == w * rate - rate;
    }
    if t >= w { MulMono(w, t, rate); } else { assert w >= 1; MulMono(t, w - 1, rate); }
  }

  // ---------- one shard ----------

  datatype Shard = Shard(clients: map<Address, Bucket>, swept: nat)

  predicate Idle(b: Bucket, l: Limit, now: nat) {
    Elapsed(now, b.updated) >= IDLE && Refilled(b, l, now) >= Capacity(l)
  }

  function Sweep(s: Shard, l: Limit, now: nat): Shard {
    if Elapsed(now, s.swept) >= IDLE then
      Shard(map c | c in s.clients && !Idle(s.clients[c], l, now) :: s.clients[c], now)
    else s
  }

  predicate Full(s: Shard, client: Address) { client !in s.clients && |s.clients| >= CLIENTS_PER_SHARD }

  function Check(s: Shard, client: Address, l: Limit, now: nat): (Shard, Verdict) {
    var swept := Sweep(s, l, now);
    if Full(swept, client) then (swept, TableFull)
    else
      var bucket := if client in swept.clients then swept.clients[client] else Bucket(Capacity(l), now);
      var (next, verdict) := Draw(bucket, l, now);
      (swept.(clients := swept.clients[client := next]), verdict)
  }

  /** The table of one shard, updated in place under its lock. */
  class ShardTable {
    var clients: map<Address, Bucket>
    var swept: nat

    ghost function Value(): Shard reads this { Shard(clients, swept) }

    constructor (now: nat)
      ensures Value() == Shard(map[], now)
    {
      clients, swept := map[], now;
    }

    method CheckClient(client: Address, l: Limit, now: nat) returns (v: Verdict)
      modifies this
      ensures (Value(), v) == Check(old(Value()), client, l, now)
    {
      var capacity := l.burst * TOKEN;
      if Elapsed(now, swept) >= IDLE {
        clients := map c | && c in clients
                           && (Elapsed(now, clients[c].updated) < IDLE || Refilled(clients[c], l, now) < capacity)
                        :: clients[c];
        swept := now;
      }
      assert Value() == Sweep(old(Value()), l, now);
      if client !in clients && |clients| >= CLIENTS_PER_SHARD { return TableFull; }
      var bucket := if client in clients then clients[client] else Bucket(capacity, now);
      var credit := Refilled(bucket, l, now);
      if credit >= TOKEN {
        clients := clients[client := Bucket(credit - TOKEN, now)];
        v := Accepted;
      } else {
        clients := clients[client := Bucket(credit, now)];
        v := Exhausted(DivCeil(TOKEN - credit, l.perSecond));
      }
    }
  }

  // ---------- the whole limiter, with reloads ----------

  datatype Event = Request(client: Address, at: nat) | Reload(limit: Limit, prefix: nat)
  datatype Entry = Entry(client: Address, at: nat, verdict: Verdict)

  /** The limiter of one site across reloads; `log` records every answer. */
  datatype Limiter = Limiter(limit: Limit, prefix: nat, shards: seq<Shard>, clock: nat, log: seq<Entry>) {
    ghost predicate Valid() { prefix <= 128 && |shards| == SHARDS }
  }

  function Fresh(limit: Limit, prefix: nat, clock: nat, log: seq<Entry>): Limiter {
    Limiter(limit, prefix, seq(SHARDS, _ => Shard(map[], clock)), clock, log)
  }

  type Hasher = Address -> nat

  function Slot(hash: Hasher, client: Address): nat { hash(client) % SHARDS }

  /** The clock is sampled under the shard lock, so it never runs backwards. */
  function Step(hash: Hasher, s: Limiter, e: Event): (s': Limiter)
    requires s.Valid()
    ensures s'.Valid()
  {
    match e
    case Reload(limit, prefix) =>
      // `replace_config` keeps the limiter when limit and prefix are unchanged.
      if prefix > 128 || (limit == s.limit && prefix == s.prefix) then s else Fresh(limit, prefix, s.clock, s.log)
    case Request(address, at) =>
      if at < s.clock then s
      else
        var client := ClientKey(address, s.prefix);
        var slot := Slot(hash, client);
        var (shard, verdict) := Check(s.shards[slot], client, s.limit, at);
        s.(shards := s.shards[slot := shard], clock := at, log := s.log + [Entry(client, at, verdict)])
  }

  function Run(hash: Hasher, s: Limiter, run: seq<Event>): (s': Limiter)
    requires s.Valid()
    ensures s'.Valid()
    decreases |run|
  {
    if run == [] then s else Step(hash, Run(hash, s, run[..|run| - 1]), run[|run| - 1])
  }

  /** The limiter as an object: its limit, its prefix and its shards, each of which
      is locked and updated on its own. */
  class RateLimiter {
    const limit: Limit
    const prefix: nat
    const shards: seq<ShardTable>

    ghost predicate Valid() {
      prefix <= 128 && |shards| == SHARDS && forall i, j :: 0 <= i < j < |shards| ==> shards[i] != shards[j]
    }

    ghost function Tables(): seq<Shard> reads shards {
      seq(|shards|, i requires 0 <= i < |shards| reads shards => shards[i].Value())
    }

    constructor (limit: Limit, prefix: nat, now: nat)
      requires prefix <= 128
      ensures Valid() && this.limit == limit && this.prefix == prefix
      ensures Tables() == Fresh(limit, prefix, now, []).shards && forall i :: 0 <= i < |shards| ==> fresh(shards[i])
    {
      var tables: seq<ShardTable> := [];
      while |tables| < SHARDS
        invariant |tables| <= SHARDS
        invariant forall i :: 0 <= i < |tables| ==> fresh(tables[i]) && tables[i].Value() == Shard(map[], now)
        invariant forall i, j :: 0 <= i < j < |tables| ==> tables[i] != tables[j]
        decreases SHARDS - |tables|
      {
        var table := new ShardTable(now);
        tables := tables + [table];
      }
      this.limit, this.prefix, shards := limit, prefix, tables;
    }

    /** `check`: the client's key picks the shard, which alone is touched. */
    method CheckAddress(hash: Hasher, address: Address, now: nat) returns (v: Verdict)
      requires Valid()
      modifies shards[Slot(hash, ClientKey(address, prefix))]
      ensures var before := Limiter(limit, prefix, old(Tables()), now, []);
              Limiter(limit, prefix, Tables(), now, [Entry(ClientKey(address, prefix), now, v)]) ==
                Step(hash, before, Request(address, now))
    {
      var client := ClientKey(address, prefix);
      var slot := Slot(hash, client);
      v := shards[slot].CheckClient(client, limit, now);
      assert Tables() == old(Tables())[slot := shards[slot].Value()];
    }
  }

  predicate Unchanged(s: Limiter, run: seq<Event>) {
    forall e :: e in run && e.Reload? ==> e.limit == s.limit && e.prefix == s.prefix
  }

  // ---------- the ideal limiter ----------

  /** Every client always has a bucket, full until first used and never evicted. */
  type Ideal = map<Address, Bucket>

  function Holding(m: Ideal, l: Limit, client: Address, now: nat): Bucket {
    if client in m then m[client] else Bucket(Capacity(l), now)
  }

  function Credit(m: Ideal, l: Limit, client: Address, now: nat): nat { Refilled(Holding(m, l, client, now), l, now) }

  function IdealCheck(m: Ideal, l: Limit, client: Address, now: nat): (Ideal, Verdict) {
    var (next, verdict) := Draw(Holding(m, l, client, now), l, now);
    (m[client := next], verdict)
  }

  /** The table agrees with the ideal on every bucket it holds; every client it
      does not hold has full ideal credit. */
  predicate Represents(s: Shard, m: Ideal, l: Limit, clock: nat, client: Address) {
    if client in s.clients then client in m && m[client] == s.clients[client] && s.clients[client].updated <= clock
    else Credit(m, l, client, clock) == Capacity(l) && (client in m ==> m[client].updated <= clock)
  }

  ghost predicate Refines(hash: Hasher, s: Limiter, m: Ideal) {
    s.Valid() && forall c: Address :: Represents(s.shards[Slot(hash, c)], m, s.limit, s.clock, c)
  }

  lemma RepresentsLater(s: Shard, m: Ideal, l: Limit, clock: nat, now: nat, client: Address)
    requires Represents(s, m, l, clock, client) && clock <= now
    ensures Represents(s, m, l, now, client)
  {
    if client !in s.clients && client in m { RefillAdds(m[client], l, clock, now); }
  }

  /** A sweep drops only buckets that are full, so it loses no allowance. */
  lemma SweepRepresents(s: Shard, m: Ideal, l: Limit, now: nat, client: Address)
    requires Represents(s, m, l, now, client)
    ensures Represents(Sweep(s, l, now), m, l, now, client)
  {}

  lemma CheckRefines(s: Shard, m: Ideal, l: Limit, now: nat, client: Address)
    requires Represents(s, m, l, now, client)
    ensures var (s', v) := Check(s, client, l, now);
            var (m', w) := IdealCheck(m, l, client, now);
            if v.TableFull? then Credit(m, l, client, now) == Capacity(l) && Represents(s', m, l, now, client)
            else v == w && Represents(s', m', l, now, client)
  {
    SweepRepresents(s, m, l, now, client);
    var swept := Sweep(s, l, now);
    if !Full(swept, client) && client !in swept.clients {
      assert Refilled(Bucket(Capacity(l), now), l, now) == Capacity(l);
    }
  }

  lemma CheckLeavesOthers(s: Shard, m: Ideal, l: Limit, now: nat, client: Address, other: Address)
    requires Represents(s, m, l, now, other) && client != other
    ensures Represents(Check(s, client, l, now).0, m, l, now, other)
    ensures Represents(Check(s, client, l, now).0, IdealCheck(m, l, client, now).0, l, now, other)
  {
    SweepRepresents(s, m, l, now, other);
  }

  /** The ideal follows the same requests; a full table is answered only if the
      client's ideal credit is full, and leaves the ideal alone. */
  function IdealStep(s: Limiter, m: Ideal, e: Event, answer: Verdict): (Ideal, Verdict)
    requires s.Valid()
  {
    match e
    case Reload(limit, prefix) =>
      if prefix > 128 || (limit == s.limit && prefix == s.prefix) then (m, answer) else (map[], answer)
    case Request(address, at) =>
      var client := ClientKey(address, s.prefix);
      if at < s.clock then (m, answer)
      else if answer.TableFull? && Credit(m, s.limit, client, at) == Capacity(s.limit) then (m, TableFull)
      else IdealCheck(m, s.limit, client, at)
  }

  function LastVerdict(log: seq<Entry>): Verdict { if log == [] then Accepted else log[|log| - 1].verdict }

  /** One step of the sharded, swept, bounded table is one step of the ideal
      limiter, with the full-table refusal as the only divergence. */
  lemma StepRefines(hash: Hasher, s: Limiter, m: Ideal, e: Event)
    requires Refines(hash, s, m)
    ensures var s' := Step(hash, s, e);
            var (m', w) := IdealStep(s, m, e, LastVerdict(s'.log));
            && Refines(hash, s', m')
            && LastVerdict(s'.log) == w
            && (e.Request? && e.at >= s.clock && w.TableFull? ==> m' == m)
  {
    if e.Request? && e.at >= s.clock {
      var s' := Step(hash, s, e);
      var (m', w) := IdealStep(s, m, e, LastVerdict(s'.log));
      var client := ClientKey(e.client, s.prefix);
      var slot := Slot(hash, client);
      assert LastVerdict(s'.log) == Check(s.shards[slot], client, s.limit, e.at).1;
      RepresentsLater(s.shards[slot], m, s.limit, s.clock, e.at, client);
      CheckRefines(s.shards[slot], m, s.limit, e.at, client);
      forall c: Address ensures Represents(s'.shards[Slot(hash, c)], m', s'.limit, s'.clock, c) {
        var mine := s.shards[Slot(hash, c)];
        RepresentsLater(mine, m, s.limit, s.clock, e.at, c);
        if c != client {
          if Slot(hash, c) == slot { CheckLeavesOthers(mine, m, s.limit, e.at, client, c); }
          assert Holding(m', s.limit, c, e.at) == Holding(m, s.limit, c, e.at);
        }
      }
    }
  }

  function IdealRun(hash: Hasher, s: Limiter, run: seq<Event>): (Ideal, seq<Verdict>)
    requires s.Valid()
    decreases |run|
  {
    if run == [] then (map[], [])
    else
      var before := Run(hash, s, run[..|run| - 1]);
      var after := Run(hash, s, run);
      var (m, verdicts) := IdealRun(hash, s, run[..|run| - 1]);
      var (m', w) := IdealStep(before, m, run[|run| - 1], LastVerdict(after.log));
      (m', if |after.log| > |before.log| then verdicts + [w] else verdicts)
  }

  function Verdicts(log: seq<Entry>): seq<Verdict> { seq(|log|, i requires 0 <= i < |log| => log[i].verdict) }

  /** Over every run the limiter gives the ideal answers. */
  lemma {:induction false} LimiterRefinesIdeal(hash: Hasher, limit: Limit, prefix: nat, start: nat, run: seq<Event>)
    requires prefix <= 128
    ensures var s := Run(hash, Fresh(limit, prefix, start, []), run);
            var (m, verdicts) := IdealRun(hash, Fresh(limit, prefix, start, []), run);
            Refines(hash, s, m) && Verdicts(s.log) == verdicts
    decreases |run|
  {
    var s0 := Fresh(limit, prefix, start, []);
    if run != [] {
      var front, e := run[..|run| - 1], run[|run| - 1];
      LimiterRefinesIdeal(hash, limit, prefix, start, front);
      StepRefines(hash, Run(hash, s0, front), IdealRun(hash, s0, front).0, e);
      VerdictsStep(hash, Run(hash, s0, front), e);
    }
  }

  lemma VerdictsStep(hash: Hasher, s: Limiter, e: Event)
    requires s.Valid()
    ensures var s' := Step(hash, s, e);
            Verdicts(s'.log) == if |s'.log| > |s.log| then Verdicts(s.log) + [LastVerdict(s'.log)] else Verdicts(s.log)
  {}

  // ---------- rate bound over every window ----------

  function AcceptedIn(log: seq<Entry>, client: Address, from: nat, to: nat): nat
    decreases |log|
  {
    if log == [] then 0
    else
      var e := log[|log| - 1];
      AcceptedIn(log[..|log| - 1], client, from, to) +
      if e.client == client && from <= e.at <= to && e.verdict.Accepted? then 1 else 0
  }

  lemma AcceptedSnoc(log: seq<Entry>, e: Entry, client: Address, from: nat, to: nat)
    ensures AcceptedIn(log + [e], client, from, to) ==
            AcceptedIn(log, client, from, to)
            + if e.client == client && from <= e.at <= to && e.verdict.Accepted? then 1 else 0
  {
    assert (log + [e])[..|log|] == log;
  }

  /** Credit spent since `from` plus credit still held is paid for by one burst and the refill. */
  predicate Covered(spent: nat, held: nat, l: Limit, clock: nat, from: nat, to: nat)
    requires from <= to
  {
    if clock < from then spent == 0
    else if clock <= to then spent + held <= Capacity(l) + (clock - from) * l.perSecond
    else spent <= Capacity(l) + (to - from) * l.perSecond
  }

  lemma Distributes(a: nat, b: nat, rate: nat)
    ensures a * rate + b * rate == (a + b) * rate
  {}

  /** Coverage in plain numbers: `before` and `between` are refills. */
  lemma CoveredNumbers(spent: nat, held: nat, grown: nat, left: nat, cost: nat, cap: nat, before: nat, between: nat)
    requires spent + held <= cap + before && grown <= held + between && left + cost == grown
    ensures spent + cost + left <= cap + before + between
  {}

  /** Coverage is kept when credit grows with time and is then spent or held. */
  lemma CoveredLater(spent: nat, held: nat, grown: nat, left: nat, granted: bool, l: Limit, clock: nat, at: nat,
                     from: nat, to: nat)
    requires from <= to && clock <= at && Covered(spent, held, l, clock, from, to)
    requires grown <= held + (at - clock) * l.perSecond && grown <= Capacity(l)
    requires left + (if granted then TOKEN else 0) == grown
    ensures Covered(spent + (if granted && from <= at <= to then TOKEN else 0), left, l, at, from, to)
  {
    var rate, cost: nat := l.perSecond, if granted then TOKEN else 0;
    if clock < from {
      if from <= at <= to { MulMono(0, at - from, rate); } else if at > to { MulMono(0, to - from, rate); }
    } else if at <= to {
      Distributes(clock - from, at - clock, rate);
      CoveredNumbers(spent, held, grown, left, cost, Capacity(l), (clock - from) * rate, (at - clock) * rate);
    } else if clock <= to {
      MulMono(clock - from, to - from, rate);
    }
  }

  predicate Paid(s: Limiter, m: Ideal, client: Address, from: nat, to: nat)
    requires from <= to
  {
    Covered(AcceptedIn(s.log, client, from, to) * TOKEN, Credit(m, s.limit, client, s.clock),
            s.limit, s.clock, from, to)
  }

  lemma CreditGrows(m: Ideal, l: Limit, client: Address, t0: nat, t1: nat)
    requires t0 <= t1 && (client in m ==> m[client].updated <= t0)
    ensures Credit(m, l, client, t1) <= Credit(m, l, client, t0) + (t1 - t0) * l.perSecond
  {
    if client in m { RefillAdds(m[client], l, t0, t1); }
  }

  lemma DrawPays(b: Bucket, l: Limit, now: nat)
    ensures var (b', v) := Draw(b, l, now);
            Refilled(b', l, now) + (if v.Accepted? then TOKEN else 0) == Refilled(b, l, now)
  {}

  /** A step takes from a client's credit exactly what it grants the client. */
  lemma StepPays(hash: Hasher, s: Limiter, m: Ideal, e: Event, client: Address)
    requires Refines(hash, s, m) && e.Request? && e.at >= s.clock
    ensures var s' := Step(hash, s, e);
            var m' := IdealStep(s, m, e, LastVerdict(s'.log)).0;
            var granted := ClientKey(e.client, s.prefix) == client && LastVerdict(s'.log).Accepted?;
            Credit(m', s.limit, client, e.at) + (if granted then TOKEN else 0) == Credit(m, s.limit, client, e.at)
  {
    StepRefines(hash, s, m, e);
    DrawPays(Holding(m, s.limit, client, e.at), s.limit, e.at);
  }

  /** The account of one client after a check, in plain numbers. */
  lemma PaidLater(accepted: nat, more: nat, held: nat, grown: nat, left: nat, granted: bool, l: Limit, clock: nat,
                  at: nat, from: nat, to: nat)
    requires from <= to && clock <= at && Covered(accepted * TOKEN, held, l, clock, from, to)
    requires grown <= held + (at - clock) * l.perSecond && grown <= Capacity(l) &&
             left + (if granted then TOKEN else 0) == grown
    requires more == accepted + if granted && from <= at <= to then 1 else 0
    ensures Covered(more * TOKEN, left, l, at, from, to)
  {
    CoveredLater(accepted * TOKEN, held, grown, left, granted, l, clock, at, from, to);
    assert more * TOKEN == accepted * TOKEN + if granted && from <= at <= to then TOKEN else 0;
  }

  /** A check adds its own verdict to the log. */
  lemma LogGrows(hash: Hasher, s: Limiter, e: Event)
    requires s.Valid() && e.Request? && e.at >= s.clock
    ensures var s' := Step(hash, s, e);
            && s'.log == s.log + [Entry(ClientKey(e.client, s.prefix), e.at, LastVerdict(s'.log))]
            && s'.limit == s.limit && s'.prefix == s.prefix && s'.clock == e.at
  {}

  lemma PaidRequest(hash: Hasher, s: Limiter, m: Ideal, e: Event, client: Address, from: nat, to: nat)
    requires Refines(hash, s, m) && from <= to && Paid(s, m, client, from, to) && e.Request? && e.at >= s.clock
    ensures var s' := Step(hash, s, e);
            Paid(s', IdealStep(s, m, e, LastVerdict(s'.log)).0, client, from, to)
  {
    var s' := Step(hash, s, e);
    var m' := IdealStep(s, m, e, LastVerdict(s'.log)).0;
    LogGrows(hash, s, e);
    AcceptedSnoc(s.log, Entry(ClientKey(e.client, s.prefix), e.at, LastVerdict(s'.log)), client, from, to);
    StepPays(hash, s, m, e, client);
    assert Represents(s.shards[Slot(hash, client)], m, s.limit, s.clock, client);
    CreditGrows(m, s.limit, client, s.clock, e.at);
    PaidLater(AcceptedIn(s.log, client, from, to), AcceptedIn(s'.log, client, from, to),
              Credit(m, s.limit, client, s.clock),
              Credit(m, s.limit, client, e.at), Credit(m', s.limit, client, e.at),
              ClientKey(e.client, s.prefix) == client && LastVerdict(s'.log).Accepted?,
              s.limit, s.clock, e.at, from, to);
  }

  lemma PaidStep(hash: Hasher, s: Limiter, m: Ideal, e: Event, client: Address, from: nat, to: nat)
    requires Refines(hash, s, m) && from <= to && Paid(s, m, client, from, to)
    requires e.Reload? ==> e.limit == s.limit && e.prefix == s.prefix
    ensures var s' := Step(hash, s, e);
            Paid(s', IdealStep(s, m, e, LastVerdict(s'.log)).0, client, from, to)
  {
    if e.Request? && e.at >= s.clock { PaidRequest(hash, s, m, e, client, from, to); }
  }

  lemma PaidAtStart(limit: Limit, prefix: nat, start: nat, client: Address, from: nat, to: nat)
    requires from <= to
    ensures Paid(Fresh(limit, prefix, start, []), map[], client, from, to)
  {
    if from <= start { MulMono(0, start - from, limit.perSecond); }
    MulMono(0, to - from, limit.perSecond);
  }

  lemma {:induction false} KeepsLimit(hash: Hasher, s: Limiter, run: seq<Event>)
    requires s.Valid() && Unchanged(s, run)
    ensures Run(hash, s, run).limit == s.limit && Run(hash, s, run).prefix == s.prefix
    decreases |run|
  {
    if run != [] {
      assert run[|run| - 1] in run;
      KeepsLimit(hash, s, run[..|run| - 1]);
    }
  }

  lemma {:induction false} PaidRun(hash: Hasher, s0: Limiter, run: seq<Event>, client: Address, from: nat, to: nat)
    requires s0.prefix <= 128 && from <= to && s0 == Fresh(s0.limit, s0.prefix, s0.clock, []) && Unchanged(s0, run)
    ensures Paid(Run(hash, s0, run), IdealRun(hash, s0, run).0, client, from, to)
    decreases |run|
  {
    if run == [] {
      PaidAtStart(s0.limit, s0.prefix, s0.clock, client, from, to);
    } else {
      var front, e := run[..|run| - 1], run[|run| - 1];
      assert e in run;
      PaidRun(hash, s0, front, client, from, to);
      KeepsLimit(hash, s0, front);
      LimiterRefinesIdeal(hash, s0.limit, s0.prefix, s0.clock, front);
      PaidStep(hash, Run(hash, s0, front), IdealRun(hash, s0, front).0, e, client, from, to);
    }
  }

  lemma CoveredBound(spent: nat, held: nat, l: Limit, clock: nat, from: nat, to: nat)
    requires from <= to && Covered(spent, held, l, clock, from, to)
    ensures spent <= l.burst * TOKEN + (to - from) * l.perSecond
  {
    if from <= clock <= to { MulMono(clock - from, to - from, l.perSecond); }
    MulMono(0, to - from, l.perSecond);
  }

  /** In every window a client is accepted at most one burst plus the refill of
      the window, through sweeps and through reloads that keep limit and prefix. */
  lemma WindowBound(hash: Hasher, limit: Limit, prefix: nat, start: nat, run: seq<Event>, client: Address, from: nat,
                    to: nat)
    requires prefix <= 128 && from <= to && Unchanged(Fresh(limit, prefix, start, []), run)
    ensures AcceptedIn(Run(hash, Fresh(limit, prefix, start, []), run).log, client, from, to) * TOKEN
            <= limit.burst * TOKEN + (to - from) * limit.perSecond
  {
    var s0 := Fresh(limit, prefix, start, []);
    var s := Run(hash, s0, run);
    PaidRun(hash, s0, run, client, from, to);
    KeepsLimit(hash, s0, run);
    CoveredBound(AcceptedIn(s.log, client, from, to) * TOKEN, Credit(IdealRun(hash, s0, run).0, limit, client, s.clock),
                 limit, s.clock, from, to);
  }

  // ---------- when a client is refused ----------

  /** A client is let through exactly if its own credit holds a whole token and its
      shard has room for it; nothing that other clients do costs it credit. */
  lemma AcceptedExactlyWithCredit(hash: Hasher, s: Limiter, m: Ideal, address: Address, at: nat)
    requires Refines(hash, s, m) && at >= s.clock
    ensures var client, v := ClientKey(address, s.prefix), LastVerdict(Step(hash, s, Request(address, at)).log);
            && (v.TableFull? <==> Full(Sweep(s.shards[Slot(hash, client)], s.limit, at), client))
            && (v.Accepted? <==> !v.TableFull? && Credit(m, s.limit, client, at) >= TOKEN)
            && (v.TableFull? ==> Credit(m, s.limit, client, at) == s.limit.burst * TOKEN)
  {
    var client := ClientKey(address, s.prefix);
    var shard := s.shards[Slot(hash, client)];
    assert Represents(shard, m, s.limit, s.clock, client);
    RepresentsLater(shard, m, s.limit, s.clock, at, client);
    CheckRefines(shard, m, s.limit, at, client);
  }

  predicate Bounded(s: Limiter) { forall i :: 0 <= i < |s.shards| ==> |s.shards[i].clients| <= CLIENTS_PER_SHARD }

  lemma SweepShrinks(s: Shard, l: Limit, now: nat)
    ensures |Sweep(s, l, now).clients| <= |s.clients|
  {
    SubsetSize(Sweep(s, l, now).clients.Keys, s.clients.Keys);
    assert |Sweep(s, l, now).clients.Keys| == |Sweep(s, l, now).clients| && |s.clients.Keys| == |s.clients|;
  }

  lemma CheckBounded(s: Shard, client: Address, l: Limit, now: nat)
    requires |s.clients| <= CLIENTS_PER_SHARD
    ensures |Check(s, client, l, now).0.clients| <= CLIENTS_PER_SHARD
  {
    SweepShrinks(s, l, now);
  }

  lemma {:induction false} BoundedRun(hash: Hasher, limit: Limit, prefix: nat, start: nat, run: seq<Event>)
    requires prefix <= 128
    ensures Bounded(Run(hash, Fresh(limit, prefix, start, []), run))
    decreases |run|
  {
    if run != [] {
      var front, e := run[..|run| - 1], run[|run| - 1];
      BoundedRun(hash, limit, prefix, start, front);
      var s := Run(hash, Fresh(limit, prefix, start, []), front);
      if e.Request? && e.at >= s.clock {
        var client := ClientKey(e.client, s.prefix);
        CheckBounded(s.shards[Slot(hash, client)], client, s.limit, e.at);
      }
    }
  }

  /** Over every run, no shard ever holds more than 1024 clients, and a client is
      turned away for lack of room only while its shard holds 1024 others, none of
      them idle and refilled if a sweep was due. */
  lemma FullTableIsFull(hash: Hasher, limit: Limit, prefix: nat, start: nat, run: seq<Event>, address: Address, at: nat)
    requires prefix <= 128
    ensures var s := Run(hash, Fresh(limit, prefix, start, []), run);
            var s', client := Step(hash, s, Request(address, at)), ClientKey(address, s.prefix);
            var before, after := s.shards[Slot(hash, client)], s'.shards[Slot(hash, client)];
            && |before.clients| <= 1024 && |after.clients| <= 1024
            && (at >= s.clock && LastVerdict(s'.log).TableFull? ==>
                  && |after.clients| == 1024 && client !in after.clients
                  && after.clients.Keys <= before.clients.Keys
                  && (at >= before.swept + 60_000_000_000 ==>
                        forall c :: c in after.clients ==>
                          at - after.clients[c].updated < 60_000_000_000 ||
                          Refilled(after.clients[c], s.limit, at) < s.limit.burst * 1_000_000_000))
  {
    BoundedRun(hash, limit, prefix, start, run);
    var s := Run(hash, Fresh(limit, prefix, start, []), run);
    var client := ClientKey(address, s.prefix);
    CheckBounded(s.shards[Slot(hash, client)], client, s.limit, at);
    SweepShrinks(s.shards[Slot(hash, client)], s.limit, at);
  }

  // ---------- the wait is exact ----------

  /** The bucket of a client refused at `now` with `credit` left, refilling undisturbed. */
  predicate Waiting(s: Limiter, hash: Hasher, client: Address, credit: nat, now: nat)
    requires s.Valid()
  {
    var clients := s.shards[Slot(hash, client)].clients;
    && client in clients
    && now <= clients[client].updated <= s.clock
    && clients[client].credit == credit + (clients[client].updated - now) * s.limit.perSecond
  }

  lemma WaitingCredit(l: Limit, b: Bucket, credit: nat, now: nat, at: nat)
    requires credit < TOKEN && now <= b.updated <= at
    requires b.credit == credit + (b.updated - now) * l.perSecond
    ensures b.credit + Elapsed(at, b.updated) * l.perSecond == credit + (at - now) * l.perSecond
    ensures Draw(b, l, at).1.Accepted? <==> at - now >= DivCeil(TOKEN - credit, l.perSecond)
    ensures at - now < DivCeil(TOKEN - credit, l.perSecond) ==>
              Draw(b, l, at).0 == Bucket(credit + (at - now) * l.perSecond, at)
  {
    assert (b.updated - now) * l.perSecond + (at - b.updated) * l.perSecond == (at - now) * l.perSecond;
    WaitIsExact(TOKEN - credit, l.perSecond, at - now);
    assert Capacity(l) >= TOKEN;
  }

  /** The instant at which a bucket with `credit` left at `now` has a token again. */
  function Due(l: Limit, credit: nat, now: nat): nat
    requires credit < TOKEN
  {
    now + DivCeil(TOKEN - credit, l.perSecond)
  }

  /** Before the wait is over, every check of the client fails and every other
      check leaves its bucket alone; at the end of the wait a check succeeds. */
  lemma WaitStep(hash: Hasher, s: Limiter, e: Event, client: Address, credit: nat, now: nat)
    requires s.Valid() && e.Request? && s.clock <= e.at && credit < TOKEN && Waiting(s, hash, client, credit, now)
    requires e.at <= Due(s.limit, credit, now)
    ensures var s' := Step(hash, s, e);
            && (ClientKey(e.client, s.prefix) == client ==>
                  (LastVerdict(s'.log).Accepted? <==> e.at == Due(s.limit, credit, now)) &&
                  !LastVerdict(s'.log).TableFull?)
            && (ClientKey(e.client, s.prefix) != client || e.at < Due(s.limit, credit, now) ==>
                  Waiting(s', hash, client, credit, now))
  {
    var key := ClientKey(e.client, s.prefix);
    var shard := s.shards[Slot(hash, client)];
    var b := shard.clients[client];
    WaitBounds(TOKEN - credit, s.limit.perSecond);
    WaitingCredit(s.limit, b, credit, now, e.at);
    assert !Idle(b, s.limit, e.at);
    assert client in Sweep(shard, s.limit, e.at).clients;
  }

  /** Every check of the client after the first `n` entries was refused for lack of credit. */
  predicate RefusedSince(log: seq<Entry>, n: nat, client: Address) {
    n <= |log| && forall i :: n <= i < |log| && log[i].client == client ==> log[i].verdict.Exhausted?
  }

  lemma {:induction false} WaitRun(hash: Hasher, s: Limiter, run: seq<Event>, client: Address, credit: nat, now: nat)
    requires s.Valid() && credit < TOKEN && Waiting(s, hash, client, credit, now)
    requires Unchanged(s, run) && forall e :: e in run && e.Request? ==> e.at < Due(s.limit, credit, now)
    requires s.clock < Due(s.limit, credit, now)
    ensures var s' := Run(hash, s, run);
            && s'.limit == s.limit && s'.prefix == s.prefix && s.clock <= s'.clock < Due(s.limit, credit, now)
            && Waiting(s', hash, client, credit, now)
            && RefusedSince(s'.log, |s.log|, client)
    decreases |run|
  {
    if run != [] {
      var front, e := run[..|run| - 1], run[|run| - 1];
      assert e in run;
      WaitRun(hash, s, front, client, credit, now);
      var mid := Run(hash, s, front);
      if e.Request? && e.at >= mid.clock { WaitStep(hash, mid, e, client, credit, now); }
    }
  }

  lemma RefusalStartsWait(hash: Hasher, s: Limiter, address: Address, now: nat) returns (credit: nat)
    requires s.Valid() && now >= s.clock && LastVerdict(Step(hash, s, Request(address, now)).log).Exhausted?
    ensures var refused := Step(hash, s, Request(address, now));
            && credit < TOKEN && refused.clock == now && refused.limit == s.limit && refused.prefix == s.prefix
            && Waiting(refused, hash, ClientKey(address, s.prefix), credit, now)
            && now < Due(s.limit, credit, now) == now + LastVerdict(refused.log).wait
  {
    var client := ClientKey(address, s.prefix);
    var refused := Step(hash, s, Request(address, now));
    credit := refused.shards[Slot(hash, client)].clients[client].credit;
    WaitBounds(TOKEN - credit, s.limit.perSecond);
  }

  /** Before the wait is over the client is refused, */
  lemma RefusedBefore(hash: Hasher, s: Limiter, client: Address, credit: nat, now: nat, end: nat, run: seq<Event>)
    requires s.Valid() && credit < TOKEN && Waiting(s, hash, client, credit, now) &&
             s.clock < end == Due(s.limit, credit, now)
    requires Unchanged(s, run) && forall e :: e in run && e.Request? ==> e.at < end
    ensures RefusedSince(Run(hash, s, run).log, |s.log|, client)
  {
    WaitRun(hash, s, run, client, credit, now);
  }

  /** and a check at its end succeeds, whatever came before it. */
  lemma AcceptedAtEnd(hash: Hasher, s: Limiter, client: Address, credit: nat, now: nat, end: nat, run: seq<Event>,
                      last: Address)
    requires s.Valid() && credit < TOKEN && Waiting(s, hash, client, credit, now) &&
             s.clock < end == Due(s.limit, credit, now)
    requires Unchanged(s, run) && (forall e :: e in run && e.Request? ==> e.at < end) &&
             ClientKey(last, s.prefix) == client
    ensures LastVerdict(Step(hash, Run(hash, s, run), Request(last, end)).log) == Accepted
  {
    WaitRun(hash, s, run, client, credit, now);
    WaitStep(hash, Run(hash, s, run), Request(last, end), client, credit, now);
  }

  /** Through `run` every check of the client fails, and one at `end` succeeds. */
  predicate WaitsUntil(hash: Hasher, s: Limiter, client: Address, end: nat, run: seq<Event>, last: Address)
    requires s.Valid()
  {
    && RefusedSince(Run(hash, s, run).log, |s.log|, client)
    && LastVerdict(Step(hash, Run(hash, s, run), Request(last, end)).log) == Accepted
  }

  lemma WaitFrom(hash: Hasher, s: Limiter, client: Address, credit: nat, now: nat, end: nat, run: seq<Event>,
                 last: Address)
    requires s.Valid() && credit < TOKEN && Waiting(s, hash, client, credit, now) &&
             s.clock < end == Due(s.limit, credit, now)
    requires Unchanged(s, run) && (forall e :: e in run && e.Request? ==> e.at < end) &&
             ClientKey(last, s.prefix) == client
    ensures WaitsUntil(hash, s, client, end, run, last)
  {
    RefusedBefore(hash, s, client, credit, now, end, run);
    AcceptedAtEnd(hash, s, client, credit, now, end, run, last);
  }

  /** After `refused`, the state left by a refusal with wait `w` at `now`: all
      checks of the client before `now + w` fail, whatever other clients do and
      through reloads that keep limit and prefix, and one at `now + w` succeeds. */
  lemma RefusalWaitIsExact(hash: Hasher, s: Limiter, address: Address, now: nat, refused: Limiter, run: seq<Event>,
                           last: Address)
    requires s.Valid() && now >= s.clock && refused == Step(hash, s, Request(address, now))
    requires LastVerdict(refused.log).Exhausted?
    requires ClientKey(last, s.prefix) == ClientKey(address, s.prefix)
    requires Unchanged(s, run) && forall e :: e in run && e.Request? ==> e.at < now + LastVerdict(refused.log).wait
    ensures WaitsUntil(hash, refused, ClientKey(address, s.prefix), now + LastVerdict(refused.log).wait, run, last)
  {
    var credit := RefusalStartsWait(hash, s, address, now);
    WaitFrom(hash, refused, ClientKey(address, s.prefix), credit, now, now + LastVerdict(refused.log).wait, run, last);
  }
}
