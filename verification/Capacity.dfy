/** Concurrency permits: a semaphore with a per-client count, released in two
    steps when a permit is dropped, and the invoice-issuance permits built on it
    with one weakly held pool per receiver. Clients are already canonical keys. */
module Capacity {
  import opened Basics
  import RateLimit

  type Client = RateLimit.Address

  datatype Pool = Pool(max: nat, perClient: nat, available: nat, clients: map<Client, nat>)

  function NewPool(max: nat): Pool { Pool(max, if max / 2 > 1 then max / 2 else 1, max, map[]) }

  function Held(p: Pool, c: Client): nat { if c in p.clients then p.clients[c] else 0 }

  function TryAcquire(p: Pool, c: Client): Option<Pool> {
    if Held(p, c) >= p.perClient || p.available == 0 then None
    else Some(p.(available := p.available - 1, clients := p.clients[c := Held(p, c) + 1]))
  }

  /** First half of dropping a permit: the client's slot. */
  function DropSlot(p: Pool, c: Client): Pool {
    if c !in p.clients || p.clients[c] == 0 then p
    else if p.clients[c] == 1 then p.(clients := p.clients - {c})
    else p.(clients := p.clients[c := p.clients[c] - 1])
  }

  /** Second half: the semaphore. */
  function Release(p: Pool): Pool { p.(available := p.available + 1) }

  /** The pool as an object: the client map under its lock, and the semaphore. */
  class CapacityPool {
    var max: nat
    var perClient: nat
    var available: nat
    var clients: map<Client, nat>

    ghost function Value(): Pool reads this { Pool(max, perClient, available, clients) }

    constructor (max: nat)
      ensures Value() == NewPool(max)
    {
      this.max, available, clients := max, max, map[];
      perClient := if max / 2 > 1 then max / 2 else 1;
    }

    method Acquire(c: Client) returns (ok: bool)
      modifies this
      ensures ok == TryAcquire(old(Value()), c).Some?
      ensures Value() == if ok then TryAcquire(old(Value()), c).value else old(Value())
    {
      var held := if c in clients then clients[c] else 0;
      if held >= perClient || available == 0 { return false; }
      available := available - 1;
      clients := clients[c := held + 1];
      ok := true;
    }

    method DropClientSlot(c: Client)
      modifies this
      ensures Value() == DropSlot(old(Value()), c)
    {
      if c in clients && clients[c] > 0 {
        clients := clients[c := clients[c] - 1];
        if clients[c] == 0 { clients := clients - {c}; }
        assert clients == DropSlot(old(Value()), c).clients;
      }
    }

    method ReleaseSemaphore()
      modifies this
      ensures Value() == Release(old(Value()))
    {
      available := available + 1;
    }
  }

  /** Dropping a permit: first the client's slot, then the semaphore. */
  method DropPermit(pool: CapacityPool, c: Client)
    modifies pool
    ensures pool.Value() == Release(DropSlot(old(pool.Value()), c))
  {
    pool.DropClientSlot(c);
    pool.ReleaseSemaphore();
  }

  /** A permit taken and dropped leaves the pool as it was. */
  method BorrowPermit(pool: CapacityPool, c: Client) returns (ok: bool)
    requires c in pool.clients ==> pool.clients[c] > 0
    modifies pool
    ensures pool.Value() == old(pool.Value()) && ok == TryAcquire(old(pool.Value()), c).Some?
  {
    ok := pool.Acquire(c);
    if ok {
      DropPermit(pool, c);
      assert pool.clients == old(pool.clients);
    }
  }

  // ---------- what the counters mean ----------

  ghost function Mine(live: map<nat, Client>, c: Client): set<nat> { set p | p in live && live[p] == c }

  /** `semaphore` are the permits not yet fully dropped, `live` those whose drop
      has not begun, with their client. */
  ghost predicate Counts(p: Pool, semaphore: set<nat>, live: map<nat, Client>) {
    && live.Keys <= semaphore
    && p.available + |semaphore| == p.max
    && (forall c :: c in p.clients ==> 1 <= p.clients[c] <= p.perClient)
    && (forall c: Client :: Held(p, c) == |Mine(live, c)|)
  }

  lemma MineAdded(live: map<nat, Client>, c: Client, id: nat, d: Client)
    requires id !in live
    ensures |Mine(live[id := c], d)| == |Mine(live, d)| + (if d == c then 1 else 0)
  {
    assert Mine(live[id := c], d) == if d == c then Mine(live, c) + {id} else Mine(live, d);
  }

  lemma AcquireCounts(p: Pool, semaphore: set<nat>, live: map<nat, Client>, c: Client, id: nat)
    requires Counts(p, semaphore, live) && TryAcquire(p, c).Some? && id !in semaphore
    ensures Counts(TryAcquire(p, c).value, semaphore + {id}, live[id := c])
  {
    var p', live' := TryAcquire(p, c).value, live[id := c];
    assert id !in live;
    forall d: Client ensures Held(p', d) == |Mine(live', d)| {
      assert Held(p, d) == |Mine(live, d)|;
      MineAdded(live, c, id, d);
    }
  }

  lemma DropCounts(p: Pool, semaphore: set<nat>, live: map<nat, Client>, id: nat)
    requires Counts(p, semaphore, live) && id in live
    ensures Counts(DropSlot(p, live[id]), semaphore, live - {id})
  {
    var c := live[id];
    var p', live' := DropSlot(p, c), live - {id};
    assert id in Mine(live, c) && Held(p, c) == |Mine(live, c)| > 0;
    forall d: Client ensures Held(p', d) == |Mine(live', d)| {
      assert Held(p, d) == |Mine(live, d)|;
      assert Mine(live', d) == if d == c then Mine(live, c) - {id} else Mine(live, d);
    }
  }

  lemma ReleaseCounts(p: Pool, semaphore: set<nat>, live: map<nat, Client>, id: nat)
    requires Counts(p, semaphore, live) && id in semaphore && id !in live
    ensures Counts(Release(p), semaphore - {id}, live)
  {
    forall c: Client ensures Held(Release(p), c) == |Mine(live, c)| { assert Held(p, c) == |Mine(live, c)|; }
  }

  /** Permits are limited in all and per client, every entry of the client map is
      positive and counts exactly the permits whose drop has not begun. */
  lemma CountsBound(p: Pool, semaphore: set<nat>, live: map<nat, Client>, c: Client)
    requires Counts(p, semaphore, live)
    ensures |live.Keys| <= |semaphore| <= p.max && |Mine(live, c)| <= p.perClient
    ensures c in p.clients <==> Mine(live, c) != {}
    ensures c in p.clients ==> p.clients[c] == |Mine(live, c)|
  {
    SubsetSize(live.Keys, semaphore);
    assert Held(p, c) == |Mine(live, c)|;
  }

  // ---------- a site's capacity over every run ----------

  datatype Event = Acquire(client: Client) | BeginDrop(id: nat) | FinishDrop(id: nat)

  datatype Site = Site(pool: Pool, semaphore: set<nat>, live: map<nat, Client>, next: nat)

  function SiteStep(s: Site, e: Event): Site {
    match e
    case Acquire(c) =>
      (match TryAcquire(s.pool, c)
       case Some(p) => Site(p, s.semaphore + {s.next}, s.live[s.next := c], s.next + 1)
       case None => s)
    case BeginDrop(id) => if id in s.live then s.(pool := DropSlot(s.pool, s.live[id]), live := s.live - {id}) else s
    case FinishDrop(id) =>
      if id in s.semaphore && id !in s.live then s.(pool := Release(s.pool), semaphore := s.semaphore - {id}) else s
  }

  function SiteRun(max: nat, run: seq<Event>): Site
    decreases |run|
  {
    if run == [] then Site(NewPool(max), {}, map[], 0) else SiteStep(SiteRun(max, run[..|run| - 1]), run[|run| - 1])
  }

  lemma {:induction false} SiteCounts(max: nat, run: seq<Event>)
    ensures var s := SiteRun(max, run);
            && Counts(s.pool, s.semaphore, s.live) && (forall id :: id in s.semaphore ==> id < s.next)
            && s.pool.max == max && s.pool.perClient == NewPool(max).perClient
    decreases |run|
  {
    if run == [] {
      forall c: Client ensures Held(NewPool(max), c) == |Mine(map[], c)| { assert Mine(map[], c) == {}; }
    } else {
      SiteCounts(max, run[..|run| - 1]);
      var s := SiteRun(max, run[..|run| - 1]);
      match run[|run| - 1]
      case Acquire(c) => if TryAcquire(s.pool, c).Some? { AcquireCounts(s.pool, s.semaphore, s.live, c, s.next); }
      case BeginDrop(id) => if id in s.live { DropCounts(s.pool, s.semaphore, s.live, id); }
      case FinishDrop(id) => if id in s.semaphore && id !in s.live { ReleaseCounts(s.pool, s.semaphore, s.live, id); }
    }
  }

  /** Over every run of acquisitions and interleaved drops, a site holds at most
      `max` permits, no client more than half of them (or one), and the client
      map counts the permits not in the middle of a drop. */
  lemma SitePermitsBounded(max: nat, run: seq<Event>, c: Client)
    ensures var s := SiteRun(max, run);
            && |s.live.Keys| <= max && |Mine(s.live, c)| <= (if max / 2 > 1 then max / 2 else 1)
            && (c in s.pool.clients <==> Mine(s.live, c) != {})
            && (c in s.pool.clients ==> s.pool.clients[c] == |Mine(s.live, c)|)
  {
    SiteCounts(max, run);
    var s := SiteRun(max, run);
    CountsBound(s.pool, s.semaphore, s.live, c);
  }

  /** A refusal has a reason: the client is at its share, or no permit is left. */
  lemma RefusalIsJustified(max: nat, run: seq<Event>, c: Client)
    ensures var s := SiteRun(max, run);
            TryAcquire(s.pool, c).None? <==>
              |Mine(s.live, c)| >= (if max / 2 > 1 then max / 2 else 1) || |s.semaphore| == max
  {
    SiteCounts(max, run);
    assert Held(SiteRun(max, run).pool, c) == |Mine(SiteRun(max, run).live, c)|;
  }
}

/** Invoice issuance: a global pool and, for each receiver, a pool that lives as
    long as a permit refers to it. */
module Issuance {
  import opened Basics
  import opened Capacity

  /** How far a permit has come, in the order its fields are dropped. */
  datatype Stage =
    | Waiting        // global permit taken, receiver not yet
    | Granted        // the permit as returned
    | SlotDropped    // receiver: client slot given back
    | Released       // receiver: semaphore given back, pool still referenced
    | Unlinked       // receiver pool no longer referenced (or never granted)
    | GlobalSlotDropped

  datatype Permit = Permit(key: string, client: Client, pool: nat, stage: Stage)

  predicate HoldsSlot(p: Permit) { p.stage.Granted? }
  predicate HoldsSemaphore(p: Permit) { p.stage.Granted? || p.stage.SlotDropped? }
  predicate HoldsReference(p: Permit) { HoldsSemaphore(p) || p.stage.Released? }

  datatype State = State(
    global: Pool,
    pools: map<nat, Pool>,           // every receiver pool ever made
    weak: map<string, nat>,          // the weak map: receiver key to pool
    permits: map<nat, Permit>,
    next: nat)

  const GLOBAL := Pool(64, 8, 64, map[])
  const RECEIVER := Pool(8, 2, 8, map[])
  const INITIAL := State(GLOBAL, map[], map[], map[], 0)

  datatype Event =
    | Enter(key: string, client: Client)
    | TakeReceiver(id: nat)
    | DropReceiverSlot(id: nat)
    | ReleaseReceiver(id: nat)
    | Unlink(id: nat)
    | DropGlobalSlot(id: nat)
    | ReleaseGlobal(id: nat)

  predicate Strong(s: State, pool: nat) {
    exists p :: p in s.permits && s.permits[p].pool == pool && HoldsReference(s.permits[p])
  }

  /** `receivers.retain`: dead weak entries go. */
  function Retained(s: State): map<string, nat> { map k | k in s.weak && Strong(s, s.weak[k]) :: s.weak[k] }

  function To(s: State, id: nat, stage: Stage): State
    requires id in s.permits
  {
    s.(permits := s.permits[id := s.permits[id].(stage := stage)])
  }

  /** The pool a request for `key` uses: the one still referenced, or a new one. */
  function Chosen(s: State, key: string): nat { if key in Retained(s) then Retained(s)[key] else s.next }
  function Before(s: State, key: string): Pool {
    if key in Retained(s) && Chosen(s, key) in s.pools then s.pools[Chosen(s, key)] else RECEIVER
  }

  /** The part of `acquire` under the lock of the weak map. */
  function TakeStep(s: State, id: nat): State
    requires id in s.permits
  {
    var p, weak := s.permits[id], Retained(s);
    var pool := Chosen(s, p.key);
    match TryAcquire(Before(s, p.key), p.client)
    case Some(after) =>
      s.(weak := weak[p.key := pool], pools := s.pools[pool := after], next := s.next + 1,
         permits := s.permits[id := Permit(p.key, p.client, pool, Granted)])
    case None => To(s.(weak := weak), id, Unlinked)
  }

  function Step(s: State, e: Event): State {
    match e
    case Enter(key, client) =>
      (match TryAcquire(s.global, client)
       case Some(g) => s.(global := g, permits := s.permits[s.next := Permit(key, client, s.next, Waiting)],
                          next := s.next + 1)
       case None => s)
    case TakeReceiver(id) => if id in s.permits && s.permits[id].stage.Waiting? then TakeStep(s, id) else s
    case DropReceiverSlot(id) =>
      if id in s.permits && s.permits[id].stage.Granted? && s.permits[id].pool in s.pools then
        var p := s.permits[id];
        To(s, id, SlotDropped).(pools := s.pools[p.pool := DropSlot(s.pools[p.pool], p.client)])
      else s
    case ReleaseReceiver(id) =>
      if id in s.permits && s.permits[id].stage.SlotDropped? && s.permits[id].pool in s.pools then
        var p := s.permits[id];
        To(s, id, Released).(pools := s.pools[p.pool := Release(s.pools[p.pool])])
      else s
    case Unlink(id) =>
      if id in s.permits && (s.permits[id].stage.Released? || s.permits[id].stage.Waiting?) then To(s, id, Unlinked)
      else s
    case DropGlobalSlot(id) =>
      if id in s.permits && s.permits[id].stage.Unlinked? then
        To(s, id, GlobalSlotDropped).(global := DropSlot(s.global, s.permits[id].client))
      else s
    case ReleaseGlobal(id) =>
      if id in s.permits && s.permits[id].stage.GlobalSlotDropped? then
        s.(global := Release(s.global), permits := s.permits - {id})
      else s
  }

  function Run(run: seq<Event>): State
    decreases |run|
  {
    if run == [] then INITIAL else Step(Run(run[..|run| - 1]), run[|run| - 1])
  }

  // ---------- the invariant ----------

  ghost function GlobalLive(s: State): map<nat, Client> {
    map p | p in s.permits && !s.permits[p].stage.GlobalSlotDropped? :: s.permits[p].client
  }

  ghost function PoolSemaphore(s: State, pool: nat): set<nat> {
    set p | p in s.permits && s.permits[p].pool == pool && HoldsSemaphore(s.permits[p])
  }

  ghost function PoolLive(s: State, pool: nat): map<nat, Client> {
    map p | p in s.permits && s.permits[p].pool == pool && HoldsSlot(s.permits[p]) :: s.permits[p].client
  }

  ghost predicate PoolSound(s: State, pool: nat) {
    && pool in s.pools && s.pools[pool].max == 8 && s.pools[pool].perClient == 2
    && Counts(s.pools[pool], PoolSemaphore(s, pool), PoolLive(s, pool))
  }

  ghost predicate GlobalSound(s: State) {
    Counts(s.global, s.permits.Keys, GlobalLive(s)) && s.global.max == 64 && s.global.perClient == 8
  }

  ghost predicate PoolsSound(s: State) { forall n :: n in s.pools ==> PoolSound(s, n) }

  predicate Numbered(s: State) {
    && (forall p :: p in s.permits ==> p < s.next && s.permits[p].pool < s.next)
    && (forall n :: n in s.pools ==> n < s.next)
    && (forall k :: k in s.weak ==> s.weak[k] in s.pools)
  }

  /** Whoever refers to a pool finds it under its key in the weak map. */
  predicate Linked(s: State) {
    forall p :: p in s.permits && HoldsReference(s.permits[p]) ==>
      s.permits[p].key in s.weak && s.weak[s.permits[p].key] == s.permits[p].pool
  }

  ghost predicate Inv(s: State) { GlobalSound(s) && PoolsSound(s) && Numbered(s) && Linked(s) }

  predicate Holds(permits: map<nat, Permit>, p: nat, n: nat) {
    p in permits && permits[p].pool == n && HoldsSemaphore(permits[p])
  }

  /** No holder of pool `n` came, went or changed. */
  ghost predicate SameHolders(a: map<nat, Permit>, b: map<nat, Permit>, n: nat) {
    forall p: nat :: Holds(a, p, n) || Holds(b, p, n) ==> Holds(a, p, n) && Holds(b, p, n) && a[p] == b[p]
  }

  lemma PermitElsewhere(permits: map<nat, Permit>, id: nat, x: Permit, n: nat)
    requires !Holds(permits, id, n) && (x.pool != n || !HoldsSemaphore(x))
    ensures SameHolders(permits, permits[id := x], n)
    ensures SameHolders(permits, permits - {id}, n)
  {}

  /** Pools that no changed permit holds a semaphore or slot of are untouched. */
  lemma PoolUntouched(s: State, s': State, n: nat)
    requires PoolSound(s, n) && n in s'.pools && s'.pools[n] == s.pools[n] && SameHolders(s.permits, s'.permits, n)
    ensures PoolSound(s', n)
  {
    forall p: nat ensures p in PoolSemaphore(s', n) <==> p in PoolSemaphore(s, n) {
      assert p in PoolSemaphore(s, n) <==> Holds(s.permits, p, n);
      assert p in PoolSemaphore(s', n) <==> Holds(s'.permits, p, n);
    }
    assert PoolSemaphore(s', n) == PoolSemaphore(s, n);
    forall p: nat ensures p in PoolLive(s', n) <==> p in PoolLive(s, n) {
      assert p in PoolLive(s, n) ==> Holds(s.permits, p, n);
      assert p in PoolLive(s', n) ==> Holds(s'.permits, p, n);
    }
    assert PoolLive(s', n) == PoolLive(s, n);
  }

  lemma GlobalUntouched(s: State, s': State)
    requires GlobalSound(s) && s'.global == s.global && s'.permits.Keys == s.permits.Keys
    requires forall p :: p in s.permits ==> s'.permits[p].client == s.permits[p].client
    requires forall p :: p in s.permits ==>
               (s'.permits[p].stage.GlobalSlotDropped? <==> s.permits[p].stage.GlobalSlotDropped?)
    ensures GlobalSound(s')
  {
    assert GlobalLive(s') == GlobalLive(s);
  }

  lemma GlobalEnter(s: State, e: Event)
    requires GlobalSound(s) && Numbered(s) && e.Enter? && TryAcquire(s.global, e.client).Some?
    ensures GlobalSound(Step(s, e))
  {
    var s' := Step(s, e);
    AcquireCounts(s.global, s.permits.Keys, GlobalLive(s), e.client, s.next);
    assert s'.permits.Keys == s.permits.Keys + {s.next};
    assert GlobalLive(s') == GlobalLive(s)[s.next := e.client];
  }

  lemma GlobalDrop(s: State, id: nat)
    requires GlobalSound(s) && id in s.permits && s.permits[id].stage.Unlinked?
    ensures GlobalSound(Step(s, DropGlobalSlot(id)))
  {
    var s' := Step(s, DropGlobalSlot(id));
    DropCounts(s.global, s.permits.Keys, GlobalLive(s), id);
    assert s'.permits.Keys == s.permits.Keys;
    assert GlobalLive(s') == GlobalLive(s) - {id};
  }

  lemma GlobalRelease(s: State, id: nat)
    requires GlobalSound(s) && id in s.permits && s.permits[id].stage.GlobalSlotDropped?
    ensures GlobalSound(Step(s, ReleaseGlobal(id)))
  {
    var s' := Step(s, ReleaseGlobal(id));
    ReleaseCounts(s.global, s.permits.Keys, GlobalLive(s), id);
    assert s'.permits.Keys == s.permits.Keys - {id};
    assert GlobalLive(s') == GlobalLive(s);
  }

  lemma ReceiverStepsKeepGlobal(s: State, e: Event)
    requires e.TakeReceiver? || e.DropReceiverSlot? || e.ReleaseReceiver? || e.Unlink?
    ensures var s' := Step(s, e);
            && s'.global == s.global && s'.permits.Keys == s.permits.Keys
            && (forall p :: p in s.permits ==> s'.permits[p].client == s.permits[p].client)
            && (forall p :: p in s.permits ==>
                  (s'.permits[p].stage.GlobalSlotDropped? <==> s.permits[p].stage.GlobalSlotDropped?))
  {}

  lemma GlobalStep(s: State, e: Event)
    requires GlobalSound(s) && Numbered(s)
    ensures GlobalSound(Step(s, e))
  {
    if e.Enter? {
      if TryAcquire(s.global, e.client).Some? { GlobalEnter(s, e); }
    } else if e.DropGlobalSlot? {
      if e.id in s.permits && s.permits[e.id].stage.Unlinked? { GlobalDrop(s, e.id); }
    } else if e.ReleaseGlobal? {
      if e.id in s.permits && s.permits[e.id].stage.GlobalSlotDropped? { GlobalRelease(s, e.id); }
    } else {
      ReceiverStepsKeepGlobal(s, e);
      GlobalUntouched(s, Step(s, e));
    }
  }

  lemma ReferencesRetained(s: State, p: nat)
    requires Linked(s) && p in s.permits && HoldsReference(s.permits[p])
    ensures s.permits[p].key in Retained(s) && Retained(s)[s.permits[p].key] == s.permits[p].pool
  {
    assert Strong(s, s.permits[p].pool);
  }

  /** A new pool for a key replaces a weak entry nobody refers to any more. */
  lemma LinkedTake(s: State, id: nat)
    requires Linked(s) && id in s.permits && s.permits[id].stage.Waiting?
    ensures Linked(TakeStep(s, id))
  {
    var s' := TakeStep(s, id);
    forall q | q in s'.permits && HoldsReference(s'.permits[q])
      ensures s'.permits[q].key in s'.weak && s'.weak[s'.permits[q].key] == s'.permits[q].pool
    {
      if q != id { ReferencesRetained(s, q); }
    }
  }

  lemma LinkedStep(s: State, e: Event)
    requires Linked(s)
    ensures Linked(Step(s, e))
  {
    if e.TakeReceiver? && e.id in s.permits && s.permits[e.id].stage.Waiting? { LinkedTake(s, e.id); }
  }

  lemma NumberedStep(s: State, e: Event)
    requires Numbered(s)
    ensures Numbered(Step(s, e))
  {}

  lemma BeforeSound(s: State, key: string)
    requires PoolsSound(s) && Numbered(s)
    ensures var pool, before := Chosen(s, key), Before(s, key);
            before.max == 8 && before.perClient == 2 && Counts(before, PoolSemaphore(s, pool), PoolLive(s, pool))
  {
    if key in Retained(s) {
      assert PoolSound(s, Retained(s)[key]);
    } else {
      assert PoolSemaphore(s, s.next) == {};
      assert PoolLive(s, s.next) == map[];
      forall c: Client ensures Held(RECEIVER, c) == |Mine(map[], c)| { assert Mine(map[], c) == {}; }
    }
  }

  lemma GrantSound(s: State, s': State, id: nat, pool: nat, before: Pool)
    requires id in s.permits && s.permits[id].stage.Waiting? && before.max == 8 && before.perClient == 2
    requires Counts(before, PoolSemaphore(s, pool), PoolLive(s, pool)) && TryAcquire(before, s.permits[id].client).Some?
    requires pool in s'.pools && s'.pools[pool] == TryAcquire(before, s.permits[id].client).value
    requires s'.permits == s.permits[id := Permit(s.permits[id].key, s.permits[id].client, pool, Granted)]
    ensures PoolSound(s', pool)
  {
    AcquireCounts(before, PoolSemaphore(s, pool), PoolLive(s, pool), s.permits[id].client, id);
    GrantHolders(s, s', id, pool);
  }

  lemma GrantHolders(s: State, s': State, id: nat, pool: nat)
    requires id in s.permits && s.permits[id].stage.Waiting?
    requires s'.permits == s.permits[id := Permit(s.permits[id].key, s.permits[id].client, pool, Granted)]
    ensures PoolSemaphore(s', pool) == PoolSemaphore(s, pool) + {id}
    ensures PoolLive(s', pool) == PoolLive(s, pool)[id := s.permits[id].client]
  {}

  lemma PoolsGranted(s: State, id: nat)
    requires PoolsSound(s) && Numbered(s) && id in s.permits && s.permits[id].stage.Waiting?
    requires TryAcquire(Before(s, s.permits[id].key), s.permits[id].client).Some?
    ensures PoolsSound(TakeStep(s, id))
  {
    var s', key := TakeStep(s, id), s.permits[id].key;
    var pool := Chosen(s, key);
    BeforeSound(s, key);
    GrantSound(s, s', id, pool, Before(s, key));
    forall n | n in s'.pools ensures PoolSound(s', n) {
      if n != pool {
        assert PoolSound(s, n);
        PermitElsewhere(s.permits, id, s'.permits[id], n);
        PoolUntouched(s, s', n);
      }
    }
  }

  lemma PoolsRefused(s: State, id: nat)
    requires PoolsSound(s) && id in s.permits && s.permits[id].stage.Waiting?
    requires TryAcquire(Before(s, s.permits[id].key), s.permits[id].client).None?
    ensures PoolsSound(TakeStep(s, id))
  {
    var s' := TakeStep(s, id);
    forall n | n in s'.pools ensures PoolSound(s', n) {
      assert PoolSound(s, n);
      PermitElsewhere(s.permits, id, s'.permits[id], n);
      PoolUntouched(s, s', n);
    }
  }

  lemma DropSlotSound(s: State, s': State, id: nat, pool: nat)
    requires PoolSound(s, pool) && id in s.permits && s.permits[id].stage.Granted? && s.permits[id].pool == pool
    requires s'.permits == s.permits[id := s.permits[id].(stage := SlotDropped)]
    requires pool in s'.pools && s'.pools[pool] == DropSlot(s.pools[pool], s.permits[id].client)
    ensures PoolSound(s', pool)
  {
    DropCounts(s.pools[pool], PoolSemaphore(s, pool), PoolLive(s, pool), id);
    assert PoolSemaphore(s', pool) == PoolSemaphore(s, pool);
    assert PoolLive(s', pool) == PoolLive(s, pool) - {id};
  }

  lemma ReleaseSound(s: State, s': State, id: nat, pool: nat)
    requires PoolSound(s, pool) && id in s.permits && s.permits[id].stage.SlotDropped? && s.permits[id].pool == pool
    requires s'.permits == s.permits[id := s.permits[id].(stage := Released)]
    requires pool in s'.pools && s'.pools[pool] == Release(s.pools[pool])
    ensures PoolSound(s', pool)
  {
    ReleaseCounts(s.pools[pool], PoolSemaphore(s, pool), PoolLive(s, pool), id);
    assert PoolSemaphore(s', pool) == PoolSemaphore(s, pool) - {id};
    assert PoolLive(s', pool) == PoolLive(s, pool);
  }

  lemma PoolsDrop(s: State, e: Event)
    requires PoolsSound(s) && (e.DropReceiverSlot? || e.ReleaseReceiver?)
    ensures PoolsSound(Step(s, e))
  {
    var s' := Step(s, e);
    if s' != s {
      var pool := s.permits[e.id].pool;
      assert PoolSound(s, pool);
      if e.DropReceiverSlot? { DropSlotSound(s, s', e.id, pool); } else { ReleaseSound(s, s', e.id, pool); }
      forall n | n in s'.pools ensures PoolSound(s', n) {
        if n != pool {
          assert PoolSound(s, n);
          PermitElsewhere(s.permits, e.id, s'.permits[e.id], n);
          PoolUntouched(s, s', n);
        }
      }
    }
  }

  lemma OtherHolders(s: State, e: Event, n: nat)
    requires Numbered(s) && (e.Enter? || e.Unlink? || e.DropGlobalSlot? || e.ReleaseGlobal?)
    ensures Step(s, e).pools == s.pools && SameHolders(s.permits, Step(s, e).permits, n)
  {
    var s' := Step(s, e);
    if s' != s {
      var id := if e.Enter? then s.next else e.id;
      var x := if id in s'.permits then s'.permits[id] else s.permits[id];
      PermitElsewhere(s.permits, id, x, n);
    }
  }

  lemma PoolsOther(s: State, e: Event)
    requires PoolsSound(s) && Numbered(s) && (e.Enter? || e.Unlink? || e.DropGlobalSlot? || e.ReleaseGlobal?)
    ensures PoolsSound(Step(s, e))
  {
    var s' := Step(s, e);
    forall n | n in s'.pools ensures PoolSound(s', n) {
      OtherHolders(s, e, n);
      assert PoolSound(s, n);
      PoolUntouched(s, s', n);
    }
  }

  lemma PoolsStep(s: State, e: Event)
    requires PoolsSound(s) && Numbered(s)
    ensures PoolsSound(Step(s, e))
  {
    if e.TakeReceiver? {
      if e.id in s.permits && s.permits[e.id].stage.Waiting? {
        if TryAcquire(Before(s, s.permits[e.id].key), s.permits[e.id].client).Some? {
          PoolsGranted(s, e.id);
        } else {
          PoolsRefused(s, e.id);
        }
      }
    } else if e.DropReceiverSlot? || e.ReleaseReceiver? {
      PoolsDrop(s, e);
    } else {
      PoolsOther(s, e);
    }
  }

  lemma {:induction false} InvRun(run: seq<Event>)
    ensures Inv(Run(run))
    decreases |run|
  {
    if run == [] {
      assert GlobalLive(INITIAL) == map[];
      forall c: Client ensures Held(GLOBAL, c) == |Mine(map[], c)| { assert Mine(map[], c) == {}; }
    } else {
      var s, e := Run(run[..|run| - 1]), run[|run| - 1];
      InvRun(run[..|run| - 1]);
      GlobalStep(s, e);
      PoolsStep(s, e);
      NumberedStep(s, e);
      LinkedStep(s, e);
    }
  }

  // ---------- main results ----------

  ghost function GrantedFor(s: State, c: Client): set<nat> {
    set p | p in s.permits && s.permits[p].stage.Granted? && s.permits[p].client == c
  }

  ghost function GrantedTo(s: State, key: string): set<nat> {
    set p | p in s.permits && s.permits[p].key == key && s.permits[p].stage.Granted?
  }

  /** All granted permits of a receiver share one pool, although the weak entry
      that leads to it comes and goes. */
  lemma OnePoolPerReceiver(run: seq<Event>, p: nat, q: nat)
    requires var s := Run(run);
             p in s.permits && q in s.permits && HoldsReference(s.permits[p]) && HoldsReference(s.permits[q])
    requires Run(run).permits[p].key == Run(run).permits[q].key
    ensures Run(run).permits[p].pool == Run(run).permits[q].pool
  {
    InvRun(run);
  }

  /** So at most eight are granted for a receiver at once, two of them to one client. */
  lemma ReceiverPermitsBounded(run: seq<Event>, key: string, c: Client)
    ensures |GrantedTo(Run(run), key)| <= 8
    ensures |GrantedTo(Run(run), key) * GrantedFor(Run(run), c)| <= 2
  {
    InvRun(run);
    var s := Run(run);
    var granted := GrantedTo(s, key);
    var own := granted * GrantedFor(s, c);
    if granted != {} {
      var one :| one in granted;
      var pool := s.permits[one].pool;
      assert PoolSound(s, pool);
      CountsBound(s.pools[pool], PoolSemaphore(s, pool), PoolLive(s, pool), c);
      forall p | p in granted ensures p in PoolLive(s, pool) && PoolLive(s, pool)[p] == s.permits[p].client {
        assert HoldsReference(s.permits[p]) && HoldsReference(s.permits[one]);
      }
      SubsetSize(granted, PoolLive(s, pool).Keys);
      SubsetSize(own, Mine(PoolLive(s, pool), c));
    } else {
      assert own == {};
    }
  }

  /** And at most 64 over all receivers, eight of them to one client. */
  lemma GlobalPermitsBounded(run: seq<Event>, c: Client)
    ensures |Run(run).permits.Keys| <= 64
    ensures |GrantedFor(Run(run), c)| <= 8
  {
    InvRun(run);
    var s := Run(run);
    CountsBound(s.global, s.permits.Keys, GlobalLive(s), c);
    SubsetSize(GrantedFor(s, c), Mine(GlobalLive(s), c));
  }

  // ---------- exactly when a permit is given ----------

  predicate WeakInjective(s: State) { forall a, b :: a in s.weak && b in s.weak && s.weak[a] == s.weak[b] ==> a == b }

  lemma {:induction false} WeakInjectiveRun(run: seq<Event>)
    ensures WeakInjective(Run(run))
    decreases |run|
  {
    if run != [] {
      var front, e := run[..|run| - 1], run[|run| - 1];
      WeakInjectiveRun(front);
      InvRun(front);
      if e.TakeReceiver? { InjectiveTake(Run(front), e.id); }
    }
  }

  lemma InjectiveTake(s: State, id: nat)
    requires WeakInjective(s) && Numbered(s)
    ensures WeakInjective(Step(s, TakeReceiver(id)))
  {
    assert forall k :: k in Retained(s) ==> k in s.weak && Retained(s)[k] == s.weak[k] < s.next;
  }

  /** The permits that count against a receiver, and those that count there against a client. */
  ghost function HeldAt(s: State, key: string): set<nat> {
    set p | p in s.permits && s.permits[p].key == key && HoldsSemaphore(s.permits[p])
  }

  ghost function HeldAtBy(s: State, key: string, c: Client): set<nat> {
    set p | p in s.permits && s.permits[p].key == key && s.permits[p].client == c && s.permits[p].stage.Granted?
  }

  ghost function HeldBy(s: State, c: Client): set<nat> {
    set p | p in s.permits && s.permits[p].client == c && !s.permits[p].stage.GlobalSlotDropped?
  }

  /** A receiver's pool counts exactly the permits of that receiver. */
  lemma PoolCountsReceiver(s: State, key: string, c: Client)
    requires Inv(s) && WeakInjective(s)
    ensures var pool := Chosen(s, key);
            PoolSemaphore(s, pool) == HeldAt(s, key) && Mine(PoolLive(s, pool), c) == HeldAtBy(s, key, c)
  {
    forall p | p in s.permits && s.permits[p].key == key && HoldsSemaphore(s.permits[p])
      ensures s.permits[p].pool == Chosen(s, key)
    {
      assert HoldsReference(s.permits[p]) && Strong(s, s.permits[p].pool);
    }
    forall p | p in s.permits && s.permits[p].pool == Chosen(s, key) && HoldsSemaphore(s.permits[p])
      ensures s.permits[p].key == key
    {
      assert HoldsReference(s.permits[p]);
    }
  }

  lemma TakenExactlyWhen(s: State, id: nat)
    requires Inv(s) && WeakInjective(s) && id in s.permits && s.permits[id].stage.Waiting?
    ensures var p := s.permits[id];
            Step(s, TakeReceiver(id)).permits[id].stage.Granted? <==>
              |HeldAt(s, p.key)| < 8 && |HeldAtBy(s, p.key, p.client)| < 2
  {
    var p := s.permits[id];
    BeforeSound(s, p.key);
    PoolCountsReceiver(s, p.key, p.client);
    assert Held(Before(s, p.key), p.client) == |Mine(PoolLive(s, Chosen(s, p.key)), p.client)|;
  }

  lemma EnteredExactlyWhen(s: State, key: string, c: Client)
    requires Inv(s)
    ensures var s' := Step(s, Enter(key, c));
            if |s.permits| < 64 && |HeldBy(s, c)| < 8 then
              s'.permits == s.permits[s.next := Permit(key, c, s.next, Waiting)]
            else s' == s
  {
    assert HeldBy(s, c) == Mine(GlobalLive(s), c);
    assert Held(s.global, c) == |Mine(GlobalLive(s), c)|;
    assert |s.permits| == |s.permits.Keys|;
  }

  lemma WaitingCountsNowhere(s: State, s1: State, key: string, c: Client)
    requires s.next !in s.permits && s1.permits == s.permits[s.next := Permit(key, c, s.next, Waiting)]
    ensures HeldAt(s1, key) == HeldAt(s, key) && HeldAtBy(s1, key, c) == HeldAtBy(s, key, c)
  {}

  predicate HasPermit(s: State, id: nat) { id in s.permits && s.permits[id].stage.Granted? }

  lemma GivenAfterEntering(s: State, s1: State, key: string, c: Client)
    requires Numbered(s) && s1.permits == s.permits[s.next := Permit(key, c, s.next, Waiting)]
    requires Inv(s1) && WeakInjective(s1)
    ensures HasPermit(Step(s1, TakeReceiver(s.next)), s.next) <==>
            |HeldAt(s, key)| < 8 && |HeldAtBy(s, key, c)| < 2
  {
    WaitingCountsNowhere(s, s1, key, c);
    TakenExactlyWhen(s1, s.next);
  }

  lemma NotGivenOutside(s: State)
    requires Numbered(s)
    ensures Step(s, TakeReceiver(s.next)) == s && !HasPermit(s, s.next)
  {}

  /** Over every run, an undisturbed request for an invoice gets its permit if and only
      if fewer than 64 are held in all and 8 by the client, and fewer than 8 for the
      receiver and 2 there by the client. */
  lemma PermitGivenExactlyWhen(run: seq<Event>, key: string, c: Client)
    ensures var s := Run(run);
            HasPermit(Step(Step(s, Enter(key, c)), TakeReceiver(s.next)), s.next) <==>
              |s.permits| < 64 && |HeldBy(s, c)| < 8 && |HeldAt(s, key)| < 8 && |HeldAtBy(s, key, c)| < 2
  {
    var s, e := Run(run), Enter(key, c);
    InvRun(run);
    EnteredExactlyWhen(s, key, c);
    if |s.permits| < 64 && |HeldBy(s, c)| < 8 {
      assert (run + [e])[..|run|] == run;
      InvRun(run + [e]);
      WeakInjectiveRun(run + [e]);
      GivenAfterEntering(s, Run(run + [e]), key, c);
    } else {
      NotGivenOutside(s);
    }
  }
}
