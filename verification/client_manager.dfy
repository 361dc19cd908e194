/** The client manager of the newer generation
    (include/ggrpc/impl/client/client_manager.h): one completion queue and one
    worker thread per configured thread, a weak registry of every call object
    it created, and a 32-bit counter that spreads new calls over the queues
    round-robin. The manager of the older generation (class ClientManager
    of include/ggrpc/client.h) has the same fields and the same Start,
    Collect, Shutdown and Create* steps, with two factories instead of
    five, so this module models it as well.

    The worker threads, the queues and the call objects are external; the
    model records what the manager does to them in a ghost `log` (spawn a
    worker, close a call, shut a queue down, join a worker). `fault` records
    where the code as written leaves defined behaviour: a second `Start`
    replaces a running `std::thread` (std::terminate); `Shutdown` joins
    through an empty thread `unique_ptr` when `Start` never ran; the
    destructor destroys a still joinable thread (one started after
    `Shutdown`, std::terminate); and a `Create*` on a manager of zero
    threads takes a remainder modulo zero. */
module ClientManagerImpl {
  import opened Registry
  import opened ShutdownLog

  /** The range of the uint32_t counter next_client_id_. */
  const ClientIdRange: int := 0x1_0000_0000

  type Uint32 = x: int | 0 <= x < ClientIdRange

  /** `workers[i]`: threads_[i].thread is non-null (a worker was spawned for
      queue i and not yet joined). */
  datatype Manager = Manager(
    workers: seq<bool>, nextClientId: Uint32, shutdown: bool,
    holders: seq<Holder>, log: seq<Effect>, fault: bool)

  /** Workers all absent, or all present, for `n` queues. */
  function Stopped(n: nat): (ws: seq<bool>)
    ensures |ws| == n && true !in ws
  {
    seq(n, i => false)
  }

  function Running(n: nat): (ws: seq<bool>)
    ensures |ws| == n && false !in ws
  {
    seq(n, i => true)
  }

  /** The constructor: `threads` queues, no worker, no call, counter at zero. */
  function Initial(threads: nat): (m: Manager)
    ensures |m.workers| == threads && true !in m.workers
    ensures m.holders == [] && m.log == [] && !m.shutdown && !m.fault && m.nextClientId == 0
  {
    Manager(Stopped(threads), 0, false, [], [], false)
  }

  /** The joins of the workers that exist, in queue order. */
  function Joins(ws: seq<bool>): (es: seq<Effect>)
    ensures |es| <= |ws|
    ensures forall e :: e in es ==> e.JoinWorker? && e.queue < |ws| && ws[e.queue]
    ensures Uniform(es, 4)
    decreases |ws|
  {
    if ws == [] then []
    else Joins(ws[..|ws| - 1]) + (if ws[|ws| - 1] then [JoinWorker(|ws| - 1)] else [])
  }

  lemma {:induction false} JoinsComplete(ws: seq<bool>, q: nat)
    requires q < |ws| && ws[q]
    ensures JoinWorker(q) in Joins(ws)
    decreases |ws|
  {
    if q < |ws| - 1 {
      JoinsComplete(ws[..|ws| - 1], q);
    }
  }

  /** What Shutdown does after setting the flag: close every holder, shut
      every queue down, join every worker. */
  function ShutdownEffects(hs: seq<Holder>, ws: seq<bool>, expired: set<ObjId>): seq<Effect>
  {
    CloseCalls(CloseAll(hs, expired)) + ShutdownQueueEffects(|ws|) + Joins(ws)
  }

  // ---- operations ----

  /** Start: one worker per queue. No guard: a worker already running is
      replaced, and destroying a joinable std::thread terminates the program. */
  function StepStart(m: Manager): Manager
  {
    m.(workers := Running(|m.workers|), log := m.log + Spawns(|m.workers|),
       fault := m.fault || true in m.workers)
  }

  /** Start spawns exactly one worker per queue, in queue order, after
      which every queue has a worker; it leaves defined behaviour exactly
      when some worker was already running; nothing else changes. */
  lemma StartSpec(m: Manager)
    ensures var r := StepStart(m);
      && |r.workers| == |m.workers| && false !in r.workers
      && r.log[..|m.log|] == m.log
      && (forall q: nat :: SpawnWorker(q) in r.log[|m.log|..] <==> q < |m.workers|)
      && (forall e :: e in r.log[|m.log|..] ==> e.SpawnWorker?)
      && (r.fault <==> m.fault || true in m.workers)
      && r.holders == m.holders && r.nextClientId == m.nextClientId && r.shutdown == m.shutdown
  {
    var r := StepStart(m);
    var sp := Spawns(|m.workers|);
    assert r.log[|m.log|..] == sp;
    forall q: nat | q < |m.workers|
      ensures SpawnWorker(q) in sp
    {
      assert sp[q] == SpawnWorker(q);
    }
  }

  /** The start loop after `i` queues. */
  function StartPrefix(m: Manager, i: nat): Manager
    requires i <= |m.workers|
  {
    m.(workers := Running(i) + m.workers[i..], log := m.log + Spawns(i),
       fault := m.fault || true in m.workers[..i])
  }

  /** One iteration of the start loop: spawn the worker of queue `i`. */
  function SpawnOne(m: Manager, i: nat): Manager
    requires i < |m.workers|
  {
    m.(workers := m.workers[i := true], log := m.log + [SpawnWorker(i)],
       fault := m.fault || m.workers[i])
  }

  lemma StartPrefixNext(m: Manager, i: nat)
    requires i < |m.workers|
    ensures StartPrefix(m, i + 1) == SpawnOne(StartPrefix(m, i), i)
  {
    var p := StartPrefix(m, i);
    assert m.workers[..i + 1] == m.workers[..i] + [m.workers[i]];
    assert p.workers[i] == m.workers[i];
    assert Running(i + 1) + m.workers[i + 1..] == p.workers[i := true];
    assert Spawns(i + 1) == Spawns(i) + [SpawnWorker(i)];
  }

  lemma StartPrefixAll(m: Manager)
    ensures StartPrefix(m, |m.workers|) == StepStart(m)
  {
    assert m.workers[..|m.workers|] == m.workers;
  }

  /** Collect: drop the holders whose weak reference has lapsed. */
  function StepCollect(m: Manager, expired: set<ObjId>): Manager
  {
    m.(holders := Live(m.holders, expired))
  }

  /** Shutdown as written: once only; close every live call, clear the
      registry, shut every queue down, then join every worker through its
      `unique_ptr` (an empty one when Start never ran). */
  function StepShutdown(m: Manager, expired: set<ObjId>): Manager
  {
    if m.shutdown then m
    else
      m.(shutdown := true, holders := [], workers := Stopped(|m.workers|),
         log := m.log + ShutdownEffects(m.holders, m.workers, expired),
         fault := m.fault || false in m.workers)
  }

  /** Shutdown as evidently intended: a queue whose worker was never spawned
      is not joined. */
  function StepShutdownFixed(m: Manager, expired: set<ObjId>): Manager
  {
    if m.shutdown then m
    else
      m.(shutdown := true, holders := [], workers := Stopped(|m.workers|),
         log := m.log + ShutdownEffects(m.holders, m.workers, expired))
  }

  /** The Create* factories: Collect, take the next client id (wrapping at
      2^32), bind the call to queue `id mod threads`, register its holder.
      `shutdown` is not consulted. With zero threads the remainder divides
      by zero: a fault, and queue 0 stands for the undefined result. */
  function StepCreate(m: Manager, h: Holder, expired: set<ObjId>): (Manager, nat)
  {
    var r := m.(holders := Live(m.holders, expired) + [h],
                nextClientId := (m.nextClientId + 1) % ClientIdRange);
    if |m.workers| == 0 then (r.(fault := true), 0)
    else (r, m.nextClientId % |m.workers|)
  }

  // ---- the stages of Shutdown, as the class performs them ----

  function CloseStage(m: Manager, expired: set<ObjId>): Manager
  {
    m.(log := m.log + CloseCalls(CloseAll(m.holders, expired)))
  }

  function QueueStage(m: Manager): Manager
  {
    m.(log := m.log + ShutdownQueueEffects(|m.workers|))
  }

  function JoinStage(m: Manager): Manager
  {
    m.(workers := Stopped(|m.workers|), log := m.log + Joins(m.workers),
       fault := m.fault || false in m.workers)
  }

  lemma ShutdownStages(m: Manager, expired: set<ObjId>)
    requires !m.shutdown
    ensures StepShutdown(m, expired)
      == JoinStage(QueueStage(CloseStage(m.(shutdown := true), expired).(holders := [])))
  {
  }

  /** The close loop after `i` holders. */
  function ClosePrefix(m: Manager, i: nat, expired: set<ObjId>): Manager
    requires i <= |m.holders|
  {
    m.(log := m.log + CloseCalls(CloseAll(m.holders[..i], expired)))
  }

  lemma ClosePrefixNext(m: Manager, i: nat, expired: set<ObjId>)
    requires i < |m.holders|
    ensures var p := ClosePrefix(m, i, expired);
      ClosePrefix(m, i + 1, expired) == p.(log := p.log + CloseCalls(CloseHolder(m.holders[i], expired)))
  {
    CloseCallsSnoc(m.holders, i, expired);
  }

  lemma ClosePrefixAll(m: Manager, expired: set<ObjId>)
    ensures ClosePrefix(m, |m.holders|, expired) == CloseStage(m, expired)
  {
    assert m.holders[..|m.holders|] == m.holders;
  }

  /** The join loop after `i` queues. */
  function JoinPrefix(m: Manager, i: nat): Manager
    requires i <= |m.workers|
  {
    m.(workers := Stopped(i) + m.workers[i..], log := m.log + Joins(m.workers[..i]),
       fault := m.fault || false in m.workers[..i])
  }

  /** One iteration of the join loop: join the worker of queue `i`
      through its `unique_ptr`. */
  function JoinOne(m: Manager, i: nat): Manager
    requires i < |m.workers|
  {
    m.(workers := m.workers[i := false],
       log := m.log + (if m.workers[i] then [JoinWorker(i)] else []),
       fault := m.fault || !m.workers[i])
  }

  lemma JoinPrefixNext(m: Manager, i: nat)
    requires i < |m.workers|
    ensures JoinPrefix(m, i + 1) == JoinOne(JoinPrefix(m, i), i)
  {
    assert m.workers[..i + 1] == m.workers[..i] + [m.workers[i]];
    assert m.workers[..i + 1][..i] == m.workers[..i];
    var p := JoinPrefix(m, i);
    assert p.workers[i] == m.workers[i];
    assert Stopped(i + 1) + m.workers[i + 1..] == p.workers[i := false];
  }

  lemma JoinPrefixAll(m: Manager)
    ensures JoinPrefix(m, |m.workers|) == JoinStage(m)
  {
    assert m.workers[..|m.workers|] == m.workers;
    assert Stopped(|m.workers|) + m.workers[|m.workers|..] == Stopped(|m.workers|);
  }

  // ---- properties of one step ----

  /** A second Shutdown does nothing. */
  lemma ShutdownIdempotent(m: Manager, e1: set<ObjId>, e2: set<ObjId>)
    ensures StepShutdown(StepShutdown(m, e1), e2) == StepShutdown(m, e1)
    ensures StepShutdownFixed(StepShutdownFixed(m, e1), e2) == StepShutdownFixed(m, e1)
  {
  }

  /** Shutdown closes exactly the calls still alive, in registry order... */
  lemma ShutdownClosesLive(hs: seq<Holder>, ws: seq<bool>, expired: set<ObjId>)
    ensures forall o :: CloseCall(o) in ShutdownEffects(hs, ws, expired) <==>
      exists h :: h in hs && h.obj == o && !Expired(h, expired)
  {
    ClosesExactlyLive(hs, expired);
  }

  /** ...shuts down every queue... */
  lemma ShutdownShutsEveryQueue(hs: seq<Holder>, ws: seq<bool>, expired: set<ObjId>)
    ensures forall q: nat :: ShutdownQueue(q) in ShutdownEffects(hs, ws, expired) <==> q < |ws|
  {
    var sq := ShutdownQueueEffects(|ws|);
    forall q: nat | q < |ws|
      ensures ShutdownQueue(q) in sq
    {
      assert sq[q] == ShutdownQueue(q);
    }
  }

  /** ...and joins exactly the workers that were spawned, in that order. */
  lemma ShutdownJoinsSpawned(hs: seq<Holder>, ws: seq<bool>, expired: set<ObjId>)
    ensures forall q: nat :: JoinWorker(q) in ShutdownEffects(hs, ws, expired) <==> q < |ws| && ws[q]
    ensures Phased(ShutdownEffects(hs, ws, expired))
  {
    forall q: nat | q < |ws| && ws[q]
      ensures JoinWorker(q) in Joins(ws)
    {
      JoinsComplete(ws, q);
    }
    var c := CloseCalls(CloseAll(hs, expired));
    var sq := ShutdownQueueEffects(|ws|);
    var j := Joins(ws);
    UniformPhased(c, 1);
    UniformPhased(sq, 3);
    UniformPhased(j, 4);
    PhasedAppend(c, sq, 1);
    PhasedAppend(c + sq, j, 3);
  }

  /** The first Shutdown closes exactly the live calls, then shuts down every
      queue, then joins every spawned worker (in that order), and leaves an
      empty registry and no worker; it leaves defined behaviour exactly when
      some worker was never spawned. */
  lemma ShutdownSpec(m: Manager, expired: set<ObjId>)
    requires !m.shutdown
    ensures var r := StepShutdown(m, expired);
      && r.shutdown && r.holders == [] && true !in r.workers
      && |r.workers| == |m.workers| && r.nextClientId == m.nextClientId
      && r.log[..|m.log|] == m.log
      && Phased(r.log[|m.log|..])
      && (forall o :: CloseCall(o) in r.log[|m.log|..] <==>
            exists h :: h in m.holders && h.obj == o && !Expired(h, expired))
      && (forall q: nat :: ShutdownQueue(q) in r.log[|m.log|..] <==> q < |m.workers|)
      && (forall q: nat :: JoinWorker(q) in r.log[|m.log|..] <==> q < |m.workers| && m.workers[q])
      && (r.fault <==> m.fault || false in m.workers)
  {
    var r := StepShutdown(m, expired);
    assert r.log[|m.log|..] == ShutdownEffects(m.holders, m.workers, expired);
    ShutdownClosesLive(m.holders, m.workers, expired);
    ShutdownShutsEveryQueue(m.holders, m.workers, expired);
    ShutdownJoinsSpawned(m.holders, m.workers, expired);
  }

  /** Create: the registry is pruned of lapsed entries and gains exactly the
      new holder at the back; the call is bound to queue `id mod threads`;
      the counter advances by one modulo 2^32; nothing else changes, and in
      particular a shut-down manager still creates. With zero threads the
      choice of queue leaves defined behaviour. */
  lemma CreateSpec(m: Manager, h: Holder, expired: set<ObjId>)
    ensures var (r, q) := StepCreate(m, h, expired);
      && (|m.workers| > 0 ==> q < |m.workers| && q == m.nextClientId % |m.workers| && r.fault == m.fault)
      && (|m.workers| == 0 ==> r.fault)
      && r.holders[..|r.holders| - 1] == Live(m.holders, expired)
      && r.holders[|r.holders| - 1] == h
      && |r.holders| == |m.holders| - CountExpired(m.holders, expired) + 1
      && (forall g :: g in r.holders <==> g == h || (g in m.holders && !Expired(g, expired)))
      && r.nextClientId == (if m.nextClientId == ClientIdRange - 1 then 0 else m.nextClientId + 1)
      && r.shutdown == m.shutdown && r.workers == m.workers && r.log == m.log
  {
    var r := StepCreate(m, h, expired).0;
    assert r.holders == Live(m.holders, expired) + [h];
    Register(m.holders, h, expired);
    CreateCounter(m, h, expired);
  }

  lemma CreateCounter(m: Manager, h: Holder, expired: set<ObjId>)
    ensures StepCreate(m, h, expired).0.nextClientId
      == (if m.nextClientId == ClientIdRange - 1 then 0 else m.nextClientId + 1)
  {
    NextIdWraps(m.nextClientId);
  }

  /** The registry after Collect and one push_back. */
  lemma Register(hs: seq<Holder>, h: Holder, expired: set<ObjId>)
    ensures var r := Live(hs, expired) + [h];
      && r[..|r| - 1] == Live(hs, expired) && r[|r| - 1] == h
      && |r| == |hs| - CountExpired(hs, expired) + 1
      && (forall g :: g in r <==> g == h || (g in hs && !Expired(g, expired)))
  {
    LiveCount(hs, expired);
    var live := Live(hs, expired);
    assert (live + [h])[..|live|] == live;
    assert forall g :: g in live <==> g in hs && !Expired(g, expired);
  }

  /** The client id counter wraps from 2^32 - 1 to 0. */
  lemma NextIdWraps(x: Uint32)
    ensures (x + 1) % ClientIdRange == (if x == ClientIdRange - 1 then 0 else x + 1)
  {
    if x == ClientIdRange - 1 {
      assert x + 1 == ClientIdRange;
    }
  }

  /** Creating the calls `hs` one after the other: the final manager and the
      queue each call was bound to. */
  function CreateMany(m: Manager, hs: seq<Holder>, expired: set<ObjId>): (r: (Manager, seq<nat>))
    requires |m.workers| > 0
    ensures |r.0.workers| == |m.workers| && |r.1| == |hs|
    decreases |hs|
  {
    if hs == [] then (m, [])
    else
      var (m1, q) := StepCreate(m, hs[0], expired);
      var (m2, qs) := CreateMany(m1, hs[1..], expired);
      (m2, [q] + qs)
  }

  /** The counter ends |hs| further on, modulo 2^32. */
  lemma {:induction false} CreateManyCounter(m: Manager, hs: seq<Holder>, expired: set<ObjId>)
    requires |m.workers| > 0
    ensures CreateMany(m, hs, expired).0.nextClientId == (m.nextClientId + |hs|) % ClientIdRange
    decreases |hs|
  {
    if hs != [] {
      var m1 := StepCreate(m, hs[0], expired).0;
      CreateManyCounter(m1, hs[1..], expired);
      ModShift(m.nextClientId, |hs| - 1);
    }
  }

  /** The client ids taken by a run of creates. */
  function ClientIds(m: Manager, hs: seq<Holder>, expired: set<ObjId>): (ids: seq<Uint32>)
    requires |m.workers| > 0
    ensures |ids| == |hs|
    decreases |hs|
  {
    if hs == [] then []
    else [m.nextClientId] + ClientIds(StepCreate(m, hs[0], expired).0, hs[1..], expired)
  }

  /** The ids are consecutive modulo 2^32. */
  lemma {:induction false} ClientIdsConsecutive(m: Manager, hs: seq<Holder>, expired: set<ObjId>)
    requires |m.workers| > 0
    ensures forall i :: 0 <= i < |hs| ==> ClientIds(m, hs, expired)[i] == (m.nextClientId + i) % ClientIdRange
    decreases |hs|
  {
    if hs != [] {
      var a := m.nextClientId;
      var m1 := StepCreate(m, hs[0], expired).0;
      ClientIdsConsecutive(m1, hs[1..], expired);
      var ids := ClientIds(m, hs, expired);
      var ids1 := ClientIds(m1, hs[1..], expired);
      assert ids == [a] + ids1;
      forall i | 0 <= i < |hs|
        ensures ids[i] == (a + i) % ClientIdRange
      {
        if i == 0 {
          assert a % ClientIdRange == a;
        } else {
          assert ids[i] == ids1[i - 1];
          ModShift(a, i - 1);
        }
      }
    }
  }

  /** Each create is bound to the queue its client id selects. */
  lemma {:induction false} QueuesFollowIds(m: Manager, hs: seq<Holder>, expired: set<ObjId>)
    requires |m.workers| > 0
    ensures var qs := CreateMany(m, hs, expired).1; var ids := ClientIds(m, hs, expired);
      forall i :: 0 <= i < |hs| ==> qs[i] == ids[i] % |m.workers|
    decreases |hs|
  {
    if hs != [] {
      var m1 := StepCreate(m, hs[0], expired).0;
      QueuesFollowIds(m1, hs[1..], expired);
      var qs := CreateMany(m, hs, expired).1;
      var ids := ClientIds(m, hs, expired);
      assert qs == [m.nextClientId % |m.workers|] + CreateMany(m1, hs[1..], expired).1;
      assert ids == [m.nextClientId] + ClientIds(m1, hs[1..], expired);
    }
  }

  /** Round-robin: the i-th of a run of creates is bound to queue
      (start + i) mod 2^32 mod threads. */
  lemma RoundRobin(m: Manager, hs: seq<Holder>, expired: set<ObjId>)
    requires |m.workers| > 0
    ensures var qs := CreateMany(m, hs, expired).1;
      forall i :: 0 <= i < |hs| ==> qs[i] == ((m.nextClientId + i) % ClientIdRange) % |m.workers|
  {
    ClientIdsConsecutive(m, hs, expired);
    QueuesFollowIds(m, hs, expired);
  }

  /** ((a + 1) mod M + k) mod M == (a + 1 + k) mod M. */
  lemma ModShift(a: Uint32, k: nat)
    ensures ((a + 1) % ClientIdRange + k) % ClientIdRange == (a + 1 + k) % ClientIdRange
  {
    if a + 1 == ClientIdRange {
      assert (a + 1) % ClientIdRange == 0;
      assert (a + 1 + k) % ClientIdRange == k % ClientIdRange;
    } else {
      assert (a + 1) % ClientIdRange == a + 1;
    }
  }

  /** From a fresh manager the k-th create (k < 2^32) goes to queue k mod threads. */
  lemma RoundRobinFromStart(threads: nat, hs: seq<Holder>, expired: set<ObjId>)
    requires threads > 0 && |hs| <= ClientIdRange
    ensures var qs := CreateMany(Initial(threads), hs, expired).1;
      forall k :: 0 <= k < |hs| ==> qs[k] == k % threads
  {
    RoundRobin(Initial(threads), hs, expired);
  }

  // ---- lifetimes ----

  /** The public operations; destruction runs Shutdown. */
  datatype Action =
    | Start
    | Create(h: Holder, expired: set<ObjId>)
    | Shutdown(expired: set<ObjId>)
    | Destroy(expired: set<ObjId>)

  /** ~ClientManager: Shutdown, then the threads are destroyed; one still
      joinable there (started after Shutdown) terminates the program. */
  function StepDestroy(m: Manager, expired: set<ObjId>, fixed: bool): Manager
  {
    var r := if fixed then StepShutdownFixed(m, expired) else StepShutdown(m, expired);
    r.(fault := r.fault || true in r.workers)
  }

  /** Destruction shuts the manager down; it leaves defined behaviour
      beyond Shutdown's own faults exactly when a worker survives it, which
      happens only when the manager was already shut down and started again. */
  lemma DestroySpec(m: Manager, expired: set<ObjId>, fixed: bool)
    ensures var r := StepDestroy(m, expired, fixed);
      var sd := if fixed then StepShutdownFixed(m, expired) else StepShutdown(m, expired);
      && r.shutdown && r.holders == sd.holders && r.log == sd.log && r.workers == sd.workers
      && (r.fault <==> sd.fault || (m.shutdown && true in m.workers))
      && (!m.shutdown ==> true !in r.workers && (fixed ==> r.fault == m.fault))
  {
  }

  /** One operation, with Shutdown as written or as intended. */
  function Apply(m: Manager, a: Action, fixed: bool): (r: Manager)
    ensures |r.workers| == |m.workers|
  {
    match a
    case Start => StepStart(m)
    case Create(h, expired) => StepCreate(m, h, expired).0
    case Shutdown(expired) =>
      if fixed then StepShutdownFixed(m, expired) else StepShutdown(m, expired)
    case Destroy(expired) => StepDestroy(m, expired, fixed)
  }

  /** The use the class is written for: Start only while no worker runs and
      before Shutdown, and Create only on a manager with threads. */
  predicate WellUsed(m: Manager, a: Action)
  {
    && (a.Start? ==> true !in m.workers && !m.shutdown)
    && (a.Create? ==> |m.workers| > 0)
  }

  function Run(m: Manager, trace: seq<Action>, fixed: bool): Manager
    decreases |trace|
  {
    if trace == [] then m else Run(Apply(m, trace[0], fixed), trace[1..], fixed)
  }

  predicate Disciplined(m: Manager, trace: seq<Action>, fixed: bool)
    decreases |trace|
  {
    trace == [] || (WellUsed(m, trace[0]) && Disciplined(Apply(m, trace[0], fixed), trace[1..], fixed))
  }

  /** A shut-down manager has no worker left; every reachable manager
      that was used as intended satisfies this. */
  predicate Settled(m: Manager)
  {
    m.shutdown ==> true !in m.workers
  }

  /** With the intended Shutdown, a manager used as intended never leaves
      defined behaviour, destruction included. */
  lemma {:induction false} FixedNeverFaults(m: Manager, trace: seq<Action>)
    requires Settled(m) && Disciplined(m, trace, true)
    ensures Run(m, trace, true).fault == m.fault
    decreases |trace|
  {
    if trace != [] {
      var m1 := Apply(m, trace[0], true);
      assert Settled(m1) && m1.fault == m.fault;
      FixedNeverFaults(m1, trace[1..]);
    }
  }

  /** Even with the intended Shutdown, a `Start` after `Shutdown` spawns
      workers that nothing joins, and destruction then terminates. */
  lemma RestartFaults(threads: nat, expired: set<ObjId>, fixed: bool)
    requires threads > 0
    ensures var trace := [Start, Shutdown(expired), Start, Destroy(expired)];
      && Run(Initial(threads), trace, fixed).fault
      && !Disciplined(Initial(threads), trace, fixed)
  {
    var m0 := Initial(threads);
    var m1 := StepStart(m0);
    var m2 := Apply(m1, Shutdown(expired), fixed);
    var m3 := StepStart(m2);
    var m4 := StepDestroy(m3, expired, fixed);
    assert m2.shutdown && m3.workers[0] && m4.fault;
    var t3: seq<Action> := [Destroy(expired)];
    var t2: seq<Action> := [Start] + t3;
    var t1: seq<Action> := [Shutdown(expired)] + t2;
    var trace: seq<Action> := [Start] + t1;
    assert trace == [Start, Shutdown(expired), Start, Destroy(expired)];
    assert trace[1..] == t1 && t1[1..] == t2 && t2[1..] == t3 && t3[1..] == [];
    assert Run(m3, t3, fixed) == Run(m4, [], fixed);
    assert Run(m0, trace, fixed) == Run(m1, t1, fixed) == Run(m2, t2, fixed) == Run(m3, t3, fixed);
    assert !WellUsed(m2, Start);
    assert !Disciplined(m2, t2, fixed);
    assert !Disciplined(m1, t1, fixed);
  }

  /** A `Create*` on a manager of zero threads leaves defined behaviour. */
  lemma CreateWithoutThreadsFaults(h: Holder, expired: set<ObjId>)
    ensures StepCreate(Initial(0), h, expired).0.fault
  {
  }

  /** As written, destroying a manager that was never started joins through
      an empty thread `unique_ptr`. */
  lemma DestroyUnstartedFaults(threads: nat, expired: set<ObjId>)
    requires threads > 0
    ensures Disciplined(Initial(threads), [Destroy(expired)], false)
    ensures Run(Initial(threads), [Destroy(expired)], false).fault
  {
    var m := Initial(threads);
    assert m.workers[0] == false;
    assert [Destroy(expired)][1..] == [];
  }

  /** As written, a second Start while the workers run replaces a joinable
      thread. */
  lemma StartTwiceFaults(threads: nat)
    requires threads > 0
    ensures StepStart(StepStart(Initial(threads))).fault
  {
    assert StepStart(Initial(threads)).workers[0];
  }

  // ---- the class ----

  class ClientManager {
    var workers: seq<bool>
    var nextClientId: Uint32
    var shutdown: bool
    var holders: seq<Holder>
    ghost var log: seq<Effect>
    ghost var fault: bool

    ghost function Model(): Manager
      reads this
    {
      Manager(workers, nextClientId, shutdown, holders, log, fault)
    }

    constructor(threads: nat)
      ensures Model() == Initial(threads)
    {
      workers := Stopped(threads);
      nextClientId := 0;
      shutdown := false;
      holders := [];
      log := [];
      fault := false;
    }

    method Start()
      modifies this
      ensures Model() == StepStart(old(Model()))
    {
      ghost var m0 := Model();
      assert m0.workers[..0] == [];
      for i := 0 to |workers|
        invariant |workers| == |m0.workers|
        invariant Model() == StartPrefix(m0, i)
      {
        StartPrefixNext(m0, i);
        StartThread(i);
      }
      StartPrefixAll(m0);
    }

    method StartThread(i: nat)
      requires i < |workers|
      modifies this
      ensures Model() == SpawnOne(old(Model()), i)
    {
      if workers[i] {
        // a joinable std::thread is overwritten
        fault := true;
      }
      workers := workers[i := true];
      log := log + [SpawnWorker(i)];
    }

    method Collect(expired: set<ObjId>)
      modifies this
      ensures Model() == StepCollect(old(Model()), expired)
    {
      var hs := holders;
      var kept: seq<Holder> := [];
      for i := 0 to |hs|
        invariant kept == Live(hs[..i], expired)
        modifies {}
      {
        LiveAppend(hs[..i], [hs[i]], expired);
        assert hs[..i + 1] == hs[..i] + [hs[i]];
        if !Expired(hs[i], expired) {
          kept := kept + [hs[i]];
        }
      }
      assert hs[..|hs|] == hs;
      holders := kept;
    }

    method Shutdown(expired: set<ObjId>)
      modifies this
      ensures Model() == StepShutdown(old(Model()), expired)
    {
      if shutdown {
        return;
      }
      ShutdownStages(Model(), expired);
      shutdown := true;
      CloseHolders(expired);
      holders := [];
      ShutdownAllQueues();
      JoinWorkers();
    }

    /** Close every holder in order. */
    method CloseHolders(expired: set<ObjId>)
      modifies this
      ensures Model() == CloseStage(old(Model()), expired)
    {
      ghost var m0 := Model();
      var hs := holders;
      for i := 0 to |hs|
        invariant hs == m0.holders
        invariant Model() == ClosePrefix(m0, i, expired)
      {
        ClosePrefixNext(m0, i, expired);
        log := log + CloseCalls(CloseHolder(hs[i], expired));
      }
      ClosePrefixAll(m0, expired);
    }

    method ShutdownAllQueues()
      modifies this
      ensures Model() == QueueStage(old(Model()))
    {
      ghost var m0 := Model();
      for i := 0 to |workers|
        invariant Model() == m0.(log := m0.log + ShutdownQueueEffects(i))
      {
        assert ShutdownQueueEffects(i + 1) == ShutdownQueueEffects(i) + [ShutdownQueue(i)];
        log := log + [ShutdownQueue(i)];
      }
    }

    /** Join every worker through its `unique_ptr`, then reset it. */
    method JoinWorkers()
      modifies this
      ensures Model() == JoinStage(old(Model()))
    {
      ghost var m0 := Model();
      for i := 0 to |workers|
        invariant |workers| == |m0.workers|
        invariant Model() == JoinPrefix(m0, i)
      {
        JoinPrefixNext(m0, i);
        JoinThread(i);
      }
      JoinPrefixAll(m0);
    }

    method JoinThread(i: nat)
      requires i < |workers|
      modifies this
      ensures Model() == JoinOne(old(Model()), i)
    {
      if workers[i] {
        log := log + [JoinWorker(i)];
      } else {
        // th.thread->join() through an empty unique_ptr
        fault := true;
      }
      workers := workers[i := false];
    }

    /** The five Create* factories, which differ only in the kind of call. */
    method Create(kind: Kind, obj: ObjId, expired: set<ObjId>) returns (queue: nat)
      modifies this
      ensures (Model(), queue) == StepCreate(old(Model()), Holder(obj, kind), expired)
    {
      Collect(expired);
      var clientId := nextClientId;
      nextClientId := (nextClientId + 1) % ClientIdRange;
      if |workers| == 0 {
        // client_id % threads_.size() divides by zero
        fault := true;
        queue := 0;
      } else {
        queue := clientId % |workers|;
      }
      holders := holders + [Holder(obj, kind)];
    }

    /** ~ClientManager: Shutdown, then the vector of threads is destroyed. */
    method Destroy(expired: set<ObjId>)
      modifies this
      ensures Model() == StepDestroy(old(Model()), expired, false)
    {
      Shutdown(expired);
      if true in workers {
        // a joinable std::thread is destroyed
        fault := true;
      }
    }
  }
}
