/** The server of the newer generation (include/ggrpc/impl/server/server.h):
    handler generators registered before Start, one completion queue and one
    worker per thread after Start, a weak registry of every live call
    context and alarm, and an int counter that spreads alarms over the
    queues round-robin.

    The gRPC server, the queues, the workers and the contexts are external;
    what the server does to them is recorded in the ghost `log`. A worker
    runs every generator once on its queue when it starts and then
    dispatches completions; the generators are also re-run by the handlers
    themselves. Here a generator run is the operation `Generate`. */
module ServerImpl {
  import opened Registry
  import opened ShutdownLog

  datatype Option<T> = None | Some(value: T)

  /** `genHandlers`: the kind of call context each registered generator
      creates. `queues` is cqs_.size(), `workers` is threads_.size(): the
      server counts as started exactly when it has a worker. */
  datatype Server = Server(
    genHandlers: seq<Kind>, queues: nat, workers: nat, shutdown: bool,
    holders: seq<Holder>, nextId: nat, log: seq<Effect>)

  function Initial(): (s: Server)
    ensures Inv(s) && !Started(s) && !s.shutdown && s.genHandlers == [] && s.holders == []
  {
    Server([], 0, 0, false, [], 0, [])
  }

  predicate Started(s: Server)
  {
    s.workers != 0
  }

  /** One worker per queue at all times. */
  predicate Inv(s: Server)
  {
    s.queues == s.workers
  }

  predicate ServerKind(k: Kind)
  {
    k.ServerResponseWriter? || k.ServerWriter? || k.ServerReader? || k.ServerReaderWriter?
  }

  // ---- operations ----

  /** Add*Handler: register a generator, unless started or shut down. */
  function StepAddHandler(s: Server, kind: Kind): Server
  {
    if Started(s) || s.shutdown then s
    else s.(genHandlers := s.genHandlers + [kind])
  }

  /** The number of queues `for (i = 0; i < threads; i++)` builds. */
  function QueueCount(threads: int): (n: nat)
    ensures threads <= 0 ==> n == 0
    ensures threads > 0 ==> n == threads
  {
    if threads < 0 then 0 else threads
  }

  /** Start: unless started or shut down, build `threads` queues, build and
      start the gRPC server, and spawn one worker per queue. */
  function StepStart(s: Server, threads: int): Server
  {
    if Started(s) || s.shutdown then s
    else
      var n := QueueCount(threads);
      s.(queues := n, workers := n, log := s.log + [BuildServer(n)] + Spawns(n))
  }

  /** What Shutdown does after setting the flag. */
  function ShutdownEffects(s: Server, expired: set<ObjId>): seq<Effect>
  {
    CloseCalls(CloseAll(s.holders, expired)) + [ServerShutdown]
      + ShutdownQueueEffects(s.queues) + JoinAll(s.workers)
  }

  /** Shutdown: unless never started or already shut down, close every live
      call, clear the registry, shut the gRPC server down, then every queue,
      then join every worker. */
  function StepShutdown(s: Server, expired: set<ObjId>): Server
  {
    if !Started(s) || s.shutdown then s
    else s.(shutdown := true, holders := [], log := s.log + ShutdownEffects(s, expired))
  }

  /** A generator run: create a call context of the generator's kind,
      Collect, register the context. `shutdown` is not consulted. */
  function StepGenerate(s: Server, g: nat, obj: ObjId, expired: set<ObjId>): Server
    requires g < |s.genHandlers|
  {
    s.(holders := Live(s.holders, expired) + [Holder(obj, s.genHandlers[g])])
  }

  /** CreateAlarm: none before Start or after Shutdown; otherwise Collect,
      bind the alarm to queue `id mod queues`, advance the counter and
      register the alarm. Returns the new server and the queue chosen. */
  function StepCreateAlarm(s: Server, obj: ObjId, expired: set<ObjId>): (Server, Option<nat>)
    requires Inv(s)
  {
    if !Started(s) || s.shutdown then (s, None)
    else
      (s.(holders := Live(s.holders, expired) + [Holder(obj, Alarm)], nextId := s.nextId + 1),
       Some(s.nextId % s.queues))
  }

  // ---- properties of one step ----

  lemma AddHandlerSpec(s: Server, kind: Kind)
    ensures var r := StepAddHandler(s, kind);
      && (Started(s) || s.shutdown ==> r == s)
      && (!Started(s) && !s.shutdown ==>
            |r.genHandlers| == |s.genHandlers| + 1 && r.genHandlers[|s.genHandlers|] == kind
            && r.genHandlers[..|s.genHandlers|] == s.genHandlers
            && r.(genHandlers := s.genHandlers) == s)
  {
  }

  /** Start acts once: it yields one worker per queue, exactly `threads` of
      each (none for a non-positive count, which leaves the server
      unstarted), and does nothing when already started or shut down. */
  lemma StartSpec(s: Server, threads: int)
    requires Inv(s)
    ensures var r := StepStart(s, threads);
      && Inv(r)
      && (Started(s) || s.shutdown ==> r == s)
      && (!Started(s) && !s.shutdown ==>
            && r.queues == r.workers == (if threads > 0 then threads else 0)
            && (Started(r) <==> threads > 0)
            && r.log == s.log + [BuildServer(r.queues)] + Spawns(r.queues)
            && r.genHandlers == s.genHandlers && r.holders == s.holders)
      && (threads > 0 ==> StepStart(r, threads) == r)
  {
  }

  /** Shutdown acts once, and only on a started server: it closes exactly the
      live calls, then shuts the gRPC server, every queue and every worker
      down in that order, and empties the registry. */
  lemma ShutdownSpec(s: Server, expired: set<ObjId>)
    requires Inv(s)
    ensures var r := StepShutdown(s, expired);
      && Inv(r)
      && (!Started(s) || s.shutdown ==> r == s)
      && (Started(s) && !s.shutdown ==>
            && r.shutdown && r.holders == []
            && r.log[..|s.log|] == s.log
            && Phased(r.log[|s.log|..])
            && (forall o :: CloseCall(o) in r.log[|s.log|..] <==>
                  exists h :: h in s.holders && h.obj == o && !Expired(h, expired))
            && ServerShutdown in r.log[|s.log|..]
            && (forall q: nat :: ShutdownQueue(q) in r.log[|s.log|..] <==> q < s.queues)
            && (forall q: nat :: JoinWorker(q) in r.log[|s.log|..] <==> q < s.workers))
      && StepShutdown(r, expired) == r
  {
    if Started(s) && !s.shutdown {
      var r := StepShutdown(s, expired);
      assert r.log[|s.log|..] == ShutdownEffects(s, expired);
      ShutdownEffectsSpec(s, expired);
    }
  }

  lemma ShutdownEffectsSpec(s: Server, expired: set<ObjId>)
    requires Inv(s)
    ensures var es := ShutdownEffects(s, expired);
      && Phased(es)
      && (forall o :: CloseCall(o) in es <==>
            exists h :: h in s.holders && h.obj == o && !Expired(h, expired))
      && ServerShutdown in es
      && (forall q: nat :: ShutdownQueue(q) in es <==> q < s.queues)
      && (forall q: nat :: JoinWorker(q) in es <==> q < s.workers)
  {
    var c := CloseCalls(CloseAll(s.holders, expired));
    var sq := ShutdownQueueEffects(s.queues);
    var j := JoinAll(s.workers);
    ClosesExactlyLive(s.holders, expired);
    UniformPhased(c, 1);
    UniformPhased([ServerShutdown], 2);
    UniformPhased(sq, 3);
    UniformPhased(j, 4);
    PhasedAppend(c, [ServerShutdown], 1);
    PhasedAppend(c + [ServerShutdown], sq, 2);
    PhasedAppend(c + [ServerShutdown] + sq, j, 3);
    forall q: nat | q < s.queues
      ensures ShutdownQueue(q) in sq && JoinWorker(q) in j
    {
      assert sq[q] == ShutdownQueue(q) && j[q] == JoinWorker(q);
    }
  }

  /** A generator run prunes the registry and appends exactly the new
      context, of the generator's kind, at the back; nothing else changes. */
  lemma GenerateSpec(s: Server, g: nat, obj: ObjId, expired: set<ObjId>)
    requires g < |s.genHandlers|
    ensures var r := StepGenerate(s, g, obj, expired);
      && r.holders[..|r.holders| - 1] == Live(s.holders, expired)
      && r.holders[|r.holders| - 1] == Holder(obj, s.genHandlers[g])
      && |r.holders| == |s.holders| - CountExpired(s.holders, expired) + 1
      && r.(holders := s.holders) == s
  {
    LiveCount(s.holders, expired);
    var r := StepGenerate(s, g, obj, expired);
    assert r.holders[..|r.holders| - 1] == Live(s.holders, expired);
  }

  /** CreateAlarm refuses exactly before Start and after Shutdown; otherwise
      it picks queue `next_id mod queues`, advances the counter by one and
      registers exactly the new alarm behind the surviving entries. */
  lemma CreateAlarmSpec(s: Server, obj: ObjId, expired: set<ObjId>)
    requires Inv(s)
    ensures var (r, q) := StepCreateAlarm(s, obj, expired);
      && Inv(r)
      && (q.None? <==> !Started(s) || s.shutdown)
      && (q.None? ==> r == s)
      && (q.Some? ==>
            && q.value < s.queues && q.value == s.nextId % s.queues
            && r.nextId == s.nextId + 1
            && r.holders[..|r.holders| - 1] == Live(s.holders, expired)
            && r.holders[|r.holders| - 1] == Holder(obj, Alarm)
            && r.(holders := s.holders, nextId := s.nextId) == s)
  {
    var (r, q) := StepCreateAlarm(s, obj, expired);
    if q.Some? {
      assert r.holders[..|r.holders| - 1] == Live(s.holders, expired);
    }
  }

  /** Shutdown as the class performs it, stage by stage. */
  lemma ShutdownStages(s: Server, expired: set<ObjId>)
    requires Started(s) && !s.shutdown
    ensures var c := s.(shutdown := true, log := s.log + CloseCalls(CloseAll(s.holders, expired)));
      var q := c.(holders := [], log := c.log + [ServerShutdown] + ShutdownQueueEffects(s.queues));
      StepShutdown(s, expired) == q.(log := q.log + JoinAll(s.workers))
  {
  }

  // ---- lifetimes ----

  datatype Action =
    | AddHandler(kind: Kind)
    | Start(threads: int)
    | Shutdown(expired: set<ObjId>)
    | Generate(g: nat, obj: ObjId, expired: set<ObjId>)
    | CreateAlarm(obj: ObjId, expired: set<ObjId>)

  predicate Enabled(s: Server, a: Action)
  {
    && (a.AddHandler? ==> ServerKind(a.kind))
    && (a.Generate? ==> a.g < |s.genHandlers|)
  }

  function Apply(s: Server, a: Action): (r: Server)
    requires Inv(s) && Enabled(s, a)
    ensures Inv(r)
  {
    match a
    case AddHandler(kind) => StepAddHandler(s, kind)
    case Start(threads) => StartSpec(s, threads); StepStart(s, threads)
    case Shutdown(expired) => ShutdownSpec(s, expired); StepShutdown(s, expired)
    case Generate(g, obj, expired) => StepGenerate(s, g, obj, expired)
    case CreateAlarm(obj, expired) => CreateAlarmSpec(s, obj, expired); StepCreateAlarm(s, obj, expired).0
  }

  predicate Runs(s: Server, trace: seq<Action>)
    requires Inv(s)
    decreases |trace|
  {
    trace == [] || (Enabled(s, trace[0]) && Runs(Apply(s, trace[0]), trace[1..]))
  }

  function Run(s: Server, trace: seq<Action>): (r: Server)
    requires Inv(s) && Runs(s, trace)
    ensures Inv(r)
    decreases |trace|
  {
    if trace == [] then s else Run(Apply(s, trace[0]), trace[1..])
  }

  /** Once started, the set of generators is frozen and the queue count never
      changes again: no operation adds a handler or restarts. */
  lemma {:induction false} StartedIsFrozen(s: Server, trace: seq<Action>)
    requires Inv(s) && Started(s) && Runs(s, trace)
    ensures var r := Run(s, trace);
      Started(r) && r.genHandlers == s.genHandlers && r.queues == s.queues
    decreases |trace|
  {
    if trace != [] {
      StartedIsFrozen(Apply(s, trace[0]), trace[1..]);
    }
  }

  /** Once shut down, the server stays shut down, never registers a
      generator again, and refuses every alarm. */
  lemma {:induction false} ShutdownIsFinal(s: Server, trace: seq<Action>, obj: ObjId, expired: set<ObjId>)
    requires Inv(s) && s.shutdown && Runs(s, trace)
    ensures var r := Run(s, trace);
      && r.shutdown && r.genHandlers == s.genHandlers
      && StepCreateAlarm(r, obj, expired).1 == None
    decreases |trace|
  {
    if trace != [] {
      ShutdownIsFinal(Apply(s, trace[0]), trace[1..], obj, expired);
    }
  }

  // ---- the class ----

  class ServerObject {
    var genHandlers: seq<Kind>
    var queues: nat
    var workers: nat
    var shutdown: bool
    var holders: seq<Holder>
    var nextId: nat
    ghost var log: seq<Effect>

    ghost function Model(): Server
      reads this
    {
      Server(genHandlers, queues, workers, shutdown, holders, nextId, log)
    }

    constructor()
      ensures Model() == Initial()
    {
      genHandlers := [];
      queues := 0;
      workers := 0;
      shutdown := false;
      holders := [];
      nextId := 0;
      log := [];
    }

    /** The four Add*Handler templates, which differ only in the kind of
        context the generator creates. */
    method AddHandler(kind: Kind)
      requires ServerKind(kind)
      modifies this
      ensures Model() == StepAddHandler(old(Model()), kind)
    {
      if workers != 0 {
        return;
      }
      if shutdown {
        return;
      }
      genHandlers := genHandlers + [kind];
    }

    method Start(threads: int)
      modifies this
      ensures Model() == StepStart(old(Model()), threads)
    {
      if workers != 0 {
        return;
      }
      if shutdown {
        return;
      }
      var built := 0;
      while built < threads
        invariant 0 <= built && (threads > 0 ==> built <= threads)
        invariant threads <= 0 ==> built == 0
        decreases threads - built
      {
        // cqs.push_back(builder.AddCompletionQueue())
        built := built + 1;
      }
      log := log + [BuildServer(built)];
      queues := built;
      SpawnWorkers();
    }

    /** One worker per queue. */
    method SpawnWorkers()
      requires workers == 0
      modifies this
      ensures Model() == old(Model()).(workers := queues, log := old(log) + Spawns(queues))
    {
      ghost var log0 := log;
      for i := 0 to queues
        invariant Model() == old(Model()).(workers := i, log := log0 + Spawns(i))
      {
        assert Spawns(i + 1) == Spawns(i) + [SpawnWorker(i)];
        log := log + [SpawnWorker(i)];
        workers := workers + 1;
      }
    }

    method Shutdown(expired: set<ObjId>)
      modifies this
      ensures Model() == StepShutdown(old(Model()), expired)
    {
      if workers == 0 {
        return;
      }
      if shutdown {
        return;
      }
      ShutdownStages(Model(), expired);
      shutdown := true;
      CloseHolders(expired);
      holders := [];
      log := log + [ServerShutdown];
      ShutdownQueues();
      JoinWorkers();
    }

    method CloseHolders(expired: set<ObjId>)
      modifies this
      ensures Model() == old(Model()).(log := old(log) + CloseCalls(CloseAll(old(holders), expired)))
    {
      var hs := holders;
      ghost var log0 := log;
      for i := 0 to |hs|
        invariant Model() == old(Model()).(log := log0 + CloseCalls(CloseAll(hs[..i], expired)))
      {
        CloseCallsSnoc(hs, i, expired);
        log := log + CloseCalls(CloseHolder(hs[i], expired));
      }
      assert hs[..|hs|] == hs;
    }

    method ShutdownQueues()
      modifies this
      ensures Model() == old(Model()).(log := old(log) + ShutdownQueueEffects(queues))
    {
      ghost var log0 := log;
      for i := 0 to queues
        invariant Model() == old(Model()).(log := log0 + ShutdownQueueEffects(i))
      {
        assert ShutdownQueueEffects(i + 1) == ShutdownQueueEffects(i) + [ShutdownQueue(i)];
        log := log + [ShutdownQueue(i)];
      }
    }

    method JoinWorkers()
      modifies this
      ensures Model() == old(Model()).(log := old(log) + JoinAll(workers))
    {
      ghost var log0 := log;
      for i := 0 to workers
        invariant Model() == old(Model()).(log := log0 + JoinAll(i))
      {
        assert JoinAll(i + 1) == JoinAll(i) + [JoinWorker(i)];
        log := log + [JoinWorker(i)];
      }
    }

    method Collect(expired: set<ObjId>)
      modifies this
      ensures Model() == old(Model()).(holders := Live(old(holders), expired))
    {
      var hs := holders;
      var kept: seq<Holder> := [];
      for i := 0 to |hs|
        invariant kept == Live(hs[..i], expired)
        modifies {}
      {
        LiveAppend(hs[..i], [hs[i]], expired);
        assert hs[..i + 1] == hs[..i] + [hs[i]];
        if !Expired(hs[i], expired) {
          kept := kept + [hs[i]];
        }
      }
      assert hs[..|hs|] == hs;
      holders := kept;
    }

    /** The generator closure a worker or a handler runs. */
    method Generate(g: nat, obj: ObjId, expired: set<ObjId>)
      requires g < |genHandlers|
      modifies this
      ensures Model() == StepGenerate(old(Model()), g, obj, expired)
    {
      var kind := genHandlers[g];
      Collect(expired);
      holders := holders + [Holder(obj, kind)];
    }

    method CreateAlarm(obj: ObjId, expired: set<ObjId>) returns (queue: Option<nat>)
      requires Inv(Model())
      modifies this
      ensures (Model(), queue) == StepCreateAlarm(old(Model()), obj, expired)
    {
      if workers == 0 {
        return None;
      }
      if shutdown {
        return None;
      }
      Collect(expired);
      var id := nextId;
      nextId := nextId + 1;
      queue := Some(id % queues);
      holders := holders + [Holder(obj, Alarm)];
    }

    /** ~Server. */
    method Destroy(expired: set<ObjId>)
      modifies this
      ensures Model() == StepShutdown(old(Model()), expired)
    {
      Shutdown(expired);
    }
  }
}
