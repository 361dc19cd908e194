/** The server of the older generation (class Server of
    include/ggrpc/server.h): handler generators registered before Start, one
    completion queue and one worker per thread after Start. It keeps no
    registry of live calls: at Shutdown it only raises the flag its
    handlers' shutdown_requested_ closures read, shuts the gRPC server down,
    then every queue, then joins every worker.

    The gRPC server, the queues and the workers are external; what the
    server does to them is recorded in the ghost `log`. */
module ServerV1 {
  import opened ShutdownLog

  /** The two Add*Handler templates. */
  datatype HandlerKind = ResponseWriter | ReaderWriter

  /** `queues` is cqs_.size(), `workers` is threads_.size(): the server
      counts as started exactly when it has a worker. `shutdown` is the
      atomic flag every handler's shutdown_requested_ returns. */
  datatype Server = Server(
    genHandlers: seq<HandlerKind>, queues: nat, workers: nat, shutdown: bool,
    log: seq<Effect>)

  function Initial(): (s: Server)
    ensures Inv(s) && !Started(s) && !s.shutdown && s.genHandlers == []
  {
    Server([], 0, 0, false, [])
  }

  predicate Started(s: Server)
  {
    s.workers != 0
  }

  /** One worker per queue at all times. */
  predicate Inv(s: Server)
  {
    s.queues == s.workers
  }

  // ---- operations ----

  /** AddResponseWriterHandler and AddReaderWriterHandler: register a
      generator, unless started or shut down. */
  function StepAddHandler(s: Server, kind: HandlerKind): Server
  {
    if Started(s) || s.shutdown then s
    else s.(genHandlers := s.genHandlers + [kind])
  }

  /** The number of queues `for (int i = 0; i < threads; i++)` builds. */
  function QueueCount(threads: int): (n: nat)
    ensures threads <= 0 ==> n == 0
    ensures threads > 0 ==> n == threads
  {
    if threads < 0 then 0 else threads
  }

  /** Start: unless started or shut down, build `threads` queues, build and
      start the gRPC server, and spawn one worker per queue. */
  function StepStart(s: Server, threads: int): Server
  {
    if Started(s) || s.shutdown then s
    else
      var n := QueueCount(threads);
      s.(queues := n, workers := n, log := s.log + [BuildServer(n)] + Spawns(n))
  }

  /** What Shutdown does after raising the flag. */
  function ShutdownEffects(s: Server): seq<Effect>
  {
    [ServerShutdown] + ShutdownQueueEffects(s.queues) + JoinAll(s.workers)
  }

  /** Shutdown: unless never started or already shut down, raise the flag,
      shut the gRPC server down, then every queue, then join every worker. */
  function StepShutdown(s: Server): Server
  {
    if !Started(s) || s.shutdown then s
    else s.(shutdown := true, log := s.log + ShutdownEffects(s))
  }

  // ---- properties of one step ----

  /** A generator is added, at the back, exactly when the server is neither
      started nor shut down; nothing else changes. */
  lemma AddHandlerSpec(s: Server, kind: HandlerKind)
    ensures var r := StepAddHandler(s, kind);
      && (Started(s) || s.shutdown ==> r == s)
      && (!Started(s) && !s.shutdown ==>
            |r.genHandlers| == |s.genHandlers| + 1 && r.genHandlers[|s.genHandlers|] == kind
            && r.genHandlers[..|s.genHandlers|] == s.genHandlers
            && r.(genHandlers := s.genHandlers) == s)
  {
  }

  /** Start acts once: it yields one worker per queue, exactly `threads` of
      each (none for a non-positive count, which leaves the server
      unstarted), and does nothing when already started or shut down. */
  lemma StartSpec(s: Server, threads: int)
    requires Inv(s)
    ensures var r := StepStart(s, threads);
      && Inv(r)
      && (Started(s) || s.shutdown ==> r == s)
      && (!Started(s) && !s.shutdown ==>
            && r.queues == r.workers == (if threads > 0 then threads else 0)
            && (Started(r) <==> threads > 0)
            && r.log == s.log + [BuildServer(r.queues)] + Spawns(r.queues)
            && r.genHandlers == s.genHandlers && !r.shutdown)
      && (threads > 0 ==> StepStart(r, threads) == r)
  {
  }

  /** Shutdown acts once, and only on a started server: it raises the flag,
      then shuts the gRPC server, every queue and every worker down, in that
      order and each exactly once. */
  lemma ShutdownSpec(s: Server)
    requires Inv(s)
    ensures var r := StepShutdown(s);
      && Inv(r)
      && (!Started(s) || s.shutdown ==> r == s)
      && (Started(s) && !s.shutdown ==>
            && r.shutdown && r.genHandlers == s.genHandlers && r.queues == s.queues
            && r.log[..|s.log|] == s.log
            && Phased(r.log[|s.log|..])
            && r.log[|s.log|] == ServerShutdown
            && |r.log| == |s.log| + 1 + s.queues + s.workers
            && (forall q: nat :: ShutdownQueue(q) in r.log[|s.log|..] <==> q < s.queues)
            && (forall q: nat :: JoinWorker(q) in r.log[|s.log|..] <==> q < s.workers))
      && StepShutdown(r) == r
  {
    if Started(s) && !s.shutdown {
      var r := StepShutdown(s);
      assert r.log[|s.log|..] == ShutdownEffects(s);
      ShutdownEffectsSpec(s);
    }
  }

  lemma ShutdownEffectsSpec(s: Server)
    requires Inv(s)
    ensures var es := ShutdownEffects(s);
      && Phased(es)
      && es[0] == ServerShutdown
      && (forall q: nat :: ShutdownQueue(q) in es <==> q < s.queues)
      && (forall q: nat :: JoinWorker(q) in es <==> q < s.workers)
  {
    var sq := ShutdownQueueEffects(s.queues);
    var j := JoinAll(s.workers);
    UniformPhased([ServerShutdown], 2);
    UniformPhased(sq, 3);
    UniformPhased(j, 4);
    PhasedAppend([ServerShutdown], sq, 2);
    PhasedAppend([ServerShutdown] + sq, j, 3);
    forall q: nat | q < s.queues
      ensures ShutdownQueue(q) in sq && JoinWorker(q) in j
    {
      assert sq[q] == ShutdownQueue(q) && j[q] == JoinWorker(q);
    }
  }

  /** Shutdown as the class performs it, stage by stage. */
  lemma ShutdownStages(s: Server)
    requires Started(s) && !s.shutdown
    ensures var q := s.(shutdown := true, log := s.log + [ServerShutdown] + ShutdownQueueEffects(s.queues));
      StepShutdown(s) == q.(log := q.log + JoinAll(s.workers))
  {
  }

  // ---- lifetimes ----

  datatype Action =
    | AddHandler(kind: HandlerKind)
    | Start(threads: int)
    | Shutdown

  function Apply(s: Server, a: Action): (r: Server)
    requires Inv(s)
    ensures Inv(r)
  {
    match a
    case AddHandler(kind) => StepAddHandler(s, kind)
    case Start(threads) => StartSpec(s, threads); StepStart(s, threads)
    case Shutdown => ShutdownSpec(s); StepShutdown(s)
  }

  function Run(s: Server, trace: seq<Action>): (r: Server)
    requires Inv(s)
    ensures Inv(r)
    decreases |trace|
  {
    if trace == [] then s else Run(Apply(s, trace[0]), trace[1..])
  }

  /** Once started, the set of generators is frozen and the queue count never
      changes again: no operation adds a handler or restarts. */
  lemma {:induction false} StartedIsFrozen(s: Server, trace: seq<Action>)
    requires Inv(s) && Started(s)
    ensures var r := Run(s, trace);
      Started(r) && r.genHandlers == s.genHandlers && r.queues == s.queues
    decreases |trace|
  {
    if trace != [] {
      StartedIsFrozen(Apply(s, trace[0]), trace[1..]);
    }
  }

  /** Once shut down, the server stays shut down (every handler keeps seeing
      the request), never registers a generator again and never logs
      anything more: a second Shutdown, including the destructor's, is a
      no-op. */
  lemma {:induction false} ShutdownIsFinal(s: Server, trace: seq<Action>)
    requires Inv(s) && s.shutdown
    ensures var r := Run(s, trace);
      r.shutdown && r.genHandlers == s.genHandlers && r.log == s.log
    decreases |trace|
  {
    if trace != [] {
      ShutdownIsFinal(Apply(s, trace[0]), trace[1..]);
    }
  }

  // ---- the class ----

  class ServerObject {
    var genHandlers: seq<HandlerKind>
    var queues: nat
    var workers: nat
    var shutdown: bool
    ghost var log: seq<Effect>

    ghost function Model(): Server
      reads this
    {
      Server(genHandlers, queues, workers, shutdown, log)
    }

    constructor()
      ensures Model() == Initial()
    {
      genHandlers := [];
      queues := 0;
      workers := 0;
      shutdown := false;
      log := [];
    }

    /** AddResponseWriterHandler and AddReaderWriterHandler, which differ
        only in the kind of handler the generator creates. */
    method AddHandler(kind: HandlerKind)
      modifies this
      ensures Model() == StepAddHandler(old(Model()), kind)
    {
      if workers != 0 {
        return;
      }
      if shutdown {
        return;
      }
      genHandlers := genHandlers + [kind];
    }

    method Start(threads: int)
      modifies this
      ensures Model() == StepStart(old(Model()), threads)
    {
      if workers != 0 {
        return;
      }
      if shutdown {
        return;
      }
      var built := 0;
      while built < threads
        invariant 0 <= built && (threads > 0 ==> built <= threads)
        invariant threads <= 0 ==> built == 0
        decreases threads - built
      {
        // cqs.push_back(builder.AddCompletionQueue())
        built := built + 1;
      }
      log := log + [BuildServer(built)];
      queues := built;
      SpawnWorkers();
    }

    /** One worker per queue. */
    method SpawnWorkers()
      requires workers == 0
      modifies this
      ensures Model() == old(Model()).(workers := queues, log := old(log) + Spawns(queues))
    {
      ghost var log0 := log;
      for i := 0 to queues
        invariant Model() == old(Model()).(workers := i, log := log0 + Spawns(i))
      {
        assert Spawns(i + 1) == Spawns(i) + [SpawnWorker(i)];
        log := log + [SpawnWorker(i)];
        workers := workers + 1;
      }
    }

    method Shutdown()
      modifies this
      ensures Model() == StepShutdown(old(Model()))
    {
      if workers == 0 {
        return;
      }
      if shutdown {
        return;
      }
      ShutdownStages(Model());
      shutdown := true;
      log := log + [ServerShutdown];
      ShutdownQueues();
      JoinWorkers();
    }

    method ShutdownQueues()
      modifies this
      ensures Model() == old(Model()).(log := old(log) + ShutdownQueueEffects(queues))
    {
      ghost var log0 := log;
      for i := 0 to queues
        invariant Model() == old(Model()).(log := log0 + ShutdownQueueEffects(i))
      {
        assert ShutdownQueueEffects(i + 1) == ShutdownQueueEffects(i) + [ShutdownQueue(i)];
        log := log + [ShutdownQueue(i)];
      }
    }

    /** The joins, each made with the lock released. */
    method JoinWorkers()
      modifies this
      ensures Model() == old(Model()).(log := old(log) + JoinAll(workers))
    {
      ghost var log0 := log;
      for i := 0 to workers
        invariant Model() == old(Model()).(log := log0 + JoinAll(i))
      {
        assert JoinAll(i + 1) == JoinAll(i) + [JoinWorker(i)];
        log := log + [JoinWorker(i)];
      }
    }

    /** ~Server. */
    method Destroy()
      modifies this
      ensures Model() == StepShutdown(old(Model()))
    {
      Shutdown();
    }
  }
}
