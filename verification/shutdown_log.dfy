/** What a client manager or a server does to the things it owns (worker
    threads, completion queues, the gRPC server, the registered calls), as a
    ghost log, and the order its Shutdown must keep: close every call, then
    shut the server down (server only), then every completion queue, then
    join every worker. */
module ShutdownLog {
  import opened Registry

  datatype Effect =
    | SpawnWorker(queue: nat)
    | BuildServer(queues: nat)
    | CloseCall(obj: ObjId)
    | ServerShutdown
    | ShutdownQueue(queue: nat)
    | JoinWorker(queue: nat)

  /** The rank of an effect in the shutdown order. */
  function Phase(e: Effect): nat
  {
    match e
    case SpawnWorker(_) => 0
    case BuildServer(_) => 0
    case CloseCall(_) => 1
    case ServerShutdown => 2
    case ShutdownQueue(_) => 3
    case JoinWorker(_) => 4
  }

  /** Effects in non-decreasing phase. */
  predicate Phased(es: seq<Effect>)
  {
    forall i, j :: 0 <= i < j < |es| ==> Phase(es[i]) <= Phase(es[j])
  }

  /** Every effect of `es` has phase `p`. */
  predicate Uniform(es: seq<Effect>, p: nat)
  {
    forall e :: e in es ==> Phase(e) == p
  }

  lemma UniformPhased(es: seq<Effect>, p: nat)
    requires Uniform(es, p)
    ensures Phased(es)
  {
    forall i, j | 0 <= i < j < |es|
      ensures Phase(es[i]) <= Phase(es[j])
    {
      assert es[i] in es && es[j] in es;
    }
  }

  /** Two ordered stretches, the first entirely before the second in phase,
      make an ordered whole. */
  lemma PhasedAppend(a: seq<Effect>, b: seq<Effect>, p: nat)
    requires Phased(a) && Phased(b)
    requires forall e :: e in a ==> Phase(e) <= p
    requires forall e :: e in b ==> p <= Phase(e)
    ensures Phased(a + b)
  {
    var es := a + b;
    forall i, k | 0 <= i < k < |es|
      ensures Phase(es[i]) <= Phase(es[k])
    {
      if k < |a| {
        assert es[i] == a[i] && es[k] == a[k];
      } else if i >= |a| {
        assert es[i] == b[i - |a|] && es[k] == b[k - |a|];
      } else {
        assert es[i] == a[i] && es[k] == b[k - |a|];
        assert a[i] in a && b[k - |a|] in b;
      }
    }
  }

  /** One worker spawned per queue, in queue order. */
  function Spawns(n: nat): (es: seq<Effect>)
    ensures |es| == n && forall i :: 0 <= i < n ==> es[i] == SpawnWorker(i)
    ensures Uniform(es, 0)
  {
    seq(n, i requires 0 <= i < n => SpawnWorker(i))
  }

  /** Every queue shut down, in queue order. */
  function ShutdownQueueEffects(n: nat): (es: seq<Effect>)
    ensures |es| == n && forall i :: 0 <= i < n ==> es[i] == ShutdownQueue(i)
    ensures forall e :: e in es ==> e.ShutdownQueue? && e.queue < n
    ensures Uniform(es, 3)
  {
    seq(n, i requires 0 <= i < n => ShutdownQueue(i))
  }

  /** Every worker joined, in queue order. */
  function JoinAll(n: nat): (es: seq<Effect>)
    ensures |es| == n && forall i :: 0 <= i < n ==> es[i] == JoinWorker(i)
    ensures forall e :: e in es ==> e.JoinWorker? && e.queue < n
    ensures Uniform(es, 4)
  {
    seq(n, i requires 0 <= i < n => JoinWorker(i))
  }

  /** A Close call on each object, in order. */
  function CloseCalls(objs: seq<ObjId>): (es: seq<Effect>)
    ensures |es| == |objs| && forall i :: 0 <= i < |objs| ==> es[i] == CloseCall(objs[i])
    ensures forall e :: e in es ==> e.CloseCall? && e.obj in objs
    ensures Uniform(es, 1)
  {
    seq(|objs|, i requires 0 <= i < |objs| => CloseCall(objs[i]))
  }

  /** The close loop over a registry, one more holder at a time. */
  lemma CloseCallsSnoc(hs: seq<Holder>, i: nat, expired: set<ObjId>)
    requires i < |hs|
    ensures CloseCalls(CloseAll(hs[..i + 1], expired))
      == CloseCalls(CloseAll(hs[..i], expired)) + CloseCalls(CloseHolder(hs[i], expired))
  {
    CloseAllSnoc(hs, i, expired);
    var a := CloseAll(hs[..i], expired);
    var b := CloseHolder(hs[i], expired);
    assert CloseCalls(a + b) == CloseCalls(a) + CloseCalls(b);
  }

  /** Closing a registry closes exactly the objects still alive. */
  lemma ClosesExactlyLive(hs: seq<Holder>, expired: set<ObjId>)
    ensures forall o :: CloseCall(o) in CloseCalls(CloseAll(hs, expired)) <==>
      exists h :: h in hs && h.obj == o && !Expired(h, expired)
  {
    var objs := CloseAll(hs, expired);
    var c := CloseCalls(objs);
    forall o | o in objs
      ensures CloseCall(o) in c
    {
      var i :| 0 <= i < |objs| && objs[i] == o;
      assert c[i] == CloseCall(o);
    }
  }
}
