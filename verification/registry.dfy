/** The weak registry kept by the client managers and by the newer server
    (include/ggrpc/client.h, include/ggrpc/impl/client/client_manager.h,
    include/ggrpc/impl/server/server.h): a list of holders, each a weak
    reference to one call object, used only to close every live call at
    shutdown and to prune the entries whose object is already gone.

    Whether a weak reference has lapsed is decided outside the registry (the
    application dropped its last handle), so it is an input here: the set of
    object identities whose strong count has reached zero. */
module Registry {

  /** Identity (address) of a call object observed by a holder. */
  type ObjId = nat

  /** The variant of call object a holder observes (one Holder subclass each). */
  datatype Kind =
    | ResponseReader | Reader | Writer | ReaderWriter | Alarm
    | ServerResponseWriter | ServerWriter | ServerReader | ServerReaderWriter

  /** One registry entry: a weak reference to `obj`, of variant `kind`. */
  datatype Holder = Holder(obj: ObjId, kind: Kind)

  /** Holder::Expired: the weak reference has lapsed. */
  predicate Expired(h: Holder, expired: set<ObjId>)
  {
    h.obj in expired
  }

  /** Holder::Close: lock the weak reference and, if the object is still
      alive, call its Close. Returns the objects closed (none or one). */
  function CloseHolder(h: Holder, expired: set<ObjId>): (closed: seq<ObjId>)
    ensures Expired(h, expired) ==> closed == []
    ensures !Expired(h, expired) ==> closed == [h.obj]
  {
    if h.obj in expired then [] else [h.obj]
  }

  /** Collect: the entries that are not expired, in their original order
      (erase(remove_if(..., Expired))). */
  function Live(hs: seq<Holder>, expired: set<ObjId>): (r: seq<Holder>)
    ensures |r| <= |hs|
    ensures forall h :: h in r <==> h in hs && !Expired(h, expired)
  {
    if hs == [] then []
    else if Expired(hs[0], expired) then Live(hs[1..], expired)
    else [hs[0]] + Live(hs[1..], expired)
  }

  /** The objects closed by running CloseHolder over every entry, in order. */
  function CloseAll(hs: seq<Holder>, expired: set<ObjId>): (closed: seq<ObjId>)
    ensures |closed| <= |hs|
    ensures forall o :: o in closed <==> exists h :: h in hs && h.obj == o && !Expired(h, expired)
  {
    if hs == [] then []
    else
      var rest := CloseAll(hs[1..], expired);
      assert forall h :: h in hs <==> h == hs[0] || h in hs[1..];
      CloseHolder(hs[0], expired) + rest
  }

  /** Collect keeps the relative order: pruning a concatenation prunes each part. */
  lemma {:induction false} LiveAppend(a: seq<Holder>, b: seq<Holder>, expired: set<ObjId>)
    ensures Live(a + b, expired) == Live(a, expired) + Live(b, expired)
  {
    if a == [] {
      assert a + b == b;
    } else {
      assert (a + b)[1..] == a[1..] + b;
      LiveAppend(a[1..], b, expired);
    }
  }

  /** Closing every entry is the same as closing every live entry in order. */
  lemma {:induction false} CloseAllIsLive(hs: seq<Holder>, expired: set<ObjId>)
    ensures CloseAll(hs, expired) == Objects(Live(hs, expired))
  {
    if hs != [] {
      CloseAllIsLive(hs[1..], expired);
    }
  }

  /** The identities of a list of holders, in order. */
  function Objects(hs: seq<Holder>): (objs: seq<ObjId>)
    ensures |objs| == |hs|
    ensures forall i :: 0 <= i < |hs| ==> objs[i] == hs[i].obj
  {
    if hs == [] then [] else [hs[0].obj] + Objects(hs[1..])
  }

  /** Closing a prefix one more entry at a time (the Shutdown loop step). */
  lemma {:induction false} CloseAllSnoc(hs: seq<Holder>, i: nat, expired: set<ObjId>)
    requires i < |hs|
    ensures CloseAll(hs[..i + 1], expired) == CloseAll(hs[..i], expired) + CloseHolder(hs[i], expired)
  {
    CloseAllAppend(hs[..i], [hs[i]], expired);
    assert hs[..i] + [hs[i]] == hs[..i + 1];
  }

  lemma {:induction false} CloseAllAppend(a: seq<Holder>, b: seq<Holder>, expired: set<ObjId>)
    ensures CloseAll(a + b, expired) == CloseAll(a, expired) + CloseAll(b, expired)
  {
    if a == [] {
      assert a + b == b;
    } else {
      assert (a + b)[1..] == a[1..] + b;
      CloseAllAppend(a[1..], b, expired);
    }
  }

  /** Pruning twice prunes nothing more. */
  lemma {:induction false} LiveIdempotent(hs: seq<Holder>, expired: set<ObjId>)
    ensures Live(Live(hs, expired), expired) == Live(hs, expired)
  {
    if hs != [] {
      LiveIdempotent(hs[1..], expired);
    }
  }

  /** When no entry has lapsed, Collect keeps the list as it is. */
  lemma {:induction false} LiveKeepsLiveList(hs: seq<Holder>, expired: set<ObjId>)
    requires forall h :: h in hs ==> !Expired(h, expired)
    ensures Live(hs, expired) == hs
  {
    if hs != [] {
      assert hs[0] in hs;
      assert forall h :: h in hs[1..] ==> h in hs;
      LiveKeepsLiveList(hs[1..], expired);
    }
  }

  /** Registry size after a collection: every lapsed entry is gone, so the
      list shrinks by exactly the number of lapsed entries. */
  lemma {:induction false} LiveCount(hs: seq<Holder>, expired: set<ObjId>)
    ensures |Live(hs, expired)| == |hs| - CountExpired(hs, expired)
  {
    if hs != [] {
      LiveCount(hs[1..], expired);
    }
  }

  /** The number of entries whose weak reference has lapsed. */
  function CountExpired(hs: seq<Holder>, expired: set<ObjId>): (n: nat)
    ensures n <= |hs|
    ensures n == 0 <==> forall h :: h in hs ==> !Expired(h, expired)
  {
    if hs == [] then 0
    else
      assert forall h :: h in hs <==> h == hs[0] || h in hs[1..];
      (if Expired(hs[0], expired) then 1 else 0) + CountExpired(hs[1..], expired)
  }
}
