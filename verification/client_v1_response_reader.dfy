/** The older unary client call (class ClientResponseReader of
    include/ggrpc/client.h): one request and one Finish completion, without
    a timeout.

    As for the newer call, `issued` records the gRPC operations, `events`
    the user callbacks, `owed` whether the Finish completion is still owed,
    and `deleted` the `delete p` of SafeDeleter. */
module ClientV1ResponseReader {
  import CallbackUtil

  datatype Status = Init | Requesting | Canceling | Done

  /** Operations handed to gRPC: request_ (starting the call),
      reader_->Finish and context_.TryCancel. */
  datatype Op = StartCall | Finish | TryCancel

  /** User callbacks: on_response_, and on_error_ with FINISH. */
  datatype Event = OnResponse | OnFinishError

  datatype State = State(
    status: Status, release: bool, nesting: int,
    onResponse: bool, onError: bool,
    issued: seq<Op>, events: seq<Event>, owed: int, deleted: bool)

  function Initial(): (s: State)
    ensures Inv(s) && s.status == Init && s.owed == 0
  {
    State(Init, false, 0, false, false, [], [], 0, false)
  }

  /** SafeDeleter's condition for `delete p`. */
  predicate Deletable(s: State)
  {
    s.release && s.status == Done && s.nesting == 0
  }

  predicate Inv(s: State)
  {
    && s.nesting == 0
    // the Finish completion is owed exactly while REQUESTING or CANCELING
    && s.owed == (if s.status == Requesting || s.status == Canceling then 1 else 0)
    && (s.release ==> s.status == Canceling || s.status == Done)
    && (s.status == Done ==> !s.onResponse && !s.onError)
    // at most one of OnResponse and OnError(FINISH), and none before the end
    && |s.events| <= 1
    && (s.status != Done ==> s.events == [])
    && (s.deleted <==> Deletable(s))
  }

  /** A call is deleted exactly when it has been released and the Finish
      completion is no longer owed. */
  lemma Deletion(s: State)
    requires Inv(s)
    ensures s.deleted <==> s.release && s.owed == 0
  {
  }

  // ---- internal steps ----

  function Fire(s: State, installed: bool, e: Event): State
  {
    if installed then s.(events := s.events + [e]) else s
  }

  /** Done: only in DONE, moves both callbacks out and destroys them. */
  function DoneStep(s: State): State
  {
    if s.status != Done then s else s.(onResponse := false, onError := false)
  }

  function DoCloseStep(s: State): State
  {
    if s.status == Requesting then s.(issued := s.issued + [TryCancel], status := Canceling)
    else if s.status == Canceling then s
    else DoneStep(s.(status := Done))
  }

  function SafeDelete(s: State): State
  {
    s.(deleted := Deletable(s))
  }

  // ---- public entry points ----

  function StepSetOnResponse(s: State, f: bool): State
  {
    if s.status == Done then s else s.(onResponse := f)
  }

  function StepSetOnError(s: State, f: bool): State
  {
    if s.status != Init then s else s.(onError := f)
  }

  /** SetOnResponse is ignored once DONE and SetOnError unless INIT; otherwise
      each stores its argument and changes nothing else. */
  lemma SettersSpec(s: State, f: bool)
    requires Inv(s)
    ensures StepSetOnResponse(s, f) == (if s.status == Done then s else s.(onResponse := f))
    ensures StepSetOnError(s, f) == (if s.status == Init then s.(onError := f) else s)
    ensures Inv(StepSetOnResponse(s, f)) && Inv(StepSetOnError(s, f))
  {
  }

  function StepRequest(s: State): State
  {
    if s.status != Init then s
    else s.(status := Requesting, issued := s.issued + [StartCall, Finish], owed := s.owed + 1)
  }

  /** Request acts only from INIT: it moves to REQUESTING and issues exactly
      one Finish; any later Request changes nothing. */
  lemma RequestSpec(s: State)
    requires Inv(s) && !s.deleted
    ensures var r := StepRequest(s);
      && Inv(r)
      && (s.status != Init ==> r == s)
      && (s.status == Init ==>
            r.status == Requesting && r.issued == s.issued + [StartCall, Finish]
            && r.events == s.events && r.owed == 1)
      && StepRequest(r) == r
  {
  }

  function StepClose(s: State): State
  {
    SafeDelete(DoCloseStep(s))
  }

  /** Close: REQUESTING becomes CANCELING with one cancel, CANCELING stays,
      anything else becomes DONE; closing twice is closing once. */
  lemma CloseSpec(s: State)
    requires Inv(s) && !s.deleted
    ensures var r := StepClose(s);
      && Inv(r) && r.events == s.events
      && (s.status == Requesting ==> r.status == Canceling && r.issued == s.issued + [TryCancel])
      && (s.status == Canceling ==> r.status == Canceling && r.issued == s.issued)
      && (s.status == Init || s.status == Done ==> r.status == Done && r.issued == s.issued)
      && (!r.deleted ==> StepClose(r) == r)
  {
  }

  function StepRelease(s: State): State
  {
    SafeDelete(DoCloseStep(s.(release := true)))
  }

  /** Release: the call is closed, and deleted at once if the Finish
      completion is no longer owed. */
  lemma ReleaseSpec(s: State)
    requires Inv(s) && !s.deleted && !s.release
    ensures var r := StepRelease(s);
      && Inv(r) && r.release && r.events == s.events
      && r.status == (if s.status == Requesting || s.status == Canceling then Canceling else Done)
      && (r.deleted <==> r.owed == 0)
  {
  }

  // ---- completion handler ----

  function StepProceedToRead(s: State, ok: bool): State
  {
    var st := s.status;
    var t := s.(status := Done, owed := s.owed - 1);
    var u := if st != Requesting then t
             else if ok then Fire(t, t.onResponse, OnResponse)
             else Fire(t, t.onError, OnFinishError);
    SafeDelete(DoneStep(u))
  }

  /** The Finish completion always ends in DONE; it reports OnResponse (ok)
      or OnError(FINISH) (!ok) only to a call that was still REQUESTING, so a
      cancelled call gets no callback. */
  lemma ProceedToReadSpec(s: State, ok: bool)
    requires Inv(s) && !s.deleted && s.owed > 0
    ensures var r := StepProceedToRead(s, ok);
      && Inv(r)
      && r.status == Done && r.issued == s.issued && r.owed == 0
      && (s.status == Canceling ==> r.events == s.events)
      && (s.status == Requesting && ok ==> r.events == s.events + (if s.onResponse then [OnResponse] else []))
      && (s.status == Requesting && !ok ==> r.events == s.events + (if s.onError then [OnFinishError] else []))
  {
  }

  // ---- lifetimes ----

  datatype Action =
    | SetOnResponse(f: bool) | SetOnError(f: bool)
    | Request | Close | Release
    | ReadDone(ok: bool)

  predicate Enabled(s: State, a: Action)
  {
    && !s.deleted
    && (!a.ReadDone? ==> !s.release)
    && (a.ReadDone? ==> s.owed > 0)
  }

  function Apply(s: State, a: Action): (r: State)
    requires Inv(s) && Enabled(s, a)
    ensures Inv(r)
  {
    match a
    case SetOnResponse(f) => SettersSpec(s, f); StepSetOnResponse(s, f)
    case SetOnError(f) => SettersSpec(s, f); StepSetOnError(s, f)
    case Request => RequestSpec(s); StepRequest(s)
    case Close => CloseSpec(s); StepClose(s)
    case Release => ReleaseSpec(s); StepRelease(s)
    case ReadDone(ok) => ProceedToReadSpec(s, ok); StepProceedToRead(s, ok)
  }

  function Run(s: State, trace: seq<Action>): (r: State)
    requires Inv(s)
    ensures Inv(r)
    decreases |trace|
  {
    if trace == [] then s
    else
      var t := if Enabled(s, trace[0]) then Apply(s, trace[0]) else s;
      Run(t, trace[1..])
  }

  /** Over any life at most one terminal callback fires, a deleted call is
      owed nothing, and a released call that is owed nothing is deleted. */
  lemma Lifetime(trace: seq<Action>)
    ensures var r := Run(Initial(), trace);
      && |r.events| <= 1
      && (r.deleted ==> r.owed == 0)
      && (r.release && r.owed == 0 ==> r.deleted)
  {
    var r := Run(Initial(), trace);
    Deletion(r);
  }

  // ---- the object ----

  class ClientResponseReader {
    var status: Status
    var release: bool
    var nesting: int
    var onResponse: bool
    var onError: bool
    ghost var issued: seq<Op>
    ghost var events: seq<Event>
    ghost var owed: int
    ghost var deleted: bool

    ghost function Model(): State
      reads this
    {
      State(status, release, nesting, onResponse, onError, issued, events, owed, deleted)
    }

    constructor ()
      ensures Model() == Initial()
    {
      status, release, nesting := Init, false, 0;
      onResponse, onError := false, false;
      issued, events, owed, deleted := [], [], 0, false;
    }

    method SetOnResponse(f: bool)
      requires !deleted
      modifies this
      ensures Model() == StepSetOnResponse(old(Model()), f)
    {
      if status == Status.Done {
        return;
      }
      onResponse := f;
    }

    method SetOnError(f: bool)
      requires !deleted
      modifies this
      ensures Model() == StepSetOnError(old(Model()), f)
    {
      if status != Init {
        return;
      }
      onError := f;
    }

    method Request()
      requires !deleted
      modifies this
      ensures Model() == StepRequest(old(Model()))
    {
      if status != Init {
        return;
      }
      status := Requesting;
      issued := issued + [StartCall, Finish];
      owed := owed + 1;
    }

    method Release()
      requires !deleted
      modifies this
      ensures Model() == StepRelease(old(Model()))
    {
      release := true;
      DoClose();
      SafeDeleter();
    }

    method Close()
      requires !deleted
      modifies this
      ensures Model() == StepClose(old(Model()))
    {
      DoClose();
      SafeDeleter();
    }

    method DoClose()
      modifies this
      ensures Model() == DoCloseStep(old(Model()))
    {
      if status == Requesting {
        issued := issued + [TryCancel];
        status := Canceling;
        return;
      }
      if status == Canceling {
        return;
      }
      status := Status.Done;
      Done();
    }

    method Done()
      modifies this
      ensures Model() == DoneStep(old(Model()))
    {
      if status != Status.Done {
        return;
      }
      onResponse, onError := false, false;
      // the moved-out callbacks are destroyed with the lock released
      nesting := nesting + 1;
      nesting := nesting - 1;
    }

    /** The class's own RunCallback, which behaves as RunCallbackClient. */
    method RunCallback(installed: bool, e: Event)
      modifies this
      ensures Model() == Fire(old(Model()), installed, e)
    {
      var n, invoked := CallbackUtil.RunCallbackClient(nesting, installed);
      nesting := n;
      if invoked {
        events := events + [e];
      }
    }

    method SafeDeleter()
      modifies this
      ensures Model() == SafeDelete(old(Model()))
    {
      deleted := release && status == Status.Done && nesting == 0;
    }

    method ProceedToRead(ok: bool)
      requires !deleted && owed > 0
      requires status == Requesting || status == Canceling
      modifies this
      ensures Model() == StepProceedToRead(old(Model()), ok)
    {
      ghost var s0 := Model();
      owed := owed - 1;
      var st := status;
      status := Status.Done;
      assert Model() == s0.(status := Status.Done, owed := s0.owed - 1);
      if !ok {
        if st == Requesting {
          RunCallback(onError, OnFinishError);
        }
        Done();
        SafeDeleter();
        return;
      }
      if st == Requesting {
        RunCallback(onResponse, OnResponse);
      }
      Done();
      SafeDeleter();
    }
  }
}
