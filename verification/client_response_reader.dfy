/** The newer unary client call (include/ggrpc/impl/client/client_response_reader.h):
    one request, one Finish completion, and an optional timeout alarm.

    The gRPC operations the call issues are recorded in `issued`, the user
    callbacks it runs in `events`, the completions gRPC still owes it in
    `owedRead`/`owedNotify` (one counter per thunk), and `delete p` in
    `deleted`. Each public entry point and each completion handler is one
    atomic step: a function on `State`, which the ClientResponseReader
    class below implements field by field. */
module ClientResponseReaderImpl {
  import CallbackUtil

  datatype Status = Init | Connecting | Canceling | Done

  /** ClientResponseReaderError */
  datatype ErrorKind = FinishError | TimeoutError

  /** Operations handed to gRPC: starting the call, reader_->Finish,
      context_.TryCancel, timeout_alarm_.Set and timeout_alarm_.Cancel. */
  datatype Op = StartCall | Finish | TryCancel | TimerSet(timeout: int) | TimerCancel

  /** User callbacks: on_finish_ and on_error_ with its error kind. Each of
      them ends the call. */
  datatype Event = OnFinish | OnError(error: ErrorKind)

  /** A snapshot of the call. `onFinish`/`onError` say whether a non-empty
      callback is installed; `timeout` is the duration in milliseconds. */
  datatype State = State(
    status: Status, release: bool, nesting: int,
    timeoutSet: bool, timeout: int,
    onFinish: bool, onError: bool,
    issued: seq<Op>, events: seq<Event>, owedRead: int, owedNotify: int, deleted: bool)

  function Initial(): (s: State)
    ensures Inv(s) && s.status == Init && Quiet(s)
  {
    State(Init, false, 0, false, 0, false, false, [], [], 0, 0, false)
  }

  /** gRPC owes the call no completion: neither the Finish (reader_thunk_)
      nor the alarm notification (notifier_thunk_). */
  predicate Quiet(s: State)
  {
    s.owedRead == 0 && s.owedNotify == 0
  }

  /** SafeDeleter's condition for `delete p`. */
  predicate Deletable(s: State)
  {
    s.release && s.status == Done && !s.timeoutSet && s.nesting == 0
  }

  /** What holds of every state the call can reach. */
  predicate Inv(s: State)
  {
    // between steps no callback window is open
    && s.nesting == 0
    // status_ and timeout_alarm_set_ track exactly the completions gRPC owes
    && s.owedRead == (if s.status == Connecting || s.status == Canceling then 1 else 0)
    && s.owedNotify == (if s.timeoutSet then 1 else 0)
    && (s.timeoutSet ==> s.status != Init)
    && (s.release ==> s.status == Canceling || s.status == Done)
    // once DONE both callbacks have been dropped
    && (s.status == Done ==> !s.onFinish && !s.onError)
    // at most one of OnFinish, OnError(FINISH), OnError(TIMEOUT), and none before the end
    && |s.events| <= 1
    && (s.status == Init || s.status == Connecting ==> s.events == [])
    // deleted exactly when SafeDeleter's condition holds
    && (s.deleted <==> Deletable(s))
  }

  /** A call is deleted exactly when it has been released and gRPC owes it
      nothing: a deleted call can receive no completion, and a released call
      is not leaked. */
  lemma Deletion(s: State)
    requires Inv(s)
    ensures s.deleted <==> s.release && Quiet(s)
  {
  }

  // ---- internal steps ----

  /** Running a callback: it is skipped when empty and otherwise recorded once. */
  function Fire(s: State, installed: bool, e: Event): State
  {
    if installed then s.(events := s.events + [e]) else s
  }

  /** Done: only in DONE, moves both callbacks out and destroys them. */
  function DoneStep(s: State): State
  {
    if s.status != Done then s else s.(onFinish := false, onError := false)
  }

  function DoCloseStep(s: State): State
  {
    if s.status == Connecting then s.(issued := s.issued + [TryCancel], status := Canceling)
    else if s.status == Canceling then s
    else DoneStep(s.(status := Done))
  }

  /** The SafeDeleter destructor at the end of a locked entry point. */
  function SafeDelete(s: State): State
  {
    s.(deleted := Deletable(s))
  }

  // ---- public entry points ----

  function StepSetOnFinish(s: State, f: bool): State
  {
    if s.status == Done then s else s.(onFinish := f)
  }

  function StepSetOnError(s: State, f: bool): State
  {
    if s.status != Init then s else s.(onError := f)
  }

  function StepSetTimeout(s: State, t: int): State
  {
    if s.status == Done then s else s.(timeout := t)
  }

  /** SetOnFinish and SetTimeout are ignored once DONE, SetOnError unless
      INIT; otherwise each stores its argument and changes nothing else. */
  lemma SettersSpec(s: State, f: bool, t: int)
    requires Inv(s)
    ensures StepSetOnFinish(s, f) == (if s.status == Done then s else s.(onFinish := f))
    ensures StepSetOnError(s, f) == (if s.status == Init then s.(onError := f) else s)
    ensures StepSetTimeout(s, t) == (if s.status == Done then s else s.(timeout := t))
    ensures Inv(StepSetOnFinish(s, f)) && Inv(StepSetOnError(s, f)) && Inv(StepSetTimeout(s, t))
  {
  }

  function StepConnect(s: State): State
  {
    if s.status != Init then s
    else
      var t := s.(status := Connecting,
                  issued := s.issued + [StartCall, Finish],
                  owedRead := s.owedRead + 1);
      if t.timeout != 0 then
        t.(issued := t.issued + [TimerSet(t.timeout)],
           owedNotify := t.owedNotify + 1,
           timeoutSet := true)
      else t
  }

  /** Connect acts only from INIT: it issues exactly one Finish, and arms the
      timeout (recording it in timeout_alarm_set_) only when it is nonzero. */
  lemma ConnectSpec(s: State)
    requires Inv(s) && !s.deleted
    ensures var r := StepConnect(s);
      && Inv(r)
      && (s.status != Init ==> r == s)
      && (s.status == Init ==>
            r.status == Connecting && r.events == s.events
            && r.issued == s.issued + [StartCall, Finish] + (if s.timeout != 0 then [TimerSet(s.timeout)] else [])
            && (r.timeoutSet <==> s.timeout != 0))
  {
  }

  function StepClose(s: State): State
  {
    SafeDelete(DoCloseStep(s))
  }

  /** Close: CONNECTING becomes CANCELING with one cancel, CANCELING is left
      as it is, anything else becomes DONE; a second Close changes nothing. */
  lemma CloseSpec(s: State)
    requires Inv(s) && !s.deleted
    ensures var r := StepClose(s);
      && Inv(r) && r.events == s.events
      && (s.status == Connecting ==> r.status == Canceling && r.issued == s.issued + [TryCancel])
      && (s.status == Canceling ==> r.status == Canceling && r.issued == s.issued)
      && (s.status == Init || s.status == Done ==> r.status == Done && r.issued == s.issued)
      && (!r.deleted ==> StepClose(r) == r)
  {
  }

  function StepRelease(s: State): State
  {
    SafeDelete(DoCloseStep(s.(release := true)))
  }

  /** Release: the owner gives the call up; it is closed, and deleted at once
      if gRPC owes it nothing. */
  lemma ReleaseSpec(s: State)
    requires Inv(s) && !s.deleted && !s.release
    ensures var r := StepRelease(s);
      && Inv(r) && r.release && r.events == s.events
      && r.status == (if s.status == Connecting || s.status == Canceling then Canceling else Done)
      && (r.deleted <==> Quiet(r))
  {
  }

  // ---- completion handlers ----

  function StepProceedToRead(s: State, ok: bool): State
  {
    var st := s.status;
    var t := s.(status := Done, issued := s.issued + [TimerCancel], owedRead := s.owedRead - 1);
    var u := if st != Connecting then t
             else if ok then Fire(t, t.onFinish, OnFinish)
             else Fire(t, t.onError, OnError(FinishError));
    SafeDelete(DoneStep(u))
  }

  /** The Finish completion always ends in DONE and cancels the timer; it
      reports OnFinish (ok) or OnError(FINISH) (!ok) only to a call that was
      still CONNECTING, so a cancelled call gets no callback. */
  lemma ProceedToReadSpec(s: State, ok: bool)
    requires Inv(s) && !s.deleted && s.owedRead > 0
    ensures var r := StepProceedToRead(s, ok);
      && Inv(r)
      && r.status == Done && r.issued == s.issued + [TimerCancel] && r.owedRead == 0
      && (s.status == Canceling ==> r.events == s.events)
      && (s.status == Connecting && ok ==> r.events == s.events + (if s.onFinish then [OnFinish] else []))
      && (s.status == Connecting && !ok ==> r.events == s.events + (if s.onError then [OnError(FinishError)] else []))
  {
  }

  function StepProceedToNotify(s: State, ok: bool): State
  {
    var t := s.(timeoutSet := false, owedNotify := s.owedNotify - 1);
    if !ok || t.status != Connecting then SafeDelete(DoneStep(t))
    else
      var u := t.(issued := t.issued + [TryCancel], status := Canceling);
      SafeDelete(DoneStep(Fire(u, u.onError, OnError(TimeoutError))))
  }

  /** The alarm notification clears timeout_alarm_set_; only a notification
      that fired (ok) on a CONNECTING call cancels it, moves it to CANCELING
      and reports OnError(TIMEOUT). */
  lemma ProceedToNotifySpec(s: State, ok: bool)
    requires Inv(s) && !s.deleted && s.owedNotify > 0
    ensures var r := StepProceedToNotify(s, ok);
      && Inv(r)
      && !r.timeoutSet && r.owedNotify == 0
      && (ok && s.status == Connecting ==>
            r.status == Canceling && r.issued == s.issued + [TryCancel]
            && r.events == s.events + (if s.onError then [OnError(TimeoutError)] else []))
      && (!(ok && s.status == Connecting) ==>
            r.status == s.status && r.issued == s.issued && r.events == s.events)
  {
  }

  // ---- lifetimes ----

  /** One thing that can happen to a call: an entry point or a completion. */
  datatype Action =
    | SetOnFinish(f: bool) | SetOnError(f: bool) | SetTimeout(t: int)
    | Connect | Close | Release
    | ReadDone(ok: bool) | NotifyDone(ok: bool)

  /** User calls reach a call only before Release (the `shared_ptr`'s
      deleter); a completion arrives only when it is owed. */
  predicate Enabled(s: State, a: Action)
  {
    && !s.deleted
    && (!a.ReadDone? && !a.NotifyDone? ==> !s.release)
    && (a.ReadDone? ==> s.owedRead > 0)
    && (a.NotifyDone? ==> s.owedNotify > 0)
  }

  function Apply(s: State, a: Action): (r: State)
    requires Inv(s) && Enabled(s, a)
    ensures Inv(r)
  {
    match a
    case SetOnFinish(f) => SettersSpec(s, f, 0); StepSetOnFinish(s, f)
    case SetOnError(f) => SettersSpec(s, f, 0); StepSetOnError(s, f)
    case SetTimeout(t) => SettersSpec(s, false, t); StepSetTimeout(s, t)
    case Connect => ConnectSpec(s); StepConnect(s)
    case Close => CloseSpec(s); StepClose(s)
    case Release => ReleaseSpec(s); StepRelease(s)
    case ReadDone(ok) => ProceedToReadSpec(s, ok); StepProceedToRead(s, ok)
    case NotifyDone(ok) => ProceedToNotifySpec(s, ok); StepProceedToNotify(s, ok)
  }

  /** The call after a sequence of actions; actions that cannot happen are skipped. */
  function Run(s: State, trace: seq<Action>): (r: State)
    requires Inv(s)
    ensures Inv(r)
    decreases |trace|
  {
    if trace == [] then s
    else
      var t := if Enabled(s, trace[0]) then Apply(s, trace[0]) else s;
      Run(t, trace[1..])
  }

  /** Over any life at most one of OnFinish, OnError(FINISH) and
      OnError(TIMEOUT) fires, a deleted call is owed nothing, and a released
      call that is owed nothing has been deleted. */
  lemma Lifetime(trace: seq<Action>)
    ensures var r := Run(Initial(), trace);
      && |r.events| <= 1
      && (r.deleted ==> Quiet(r))
      && (r.release && Quiet(r) ==> r.deleted)
  {
    var r := Run(Initial(), trace);
    Deletion(r);
  }

  // ---- the object ----

  class ClientResponseReader {
    var status: Status
    var release: bool
    var nesting: int
    var timeoutSet: bool
    var timeout: int
    var onFinish: bool
    var onError: bool
    ghost var issued: seq<Op>
    ghost var events: seq<Event>
    ghost var owedRead: int
    ghost var owedNotify: int
    ghost var deleted: bool

    ghost function Model(): State
      reads this
    {
      State(status, release, nesting, timeoutSet, timeout, onFinish, onError,
            issued, events, owedRead, owedNotify, deleted)
    }

    constructor ()
      ensures Model() == Initial()
    {
      status, release, nesting := Init, false, 0;
      timeoutSet, timeout := false, 0;
      onFinish, onError := false, false;
      issued, events, owedRead, owedNotify, deleted := [], [], 0, 0, false;
    }

    method SetOnFinish(f: bool)
      requires !deleted
      modifies this
      ensures Model() == StepSetOnFinish(old(Model()), f)
    {
      if status == Status.Done {
        return;
      }
      onFinish := f;
    }

    method SetOnError(f: bool)
      requires !deleted
      modifies this
      ensures Model() == StepSetOnError(old(Model()), f)
    {
      if status != Init {
        return;
      }
      onError := f;
    }

    method SetTimeout(t: int)
      requires !deleted
      modifies this
      ensures Model() == StepSetTimeout(old(Model()), t)
    {
      if status == Status.Done {
        return;
      }
      timeout := t;
    }

    method Connect()
      requires !deleted
      modifies this
      ensures Model() == StepConnect(old(Model()))
    {
      if status != Init {
        return;
      }
      status := Connecting;
      issued := issued + [StartCall, Finish];
      owedRead := owedRead + 1;
      if timeout != 0 {
        issued := issued + [TimerSet(timeout)];
        owedNotify := owedNotify + 1;
        timeoutSet := true;
      }
    }

    method Release()
      requires !deleted
      modifies this
      ensures Model() == StepRelease(old(Model()))
    {
      release := true;
      DoClose();
      SafeDeleter();
    }

    method Close()
      requires !deleted
      modifies this
      ensures Model() == StepClose(old(Model()))
    {
      DoClose();
      SafeDeleter();
    }

    method DoClose()
      modifies this
      ensures Model() == DoCloseStep(old(Model()))
    {
      if status == Connecting {
        issued := issued + [TryCancel];
        status := Canceling;
        return;
      }
      if status == Canceling {
        return;
      }
      status := Status.Done;
      Done();
    }

    method Done()
      modifies this
      ensures Model() == DoneStep(old(Model()))
    {
      if status != Status.Done {
        return;
      }
      onFinish, onError := false, false;
      // the moved-out callbacks are destroyed with the lock released
      nesting := nesting + 1;
      nesting := nesting - 1;
    }

    method RunCallback(installed: bool, e: Event)
      modifies this
      ensures Model() == Fire(old(Model()), installed, e)
    {
      var n, invoked := CallbackUtil.RunCallbackClient(nesting, installed);
      nesting := n;
      if invoked {
        events := events + [e];
      }
    }

    method SafeDeleter()
      modifies this
      ensures Model() == SafeDelete(old(Model()))
    {
      var del := release && status == Status.Done && !timeoutSet && nesting == 0;
      deleted := del;
    }

    /** The assert at the head of the handler becomes a precondition. */
    method ProceedToRead(ok: bool)
      requires !deleted && owedRead > 0
      requires status == Connecting || status == Canceling
      modifies this
      ensures Model() == StepProceedToRead(old(Model()), ok)
    {
      ghost var s0 := Model();
      owedRead := owedRead - 1;
      var st := status;
      status := Status.Done;
      issued := issued + [TimerCancel];
      assert Model() == s0.(status := Status.Done, issued := s0.issued + [TimerCancel], owedRead := s0.owedRead - 1);
      if !ok {
        if st == Connecting {
          RunCallback(onError, OnError(FinishError));
        }
        Done();
        SafeDeleter();
        return;
      }
      if st == Connecting {
        RunCallback(onFinish, OnFinish);
      }
      Done();
      SafeDeleter();
    }

    method ProceedToNotify(ok: bool)
      requires !deleted && owedNotify > 0
      requires status != Init
      modifies this
      ensures Model() == StepProceedToNotify(old(Model()), ok)
    {
      ghost var s0 := Model();
      owedNotify := owedNotify - 1;
      timeoutSet := false;
      assert Model() == s0.(timeoutSet := false, owedNotify := s0.owedNotify - 1);
      if !ok {
        Done();
        SafeDeleter();
        return;
      }
      if status == Connecting {
        issued := issued + [TryCancel];
        status := Canceling;
        RunCallback(onError, OnError(TimeoutError));
      }
      Done();
      SafeDeleter();
    }
  }
}
