/** The newer server-streaming client call (include/ggrpc/impl/client/client_reader.h):
    connect, then pull responses one Read at a time until the stream ends,
    then Finish for the final status.

    `issued` records the gRPC operations, `events` the user callbacks,
    `owedConnect`/`owedRead` the completions gRPC still owes to the
    connector and reader thunks, and `deleted` the `delete p` of SafeDeleter.

    Two places of the code break the call's life cycle (see the Findings in
    README.md): a second DoClose moves CANCELING to FINISHED although a
    completion is still owed, and a connect completion that finds the call
    CANCELING leaves it there with nothing owed. The step functions below and
    the ClientReader class follow the code as written; DoCloseFixed and
    ProceedToConnectFixed are the corrected steps, and `SafeInv` is the
    lifetime invariant that only the corrected steps keep. */
module ClientReaderImpl {
  import CallbackUtil

  datatype ReadStatus = Init | Connecting | Reading | Finishing | Canceling | Finished

  /** ClientReaderError */
  datatype ErrorKind = ConnectError | ReadError

  /** Operations handed to gRPC: the call start (connect_ with the connector
      thunk), reader_->Read, reader_->Finish and context_.TryCancel. */
  datatype Op = StartCall | Read | Finish | TryCancel

  /** User callbacks. OnReadDone and OnError end the call. */
  datatype Event = OnConnect | OnRead | OnReadDone | OnError(error: ErrorKind)

  predicate IsOutcome(e: Event)
  {
    e.OnReadDone? || e.OnError?
  }

  /** No callback in `evs` ends the call. */
  predicate NoOutcome(evs: seq<Event>)
  {
    forall i :: 0 <= i < |evs| ==> !IsOutcome(evs[i])
  }

  /** Only the last callback in `evs` may end the call. */
  predicate OutcomeLast(evs: seq<Event>)
  {
    forall i :: 0 <= i < |evs| - 1 ==> !IsOutcome(evs[i])
  }

  datatype State = State(
    status: ReadStatus, release: bool, nesting: int,
    onConnect: bool, onRead: bool, onReadDone: bool, onError: bool,
    issued: seq<Op>, events: seq<Event>, owedConnect: int, owedRead: int, deleted: bool)

  function Initial(): (s: State)
    ensures SafeInv(s) && s.status == Init && Quiet(s)
  {
    State(Init, false, 0, false, false, false, false, [], [], 0, 0, false)
  }

  /** gRPC owes the call no completion. */
  predicate Quiet(s: State)
  {
    s.owedConnect == 0 && s.owedRead == 0
  }

  /** SafeDeleter's condition for `delete p`. */
  predicate Deletable(s: State)
  {
    s.release && s.status == Finished && s.nesting == 0
  }

  predicate NoCallbacks(s: State)
  {
    !s.onConnect && !s.onRead && !s.onReadDone && !s.onError
  }

  /** What the code as written keeps: no callback window open between
      steps, one operation in flight at a time, the status naming the
      operation that is in flight while the stream is active, callbacks
      dropped once FINISHED, the call's outcome reported at most once and
      last, and deletion exactly when SafeDeleter allows it. */
  predicate Inv(s: State)
  {
    && s.nesting == 0
    && 0 <= s.owedConnect && 0 <= s.owedRead && s.owedConnect + s.owedRead <= 1
    && (s.status == Init ==> Quiet(s))
    && (s.status == Connecting ==> s.owedConnect == 1)
    && (s.status == Reading || s.status == Finishing ==> s.owedRead == 1)
    && (s.status == Finished ==> NoCallbacks(s))
    && OutcomeLast(s.events)
    && (s.status != Finished ==> NoOutcome(s.events))
    && (s.deleted <==> Deletable(s))
  }

  /** What the corrected steps keep besides: a CANCELING call waits for
      exactly one completion, a FINISHED call for none, and a released call is
      winding down. */
  predicate SafeInv(s: State)
  {
    && Inv(s)
    && (s.status == Canceling ==> s.owedConnect + s.owedRead == 1)
    && (s.status == Finished ==> Quiet(s))
    && (s.release ==> s.status == Canceling || s.status == Finished)
  }

  /** Under the corrected life cycle a call is deleted exactly when it has
      been released and gRPC owes it nothing. */
  lemma SafeDeletion(s: State)
    requires SafeInv(s)
    ensures s.deleted <==> s.release && Quiet(s)
  {
  }

  // ---- internal steps ----

  /** Running a callback: skipped when empty, otherwise recorded once. */
  function Fire(s: State, installed: bool, e: Event): State
  {
    if installed then s.(events := s.events + [e]) else s
  }

  /** Done: only in FINISHED, moves all four callbacks out and destroys them. */
  function DoneStep(s: State): State
  {
    if s.status != Finished then s
    else s.(onConnect := false, onRead := false, onReadDone := false, onError := false)
  }

  predicate Active(status: ReadStatus)
  {
    status == Connecting || status == Reading || status == Finishing
  }

  /** DoClose as written: an active call is cancelled and waits in CANCELING;
      every other status, CANCELING included, becomes FINISHED. */
  function DoCloseStep(s: State): State
  {
    if Active(s.status) then s.(issued := s.issued + [TryCancel], status := Canceling)
    else DoneStep(s.(status := Finished))
  }

  /** DoClose corrected: a call already CANCELING keeps waiting for its completion. */
  function DoCloseFixed(s: State): State
  {
    if s.status == Canceling then s else DoCloseStep(s)
  }

  function SafeDelete(s: State): State
  {
    s.(deleted := Deletable(s))
  }

  // ---- public entry points ----

  function StepSetOnConnect(s: State, f: bool): State
  {
    if s.status != Init then s else s.(onConnect := f)
  }

  function StepSetOnRead(s: State, f: bool): State
  {
    if s.status != Init then s else s.(onRead := f)
  }

  function StepSetOnReadDone(s: State, f: bool): State
  {
    if s.status != Init then s else s.(onReadDone := f)
  }

  function StepSetOnError(s: State, f: bool): State
  {
    if s.status != Init then s else s.(onError := f)
  }

  /** The four setters act only before Connect, where each stores its
      argument and changes nothing else; after it they change nothing. */
  lemma SettersSpec(s: State, f: bool)
    requires Inv(s)
    ensures StepSetOnConnect(s, f) == (if s.status == Init then s.(onConnect := f) else s)
    ensures StepSetOnRead(s, f) == (if s.status == Init then s.(onRead := f) else s)
    ensures StepSetOnReadDone(s, f) == (if s.status == Init then s.(onReadDone := f) else s)
    ensures StepSetOnError(s, f) == (if s.status == Init then s.(onError := f) else s)
    ensures Inv(StepSetOnConnect(s, f)) && Inv(StepSetOnRead(s, f))
    ensures Inv(StepSetOnReadDone(s, f)) && Inv(StepSetOnError(s, f))
    ensures SafeInv(s) ==> SafeInv(StepSetOnConnect(s, f)) && SafeInv(StepSetOnRead(s, f))
    ensures SafeInv(s) ==> SafeInv(StepSetOnReadDone(s, f)) && SafeInv(StepSetOnError(s, f))
  {
  }

  function StepConnect(s: State): State
  {
    if s.status != Init then s
    else s.(status := Connecting, issued := s.issued + [StartCall], owedConnect := s.owedConnect + 1)
  }

  /** Connect acts only from INIT, moves to CONNECTING and starts the call
      (one connect completion owed); later calls change nothing. */
  lemma ConnectSpec(s: State)
    requires Inv(s) && !s.deleted
    ensures var r := StepConnect(s);
      && Inv(r) && (SafeInv(s) ==> SafeInv(r))
      && (s.status != Init ==> r == s)
      && (s.status == Init ==>
            r.status == Connecting && r.issued == s.issued + [StartCall]
            && r.owedConnect == 1 && r.events == s.events)
  {
  }

  function StepClose(s: State): State
  {
    SafeDelete(DoCloseStep(s))
  }

  /** Close as written: CONNECTING, READING and FINISHING become CANCELING
      with one cancel; every other status becomes FINISHED with the
      callbacks dropped. */
  lemma CloseSpec(s: State)
    requires Inv(s) && !s.deleted
    ensures var r := StepClose(s);
      && Inv(r) && r.events == s.events && Quiet(r) == Quiet(s)
      && (Active(s.status) ==> r.status == Canceling && r.issued == s.issued + [TryCancel])
      && (!Active(s.status) ==> r.status == Finished && r.issued == s.issued && NoCallbacks(r))
  {
  }

  function StepCloseFixed(s: State): State
  {
    SafeDelete(DoCloseFixed(s))
  }

  /** Close corrected: as written except that CANCELING is left as it is;
      closing twice is the same as closing once. */
  lemma CloseFixedSpec(s: State)
    requires Inv(s) && !s.deleted
    ensures var r := StepCloseFixed(s);
      && Inv(r) && (SafeInv(s) ==> SafeInv(r))
      && (s.status == Canceling ==> r == s)
      && (s.status != Canceling ==> r == StepClose(s))
      && (!r.deleted ==> StepCloseFixed(r) == r)
  {
  }

  function StepRelease(s: State): State
  {
    SafeDelete(DoCloseStep(s.(release := true)))
  }

  /** Release as written: the owner gives the call up and it is closed. */
  lemma ReleaseSpec(s: State)
    requires Inv(s) && !s.deleted
    ensures var r := StepRelease(s);
      && Inv(r) && r.release && r.events == s.events
      && r.status == (if Active(s.status) then Canceling else Finished)
  {
  }

  function StepReleaseFixed(s: State): State
  {
    SafeDelete(DoCloseFixed(s.(release := true)))
  }

  /** Release with the corrected DoClose: a released call is deleted at once
      exactly when gRPC owes it nothing. */
  lemma ReleaseFixedSpec(s: State)
    requires Inv(s) && !s.deleted
    ensures var r := StepReleaseFixed(s);
      && Inv(r) && r.release && r.events == s.events
      && r.status == (if Active(s.status) || s.status == Canceling then Canceling else Finished)
      && (SafeInv(s) ==> SafeInv(r) && (r.deleted <==> Quiet(r)))
  {
  }

  // ---- completion handlers ----

  /** The assert at the head of ProceedToConnect. */
  predicate ConnectExpected(s: State)
  {
    s.status == Connecting || s.status == Canceling
  }

  /** The assert at the head of ProceedToRead. */
  predicate ReadExpected(s: State)
  {
    s.status == Reading || s.status == Finishing || s.status == Canceling
  }

  /** ProceedToConnect after the connect completion has been taken off the
      books; `fixed` selects the corrected handling of CANCELING. */
  function ConnectOutcome(t: State, ok: bool, fixed: bool): State
  {
    if t.status != Connecting then
      if fixed && t.status == Canceling then DoneStep(t.(status := Finished))
      else DoneStep(t)
    else if !ok then ConnectFailure(t)
    else ConnectSuccess(t)
  }

  /** A failed connect finishes the call and reports OnError(CONNECT). */
  function ConnectFailure(t: State): State
  {
    DoneStep(Fire(t.(status := Finished), t.onError, OnError(ConnectError)))
  }

  /** A successful connect issues the first Read and reports OnConnect. */
  function ConnectSuccess(t: State): State
  {
    var u := t.(issued := t.issued + [Read], owedRead := t.owedRead + 1, status := Reading);
    Fire(u, u.onConnect, OnConnect)
  }

  function StepProceedToConnect(s: State, ok: bool): State
  {
    SafeDelete(ConnectOutcome(s.(owedConnect := s.owedConnect - 1), ok, false))
  }

  /** ProceedToConnect as written: a call no longer CONNECTING is left as it
      is, CANCELING included; a failed connect finishes the call and reports
      OnError(CONNECT); a successful one issues the first Read, moves to
      READING and reports OnConnect. */
  lemma ProceedToConnectSpec(s: State, ok: bool)
    requires Inv(s) && !s.deleted && s.owedConnect > 0 && ConnectExpected(s)
    ensures var r := StepProceedToConnect(s, ok);
      && Inv(r) && r.owedConnect == 0
      && (s.status == Canceling ==> r.status == Canceling && r.issued == s.issued && r.events == s.events)
      && (s.status == Connecting && !ok ==>
            r.status == Finished && r.issued == s.issued
            && r.events == s.events + (if s.onError then [OnError(ConnectError)] else []))
      && (s.status == Connecting && ok ==>
            r.status == Reading && r.issued == s.issued + [Read]
            && r.events == s.events + (if s.onConnect then [OnConnect] else []))
  {
  }

  function StepProceedToConnectFixed(s: State, ok: bool): State
  {
    SafeDelete(ConnectOutcome(s.(owedConnect := s.owedConnect - 1), ok, true))
  }

  /** ProceedToConnect corrected: a cancelled call finishes silently. */
  lemma ProceedToConnectFixedSpec(s: State, ok: bool)
    requires Inv(s) && !s.deleted && s.owedConnect > 0 && ConnectExpected(s)
    ensures var r := StepProceedToConnectFixed(s, ok);
      && Inv(r) && (SafeInv(s) ==> SafeInv(r))
      && (s.status == Canceling ==> r.status == Finished && r.issued == s.issued && r.events == s.events)
      && (s.status == Connecting ==> r == StepProceedToConnect(s, ok))
  {
  }

  /** ProceedToRead after the read completion has been taken off the books. */
  function ReadOutcome(t: State, ok: bool): State
  {
    if t.status == Canceling then DoneStep(t.(status := Finished))
    else if !ok then ReadFailure(t)
    else ReadSuccess(t)
  }

  /** A failed Read ends the stream and issues Finish; a failed Finish
      finishes the call and reports OnError(READ). */
  function ReadFailure(t: State): State
  {
    if t.status == Reading then
      t.(issued := t.issued + [Finish], owedRead := t.owedRead + 1, status := Finishing)
    else if t.status == Finishing then
      DoneStep(Fire(t.(status := Finished), t.onError, OnError(ReadError)))
    else t
  }

  /** A successful Read issues the next Read, then reports OnRead; a
      successful Finish finishes the call and reports OnReadDone. */
  function ReadSuccess(t: State): State
  {
    if t.status == Reading then
      var u := t.(issued := t.issued + [Read], owedRead := t.owedRead + 1, status := Reading);
      Fire(u, u.onRead, OnRead)
    else if t.status == Finishing then
      DoneStep(Fire(t.(status := Finished), t.onReadDone, OnReadDone))
    else t
  }

  function StepProceedToRead(s: State, ok: bool): State
  {
    SafeDelete(ReadOutcome(s.(owedRead := s.owedRead - 1), ok))
  }

  /** ProceedToRead: a cancelled call finishes silently; a successful read
      issues the next Read before OnRead runs (the continuous pull); the end
      of the stream issues Finish; the Finish completion reports OnReadDone
      or OnError(READ) and ends the call. */
  lemma ProceedToReadSpec(s: State, ok: bool)
    requires Inv(s) && !s.deleted && s.owedRead > 0 && ReadExpected(s)
    ensures var r := StepProceedToRead(s, ok);
      && Inv(r)
      && (s.status == Canceling ==> r.status == Finished && r.issued == s.issued && r.events == s.events)
      && (s.status == Reading && ok ==>
            r.status == Reading && r.issued == s.issued + [Read] && r.owedRead == 1
            && r.events == s.events + (if s.onRead then [OnRead] else []))
      && (s.status == Reading && !ok ==>
            r.status == Finishing && r.issued == s.issued + [Finish] && r.owedRead == 1 && r.events == s.events)
      && (s.status == Finishing ==> r.status == Finished && r.issued == s.issued && Quiet(r))
      && (s.status == Finishing && ok ==> r.events == s.events + (if s.onReadDone then [OnReadDone] else []))
      && (s.status == Finishing && !ok ==> r.events == s.events + (if s.onError then [OnError(ReadError)] else []))
  {
    if s.status == Canceling {
      ReadCanceledSpec(s, ok);
    } else if ok {
      ReadSuccessSpec(s);
    } else {
      ReadFailureSpec(s);
    }
  }

  lemma ReadCanceledSpec(s: State, ok: bool)
    requires Inv(s) && !s.deleted && s.owedRead > 0 && s.status == Canceling
    ensures var r := StepProceedToRead(s, ok);
      Inv(r) && r.status == Finished && r.issued == s.issued && r.events == s.events
  {
  }

  lemma ReadSuccessSpec(s: State)
    requires Inv(s) && !s.deleted && s.owedRead > 0 && (s.status == Reading || s.status == Finishing)
    ensures var r := StepProceedToRead(s, true);
      && Inv(r)
      && (s.status == Reading ==>
            r.status == Reading && r.issued == s.issued + [Read] && r.owedRead == 1
            && r.events == s.events + (if s.onRead then [OnRead] else []))
      && (s.status == Finishing ==>
            r.status == Finished && r.issued == s.issued && Quiet(r)
            && r.events == s.events + (if s.onReadDone then [OnReadDone] else []))
  {
  }

  lemma ReadFailureSpec(s: State)
    requires Inv(s) && !s.deleted && s.owedRead > 0 && (s.status == Reading || s.status == Finishing)
    ensures var r := StepProceedToRead(s, false);
      && Inv(r)
      && (s.status == Reading ==>
            r.status == Finishing && r.issued == s.issued + [Finish] && r.owedRead == 1 && r.events == s.events)
      && (s.status == Finishing ==>
            r.status == Finished && r.issued == s.issued && Quiet(r)
            && r.events == s.events + (if s.onError then [OnError(ReadError)] else []))
  {
  }

  /** ProceedToRead keeps the corrected life cycle's invariant. */
  lemma ProceedToReadSafe(s: State, ok: bool)
    requires SafeInv(s) && !s.deleted && s.owedRead > 0 && ReadExpected(s)
    ensures SafeInv(StepProceedToRead(s, ok))
  {
    ProceedToReadSpec(s, ok);
  }

  // ---- findings ----

  /** Closing a connecting call twice and then releasing it deletes the call
      while the connect completion is still owed: the completion will run
      on freed memory. */
  lemma DoubleCloseDeletesPendingCall()
    ensures var s := StepRelease(StepClose(StepClose(StepConnect(Initial()))));
      s.deleted && s.owedConnect == 1
    ensures !SafeInv(StepClose(StepClose(StepConnect(Initial()))))
  {
  }

  /** The same sequence with the corrected DoClose keeps the call alive in
      CANCELING until the connect completion arrives, which then deletes it. */
  lemma DoubleCloseFixedWaits(ok: bool)
    ensures var s := StepReleaseFixed(StepCloseFixed(StepCloseFixed(StepConnect(Initial()))));
      !s.deleted && s.status == Canceling && s.owedConnect == 1
      && StepProceedToConnectFixed(s, ok).deleted
  {
    var s1 := StepCloseFixed(StepConnect(Initial()));
    assert s1.status == Canceling && s1.owedConnect == 1 && !s1.release;
    var s2 := StepCloseFixed(s1);
    assert s2 == s1;
    var s3 := StepReleaseFixed(s2);
    assert s3.status == Canceling && s3.owedConnect == 1 && s3.release;
  }

  /** Releasing a connecting call and then receiving the connect completion
      leaves it CANCELING with nothing owed: no completion will come and no
      user call can reach a released call, so it is never deleted. */
  lemma CancelDuringConnectLeaks(ok: bool)
    ensures var s := StepProceedToConnect(StepRelease(StepConnect(Initial())), ok);
      && Inv(s) && s.release && Quiet(s) && !s.deleted && s.status == Canceling
      && forall a :: !Enabled(s, a)
  {
  }

  /** With the corrected ProceedToConnect the same sequence ends deleted. */
  lemma CancelDuringConnectFixedFinishes(ok: bool)
    ensures StepProceedToConnectFixed(StepRelease(StepConnect(Initial())), ok).deleted
  {
  }

  // ---- lifetimes ----

  datatype Action =
    | SetOnConnect(f: bool) | SetOnRead(f: bool) | SetOnReadDone(f: bool) | SetOnError(f: bool)
    | Connect | Close | Release
    | ConnectDone(ok: bool) | ReadDone(ok: bool)

  /** User calls reach a call only before Release (the `shared_ptr`'s
      deleter); a completion arrives only when it is owed and, as the asserts
      of the handlers demand, in a status that expects it. */
  predicate Enabled(s: State, a: Action)
  {
    && !s.deleted
    && (!a.ConnectDone? && !a.ReadDone? ==> !s.release)
    && (a.ConnectDone? ==> s.owedConnect > 0 && ConnectExpected(s))
    && (a.ReadDone? ==> s.owedRead > 0 && ReadExpected(s))
  }

  function Apply(s: State, a: Action, fixed: bool): (r: State)
    requires Inv(s) && Enabled(s, a)
    ensures Inv(r) && (fixed && SafeInv(s) ==> SafeInv(r))
  {
    match a
    case SetOnConnect(f) => SettersSpec(s, f); StepSetOnConnect(s, f)
    case SetOnRead(f) => SettersSpec(s, f); StepSetOnRead(s, f)
    case SetOnReadDone(f) => SettersSpec(s, f); StepSetOnReadDone(s, f)
    case SetOnError(f) => SettersSpec(s, f); StepSetOnError(s, f)
    case Connect => ConnectSpec(s); StepConnect(s)
    case Close =>
      if fixed then CloseFixedSpec(s); StepCloseFixed(s)
      else CloseSpec(s); StepClose(s)
    case Release =>
      if fixed then ReleaseFixedSpec(s); StepReleaseFixed(s)
      else ReleaseSpec(s); StepRelease(s)
    case ConnectDone(ok) =>
      if fixed then ProceedToConnectFixedSpec(s, ok); StepProceedToConnectFixed(s, ok)
      else ProceedToConnectSpec(s, ok); StepProceedToConnect(s, ok)
    case ReadDone(ok) =>
      ProceedToReadSpec(s, ok);
      if fixed && SafeInv(s) then ProceedToReadSafe(s, ok); StepProceedToRead(s, ok)
      else StepProceedToRead(s, ok)
  }

  /** The call after a sequence of actions (`fixed` selects the corrected
      steps); actions that cannot happen are skipped. */
  function Run(s: State, trace: seq<Action>, fixed: bool): (r: State)
    requires Inv(s)
    ensures Inv(r) && (fixed && SafeInv(s) ==> SafeInv(r))
    decreases |trace|
  {
    if trace == [] then s
    else
      var t := if Enabled(s, trace[0]) then Apply(s, trace[0], fixed) else s;
      Run(t, trace[1..], fixed)
  }

  /** Nothing further happens to a call on which no action is enabled. */
  lemma {:induction false} StuckStaysStuck(s: State, trace: seq<Action>, fixed: bool)
    requires Inv(s) && forall a :: !Enabled(s, a)
    ensures Run(s, trace, fixed) == s
    decreases |trace|
  {
    if trace != [] {
      StuckStaysStuck(s, trace[1..], fixed);
    }
  }

  /** The leaked call of CancelDuringConnectLeaks is never deleted, whatever follows. */
  lemma LeakIsPermanent(ok: bool, trace: seq<Action>)
    ensures var s := StepProceedToConnect(StepRelease(StepConnect(Initial())), ok);
      Inv(s) && !Run(s, trace, false).deleted
  {
    CancelDuringConnectLeaks(ok);
    StuckStaysStuck(StepProceedToConnect(StepRelease(StepConnect(Initial())), ok), trace, false);
  }

  /** Under the corrected steps, over any life: the outcome is reported at
      most once and last, a deleted call is owed nothing, and a released call
      that is owed nothing has been deleted. */
  lemma FixedLifetime(trace: seq<Action>)
    ensures var r := Run(Initial(), trace, true);
      && OutcomeLast(r.events)
      && (r.deleted ==> Quiet(r))
      && (r.release && Quiet(r) ==> r.deleted)
  {
    var r := Run(Initial(), trace, true);
    SafeDeletion(r);
  }

  // ---- the object ----

  class ClientReader {
    var status: ReadStatus
    var release: bool
    var nesting: int
    var onConnect: bool
    var onRead: bool
    var onReadDone: bool
    var onError: bool
    ghost var issued: seq<Op>
    ghost var events: seq<Event>
    ghost var owedConnect: int
    ghost var owedRead: int
    ghost var deleted: bool

    ghost function Model(): State
      reads this
    {
      State(status, release, nesting, onConnect, onRead, onReadDone, onError,
            issued, events, owedConnect, owedRead, deleted)
    }

    constructor ()
      ensures Model() == Initial()
    {
      status, release, nesting := Init, false, 0;
      onConnect, onRead, onReadDone, onError := false, false, false, false;
      issued, events, owedConnect, owedRead, deleted := [], [], 0, 0, false;
    }

    method SetOnConnect(f: bool)
      requires !deleted
      modifies this
      ensures Model() == StepSetOnConnect(old(Model()), f)
    {
      if status != Init {
        return;
      }
      onConnect := f;
    }

    method SetOnRead(f: bool)
      requires !deleted
      modifies this
      ensures Model() == StepSetOnRead(old(Model()), f)
    {
      if status != Init {
        return;
      }
      onRead := f;
    }

    method SetOnReadDone(f: bool)
      requires !deleted
      modifies this
      ensures Model() == StepSetOnReadDone(old(Model()), f)
    {
      if status != Init {
        return;
      }
      onReadDone := f;
    }

    method SetOnError(f: bool)
      requires !deleted
      modifies this
      ensures Model() == StepSetOnError(old(Model()), f)
    {
      if status != Init {
        return;
      }
      onError := f;
    }

    method Connect()
      requires !deleted
      modifies this
      ensures Model() == StepConnect(old(Model()))
    {
      if status != Init {
        return;
      }
      status := Connecting;
      issued := issued + [StartCall];
      owedConnect := owedConnect + 1;
    }

    method Release()
      requires !deleted
      modifies this
      ensures Model() == StepRelease(old(Model()))
    {
      release := true;
      DoClose();
      SafeDeleter();
    }

    method Close()
      requires !deleted
      modifies this
      ensures Model() == StepClose(old(Model()))
    {
      DoClose();
      SafeDeleter();
    }

    method DoClose()
      modifies this
      ensures Model() == DoCloseStep(old(Model()))
    {
      if status == Connecting || status == Reading || status == Finishing {
        issued := issued + [TryCancel];
      }
      if status == Connecting || status == Reading || status == Finishing {
        status := Canceling;
      } else {
        status := Finished;
      }
      Done();
    }

    method Done()
      modifies this
      ensures Model() == DoneStep(old(Model()))
    {
      if status != Finished {
        return;
      }
      onConnect, onRead, onReadDone, onError := false, false, false, false;
      // the moved-out callbacks are destroyed with the lock released
      nesting := nesting + 1;
      nesting := nesting - 1;
    }

    method RunCallback(installed: bool, e: Event)
      modifies this
      ensures Model() == Fire(old(Model()), installed, e)
    {
      var n, invoked := CallbackUtil.RunCallbackClient(nesting, installed);
      nesting := n;
      if invoked {
        events := events + [e];
      }
    }

    method SafeDeleter()
      modifies this
      ensures Model() == SafeDelete(old(Model()))
    {
      var del := release && status == Finished && nesting == 0;
      deleted := del;
    }

    method ProceedToConnect(ok: bool)
      requires !deleted && owedConnect > 0
      requires status == Connecting || status == Canceling
      modifies this
      ensures Model() == StepProceedToConnect(old(Model()), ok)
    {
      owedConnect := owedConnect - 1;
      if status != Connecting {
        Done();
        SafeDeleter();
        return;
      }
      if !ok {
        ConnectFailed();
        SafeDeleter();
        return;
      }
      ConnectSucceeded();
      SafeDeleter();
    }

    method ConnectFailed()
      modifies this
      ensures Model() == ConnectFailure(old(Model()))
    {
      status := Finished;
      RunCallback(onError, OnError(ConnectError));
      Done();
    }

    method ConnectSucceeded()
      modifies this
      ensures Model() == ConnectSuccess(old(Model()))
    {
      issued := issued + [Read];
      owedRead := owedRead + 1;
      status := Reading;
      RunCallback(onConnect, OnConnect);
    }

    method ProceedToRead(ok: bool)
      requires !deleted && owedRead > 0
      requires status == Reading || status == Finishing || status == Canceling
      modifies this
      ensures Model() == StepProceedToRead(old(Model()), ok)
    {
      owedRead := owedRead - 1;
      if status == Canceling {
        status := Finished;
        Done();
        SafeDeleter();
        return;
      }
      if !ok {
        ReadFailed();
        SafeDeleter();
        return;
      }
      ReadSucceeded();
      SafeDeleter();
    }

    method ReadFailed()
      modifies this
      ensures Model() == ReadFailure(old(Model()))
    {
      if status == Reading {
        issued := issued + [Finish];
        owedRead := owedRead + 1;
        status := Finishing;
      } else if status == Finishing {
        status := Finished;
        RunCallback(onError, OnError(ReadError));
        Done();
      }
    }

    method ReadSucceeded()
      modifies this
      ensures Model() == ReadSuccess(old(Model()))
    {
      if status == Reading {
        issued := issued + [Read];
        owedRead := owedRead + 1;
        status := Reading;
        RunCallback(onRead, OnRead);
      } else if status == Finishing {
        status := Finished;
        RunCallback(onReadDone, OnReadDone);
        Done();
      }
    }
  }
}
