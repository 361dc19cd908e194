/** The older bidirectional-streaming client call (class ClientReaderWriter
    of include/ggrpc/client.h): connect, then a read side that pulls
    responses one Read at a time and a write side that sends the queued
    requests one at a time, each with its own status.

    `issued` records the gRPC operations, `events` the user callbacks,
    `owedConnect`/`owedRead`/`owedWrite` the completions gRPC still owes to
    the three thunks, and `deleted` the `delete p` of SafeDeleter. The write
    side is also followed request by request: `accepted` holds what Write and
    WritesDone took in, `sent` what was handed to the stream, `acked` what a
    successful write completion took off the front of the queue. `fault`
    marks undefined behaviour (front or pop_front of an empty deque).

    Four places of the code break the call (see the Findings in README.md):
    SetOnWrite and SetOnError move the member into itself and drop their
    argument; Write and WritesDone on an IDLE stream send the request
    without queueing it, so the next write completion takes the wrong
    request off the queue, or reads an empty one; a second DoClose moves
    CANCELING to FINISHED although a completion is still owed; and a connect
    completion that finds the call CANCELING leaves it there with nothing
    owed. The step functions take a `fixed` flag: `false` is the code as
    written, which the ClientReaderWriter class below follows, `true` the
    corrected call, and `SafeInv` is the invariant only the corrected call
    keeps. */
module ClientV1ReaderWriter {
  import CallbackUtil

  datatype ReadStatus = Init | Connecting | Reading | Finishing | Canceling | Finished

  datatype WriteStatus = Init | Connecting | Writing | Idle | Finishing | Canceling | Finished

  /** ClientReaderWriterError */
  datatype ErrorKind = ConnectError | ReadError | WriteError

  /** Operations handed to gRPC: the call start (connect_ with the connector
      thunk), streamer_->Read, streamer_->Finish, streamer_->Write,
      streamer_->WritesDone and context_.TryCancel. */
  datatype Op = StartCall | Read | Finish | WriteMsg(id: int) | WritesDoneMsg | TryCancel

  datatype Event =
    | OnConnect | OnRead | OnReadDone | OnError(error: ErrorKind)
    | OnWrite(id: int) | OnWritesDone

  /** RequestData: a request with its id, or the WritesDone marker (whose id
      the code leaves unset; it is never read). */
  datatype Request = Request(isDone: bool, id: int)

  /** Which of the six std::function members hold a callable. */
  datatype Callbacks = Callbacks(
    connect: bool, read: bool, readDone: bool, write: bool, writesDone: bool, error: bool)

  const NoCallbacks := Callbacks(false, false, false, false, false, false)

  datatype State = State(
    read: ReadStatus, write: WriteStatus, queue: seq<Request>,
    release: bool, nesting: int, cbs: Callbacks,
    issued: seq<Op>, events: seq<Event>,
    owedConnect: int, owedRead: int, owedWrite: int,
    accepted: seq<Request>, sent: seq<Request>, acked: seq<Request>,
    deleted: bool, fault: bool)

  function Initial(): (s: State)
    ensures SafeInv(s) && Silenced(s) && Unstarted(s) && Quiet(s)
  {
    State(ReadStatus.Init, WriteStatus.Init, [], false, 0, NoCallbacks, [], [],
          0, 0, 0, [], [], [], false, false)
  }

  predicate Unstarted(s: State)
  {
    s.read.Init? && s.write.Init?
  }

  predicate BothFinished(s: State)
  {
    s.read.Finished? && s.write.Finished?
  }

  /** gRPC owes the call no completion. */
  predicate Quiet(s: State)
  {
    s.owedConnect == 0 && s.owedRead == 0 && s.owedWrite == 0
  }

  /** SafeDeleter's condition for `delete p`. */
  predicate Deletable(s: State)
  {
    s.release && BothFinished(s) && s.nesting == 0
  }

  /** The statuses DoClose cancels. */
  predicate ReadActive(r: ReadStatus)
  {
    r.Connecting? || r.Reading? || r.Finishing?
  }

  predicate WriteActive(w: WriteStatus)
  {
    w.Connecting? || w.Writing? || w.Finishing?
  }

  /** The write statuses in which Write and WritesDone take a request in;
      in the others the request is dropped. */
  predicate Accepting(w: WriteStatus)
  {
    w.Init? || w.Connecting? || w.Writing? || w.Idle?
  }

  /** What the code as written keeps: no callback window open between
      steps, at most one completion owed per thunk and none beside the
      connect completion, both sides leaving INIT together, the statuses
      naming what is in flight, an IDLE stream with nothing queued,
      callbacks dropped once both sides are FINISHED, and deletion exactly
      when SafeDeleter allows it. */
  predicate Inv(s: State)
  {
    && Core(s)
    && (BothFinished(s) ==> s.cbs == NoCallbacks)
    && (s.deleted <==> Deletable(s))
  }

  /** Inv without the two facts that Done and SafeDeleter re-establish at
      the end of every step. */
  predicate Core(s: State)
  {
    && s.nesting == 0
    && 0 <= s.owedConnect <= 1 && 0 <= s.owedRead <= 1 && 0 <= s.owedWrite <= 1
    && (s.owedConnect == 1 ==> s.owedRead == 0 && s.owedWrite == 0)
    && (s.owedConnect == 1 ==> ConnectExpected(s) || BothFinished(s))
    && (s.read.Init? <==> s.write.Init?)
    && (s.read.Init? ==> Quiet(s))
    && (s.read.Connecting? || s.write.Connecting? ==> s.owedConnect == 1)
    && (s.read.Reading? || s.read.Finishing? ==> s.owedRead == 1)
    && (s.write.Writing? || s.write.Finishing? ==> s.owedWrite == 1)
    && (s.write.Idle? ==> s.owedWrite == 0 && s.queue == [])
  }

  /** The write queue is a FIFO: what was accepted is what was acknowledged
      followed by what is still queued; what was sent is a prefix of what was
      accepted, at most one request ahead of what was acknowledged, and that
      one exactly while a write completion is owed; the request in flight
      is at the front of the queue. */
  predicate Fifo(s: State)
  {
    && s.accepted == s.acked + s.queue
    && |s.acked| <= |s.sent| <= |s.accepted|
    && s.sent == s.accepted[..|s.sent|]
    && (!s.write.Finished? ==> |s.sent| == |s.acked| + s.owedWrite)
    && (s.write.Writing? ==> |s.queue| > 0 && !s.queue[0].isDone)
    && (s.write.Finishing? ==> |s.queue| > 0 && s.queue[0].isDone)
  }

  /** What the corrected call keeps besides: no undefined behaviour, a
      CANCELING side waits for exactly one completion, a FINISHED side for
      none, a released call is winding down on both sides, and the write
      queue is a FIFO. */
  predicate SafeInv(s: State)
  {
    && Inv(s) && !s.fault
    && (s.read.Canceling? ==> s.owedConnect + s.owedRead == 1)
    && (s.write.Canceling? ==> s.owedConnect + s.owedWrite == 1)
    && (s.read.Finished? ==> s.owedConnect == 0 && s.owedRead == 0)
    && (s.write.Finished? ==> s.owedConnect == 0 && s.owedWrite == 0)
    && (s.release ==> (s.read.Canceling? || s.read.Finished?) && (s.write.Canceling? || s.write.Finished?))
    && Fifo(s)
  }

  /** OnWrite and OnError are not installed and have never run. */
  predicate Silenced(s: State)
  {
    && !s.cbs.write && !s.cbs.error
    && forall i :: 0 <= i < |s.events| ==> !s.events[i].OnWrite? && !s.events[i].OnError?
  }

  /** Under the corrected call a call is deleted exactly when it has been
      released and gRPC owes it nothing, and the requests went out in the
      order they were accepted, none skipped, and were acknowledged in the
      order they went out. */
  lemma SafeConsequences(s: State)
    requires SafeInv(s)
    ensures s.deleted <==> s.release && Quiet(s)
    ensures s.sent == s.accepted[..|s.sent|] && s.acked == s.sent[..|s.acked|]
  {
    assert s.acked == s.accepted[..|s.acked|];
  }

  // ---- internal steps ----

  function Fire(s: State, installed: bool, e: Event): State
  {
    if installed then s.(events := s.events + [e]) else s
  }

  /** Done: only when both sides are FINISHED, drops all six callbacks. */
  function DoneStep(s: State): State
  {
    if !BothFinished(s) then s else s.(cbs := NoCallbacks)
  }

  function SafeDelete(s: State): State
  {
    s.(deleted := Deletable(s))
  }

  /** DoClose's new read status: as written, CANCELING becomes FINISHED;
      corrected, it stays CANCELING. */
  function ClosedRead(r: ReadStatus, fixed: bool): ReadStatus
  {
    if ReadActive(r) || (fixed && r.Canceling?) then ReadStatus.Canceling else ReadStatus.Finished
  }

  function ClosedWrite(w: WriteStatus, fixed: bool): WriteStatus
  {
    if WriteActive(w) || (fixed && w.Canceling?) then WriteStatus.Canceling else WriteStatus.Finished
  }

  function DoCloseStep(s: State, fixed: bool): State
  {
    var t := if ReadActive(s.read) || WriteActive(s.write) then s.(issued := s.issued + [TryCancel]) else s;
    DoneStep(t.(read := ClosedRead(s.read, fixed), write := ClosedWrite(s.write, fixed)))
  }

  function Message(q: Request): Op
  {
    if q.isDone then WritesDoneMsg else WriteMsg(q.id)
  }

  /** HandleRequestQueue: an empty queue leaves the stream IDLE; otherwise the
      front request is sent, staying in the queue until its completion. */
  function HandleQueue(s: State): State
  {
    if s.queue == [] then s.(write := WriteStatus.Idle)
    else
      var q := s.queue[0];
      s.(issued := s.issued + [Message(q)], sent := s.sent + [q], owedWrite := s.owedWrite + 1,
         write := if q.isDone then WriteStatus.Finishing else WriteStatus.Writing)
  }

  /** pop_front: on an empty deque it is undefined behaviour. */
  function PopFront(s: State): State
  {
    if s.queue == [] then s.(fault := true)
    else s.(queue := s.queue[1..], acked := s.acked + [s.queue[0]])
  }

  /** Every step ends with Done and SafeDeleter, which restore Inv. */
  lemma Settle(u: State)
    requires Core(u)
    ensures var r := SafeDelete(DoneStep(u));
      && Inv(r)
      && r == u.(cbs := if BothFinished(u) then NoCallbacks else u.cbs, deleted := Deletable(u))
  {
  }

  lemma SettleLive(u: State)
    requires Core(u) && !BothFinished(u)
    ensures Inv(SafeDelete(u)) && SafeDelete(u) == u.(deleted := false)
  {
  }

  // ---- public entry points ----

  function StepSetOnConnect(s: State, f: bool): State
  {
    if !Unstarted(s) then s else s.(cbs := s.cbs.(connect := f))
  }

  function StepSetOnRead(s: State, f: bool): State
  {
    if !Unstarted(s) then s else s.(cbs := s.cbs.(read := f))
  }

  function StepSetOnReadDone(s: State, f: bool): State
  {
    if !Unstarted(s) then s else s.(cbs := s.cbs.(readDone := f))
  }

  function StepSetOnWritesDone(s: State, f: bool): State
  {
    if !Unstarted(s) then s else s.(cbs := s.cbs.(writesDone := f))
  }

  /** SetOnWrite as written assigns the member to itself: the argument is dropped. */
  function StepSetOnWrite(s: State, f: bool, fixed: bool): State
  {
    if !Unstarted(s) || !fixed then s else s.(cbs := s.cbs.(write := f))
  }

  /** SetOnError as written assigns the member to itself: the argument is dropped. */
  function StepSetOnError(s: State, f: bool, fixed: bool): State
  {
    if !Unstarted(s) || !fixed then s else s.(cbs := s.cbs.(error := f))
  }

  /** The six setters act only before Connect. Four store their argument;
      SetOnWrite and SetOnError as written change nothing at all, corrected
      they store theirs. Nothing else changes. */
  lemma SettersSpec(s: State, f: bool, fixed: bool)
    requires Inv(s)
    ensures StepSetOnConnect(s, f) == (if Unstarted(s) then s.(cbs := s.cbs.(connect := f)) else s)
    ensures StepSetOnRead(s, f) == (if Unstarted(s) then s.(cbs := s.cbs.(read := f)) else s)
    ensures StepSetOnReadDone(s, f) == (if Unstarted(s) then s.(cbs := s.cbs.(readDone := f)) else s)
    ensures StepSetOnWritesDone(s, f) == (if Unstarted(s) then s.(cbs := s.cbs.(writesDone := f)) else s)
    ensures !fixed ==> StepSetOnWrite(s, f, fixed) == s && StepSetOnError(s, f, fixed) == s
    ensures fixed ==> StepSetOnWrite(s, f, fixed) == (if Unstarted(s) then s.(cbs := s.cbs.(write := f)) else s)
    ensures fixed ==> StepSetOnError(s, f, fixed) == (if Unstarted(s) then s.(cbs := s.cbs.(error := f)) else s)
    ensures Inv(StepSetOnConnect(s, f)) && Inv(StepSetOnRead(s, f)) && Inv(StepSetOnReadDone(s, f))
    ensures Inv(StepSetOnWritesDone(s, f)) && Inv(StepSetOnWrite(s, f, fixed)) && Inv(StepSetOnError(s, f, fixed))
  {
  }

  lemma SettersSilent(s: State, f: bool)
    requires Silenced(s)
    ensures Silenced(StepSetOnConnect(s, f)) && Silenced(StepSetOnRead(s, f)) && Silenced(StepSetOnReadDone(s, f))
    ensures Silenced(StepSetOnWritesDone(s, f)) && Silenced(StepSetOnWrite(s, f, false)) && Silenced(StepSetOnError(s, f, false))
  {
    assert StepSetOnConnect(s, f).events == s.events && StepSetOnRead(s, f).events == s.events;
    assert StepSetOnReadDone(s, f).events == s.events && StepSetOnWritesDone(s, f).events == s.events;
  }

  lemma SettersSafe(s: State, f: bool)
    requires SafeInv(s)
    ensures SafeInv(StepSetOnConnect(s, f)) && SafeInv(StepSetOnRead(s, f)) && SafeInv(StepSetOnReadDone(s, f))
    ensures SafeInv(StepSetOnWritesDone(s, f)) && SafeInv(StepSetOnWrite(s, f, true)) && SafeInv(StepSetOnError(s, f, true))
  {
  }

  function StepConnect(s: State): State
  {
    if !Unstarted(s) then s
    else s.(read := ReadStatus.Connecting, write := WriteStatus.Connecting,
            issued := s.issued + [StartCall], owedConnect := s.owedConnect + 1)
  }

  /** Connect acts only when both sides are INIT: both become CONNECTING and
      the call starts, one connect completion owed; later calls change
      nothing. */
  lemma ConnectSpec(s: State)
    requires Inv(s) && !s.deleted
    ensures var r := StepConnect(s);
      && Inv(r) && (SafeInv(s) ==> SafeInv(r)) && (Silenced(s) ==> Silenced(r))
      && (!Unstarted(s) ==> r == s)
      && (Unstarted(s) ==>
            r.read.Connecting? && r.write.Connecting? && r.issued == s.issued + [StartCall]
            && r.owedConnect == 1 && r.events == s.events && r.queue == s.queue)
  {
  }

  function StepClose(s: State, fixed: bool): State
  {
    SafeDelete(DoCloseStep(s, fixed))
  }

  /** Close: one cancel if either side is active, and nothing else than
      the statuses (see CloseStatus) changes. */
  lemma CloseSpec(s: State, fixed: bool)
    requires Inv(s) && !s.deleted
    ensures var r := StepClose(s, fixed);
      && Inv(r) && r.events == s.events && Quiet(r) == Quiet(s) && r.queue == s.queue
      && (ReadActive(s.read) || WriteActive(s.write) ==> r.issued == s.issued + [TryCancel])
      && (!ReadActive(s.read) && !WriteActive(s.write) ==> r.issued == s.issued)
  {
    var t := if ReadActive(s.read) || WriteActive(s.write) then s.(issued := s.issued + [TryCancel]) else s;
    var u := t.(read := ClosedRead(s.read, fixed), write := ClosedWrite(s.write, fixed));
    assert Core(u);
    Settle(u);
  }

  /** Close: each active side waits in CANCELING; as written every other
      status, CANCELING included, becomes FINISHED, corrected a CANCELING
      side keeps waiting, so that closing twice is closing once. */
  lemma CloseStatus(s: State, fixed: bool)
    ensures var r := StepClose(s, fixed);
      && (ReadActive(s.read) ==> r.read.Canceling?)
      && (WriteActive(s.write) ==> r.write.Canceling?)
      && (!fixed && !ReadActive(s.read) ==> r.read.Finished?)
      && (!fixed && !WriteActive(s.write) ==> r.write.Finished?)
      && (fixed && s.read.Canceling? ==> r.read.Canceling?)
      && (fixed && s.write.Canceling? ==> r.write.Canceling?)
  {
  }

  /** Corrected, closing twice is closing once. */
  lemma CloseIdempotent(s: State)
    requires Inv(s) && !s.deleted
    ensures var r := StepClose(s, true);
      !r.deleted ==> StepClose(r, true) == r
  {
    var r := StepClose(s, true);
    assert !ReadActive(r.read) && !WriteActive(r.write);
    assert ClosedRead(r.read, true) == r.read && ClosedWrite(r.write, true) == r.write;
  }

  lemma CloseSafe(s: State)
    requires SafeInv(s) && !s.deleted
    ensures SafeInv(StepClose(s, true))
  {
    CloseSpec(s, true);
  }

  lemma CloseSilent(s: State, fixed: bool)
    requires Inv(s) && Silenced(s) && !s.deleted
    ensures Silenced(StepClose(s, fixed))
  {
    CloseSpec(s, fixed);
  }

  function StepRelease(s: State, fixed: bool): State
  {
    SafeDelete(DoCloseStep(s.(release := true), fixed))
  }

  /** Release: the owner gives the call up and it is closed. */
  lemma ReleaseSpec(s: State, fixed: bool)
    requires Inv(s) && !s.deleted
    ensures var r := StepRelease(s, fixed);
      Inv(r) && r.release && r.events == s.events
  {
  }

  /** Corrected, a released call is deleted at once exactly when gRPC owes
      it nothing. */
  lemma ReleaseSafe(s: State)
    requires SafeInv(s) && !s.deleted
    ensures var r := StepRelease(s, true);
      SafeInv(r) && (r.deleted <==> Quiet(r))
  {
  }

  lemma ReleaseSilent(s: State, fixed: bool)
    requires Inv(s) && Silenced(s) && !s.deleted
    ensures Silenced(StepRelease(s, fixed))
  {
    ReleaseSpec(s, fixed);
  }

  /** Write and WritesDone: as written, on an IDLE stream the request is
      sent but not queued; corrected, it is queued and the queue handled.
      In INIT, CONNECTING and WRITING it is queued; otherwise dropped. */
  function Submit(s: State, q: Request, fixed: bool): State
  {
    if s.write.Idle? && !fixed then
      s.(issued := s.issued + [Message(q)], accepted := s.accepted + [q], sent := s.sent + [q],
         owedWrite := s.owedWrite + 1,
         write := if q.isDone then WriteStatus.Finishing else WriteStatus.Writing)
    else if Accepting(s.write) then
      var t := s.(queue := s.queue + [q], accepted := s.accepted + [q]);
      if s.write.Idle? then HandleQueue(t) else t
    else s
  }

  function StepWrite(s: State, id: int, fixed: bool): State
  {
    Submit(s, Request(false, id), fixed)
  }

  function StepWritesDone(s: State, fixed: bool): State
  {
    Submit(s, Request(true, 0), fixed)
  }

  /** A request is taken in exactly in INIT, CONNECTING, WRITING and IDLE.
      On an IDLE stream it goes out at once: as written without entering the
      queue, corrected as the queue's only entry. Otherwise it joins the back
      of the queue and nothing is sent. */
  lemma SubmitSpec(s: State, q: Request, fixed: bool)
    requires Inv(s) && !s.deleted
    ensures var r := Submit(s, q, fixed);
      && Inv(r) && r.events == s.events && r.acked == s.acked
      && (Accepting(s.write) ==> r.accepted == s.accepted + [q])
      && (!Accepting(s.write) ==> r == s)
      && (s.write.Idle? ==> r.sent == s.sent + [q] && r.issued == s.issued + [Message(q)] && r.owedWrite == 1)
      && (s.write.Idle? && !fixed ==> r.queue == [])
      && (s.write.Idle? && fixed ==> r.queue == [q])
      && (Accepting(s.write) && !s.write.Idle? ==> r.queue == s.queue + [q] && r.sent == s.sent && r.issued == s.issued)
  {
  }

  lemma SubmitSilent(s: State, q: Request, fixed: bool)
    requires Silenced(s)
    ensures Silenced(Submit(s, q, fixed))
  {
    var r := Submit(s, q, fixed);
    assert r.events == s.events && r.cbs == s.cbs;
  }

  /** Submitting keeps the corrected call's invariant. */
  lemma SubmitSafe(s: State, q: Request)
    requires SafeInv(s) && !s.deleted && !s.release
    ensures SafeInv(Submit(s, q, true))
  {
    var r := Submit(s, q, true);
    if Accepting(s.write) {
      assert (s.accepted + [q])[..|s.sent|] == s.accepted[..|s.sent|];
      if s.write.Idle? {
        assert s.sent == s.acked;
        assert r.sent == s.acked + [q];
      }
    }
  }

  // ---- completion handlers ----

  /** The assert at the head of ProceedToConnect: both sides CONNECTING, or
      both CANCELING. */
  predicate ConnectExpected(s: State)
  {
    (s.read.Connecting? && s.write.Connecting?) || (s.read.Canceling? && s.write.Canceling?)
  }

  predicate ReadExpected(s: State)
  {
    s.read.Reading? || s.read.Finishing? || s.read.Canceling?
  }

  predicate WriteExpected(s: State)
  {
    s.write.Writing? || s.write.Finishing? || s.write.Canceling?
  }

  /** ProceedToConnect after the connect completion has been taken off the
      books; `fixed` selects the corrected handling of CANCELING. */
  function ConnectOutcome(t: State, ok: bool, fixed: bool): State
  {
    if !(t.read.Connecting? && t.write.Connecting?) then
      if fixed && t.read.Canceling? && t.write.Canceling? then
        DoneStep(t.(read := ReadStatus.Finished, write := WriteStatus.Finished))
      else DoneStep(t)
    else if !ok then ConnectFailure(t)
    else ConnectSuccess(t)
  }

  /** A failed connect finishes both sides and reports OnError(CONNECT). */
  function ConnectFailure(t: State): State
  {
    DoneStep(Fire(t.(read := ReadStatus.Finished, write := WriteStatus.Finished), t.cbs.error, OnError(ConnectError)))
  }

  /** A successful connect issues the first Read, handles the requests
      queued so far, and reports OnConnect. */
  function ConnectSuccess(t: State): State
  {
    var u := HandleQueue(t.(issued := t.issued + [Read], owedRead := t.owedRead + 1, read := ReadStatus.Reading));
    Fire(u, u.cbs.connect, OnConnect)
  }

  function StepProceedToConnect(s: State, ok: bool, fixed: bool): State
  {
    SafeDelete(ConnectOutcome(s.(owedConnect := s.owedConnect - 1), ok, fixed))
  }

  /** ProceedToConnect: a failed connect finishes the call and reports
      OnError(CONNECT); a successful one starts reading, sends the front of
      the queue if there is one (the stream is IDLE otherwise) and reports
      OnConnect. A cancelled call is left CANCELING as written and finishes
      silently when corrected. */
  lemma ProceedToConnectSpec(s: State, ok: bool, fixed: bool)
    requires Inv(s) && !s.deleted && s.owedConnect > 0 && ConnectExpected(s)
    ensures var r := StepProceedToConnect(s, ok, fixed);
      && Inv(r) && r.owedConnect == 0
      && (s.read.Canceling? && !fixed ==> r.read.Canceling? && r.write.Canceling? && Quiet(r) && r.events == s.events)
      && (s.read.Canceling? && fixed ==> BothFinished(r) && Quiet(r) && r.events == s.events)
      && (s.read.Connecting? && !ok ==>
            BothFinished(r) && r.issued == s.issued
            && r.events == s.events + (if s.cbs.error then [OnError(ConnectError)] else []))
      && (s.read.Connecting? && ok ==>
            r.read.Reading? && r.owedRead == 1
            && (s.queue == [] ==> r.write.Idle? && r.issued == s.issued + [Read])
            && (s.queue != [] ==> r.issued == s.issued + [Read, Message(s.queue[0])] && r.owedWrite == 1)
            && r.events == s.events + (if s.cbs.connect then [OnConnect] else []))
  {
    if s.read.Canceling? {
      ConnectCanceledSpec(s, ok, fixed);
    } else if !ok {
      ConnectFailureSpec(s, fixed);
    } else {
      ConnectSuccessSpec(s, fixed);
    }
  }

  lemma ConnectCanceledSpec(s: State, ok: bool, fixed: bool)
    requires Inv(s) && !s.deleted && s.owedConnect > 0 && s.read.Canceling? && s.write.Canceling?
    ensures var r := StepProceedToConnect(s, ok, fixed);
      && Inv(r) && Quiet(r) && r.events == s.events
      && (!fixed ==> r.read.Canceling? && r.write.Canceling?)
      && (fixed ==> BothFinished(r))
  {
  }

  lemma ConnectFailureSpec(s: State, fixed: bool)
    requires Inv(s) && !s.deleted && s.owedConnect > 0 && s.read.Connecting? && s.write.Connecting?
    ensures var r := StepProceedToConnect(s, false, fixed);
      && Inv(r) && r.owedConnect == 0 && BothFinished(r) && r.issued == s.issued
      && r.events == s.events + (if s.cbs.error then [OnError(ConnectError)] else [])
  {
  }

  lemma ConnectSuccessSpec(s: State, fixed: bool)
    requires Inv(s) && !s.deleted && s.owedConnect > 0 && s.read.Connecting? && s.write.Connecting?
    ensures var r := StepProceedToConnect(s, true, fixed);
      && Inv(r) && r.owedConnect == 0 && r.read.Reading? && r.owedRead == 1
      && (s.queue == [] ==> r.write.Idle? && r.issued == s.issued + [Read])
      && (s.queue != [] ==> r.issued == s.issued + [Read, Message(s.queue[0])] && r.owedWrite == 1)
      && r.events == s.events + (if s.cbs.connect then [OnConnect] else [])
  {
    if s.queue != [] {
      var t := s.(owedConnect := 0, issued := s.issued + [Read], owedRead := 1, read := ReadStatus.Reading);
      assert HandleQueue(t).issued == s.issued + [Read, Message(s.queue[0])];
    }
  }

  /** The connect completion keeps the corrected call's invariant. */
  lemma ProceedToConnectSafe(s: State, ok: bool)
    requires SafeInv(s) && !s.deleted && s.owedConnect > 0 && ConnectExpected(s)
    ensures SafeInv(StepProceedToConnect(s, ok, true))
  {
    ProceedToConnectSpec(s, ok, true);
    if s.read.Connecting? && ok && s.queue != [] {
      assert s.sent == s.acked;
    }
  }

  lemma ProceedToConnectSilent(s: State, ok: bool)
    requires Inv(s) && Silenced(s) && !s.deleted && s.owedConnect > 0 && ConnectExpected(s)
    ensures Silenced(StepProceedToConnect(s, ok, false))
  {
    ProceedToConnectSpec(s, ok, false);
  }

  /** ProceedToRead after the read completion has been taken off the books. */
  function ReadOutcome(t: State, ok: bool): State
  {
    if t.read.Canceling? then DoneStep(t.(read := ReadStatus.Finished))
    else if !ok then ReadFailure(t)
    else ReadSuccess(t)
  }

  /** A failed Read ends the stream and issues Finish; a failed Finish
      finishes the read side and reports OnError(READ). */
  function ReadFailure(t: State): State
  {
    if t.read.Reading? then
      t.(issued := t.issued + [Finish], owedRead := t.owedRead + 1, read := ReadStatus.Finishing)
    else if t.read.Finishing? then
      DoneStep(Fire(t.(read := ReadStatus.Finished), t.cbs.error, OnError(ReadError)))
    else t
  }

  /** A successful Read issues the next Read, then reports OnRead; a
      successful Finish finishes the read side and reports OnReadDone. */
  function ReadSuccess(t: State): State
  {
    if t.read.Reading? then
      Fire(t.(issued := t.issued + [Read], owedRead := t.owedRead + 1), t.cbs.read, OnRead)
    else if t.read.Finishing? then
      DoneStep(Fire(t.(read := ReadStatus.Finished), t.cbs.readDone, OnReadDone))
    else t
  }

  function StepProceedToRead(s: State, ok: bool): State
  {
    SafeDelete(ReadOutcome(s.(owedRead := s.owedRead - 1), ok))
  }

  /** ProceedToRead: a cancelled read side finishes silently; a successful
      read issues the next Read before OnRead runs; the end of the stream
      issues Finish; the Finish completion reports OnReadDone or
      OnError(READ) and finishes the read side. The write side is untouched. */
  lemma ProceedToReadSpec(s: State, ok: bool)
    requires Inv(s) && !s.deleted && s.owedRead > 0 && ReadExpected(s)
    ensures var r := StepProceedToRead(s, ok);
      && Inv(r) && r.write == s.write && r.queue == s.queue && r.owedWrite == s.owedWrite
      && (s.read.Canceling? ==> r.read.Finished? && r.owedRead == 0 && r.issued == s.issued && r.events == s.events)
      && (s.read.Reading? && ok ==>
            r.read.Reading? && r.issued == s.issued + [Read] && r.owedRead == 1
            && r.events == s.events + (if s.cbs.read then [OnRead] else []))
      && (s.read.Reading? && !ok ==>
            r.read.Finishing? && r.issued == s.issued + [Finish] && r.owedRead == 1 && r.events == s.events)
      && (s.read.Finishing? ==> r.read.Finished? && r.issued == s.issued && r.owedRead == 0)
      && (s.read.Finishing? && ok ==> r.events == s.events + (if s.cbs.readDone then [OnReadDone] else []))
      && (s.read.Finishing? && !ok ==> r.events == s.events + (if s.cbs.error then [OnError(ReadError)] else []))
  {
    if s.read.Canceling? {
      ReadCanceledSpec(s, ok);
    } else if ok {
      ReadSuccessSpec(s);
    } else {
      ReadFailureSpec(s);
    }
  }

  lemma ReadCanceledSpec(s: State, ok: bool)
    requires Inv(s) && !s.deleted && s.owedRead > 0 && s.read.Canceling?
    ensures var r := StepProceedToRead(s, ok);
      && Inv(r) && r.write == s.write && r.queue == s.queue && r.owedWrite == s.owedWrite
      && r.read.Finished? && r.owedRead == 0 && r.issued == s.issued && r.events == s.events
  {
  }

  lemma ReadSuccessSpec(s: State)
    requires Inv(s) && !s.deleted && s.owedRead > 0 && (s.read.Reading? || s.read.Finishing?)
    ensures var r := StepProceedToRead(s, true);
      && Inv(r) && r.write == s.write && r.queue == s.queue && r.owedWrite == s.owedWrite
      && (s.read.Reading? ==>
            r.read.Reading? && r.issued == s.issued + [Read] && r.owedRead == 1
            && r.events == s.events + (if s.cbs.read then [OnRead] else []))
      && (s.read.Finishing? ==>
            r.read.Finished? && r.issued == s.issued && r.owedRead == 0
            && r.events == s.events + (if s.cbs.readDone then [OnReadDone] else []))
  {
  }

  lemma ReadFailureSpec(s: State)
    requires Inv(s) && !s.deleted && s.owedRead > 0 && (s.read.Reading? || s.read.Finishing?)
    ensures var r := StepProceedToRead(s, false);
      && Inv(r) && r.write == s.write && r.queue == s.queue && r.owedWrite == s.owedWrite
      && (s.read.Reading? ==>
            r.read.Finishing? && r.issued == s.issued + [Finish] && r.owedRead == 1 && r.events == s.events)
      && (s.read.Finishing? ==>
            r.read.Finished? && r.issued == s.issued && r.owedRead == 0
            && r.events == s.events + (if s.cbs.error then [OnError(ReadError)] else []))
  {
  }

  /** A read completion keeps the corrected call's invariant. */
  lemma ProceedToReadSafe(s: State, ok: bool)
    requires SafeInv(s) && !s.deleted && s.owedRead > 0 && ReadExpected(s)
    ensures SafeInv(StepProceedToRead(s, ok))
  {
    ProceedToReadSpec(s, ok);
  }

  lemma ProceedToReadSilent(s: State, ok: bool)
    requires Inv(s) && Silenced(s) && !s.deleted && s.owedRead > 0 && ReadExpected(s)
    ensures Silenced(StepProceedToRead(s, ok))
  {
    ProceedToReadSpec(s, ok);
  }

  /** ProceedToWrite after the write completion has been taken off the books. */
  function WriteOutcome(t: State, ok: bool): State
  {
    if t.write.Canceling? then DoneStep(t.(write := WriteStatus.Finished))
    else if !ok then DoneStep(Fire(t.(write := WriteStatus.Finished), t.cbs.error, OnError(WriteError)))
    else WriteSuccess(t)
  }

  /** A completed WritesDone takes the marker off the queue, finishes the
      write side and reports OnWritesDone; a completed Write takes the front
      request off the queue, sends the next one and reports OnWrite with the
      id of the request it took off. Reading the front of an empty queue is
      undefined behaviour; the model records it and reports nothing. */
  function WriteSuccess(t: State): State
  {
    if t.write.Finishing? then
      DoneStep(Fire(PopFront(t).(write := WriteStatus.Finished), t.cbs.writesDone, OnWritesDone))
    else if t.write.Writing? then
      var u := HandleQueue(PopFront(t));
      if t.queue == [] then u else Fire(u, u.cbs.write, OnWrite(t.queue[0].id))
    else t
  }

  function StepProceedToWrite(s: State, ok: bool): State
  {
    SafeDelete(WriteOutcome(s.(owedWrite := s.owedWrite - 1), ok))
  }

  /** ProceedToWrite: a cancelled write side finishes silently; a failed
      write finishes it and reports OnError(WRITE); a successful one takes
      the front of the queue off (undefined behaviour on an empty queue) and
      either finishes the write side after WritesDone, reporting
      OnWritesDone, or sends the next request and reports OnWrite with the id
      of the request taken off. The read side is untouched. */
  lemma ProceedToWriteSpec(s: State, ok: bool)
    requires Inv(s) && !s.deleted && s.owedWrite > 0 && WriteExpected(s)
    ensures var r := StepProceedToWrite(s, ok);
      && Inv(r) && r.read == s.read && r.owedRead == s.owedRead && r.accepted == s.accepted
      && (s.write.Canceling? || !ok ==> r.write.Finished? && r.owedWrite == 0 && r.acked == s.acked)
      && (s.write.Canceling? ==> r.events == s.events)
      && (!s.write.Canceling? && !ok ==> r.events == s.events + (if s.cbs.error then [OnError(WriteError)] else []))
      && (!s.write.Canceling? && ok ==> (r.fault <==> s.fault || s.queue == []))
      && (!s.write.Canceling? && ok && s.queue != [] ==> r.acked == s.acked + [s.queue[0]] && r.queue == s.queue[1..])
      && (s.write.Finishing? && ok ==>
            r.write.Finished? && r.owedWrite == 0
            && r.events == s.events + (if s.cbs.writesDone then [OnWritesDone] else []))
      && (s.write.Writing? && ok && s.queue == [] ==> r.write.Idle? && r.events == s.events)
      && (s.write.Writing? && ok && s.queue != [] ==>
            r.events == s.events + (if s.cbs.write then [OnWrite(s.queue[0].id)] else []))
  {
    if s.write.Canceling? || !ok {
      WriteEndedSpec(s, ok);
    } else {
      WriteSuccessSpec(s);
    }
  }

  lemma WriteEndedSpec(s: State, ok: bool)
    requires Inv(s) && !s.deleted && s.owedWrite > 0 && WriteExpected(s) && (s.write.Canceling? || !ok)
    ensures var r := StepProceedToWrite(s, ok);
      && Inv(r) && r.read == s.read && r.owedRead == s.owedRead && r.accepted == s.accepted
      && r.write.Finished? && r.owedWrite == 0 && r.acked == s.acked
      && (s.write.Canceling? ==> r.events == s.events)
      && (!s.write.Canceling? ==> r.events == s.events + (if s.cbs.error then [OnError(WriteError)] else []))
  {
  }

  lemma WriteSuccessSpec(s: State)
    requires Inv(s) && !s.deleted && s.owedWrite > 0 && (s.write.Writing? || s.write.Finishing?)
    ensures var r := StepProceedToWrite(s, true);
      && Inv(r) && r.read == s.read && r.owedRead == s.owedRead && r.accepted == s.accepted
      && (r.fault <==> s.fault || s.queue == [])
      && (s.queue != [] ==> r.acked == s.acked + [s.queue[0]] && r.queue == s.queue[1..])
      && (s.write.Finishing? ==>
            r.write.Finished? && r.owedWrite == 0
            && r.events == s.events + (if s.cbs.writesDone then [OnWritesDone] else []))
      && (s.write.Writing? && s.queue == [] ==> r.write.Idle? && r.events == s.events)
      && (s.write.Writing? && s.queue != [] ==>
            r.events == s.events + (if s.cbs.write then [OnWrite(s.queue[0].id)] else []))
  {
    if s.write.Finishing? {
      WritesDoneAckedSpec(s);
    } else {
      WriteAckedSpec(s);
    }
  }

  lemma WritesDoneAckedSpec(s: State)
    requires Inv(s) && !s.deleted && s.owedWrite > 0 && s.write.Finishing?
    ensures var r := StepProceedToWrite(s, true);
      && Inv(r) && r.read == s.read && r.owedRead == s.owedRead && r.accepted == s.accepted
      && (r.fault <==> s.fault || s.queue == [])
      && (s.queue != [] ==> r.acked == s.acked + [s.queue[0]] && r.queue == s.queue[1..])
      && r.write.Finished? && r.owedWrite == 0
      && r.events == s.events + (if s.cbs.writesDone then [OnWritesDone] else [])
  {
    var t := s.(owedWrite := s.owedWrite - 1);
    var p := PopFront(t);
    assert p.nesting == 0 && p.owedWrite == 0 && p.owedConnect == 0 && p.events == s.events;
    assert p.read == s.read && p.release == s.release && p.cbs == s.cbs;
    var u := Fire(p.(write := WriteStatus.Finished), s.cbs.writesDone, OnWritesDone);
    assert WriteOutcome(t, true) == DoneStep(u);
    assert Core(u);
    Settle(u);
  }

  lemma WriteAckedSpec(s: State)
    requires Inv(s) && !s.deleted && s.owedWrite > 0 && s.write.Writing?
    ensures var r := StepProceedToWrite(s, true);
      && Inv(r) && r.read == s.read && r.owedRead == s.owedRead && r.accepted == s.accepted
      && (r.fault <==> s.fault || s.queue == [])
      && (s.queue == [] ==> r.write.Idle? && r.events == s.events)
      && (s.queue != [] ==>
            r.acked == s.acked + [s.queue[0]] && r.queue == s.queue[1..]
            && r.events == s.events + (if s.cbs.write then [OnWrite(s.queue[0].id)] else []))
  {
    var t := s.(owedWrite := s.owedWrite - 1);
    var u := HandleQueue(PopFront(t));
    assert u.nesting == 0 && u.release == s.release && u.cbs == s.cbs && !u.write.Finished?;
    assert u.owedConnect == 0 && u.owedRead == s.owedRead && 0 <= u.owedWrite <= 1;
    var v := if s.queue == [] then u else Fire(u, u.cbs.write, OnWrite(s.queue[0].id));
    assert WriteOutcome(t, true) == v;
    assert Core(v);
    SettleLive(v);
  }

  /** Under the corrected call a write completion acknowledges exactly the
      request that was last sent, and OnWrite reports that request's id; the
      next queued request, if any, goes out. */
  lemma WriteCompletionInOrder(s: State)
    requires SafeInv(s) && !s.deleted && s.owedWrite > 0 && s.write.Writing?
    ensures |s.sent| > 0
    ensures var q := s.sent[|s.sent| - 1];
      var r := StepProceedToWrite(s, true);
      && !q.isDone
      && r.acked == s.acked + [q]
      && r.events == s.events + (if s.cbs.write then [OnWrite(q.id)] else [])
      && (|s.queue| > 1 ==> r.sent == s.sent + [s.queue[1]] && r.owedWrite == 1)
      && (|s.queue| == 1 ==> r.write.Idle? && r.sent == s.sent)
  {
    InFlightIsFront(s);
    WriteSuccessSpec(s);
  }

  /** The request in flight is the front of the queue and the last one sent. */
  lemma InFlightIsFront(s: State)
    requires SafeInv(s) && s.owedWrite > 0 && !s.write.Finished?
    ensures |s.queue| > 0 && s.sent == s.acked + [s.queue[0]]
  {
    assert s.accepted[..|s.acked| + 1] == s.acked + [s.queue[0]];
  }

  /** A write completion keeps the corrected call's invariant. */
  lemma ProceedToWriteSafe(s: State, ok: bool)
    requires SafeInv(s) && !s.deleted && s.owedWrite > 0 && WriteExpected(s)
    ensures SafeInv(StepProceedToWrite(s, ok))
  {
    if s.write.Canceling? || !ok {
      WriteEndedSpec(s, ok);
    } else {
      WriteSuccessSafe(s);
    }
  }

  lemma WriteSuccessSafe(s: State)
    requires SafeInv(s) && !s.deleted && s.owedWrite > 0 && (s.write.Writing? || s.write.Finishing?)
    ensures SafeInv(StepProceedToWrite(s, true))
  {
    InFlightIsFront(s);
    if s.write.Finishing? {
      WritesDoneAckedSafe(s);
    } else {
      WriteAckedSafe(s);
    }
  }

  lemma WritesDoneAckedSafe(s: State)
    requires SafeInv(s) && !s.deleted && s.owedWrite > 0 && s.write.Finishing?
    requires |s.queue| > 0 && s.sent == s.acked + [s.queue[0]]
    ensures SafeInv(StepProceedToWrite(s, true))
  {
    WritesDoneAckedSpec(s);
    var t := PopFront(s.(owedWrite := 0));
    assert t.accepted == t.acked + t.queue;
    assert t.sent == t.acked;
  }

  lemma WriteAckedSafe(s: State)
    requires SafeInv(s) && !s.deleted && s.owedWrite > 0 && s.write.Writing?
    requires |s.queue| > 0 && s.sent == s.acked + [s.queue[0]]
    ensures SafeInv(StepProceedToWrite(s, true))
  {
    WriteAckedSpec(s);
    var t := PopFront(s.(owedWrite := 0));
    assert t.accepted == t.acked + t.queue;
    assert t.sent == t.acked;
    if |s.queue| > 1 {
      NextWriteSafe(s, t);
    }
  }

  /** After a write completion the next queued request goes out. */
  lemma NextWriteSafe(s: State, t: State)
    requires SafeInv(s) && s.write.Writing? && |s.queue| > 1 && s.sent == s.acked + [s.queue[0]]
    requires t == PopFront(s.(owedWrite := 0))
    ensures var r := StepProceedToWrite(s, true);
      r.sent == t.sent + [t.queue[0]] && r.sent == r.accepted[..|r.sent|]
  {
    assert t.accepted == t.acked + t.queue;
    assert t.accepted[..|s.sent| + 1] == t.sent + [t.queue[0]];
  }

  lemma ProceedToWriteSilent(s: State, ok: bool)
    requires Inv(s) && Silenced(s) && !s.deleted && s.owedWrite > 0 && WriteExpected(s)
    ensures Silenced(StepProceedToWrite(s, ok))
  {
    ProceedToWriteSpec(s, ok);
  }

  // ---- findings ----

  /** SetOnWrite and SetOnError as written install nothing; corrected they
      install the callback. */
  lemma SelfMoveDropsCallbacks()
    ensures StepSetOnWrite(Initial(), true, false) == Initial()
    ensures StepSetOnError(Initial(), true, false) == Initial()
    ensures StepSetOnWrite(Initial(), true, true).cbs.write
    ensures StepSetOnError(Initial(), true, true).cbs.error
  {
  }

  /** With the corrected setters a failed connect reaches the user. */
  lemma FixedSetterReportsConnectError()
    ensures StepProceedToConnect(StepConnect(StepSetOnError(Initial(), true, true)), false, true).events
      == [OnError(ConnectError)]
  {
  }

  /** The stream after a successful connect with nothing queued: IDLE. */
  function IdleStream(): (s: State)
    ensures SafeInv(s) && s.write.Idle? && s.read.Reading? && s.queue == [] && s.sent == []
  {
    StepProceedToConnect(StepConnect(Initial()), true, false)
  }

  /** As written, a Write on an IDLE stream followed by a second Write and
      the first write's completion: the second request is acknowledged (and
      OnWrite reports its id) although only the first went out, and the
      stream is left IDLE with an empty queue, so the second request is never
      sent. */
  lemma IdleWriteLosesQueuedWrite()
    ensures var r := StepProceedToWrite(StepWrite(StepWrite(IdleStream(), 1, false), 2, false), true);
      && r.sent == [Request(false, 1)]
      && r.acked == [Request(false, 2)]
      && r.accepted == [Request(false, 1), Request(false, 2)]
      && r.write.Idle? && r.queue == [] && !r.fault
  {
  }

  /** As written, a single Write on an IDLE stream: its completion reads the
      front of an empty queue. */
  lemma IdleWriteReadsEmptyQueue()
    ensures StepProceedToWrite(StepWrite(IdleStream(), 1, false), true).fault
  {
  }

  /** As written, WritesDone on an IDLE stream: its completion pops an empty
      queue. */
  lemma IdleWritesDonePopsEmptyQueue()
    ensures StepProceedToWrite(StepWritesDone(IdleStream(), false), true).fault
  {
  }

  /** Corrected, the same two Writes: the first is acknowledged, the second
      goes out next. */
  lemma IdleWriteFixedKeepsOrder()
    ensures var r := StepProceedToWrite(StepWrite(StepWrite(IdleStream(), 1, true), 2, true), true);
      && r.sent == [Request(false, 1), Request(false, 2)]
      && r.acked == [Request(false, 1)]
      && r.write.Writing? && r.queue == [Request(false, 2)] && !r.fault
  {
  }

  /** As written, closing a connecting call twice and then releasing it
      deletes it while the connect completion is still owed. */
  lemma DoubleCloseDeletesPendingCall()
    ensures var s := StepRelease(StepClose(StepClose(StepConnect(Initial()), false), false), false);
      s.deleted && s.owedConnect == 1
  {
  }

  /** Corrected, the call waits in CANCELING for the connect completion,
      which then deletes it. */
  lemma DoubleCloseFixedWaits(ok: bool)
    ensures var s := StepRelease(StepClose(StepClose(StepConnect(Initial()), true), true), true);
      !s.deleted && s.read.Canceling? && s.write.Canceling? && s.owedConnect == 1
      && StepProceedToConnect(s, ok, true).deleted
  {
  }

  /** As written, releasing a connecting call and then receiving the connect
      completion leaves it CANCELING with nothing owed and no action
      possible: it is never deleted. */
  lemma CancelDuringConnectLeaks(ok: bool)
    ensures var s := StepProceedToConnect(StepRelease(StepConnect(Initial()), false), ok, false);
      && Inv(s) && s.release && Quiet(s) && !s.deleted && s.read.Canceling?
      && forall a :: !Enabled(s, a)
  {
  }

  /** Corrected, the same sequence ends deleted. */
  lemma CancelDuringConnectFixedFinishes(ok: bool)
    ensures StepProceedToConnect(StepRelease(StepConnect(Initial()), true), ok, true).deleted
  {
  }

  // ---- lifetimes ----

  datatype Action =
    | SetOnConnect(f: bool) | SetOnRead(f: bool) | SetOnReadDone(f: bool)
    | SetOnWrite(f: bool) | SetOnWritesDone(f: bool) | SetOnError(f: bool)
    | Connect | Write(id: int) | WritesDone | Close | Release
    | ConnectDone(ok: bool) | ReadDone(ok: bool) | WriteDone(ok: bool)

  predicate Completion(a: Action)
  {
    a.ConnectDone? || a.ReadDone? || a.WriteDone?
  }

  /** User calls reach a call only before Release; a completion arrives only
      when it is owed and, as the asserts of the handlers demand, in a status
      that expects it. */
  predicate Enabled(s: State, a: Action)
  {
    && !s.deleted
    && (!Completion(a) ==> !s.release)
    && (a.ConnectDone? ==> s.owedConnect > 0 && ConnectExpected(s))
    && (a.ReadDone? ==> s.owedRead > 0 && ReadExpected(s))
    && (a.WriteDone? ==> s.owedWrite > 0 && WriteExpected(s))
  }

  function Apply(s: State, a: Action, fixed: bool): (r: State)
    requires Inv(s) && Enabled(s, a)
    ensures Inv(r)
  {
    match a
    case SetOnConnect(f) => SettersSpec(s, f, fixed); StepSetOnConnect(s, f)
    case SetOnRead(f) => SettersSpec(s, f, fixed); StepSetOnRead(s, f)
    case SetOnReadDone(f) => SettersSpec(s, f, fixed); StepSetOnReadDone(s, f)
    case SetOnWrite(f) => SettersSpec(s, f, fixed); StepSetOnWrite(s, f, fixed)
    case SetOnWritesDone(f) => SettersSpec(s, f, fixed); StepSetOnWritesDone(s, f)
    case SetOnError(f) => SettersSpec(s, f, fixed); StepSetOnError(s, f, fixed)
    case Connect => ConnectSpec(s); StepConnect(s)
    case Write(id) => SubmitSpec(s, Request(false, id), fixed); StepWrite(s, id, fixed)
    case WritesDone => SubmitSpec(s, Request(true, 0), fixed); StepWritesDone(s, fixed)
    case Close => CloseSpec(s, fixed); StepClose(s, fixed)
    case Release => ReleaseSpec(s, fixed); StepRelease(s, fixed)
    case ConnectDone(ok) => ProceedToConnectSpec(s, ok, fixed); StepProceedToConnect(s, ok, fixed)
    case ReadDone(ok) => ProceedToReadSpec(s, ok); StepProceedToRead(s, ok)
    case WriteDone(ok) => ProceedToWriteSpec(s, ok); StepProceedToWrite(s, ok)
  }

  /** Every corrected step keeps SafeInv. */
  lemma ApplySafe(s: State, a: Action)
    requires SafeInv(s) && Enabled(s, a)
    ensures SafeInv(Apply(s, a, true))
  {
    if Completion(a) {
      CompletionSafe(s, a);
    } else {
      CallSafe(s, a);
    }
  }

  lemma CallSafe(s: State, a: Action)
    requires SafeInv(s) && Enabled(s, a) && !Completion(a)
    ensures SafeInv(Apply(s, a, true))
  {
    if a.SetOnConnect? || a.SetOnRead? || a.SetOnReadDone? || a.SetOnWrite? || a.SetOnWritesDone? || a.SetOnError? {
      SettersSafe(s, a.f);
    } else if a.Connect? {
      ConnectSpec(s);
    } else if a.Write? {
      SubmitSafe(s, Request(false, a.id));
    } else if a.WritesDone? {
      SubmitSafe(s, Request(true, 0));
    } else if a.Close? {
      CloseSafe(s);
    } else {
      ReleaseSafe(s);
    }
  }

  lemma CompletionSafe(s: State, a: Action)
    requires SafeInv(s) && Enabled(s, a) && Completion(a)
    ensures SafeInv(Apply(s, a, true))
  {
    if a.ConnectDone? {
      ProceedToConnectSafe(s, a.ok);
    } else if a.ReadDone? {
      ProceedToReadSafe(s, a.ok);
    } else {
      ProceedToWriteSafe(s, a.ok);
    }
  }

  /** Every step as written keeps OnWrite and OnError silent. */
  lemma ApplySilent(s: State, a: Action)
    requires Inv(s) && Silenced(s) && Enabled(s, a)
    ensures Silenced(Apply(s, a, false))
  {
    if Completion(a) {
      CompletionSilent(s, a);
    } else {
      CallSilent(s, a);
    }
  }

  lemma CallSilent(s: State, a: Action)
    requires Inv(s) && Silenced(s) && Enabled(s, a) && !Completion(a)
    ensures Silenced(Apply(s, a, false))
  {
    if a.SetOnConnect? || a.SetOnRead? || a.SetOnReadDone? || a.SetOnWrite? || a.SetOnWritesDone? || a.SetOnError? {
      SettersSilent(s, a.f);
    } else if a.Connect? {
      ConnectSpec(s);
    } else if a.Write? {
      SubmitSilent(s, Request(false, a.id), false);
    } else if a.WritesDone? {
      SubmitSilent(s, Request(true, 0), false);
    } else if a.Close? {
      CloseSilent(s, false);
    } else {
      ReleaseSilent(s, false);
    }
  }

  lemma CompletionSilent(s: State, a: Action)
    requires Inv(s) && Silenced(s) && Enabled(s, a) && Completion(a)
    ensures Silenced(Apply(s, a, false))
  {
    if a.ConnectDone? {
      ProceedToConnectSilent(s, a.ok);
    } else if a.ReadDone? {
      ProceedToReadSilent(s, a.ok);
    } else {
      ProceedToWriteSilent(s, a.ok);
    }
  }

  /** The call after a sequence of actions (`fixed` selects the corrected
      call); actions that cannot happen are skipped. */
  function Run(s: State, trace: seq<Action>, fixed: bool): (r: State)
    requires Inv(s)
    ensures Inv(r)
    decreases |trace|
  {
    if trace == [] then s
    else
      var t := if Enabled(s, trace[0]) then Apply(s, trace[0], fixed) else s;
      Run(t, trace[1..], fixed)
  }

  lemma {:induction false} RunSafe(s: State, trace: seq<Action>)
    requires SafeInv(s)
    ensures SafeInv(Run(s, trace, true))
    decreases |trace|
  {
    if trace != [] {
      if Enabled(s, trace[0]) {
        ApplySafe(s, trace[0]);
        RunSafe(Apply(s, trace[0], true), trace[1..]);
      } else {
        RunSafe(s, trace[1..]);
      }
    }
  }

  lemma {:induction false} RunSilent(s: State, trace: seq<Action>)
    requires Inv(s) && Silenced(s)
    ensures Silenced(Run(s, trace, false))
    decreases |trace|
  {
    if trace != [] {
      if Enabled(s, trace[0]) {
        ApplySilent(s, trace[0]);
        RunSilent(Apply(s, trace[0], false), trace[1..]);
      } else {
        RunSilent(s, trace[1..]);
      }
    }
  }

  /** Nothing further happens to a call on which no action is enabled. */
  lemma {:induction false} StuckStaysStuck(s: State, trace: seq<Action>, fixed: bool)
    requires Inv(s) && forall a :: !Enabled(s, a)
    ensures Run(s, trace, fixed) == s
    decreases |trace|
  {
    if trace != [] {
      StuckStaysStuck(s, trace[1..], fixed);
    }
  }

  /** The leaked call of CancelDuringConnectLeaks is never deleted, whatever follows. */
  lemma LeakIsPermanent(ok: bool, trace: seq<Action>)
    ensures var s := StepProceedToConnect(StepRelease(StepConnect(Initial()), false), ok, false);
      Inv(s) && !Run(s, trace, false).deleted
  {
    CancelDuringConnectLeaks(ok);
    StuckStaysStuck(StepProceedToConnect(StepRelease(StepConnect(Initial()), false), ok, false), trace, false);
  }

  /** As written, over any life no error and no completed write ever
      reaches the user. */
  lemma AsWrittenNeverReports(trace: seq<Action>)
    ensures var r := Run(Initial(), trace, false);
      forall i :: 0 <= i < |r.events| ==> !r.events[i].OnError? && !r.events[i].OnWrite?
  {
    RunSilent(Initial(), trace);
  }

  /** Under the corrected call, over any life: no undefined behaviour, the
      requests go out in the order they were accepted and are acknowledged in
      the order they went out, a deleted call is owed nothing, and a released
      call that is owed nothing has been deleted. */
  lemma FixedLifetime(trace: seq<Action>)
    ensures var r := Run(Initial(), trace, true);
      && !r.fault
      && |r.acked| <= |r.sent| <= |r.accepted|
      && r.sent == r.accepted[..|r.sent|] && r.acked == r.sent[..|r.acked|]
      && (r.deleted ==> Quiet(r))
      && (r.release && Quiet(r) ==> r.deleted)
  {
    RunSafe(Initial(), trace);
    SafeConsequences(Run(Initial(), trace, true));
  }

  // ---- the object ----

  class ClientReaderWriter {
    var read: ReadStatus
    var write: WriteStatus
    var queue: seq<Request>
    var release: bool
    var nesting: int
    var onConnect: bool
    var onRead: bool
    var onReadDone: bool
    var onWrite: bool
    var onWritesDone: bool
    var onError: bool
    ghost var issued: seq<Op>
    ghost var events: seq<Event>
    ghost var owedConnect: int
    ghost var owedRead: int
    ghost var owedWrite: int
    ghost var accepted: seq<Request>
    ghost var sent: seq<Request>
    ghost var acked: seq<Request>
    ghost var deleted: bool
    ghost var fault: bool

    ghost function Model(): State
      reads this
    {
      State(read, write, queue, release, nesting,
            Callbacks(onConnect, onRead, onReadDone, onWrite, onWritesDone, onError),
            issued, events, owedConnect, owedRead, owedWrite, accepted, sent, acked, deleted, fault)
    }

    constructor ()
      ensures Model() == Initial()
    {
      read, write, queue, release, nesting := ReadStatus.Init, WriteStatus.Init, [], false, 0;
      onConnect, onRead, onReadDone, onWrite, onWritesDone, onError := false, false, false, false, false, false;
      issued, events, owedConnect, owedRead, owedWrite := [], [], 0, 0, 0;
      accepted, sent, acked, deleted, fault := [], [], [], false, false;
    }

    method SetOnConnect(f: bool)
      requires !deleted
      modifies this
      ensures Model() == StepSetOnConnect(old(Model()), f)
    {
      if !read.Init? || !write.Init? {
        return;
      }
      onConnect := f;
    }

    method SetOnRead(f: bool)
      requires !deleted
      modifies this
      ensures Model() == StepSetOnRead(old(Model()), f)
    {
      if !read.Init? || !write.Init? {
        return;
      }
      onRead := f;
    }

    method SetOnReadDone(f: bool)
      requires !deleted
      modifies this
      ensures Model() == StepSetOnReadDone(old(Model()), f)
    {
      if !read.Init? || !write.Init? {
        return;
      }
      onReadDone := f;
    }

    /** As written: the member is moved into itself and `f` is dropped. */
    method SetOnWrite(f: bool)
      requires !deleted
      modifies this
      ensures Model() == StepSetOnWrite(old(Model()), f, false)
    {
      if !read.Init? || !write.Init? {
        return;
      }
      onWrite := onWrite;
    }

    method SetOnWritesDone(f: bool)
      requires !deleted
      modifies this
      ensures Model() == StepSetOnWritesDone(old(Model()), f)
    {
      if !read.Init? || !write.Init? {
        return;
      }
      onWritesDone := f;
    }

    /** As written: the member is moved into itself and `f` is dropped. */
    method SetOnError(f: bool)
      requires !deleted
      modifies this
      ensures Model() == StepSetOnError(old(Model()), f, false)
    {
      if !read.Init? || !write.Init? {
        return;
      }
      onError := onError;
    }

    method Connect()
      requires !deleted
      modifies this
      ensures Model() == StepConnect(old(Model()))
    {
      if !read.Init? || !write.Init? {
        return;
      }
      read := ReadStatus.Connecting;
      write := WriteStatus.Connecting;
      issued := issued + [StartCall];
      owedConnect := owedConnect + 1;
    }

    method Release()
      requires !deleted
      modifies this
      ensures Model() == StepRelease(old(Model()), false)
    {
      release := true;
      DoClose();
      SafeDeleter();
    }

    method Close()
      requires !deleted
      modifies this
      ensures Model() == StepClose(old(Model()), false)
    {
      DoClose();
      SafeDeleter();
    }

    method DoClose()
      modifies this
      ensures Model() == DoCloseStep(old(Model()), false)
    {
      ghost var m0 := Model();
      if ReadActive(read) || WriteActive(write) {
        issued := issued + [TryCancel];
      }
      ghost var t := Model();
      if ReadActive(read) {
        read := ReadStatus.Canceling;
      } else {
        read := ReadStatus.Finished;
      }
      if WriteActive(write) {
        write := WriteStatus.Canceling;
      } else {
        write := WriteStatus.Finished;
      }
      assert Model() == t.(read := ClosedRead(m0.read, false), write := ClosedWrite(m0.write, false));
      Done();
    }

    method Done()
      modifies this
      ensures Model() == DoneStep(old(Model()))
    {
      if !read.Finished? || !write.Finished? {
        return;
      }
      ghost var m0 := Model();
      onConnect, onRead, onReadDone, onWritesDone, onError := false, false, false, false, false;
      // the moved-out callbacks are destroyed with the lock released, and
      // on_write_ is reset in place
      nesting := nesting + 1;
      onWrite := false;
      nesting := nesting - 1;
      assert Model() == m0.(cbs := NoCallbacks);
    }

    method Write(id: int)
      requires !deleted
      modifies this
      ensures Model() == StepWrite(old(Model()), id, false)
    {
      var req := Request(false, id);
      if write.Idle? {
        issued := issued + [WriteMsg(id)];
        owedWrite := owedWrite + 1;
        write := WriteStatus.Writing;
        accepted := accepted + [req];
        sent := sent + [req];
      } else if write.Init? || write.Connecting? || write.Writing? {
        queue := queue + [req];
        accepted := accepted + [req];
      }
    }

    method WritesDone()
      requires !deleted
      modifies this
      ensures Model() == StepWritesDone(old(Model()), false)
    {
      var req := Request(true, 0);
      if write.Idle? {
        issued := issued + [WritesDoneMsg];
        owedWrite := owedWrite + 1;
        write := WriteStatus.Finishing;
        accepted := accepted + [req];
        sent := sent + [req];
      } else if write.Init? || write.Connecting? || write.Writing? {
        queue := queue + [req];
        accepted := accepted + [req];
      }
    }

    /** The class's own RunCallback, which behaves as RunCallbackClient. */
    method RunCallback(installed: bool, e: Event)
      modifies this
      ensures Model() == Fire(old(Model()), installed, e)
    {
      var n, invoked := CallbackUtil.RunCallbackClient(nesting, installed);
      nesting := n;
      if invoked {
        events := events + [e];
      }
    }

    method SafeDeleter()
      modifies this
      ensures Model() == SafeDelete(old(Model()))
    {
      deleted := release && read.Finished? && write.Finished? && nesting == 0;
    }

    method HandleRequestQueue()
      modifies this
      ensures Model() == HandleQueue(old(Model()))
    {
      if queue == [] {
        write := WriteStatus.Idle;
        return;
      }
      var req := queue[0];
      if !req.isDone {
        // streamer_->Write on the writer thunk
        issued, sent, owedWrite := issued + [WriteMsg(req.id)], sent + [req], owedWrite + 1;
        write := WriteStatus.Writing;
      } else {
        // streamer_->WritesDone on the writer thunk
        issued, sent, owedWrite := issued + [WritesDoneMsg], sent + [req], owedWrite + 1;
        write := WriteStatus.Finishing;
      }
    }

    method ProceedToConnect(ok: bool)
      requires !deleted && owedConnect > 0
      requires (read.Connecting? && write.Connecting?) || (read.Canceling? && write.Canceling?)
      modifies this
      ensures Model() == StepProceedToConnect(old(Model()), ok, false)
    {
      owedConnect := owedConnect - 1;
      ConnectCompleted(ok);
      SafeDeleter();
    }

    method ConnectCompleted(ok: bool)
      modifies this
      ensures Model() == ConnectOutcome(old(Model()), ok, false)
    {
      if !read.Connecting? || !write.Connecting? {
        Done();
        return;
      }
      if !ok {
        ConnectFailed();
        return;
      }
      ConnectSucceeded();
    }

    method ConnectFailed()
      modifies this
      ensures Model() == ConnectFailure(old(Model()))
    {
      read := ReadStatus.Finished;
      write := WriteStatus.Finished;
      RunCallback(onError, OnError(ConnectError));
      Done();
    }

    method ConnectSucceeded()
      modifies this
      ensures Model() == ConnectSuccess(old(Model()))
    {
      ghost var m0 := Model();
      issued := issued + [Read];
      owedRead := owedRead + 1;
      read := ReadStatus.Reading;
      assert Model() == m0.(issued := m0.issued + [Read], owedRead := m0.owedRead + 1, read := ReadStatus.Reading);
      HandleRequestQueue();
      ghost var u := Model();
      RunCallback(onConnect, OnConnect);
      assert Model() == Fire(u, u.cbs.connect, OnConnect);
    }

    method ProceedToRead(ok: bool)
      requires !deleted && owedRead > 0
      requires read.Reading? || read.Finishing? || read.Canceling?
      modifies this
      ensures Model() == StepProceedToRead(old(Model()), ok)
    {
      owedRead := owedRead - 1;
      ReadCompleted(ok);
      SafeDeleter();
    }

    method ReadCompleted(ok: bool)
      modifies this
      ensures Model() == ReadOutcome(old(Model()), ok)
    {
      if read.Canceling? {
        read := ReadStatus.Finished;
        Done();
        return;
      }
      if !ok {
        ReadFailed();
        return;
      }
      ReadSucceeded();
    }

    method ReadFailed()
      modifies this
      ensures Model() == ReadFailure(old(Model()))
    {
      if read.Reading? {
        issued := issued + [Finish];
        owedRead := owedRead + 1;
        read := ReadStatus.Finishing;
      } else if read.Finishing? {
        read := ReadStatus.Finished;
        RunCallback(onError, OnError(ReadError));
        Done();
      }
    }

    method ReadSucceeded()
      modifies this
      ensures Model() == ReadSuccess(old(Model()))
    {
      if read.Reading? {
        issued := issued + [Read];
        owedRead := owedRead + 1;
        RunCallback(onRead, OnRead);
      } else if read.Finishing? {
        read := ReadStatus.Finished;
        RunCallback(onReadDone, OnReadDone);
        Done();
      }
    }

    method ProceedToWrite(ok: bool)
      requires !deleted && owedWrite > 0
      requires write.Writing? || write.Finishing? || write.Canceling?
      modifies this
      ensures Model() == StepProceedToWrite(old(Model()), ok)
    {
      owedWrite := owedWrite - 1;
      WriteCompleted(ok);
      SafeDeleter();
    }

    method WriteCompleted(ok: bool)
      modifies this
      ensures Model() == WriteOutcome(old(Model()), ok)
    {
      if write.Canceling? {
        write := WriteStatus.Finished;
        Done();
        return;
      }
      if !ok {
        write := WriteStatus.Finished;
        RunCallback(onError, OnError(WriteError));
        Done();
        return;
      }
      WriteSucceeded();
    }

    /** request_queue_.pop_front() */
    method PopRequest()
      modifies this
      ensures Model() == PopFront(old(Model()))
    {
      if queue == [] {
        fault := true;
        return;
      }
      acked := acked + [queue[0]];
      queue := queue[1..];
    }

    method WriteSucceeded()
      modifies this
      ensures Model() == WriteSuccess(old(Model()))
    {
      if write.Finishing? {
        var installed := onWritesDone;
        PopRequest();
        write := WriteStatus.Finished;
        RunCallback(installed, OnWritesDone);
        Done();
      } else if write.Writing? {
        if queue == [] {
          // front() of an empty deque
          PopRequest();
          HandleRequestQueue();
          return;
        }
        var req := queue[0];
        PopRequest();
        HandleRequestQueue();
        RunCallback(onWrite, OnWrite(req.id));
      }
    }
  }
}
