/** The older bidirectional-streaming server handler (class
    ServerReaderWriterHandler of include/ggrpc/server.h). Reading runs in a
    loop of Read completions; writing goes through response_queue_, whose
    front is the entry in flight: Write and Finish queue an entry (and set a
    zero-delay alarm when the queue was IDLE), the alarm sends the front,
    and each write completion pops it and sends the next one.

    `shut` is the value of the server's shutdown_requested_ closure.
    `pushed` records every entry ever queued, `issued` what the handler hands
    to gRPC or to the server, `events` the user hooks, the `owed` counters
    the completions still owed per thunk, and `deleted` the `p.reset(this)`
    taken when Deletable. */
module ServerV1ReaderWriter {
  datatype ReadStatus = RListening | Reading | RFinished

  datatype WriteStatus = WListening | Writing | Idle | Finishing | WFinished

  /** ResponseData: a response to write, or (finish) the final status. */
  datatype Response = Data(response: int) | FinishMark(code: int)

  /** RequestCall: the Request of Init; Rearm: gen_handler_(cq_); ReadOp:
      streamer_.Read; SetAlarm: Notify; WriteOp and FinishOp: streamer_.Write
      and streamer_.Finish; TryCancel: server_context_.TryCancel. */
  datatype Op =
    | RequestCall | Rearm | ReadOp | SetAlarm | TryCancel
    | WriteOp(response: int) | FinishOp(code: int)

  datatype Event = OnAccept | OnRead | OnReadDoneOrError

  datatype State = State(
    read: ReadStatus, write: WriteStatus, queue: seq<Response>,
    pushed: seq<Response>, sent: seq<Response>, issued: seq<Op>, events: seq<Event>,
    owedAccept: int, owedRead: int, owedNotify: int, owedWrite: int,
    deleted: bool)

  /** A handler just created and initialised by a generator. */
  function Initial(): (s: State)
    ensures Inv(s) && s.read == RListening && s.write == WListening && s.owedAccept == 1
  {
    State(RListening, WListening, [], [], [], [RequestCall], [], 1, 0, 0, 0, false)
  }

  /** The queue part of the invariant survives any step that leaves the
      queue, the pushed entries and the sent entries alone and that either
      ends writing or keeps the write status and the write owed. */
  lemma FifoFrame(s: State, t: State)
    requires Fifo(s)
    requires t.queue == s.queue && t.pushed == s.pushed && t.sent == s.sent
    requires t.write == WFinished || (t.write == s.write && t.owedWrite == s.owedWrite)
    requires t.owedNotify == 1 ==> s.owedNotify == 1
    ensures Fifo(t)
  {
  }

  /** Queueing an entry while IDLE or WRITING keeps the queue part of the
      invariant. */
  lemma FifoPush(s: State, t: State, r: Response)
    requires Fifo(s) && (s.write == Idle || s.write == Writing)
    requires t.queue == s.queue + [r] && t.pushed == s.pushed + [r] && t.sent == s.sent
    requires t.owedWrite == s.owedWrite
    requires t.write == (if s.write == Idle && r.FinishMark? then Finishing else Writing)
    ensures Fifo(t)
  {
    var n := |s.pushed| - |s.queue|;
    assert t.pushed[..|t.sent|] == s.pushed[..|s.sent|];
    assert t.pushed[n..] == s.pushed[n..] + [r];
  }

  /** Sending the front entry, when everything before it has been sent,
      keeps the queue part of the invariant. */
  lemma FifoSend(s: State, t: State)
    requires Fifo(s) && s.queue != [] && s.owedWrite == 0 && AllData(s.sent)
    requires s.write == Writing || s.write == Idle || s.write == Finishing
    requires t.queue == s.queue && t.pushed == s.pushed && t.sent == s.sent + [s.queue[0]]
    requires t.owedWrite == 1 && t.owedNotify == 0
    requires t.write == (if s.queue[0].Data? then Writing else Finishing)
    ensures Fifo(t)
  {
    var k := |s.sent|;
    assert s.queue[0] == s.pushed[k];
    assert s.pushed[..k + 1] == s.pushed[..k] + [s.pushed[k]];
  }

  predicate AllData(rs: seq<Response>)
  {
    forall i :: 0 <= i < |rs| ==> rs[i].Data?
  }

  /** Only the last entry sent may be the final status. */
  predicate FinishLast(rs: seq<Response>)
  {
    forall i :: 0 <= i < |rs| - 1 ==> rs[i].Data?
  }

  /** OnAccept first and only first; OnReadDoneOrError, if any, last. */
  predicate EventsWellFormed(ev: seq<Event>)
  {
    && (ev != [] ==> ev[0] == OnAccept)
    && (forall i :: 1 <= i < |ev| ==> ev[i] != OnAccept)
    && (forall i :: 0 <= i < |ev| - 1 ==> ev[i] != OnReadDoneOrError)
  }

  predicate Deletable(s: State)
  {
    s.read == RFinished && s.write == WFinished
  }

  predicate Quiet(s: State)
  {
    s.owedAccept == 0 && s.owedRead == 0 && s.owedNotify == 0 && s.owedWrite == 0
  }

  /** The lifecycle part of the invariant: which completions are owed in
      which statuses, and when the handler is deleted. */
  predicate Lifecycle(s: State)
  {
    && 0 <= s.owedAccept <= 1 && 0 <= s.owedRead <= 1
    && 0 <= s.owedNotify <= 1 && 0 <= s.owedWrite <= 1
    && (s.read == RListening <==> s.owedAccept == 1)
    && (s.read == RListening <==> s.write == WListening)
    && (s.read == RListening ==> s.events == [] && s.pushed == [] && s.owedRead == 0)
    && (s.read == Reading ==> s.owedRead == 1 && s.events != [] && OnReadDoneOrError !in s.events)
    && (s.read == RFinished ==> s.owedRead == 0)
    && (s.write == WListening || s.write == Idle || s.write == WFinished ==> s.owedNotify == 0 && s.owedWrite == 0)
    && (s.write == WListening || s.write == Idle ==> s.queue == [])
    && (s.write == Writing ==> s.queue != [] && s.queue[0].Data? && s.owedNotify + s.owedWrite == 1)
    && (s.write == Finishing ==> s.queue != [] && s.queue[0].FinishMark? && s.owedNotify + s.owedWrite == 1)
    && (s.deleted <==> Deletable(s))
    && EventsWellFormed(s.events)
  }

  /** The queue part: the queue is the tail of what was pushed, what was
      sent is a prefix of what was pushed, the front is the entry in flight,
      and the final status, once sent, is the last thing sent. */
  predicate Fifo(s: State)
  {
    && |s.queue| <= |s.pushed| && s.queue == s.pushed[|s.pushed| - |s.queue|..]
    && |s.sent| <= |s.pushed| && s.sent == s.pushed[..|s.sent|]
    && (s.write == Writing || s.write == Idle || s.write == Finishing ==>
          |s.sent| == |s.pushed| - |s.queue| + s.owedWrite)
    && (s.write == Writing || s.write == Idle || s.owedNotify == 1 ==> AllData(s.sent))
    && FinishLast(s.sent)
  }

  predicate Inv(s: State)
  {
    Lifecycle(s) && Fifo(s)
  }

  /** A deleted handler is owed nothing. */
  lemma DeletedIsQuiet(s: State)
    requires Inv(s) && s.deleted
    ensures Quiet(s)
  {
  }

  // ---- internal steps ----

  /** FinishRead: a read still pending is cancelled, otherwise reading is over. */
  function FinishRead(s: State): State
  {
    if s.read == RListening || s.read == Reading then s.(issued := s.issued + [TryCancel])
    else s.(read := RFinished)
  }

  /** FinishWrite: a write still pending is cancelled, otherwise writing is over. */
  function FinishWrite(s: State): State
  {
    if s.write == WListening || s.write == Writing || s.write == Finishing then s.(issued := s.issued + [TryCancel])
    else s.(write := WFinished)
  }

  /** The `if (Deletable()) p.reset(this)` that ends most branches. */
  function Reap(s: State): State
  {
    s.(deleted := Deletable(s))
  }

  /** Sends the front entry: streamer_.Write for a response, streamer_.Finish
      (and FINISHING) for the final status. */
  function SendFront(s: State): State
  {
    if s.queue == [] then s
    else if s.queue[0].Data? then
      s.(issued := s.issued + [WriteOp(s.queue[0].response)], sent := s.sent + [s.queue[0]],
         owedWrite := s.owedWrite + 1)
    else
      s.(issued := s.issued + [FinishOp(s.queue[0].code)], sent := s.sent + [s.queue[0]],
         write := Finishing, owedWrite := s.owedWrite + 1)
  }

  // ---- user calls ----

  /** Write (a Data entry) and Finish (a FinishMark): ignored after a
      shutdown request; queued and announced by the alarm when IDLE; queued
      behind the entries in flight when WRITING; dropped otherwise. */
  function StepEnqueue(s: State, r: Response, shut: bool): State
  {
    if shut then s
    else if s.write == Idle then
      s.(write := if r.Data? then Writing else Finishing,
         queue := s.queue + [r], pushed := s.pushed + [r],
         issued := s.issued + [SetAlarm], owedNotify := s.owedNotify + 1)
    else if s.write == Writing then
      s.(queue := s.queue + [r], pushed := s.pushed + [r])
    else s
  }

  lemma EnqueueSpec(s: State, r: Response, shut: bool)
    requires Inv(s) && !s.deleted
    ensures var t := StepEnqueue(s, r, shut);
      && Inv(t) && t.events == s.events && t.read == s.read
      && (shut || (s.write != Idle && s.write != Writing) ==> t == s)
      && (!shut && s.write == Idle ==>
            t.queue == [r] && t.pushed == s.pushed + [r] && t.issued == s.issued + [SetAlarm]
            && t.write == (if r.Data? then Writing else Finishing) && t.owedNotify == 1)
      && (!shut && s.write == Writing ==>
            t.queue == s.queue + [r] && t.pushed == s.pushed + [r] && t.issued == s.issued && t.write == Writing)
  {
    if !shut && s.write == Idle {
      EnqueueIdle(s, r);
    } else if !shut && s.write == Writing {
      EnqueueWriting(s, r);
    }
  }

  lemma EnqueueIdle(s: State, r: Response)
    requires Inv(s) && !s.deleted && s.write == Idle
    ensures Inv(StepEnqueue(s, r, false))
  {
    var t := StepEnqueue(s, r, false);
    FifoPush(s, t, r);
    assert Lifecycle(t);
  }

  lemma EnqueueWriting(s: State, r: Response)
    requires Inv(s) && !s.deleted && s.write == Writing
    ensures Inv(StepEnqueue(s, r, false))
  {
    var t := StepEnqueue(s, r, false);
    FifoPush(s, t, r);
    assert Lifecycle(t);
  }

  // ---- completion handlers ----

  /** ProceedToAccept: after a shutdown request or a failed accept both
      directions finish and the handler deletes itself; otherwise it re-arms
      the generator, becomes IDLE, runs OnAccept and starts reading. */
  function StepProceedToAccept(s: State, ok: bool, shut: bool): State
  {
    var t := s.(owedAccept := s.owedAccept - 1);
    if shut || !ok then Reap(t.(read := RFinished, write := WFinished))
    else
      t.(issued := t.issued + [Rearm, ReadOp], write := Idle, events := t.events + [OnAccept],
         read := Reading, owedRead := t.owedRead + 1)
  }

  lemma ProceedToAcceptSpec(s: State, ok: bool, shut: bool)
    requires Inv(s) && !s.deleted && s.owedAccept > 0
    ensures var t := StepProceedToAccept(s, ok, shut);
      && Inv(t) && t.owedAccept == 0
      && (shut || !ok ==> t.deleted && Quiet(t) && t.issued == s.issued && t.events == [])
      && (!shut && ok ==>
            t.read == Reading && t.write == Idle && t.events == [OnAccept]
            && t.issued == s.issued + [Rearm, ReadOp] && t.owedRead == 1)
  {
    if !shut && ok {
      assert s.pushed == [] && s.sent == [] && s.queue == [];
    } else {
      FifoFrame(s, StepProceedToAccept(s, ok, shut));
    }
  }

  /** ProceedToRead: after a shutdown request reading is over and writing is
      finished or cancelled; a failed read reports OnReadDoneOrError and ends
      reading; a successful one reports OnRead and reads again. */
  function StepProceedToRead(s: State, ok: bool, shut: bool): State
  {
    var t := s.(owedRead := s.owedRead - 1);
    if shut then Reap(FinishWrite(t.(read := RFinished)))
    else if !ok then Reap(t.(events := t.events + [OnReadDoneOrError], read := RFinished))
    else t.(events := t.events + [OnRead], issued := t.issued + [ReadOp], owedRead := t.owedRead + 1)
  }

  lemma ProceedToReadSpec(s: State, ok: bool, shut: bool)
    requires Inv(s) && !s.deleted && s.owedRead > 0
    ensures var t := StepProceedToRead(s, ok, shut);
      && Inv(t) && t.queue == s.queue && t.pushed == s.pushed
      && (shut || !ok ==> t.read == RFinished && t.owedRead == 0 && (t.deleted <==> t.write == WFinished))
      && (shut ==> t.events == s.events
                   && t.issued == s.issued + (if s.write == Idle || s.write == WFinished then [] else [TryCancel]))
      && (!shut && !ok ==> t.events == s.events + [OnReadDoneOrError] && t.issued == s.issued)
      && (!shut && ok ==>
            t.read == Reading && t.events == s.events + [OnRead] && t.issued == s.issued + [ReadOp])
  {
    var t := StepProceedToRead(s, ok, shut);
    FifoFrame(s, t);
  }

  /** ProceedToWrite: after a shutdown request or a failed write, reading is
      finished or cancelled and writing is over; otherwise a completion while
      WRITING pops the entry just written and sends the next one (or goes
      IDLE), and one while FINISHING ends writing. */
  function StepProceedToWrite(s: State, ok: bool, shut: bool): State
  {
    var t := s.(owedWrite := s.owedWrite - 1);
    if shut || !ok then Reap(FinishRead(t).(write := WFinished))
    else if t.write == Writing then
      var rest := if t.queue == [] then [] else t.queue[1..];
      if rest == [] then t.(queue := rest, write := Idle)
      else SendFront(t.(queue := rest))
    else if t.write == Finishing then Reap(t.(write := WFinished))
    else t
  }

  lemma ProceedToWriteFailSpec(s: State, ok: bool, shut: bool)
    requires Inv(s) && !s.deleted && s.owedWrite > 0 && (shut || !ok)
    ensures var t := StepProceedToWrite(s, ok, shut);
      && Inv(t) && t.write == WFinished && t.read == s.read && t.events == s.events
      && t.issued == s.issued + (if s.read == Reading then [TryCancel] else [])
      && (t.deleted <==> t.read == RFinished)
  {
    FifoFrame(s, StepProceedToWrite(s, ok, shut));
  }

  lemma ProceedToWriteNextSpec(s: State)
    requires Inv(s) && !s.deleted && s.owedWrite > 0 && s.write == Writing
    ensures var t := StepProceedToWrite(s, true, false);
      && Inv(t) && t.queue == s.queue[1..] && t.pushed == s.pushed && !t.deleted
      && (t.queue == [] ==> t.write == Idle && t.issued == s.issued && Quiet(t.(owedRead := 0)))
      && (t.queue != [] ==> t.sent == s.sent + [t.queue[0]] && t.owedWrite == 1
                            && t.write == (if t.queue[0].Data? then Writing else Finishing))
  {
    var u := s.(owedWrite := 0, queue := s.queue[1..]);
    assert u.queue == u.pushed[|u.pushed| - |u.queue|..];
    assert Fifo(u);
    if u.queue != [] {
      FifoSend(u, SendFront(u));
    }
  }

  lemma ProceedToWriteFinishingSpec(s: State)
    requires Inv(s) && !s.deleted && s.owedWrite > 0 && s.write == Finishing
    ensures var t := StepProceedToWrite(s, true, false);
      && Inv(t) && t.write == WFinished && t.issued == s.issued && t.events == s.events
      && (t.deleted <==> t.read == RFinished)
  {
  }

  /** ProceedToNotify: after a shutdown request, a cancelled alarm or with
      nothing queued, reading is finished or cancelled and writing is over;
      otherwise the front entry is sent, without popping it. */
  function StepProceedToNotify(s: State, ok: bool, shut: bool): State
  {
    var t := s.(owedNotify := s.owedNotify - 1);
    if shut || !ok || t.queue == [] then Reap(FinishRead(t).(write := WFinished))
    else SendFront(t)
  }

  lemma ProceedToNotifySpec(s: State, ok: bool, shut: bool)
    requires Inv(s) && !s.deleted && s.owedNotify > 0
    ensures s.queue != []
    ensures var t := StepProceedToNotify(s, ok, shut);
      && Inv(t) && t.queue == s.queue && t.pushed == s.pushed && t.events == s.events
      && (shut || !ok ==> t.write == WFinished && (t.deleted <==> t.read == RFinished))
      && (!shut && ok ==>
            t.sent == s.sent + [s.queue[0]] && t.owedWrite == 1
            && t.write == (if s.queue[0].Data? then Writing else Finishing))
  {
    if shut || !ok {
      FifoFrame(s, StepProceedToNotify(s, ok, shut));
    } else {
      var u := s.(owedNotify := 0);
      FifoSend(u, SendFront(u));
    }
  }

  // ---- lifetimes ----

  datatype Action =
    | Write(response: int, shut: bool)
    | Finish(code: int, shut: bool)
    | AcceptDone(ok: bool, shut: bool)
    | ReadDone(ok: bool, shut: bool)
    | WriteDone(ok: bool, shut: bool)
    | NotifyDone(ok: bool, shut: bool)

  predicate Enabled(s: State, a: Action)
  {
    && !s.deleted
    && (a.AcceptDone? ==> s.owedAccept > 0)
    && (a.ReadDone? ==> s.owedRead > 0)
    && (a.WriteDone? ==> s.owedWrite > 0)
    && (a.NotifyDone? ==> s.owedNotify > 0)
  }

  lemma WriteDoneSpec(s: State, ok: bool, shut: bool)
    requires Inv(s) && !s.deleted && s.owedWrite > 0
    ensures Inv(StepProceedToWrite(s, ok, shut))
  {
    if shut || !ok {
      ProceedToWriteFailSpec(s, ok, shut);
    } else if s.write == Writing {
      ProceedToWriteNextSpec(s);
    } else {
      ProceedToWriteFinishingSpec(s);
    }
  }

  function Apply(s: State, a: Action): (r: State)
    requires Inv(s) && Enabled(s, a)
    ensures Inv(r)
  {
    match a
    case Write(resp, shut) => EnqueueSpec(s, Data(resp), shut); StepEnqueue(s, Data(resp), shut)
    case Finish(code, shut) => EnqueueSpec(s, FinishMark(code), shut); StepEnqueue(s, FinishMark(code), shut)
    case AcceptDone(ok, shut) => ProceedToAcceptSpec(s, ok, shut); StepProceedToAccept(s, ok, shut)
    case ReadDone(ok, shut) => ProceedToReadSpec(s, ok, shut); StepProceedToRead(s, ok, shut)
    case WriteDone(ok, shut) => WriteDoneSpec(s, ok, shut); StepProceedToWrite(s, ok, shut)
    case NotifyDone(ok, shut) => ProceedToNotifySpec(s, ok, shut); StepProceedToNotify(s, ok, shut)
  }

  function Run(s: State, trace: seq<Action>): (r: State)
    requires Inv(s)
    ensures Inv(r)
    decreases |trace|
  {
    if trace == [] then s
    else
      var t := if Enabled(s, trace[0]) then Apply(s, trace[0]) else s;
      Run(t, trace[1..])
  }

  /** Over any life of a handler: the entries sent are a prefix of the
      entries queued, in the order queued, so none is skipped, duplicated or
      reordered; nothing is sent after the final status; OnAccept comes
      first and OnReadDoneOrError, if at all, last; and the handler is
      deleted exactly when both directions are FINISHED, owing nothing. */
  lemma Lifetime(trace: seq<Action>)
    ensures var r := Run(Initial(), trace);
      && r.sent == r.pushed[..|r.sent|]
      && FinishLast(r.sent)
      && EventsWellFormed(r.events)
      && (r.deleted <==> r.read == RFinished && r.write == WFinished)
      && (r.deleted ==> Quiet(r))
  {
  }

  // ---- the object ----

  class ServerReaderWriterHandler {
    var read: ReadStatus
    var write: WriteStatus
    var queue: seq<Response>
    ghost var pushed: seq<Response>
    ghost var sent: seq<Response>
    ghost var issued: seq<Op>
    ghost var events: seq<Event>
    ghost var owedAccept: int
    ghost var owedRead: int
    ghost var owedNotify: int
    ghost var owedWrite: int
    ghost var deleted: bool

    ghost function Model(): State
      reads this
    {
      State(read, write, queue, pushed, sent, issued, events, owedAccept, owedRead, owedNotify, owedWrite, deleted)
    }

    /** The generator's `new` followed by Init, which requests the next call. */
    constructor ()
      ensures Model() == Initial()
    {
      read, write, queue := RListening, WListening, [];
      pushed, sent, issued, events := [], [], [RequestCall], [];
      owedAccept, owedRead, owedNotify, owedWrite := 1, 0, 0, 0;
      deleted := false;
    }

    method Write(response: int, shut: bool)
      requires !deleted
      modifies this
      ensures Model() == StepEnqueue(old(Model()), Data(response), shut)
    {
      if shut {
        return;
      }
      if write == Idle {
        write := Writing;
        Push(Data(response));
        Notify();
      } else if write == Writing {
        Push(Data(response));
      }
    }

    method Finish(code: int, shut: bool)
      requires !deleted
      modifies this
      ensures Model() == StepEnqueue(old(Model()), FinishMark(code), shut)
    {
      if shut {
        return;
      }
      if write == Idle {
        write := Finishing;
        Push(FinishMark(code));
        Notify();
      } else if write == Writing {
        Push(FinishMark(code));
      }
    }

    /** response_queue_.push_back. */
    method Push(r: Response)
      modifies this
      ensures Model() == old(Model()).(queue := old(queue) + [r], pushed := old(pushed) + [r])
    {
      queue := queue + [r];
      pushed := pushed + [r];
    }

    method Notify()
      modifies this
      ensures Model() == old(Model()).(issued := old(issued) + [SetAlarm], owedNotify := old(owedNotify) + 1)
    {
      issued := issued + [SetAlarm];
      owedNotify := owedNotify + 1;
    }

    method DoFinishRead()
      modifies this
      ensures Model() == FinishRead(old(Model()))
    {
      if read == RListening || read == Reading {
        issued := issued + [TryCancel];
      } else {
        read := RFinished;
      }
    }

    method DoFinishWrite()
      modifies this
      ensures Model() == FinishWrite(old(Model()))
    {
      if write == WListening || write == Writing || write == Finishing {
        issued := issued + [TryCancel];
      } else {
        write := WFinished;
      }
    }

    method MaybeDelete()
      modifies this
      ensures Model() == Reap(old(Model()))
    {
      deleted := read == RFinished && write == WFinished;
    }

    method WriteFront()
      modifies this
      ensures Model() == SendFront(old(Model()))
    {
      if queue == [] {
        return;
      }
      var d := queue[0];
      sent := sent + [d];
      if d.Data? {
        issued := issued + [WriteOp(d.response)];
      } else {
        issued := issued + [FinishOp(d.code)];
        write := Finishing;
      }
      owedWrite := owedWrite + 1;
    }

    method ProceedToAccept(ok: bool, shut: bool)
      requires !deleted && owedAccept > 0
      modifies this
      ensures Model() == StepProceedToAccept(old(Model()), ok, shut)
    {
      owedAccept := owedAccept - 1;
      if shut || !ok {
        read := RFinished;
        write := WFinished;
        MaybeDelete();
        return;
      }
      issued := issued + [Rearm];
      write := Idle;
      events := events + [OnAccept];
      read := Reading;
      issued := issued + [ReadOp];
      owedRead := owedRead + 1;
    }

    method ProceedToRead(ok: bool, shut: bool)
      requires !deleted && owedRead > 0
      modifies this
      ensures Model() == StepProceedToRead(old(Model()), ok, shut)
    {
      owedRead := owedRead - 1;
      if shut {
        read := RFinished;
        DoFinishWrite();
        MaybeDelete();
        return;
      }
      if !ok {
        events := events + [OnReadDoneOrError];
        read := RFinished;
        MaybeDelete();
        return;
      }
      events := events + [OnRead];
      issued := issued + [ReadOp];
      owedRead := owedRead + 1;
    }

    method ProceedToWrite(ok: bool, shut: bool)
      requires !deleted && owedWrite > 0
      modifies this
      ensures Model() == StepProceedToWrite(old(Model()), ok, shut)
    {
      owedWrite := owedWrite - 1;
      if shut || !ok {
        DoFinishRead();
        write := WFinished;
        MaybeDelete();
        return;
      }
      if write == Idle {
      } else if write == Writing {
        queue := if queue == [] then [] else queue[1..];
        if queue == [] {
          write := Idle;
        } else {
          WriteFront();
        }
      } else if write == Finishing {
        write := WFinished;
        MaybeDelete();
      }
    }

    method ProceedToNotify(ok: bool, shut: bool)
      requires !deleted && owedNotify > 0
      modifies this
      ensures Model() == StepProceedToNotify(old(Model()), ok, shut)
    {
      owedNotify := owedNotify - 1;
      if shut || !ok || queue == [] {
        DoFinishRead();
        write := WFinished;
        MaybeDelete();
        return;
      }
      WriteFront();
    }
  }
}
