/** The older unary server handler (class ServerResponseWriterHandler of
    include/ggrpc/server.h): it waits for a call, re-arms the generator and
    hands the request to OnAccept; the first Finish or FinishWithError made
    while IDLE is stored and a zero-delay alarm is set, whose notification
    sends the stored reply; the write completion ends the call.

    `shut` is the value the server's shutdown_requested_ closure returns at
    that moment. `issued` records what the handler hands to gRPC or to the
    server, `events` the user hook OnAccept, the `owed` counters the
    completions gRPC still owes per thunk, and `deleted` the `p.reset(this)`
    of every branch that reaches FINISHED. The handler has no callback
    counter: its hooks are virtual member functions, always present. */
module ServerV1ResponseWriter {
  datatype Option<T> = None | Some(value: T)

  datatype Status = Listening | Idle | Finishing | Finished

  /** response_: a response with its status, or an error status. */
  datatype Reply = Success(response: int, code: int) | Failure(code: int)

  /** RequestCall: the Request of Init; Rearm: gen_handler_(cq_); SetAlarm:
      Notify; Send: response_writer_.Finish or FinishWithError. */
  datatype Op = RequestCall | Rearm | SetAlarm | Send(reply: Reply)

  datatype Event = OnAccept

  datatype State = State(
    status: Status, reply: Option<Reply>,
    issued: seq<Op>, events: seq<Event>,
    owedAccept: int, owedNotify: int, owedWrite: int, deleted: bool)

  /** A handler just created and initialised by a generator. */
  function Initial(): (s: State)
    ensures Inv(s) && s.status == Listening && s.owedAccept == 1
  {
    State(Listening, None, [RequestCall], [], 1, 0, 0, false)
  }

  /** The replies sent so far, in order: exactly the replies of the `Send`
      operations. */
  function Sent(ops: seq<Op>): (r: seq<Reply>)
    ensures |r| <= |ops|
    ensures forall x :: x in r <==> Send(x) in ops
  {
    if ops == [] then []
    else
      var last := ops[|ops| - 1];
      assert ops == ops[..|ops| - 1] + [last];
      Sent(ops[..|ops| - 1]) + (if last.Send? then [last.reply] else [])
  }

  lemma SentSnoc(ops: seq<Op>, o: Op)
    ensures Sent(ops + [o]) == Sent(ops) + (if o.Send? then [o.reply] else [])
  {
    assert (ops + [o])[..|ops|] == ops;
  }

  predicate Quiet(s: State)
  {
    s.owedAccept == 0 && s.owedNotify == 0 && s.owedWrite == 0
  }

  /** Exactly one completion is owed until the call is FINISHED: the accept
      while LISTENING, none while IDLE, the alarm or the write while
      FINISHING. A reply is stored only once OnAccept has run, and at most
      one reply is sent: the stored one, once the alarm has fired. */
  predicate Inv(s: State)
  {
    && 0 <= s.owedAccept <= 1 && 0 <= s.owedNotify <= 1 && 0 <= s.owedWrite <= 1
    && (s.status == Listening <==> s.owedAccept == 1)
    && (s.status == Listening ==> s.reply.None? && s.events == [] && s.owedNotify == 0 && s.owedWrite == 0)
    && (s.status == Idle ==> s.reply.None? && s.events == [OnAccept] && s.owedNotify == 0 && s.owedWrite == 0)
    && (s.status == Finishing ==> s.reply.Some? && s.events == [OnAccept] && s.owedNotify + s.owedWrite == 1)
    && (s.status == Finished ==> Quiet(s))
    && |s.events| <= 1
    && (s.deleted <==> s.status == Finished)
    && |Sent(s.issued)| <= 1
    && (s.reply.None? || s.owedNotify == 1 ==> Sent(s.issued) == [])
    && (s.reply.Some? ==> s.events == [OnAccept])
    && (s.owedWrite == 1 ==> s.reply.Some? && Sent(s.issued) == [s.reply.value])
    && (Sent(s.issued) != [] ==> s.reply.Some? && Sent(s.issued) == [s.reply.value])
  }

  // ---- user calls ----

  /** Finish (a Success) and FinishWithError (a Failure): ignored once
      shutdown is requested and in any status but IDLE; otherwise the reply
      is stored and the alarm set. */
  function StepReply(s: State, rep: Reply, shut: bool): State
  {
    if shut || s.status != Idle then s
    else s.(reply := Some(rep), status := Finishing, issued := s.issued + [SetAlarm],
            owedNotify := s.owedNotify + 1)
  }

  /** Only the first Finish or FinishWithError made while IDLE counts: it
      stores its reply and sets exactly one alarm; every later one, and any
      one after a shutdown request, changes nothing. */
  lemma ReplySpec(s: State, rep: Reply, shut: bool, rep2: Reply, shut2: bool)
    requires Inv(s) && !s.deleted
    ensures var r := StepReply(s, rep, shut);
      && Inv(r) && r.events == s.events
      && (shut || s.status != Idle ==> r == s)
      && (!shut && s.status == Idle ==>
            r.status == Finishing && r.reply == Some(rep)
            && r.issued == s.issued + [SetAlarm] && r.owedNotify == 1
            && StepReply(r, rep2, shut2) == r)
  {
    SentSnoc(s.issued, SetAlarm);
  }

  // ---- completion handlers ----

  /** ProceedToAccept: after a shutdown request or a failed accept the
      handler finishes and deletes itself without re-arming; otherwise it
      re-arms the generator, becomes IDLE and runs OnAccept. */
  function StepProceedToAccept(s: State, ok: bool, shut: bool): State
  {
    var t := s.(owedAccept := s.owedAccept - 1);
    if shut || !ok then t.(status := Finished, deleted := true)
    else t.(issued := t.issued + [Rearm], status := Idle, events := t.events + [OnAccept])
  }

  lemma ProceedToAcceptSpec(s: State, ok: bool, shut: bool)
    requires Inv(s) && !s.deleted && s.owedAccept > 0
    ensures var r := StepProceedToAccept(s, ok, shut);
      && Inv(r) && r.owedAccept == 0
      && (shut || !ok ==> r.status == Finished && r.deleted && r.issued == s.issued && r.events == [])
      && (!shut && ok ==>
            r.status == Idle && !r.deleted && r.issued == s.issued + [Rearm] && r.events == [OnAccept])
  {
    SentSnoc(s.issued, Rearm);
  }

  /** ProceedToNotify: after a shutdown request or a cancelled alarm the
      handler finishes and deletes itself; otherwise it sends the stored
      reply, a response with Finish or an error with FinishWithError. */
  function StepProceedToNotify(s: State, ok: bool, shut: bool): State
  {
    var t := s.(owedNotify := s.owedNotify - 1);
    if shut || !ok then t.(status := Finished, deleted := true)
    else
      var rep := if t.reply.Some? then t.reply.value else Failure(0);
      t.(issued := t.issued + [Send(rep)], status := Finishing, owedWrite := t.owedWrite + 1)
  }

  lemma ProceedToNotifySpec(s: State, ok: bool, shut: bool)
    requires Inv(s) && !s.deleted && s.owedNotify > 0
    ensures s.reply.Some?
    ensures var r := StepProceedToNotify(s, ok, shut);
      && Inv(r) && r.events == s.events && r.reply == s.reply
      && (shut || !ok ==> r.status == Finished && r.deleted && r.issued == s.issued)
      && (!shut && ok ==>
            r.status == Finishing && r.issued == s.issued + [Send(s.reply.value)]
            && r.owedWrite == 1 && Sent(r.issued) == [s.reply.value])
  {
    SentSnoc(s.issued, Send(s.reply.value));
  }

  /** ProceedToWrite: whatever the outcome, the call is over and the
      handler deletes itself. */
  function StepProceedToWrite(s: State, ok: bool, shut: bool): State
  {
    s.(owedWrite := s.owedWrite - 1, status := Finished, deleted := true)
  }

  lemma ProceedToWriteSpec(s: State, ok: bool, shut: bool)
    requires Inv(s) && !s.deleted && s.owedWrite > 0
    ensures var r := StepProceedToWrite(s, ok, shut);
      && Inv(r) && r.status == Finished && r.deleted && Quiet(r)
      && r.issued == s.issued && r.events == s.events
  {
  }

  // ---- lifetimes ----

  datatype Action =
    | Finish(response: int, code: int, shut: bool)
    | FinishWithError(code: int, shut: bool)
    | AcceptDone(ok: bool, shut: bool)
    | NotifyDone(ok: bool, shut: bool)
    | WriteDone(ok: bool, shut: bool)

  /** A deleted handler takes nothing; a completion arrives only when owed. */
  predicate Enabled(s: State, a: Action)
  {
    && !s.deleted
    && (a.AcceptDone? ==> s.owedAccept > 0)
    && (a.NotifyDone? ==> s.owedNotify > 0)
    && (a.WriteDone? ==> s.owedWrite > 0)
  }

  function Apply(s: State, a: Action): (r: State)
    requires Inv(s) && Enabled(s, a)
    ensures Inv(r)
  {
    match a
    case Finish(resp, code, shut) =>
      ReplySpec(s, Success(resp, code), shut, Success(resp, code), shut); StepReply(s, Success(resp, code), shut)
    case FinishWithError(code, shut) =>
      ReplySpec(s, Failure(code), shut, Failure(code), shut); StepReply(s, Failure(code), shut)
    case AcceptDone(ok, shut) => ProceedToAcceptSpec(s, ok, shut); StepProceedToAccept(s, ok, shut)
    case NotifyDone(ok, shut) => ProceedToNotifySpec(s, ok, shut); StepProceedToNotify(s, ok, shut)
    case WriteDone(ok, shut) => ProceedToWriteSpec(s, ok, shut); StepProceedToWrite(s, ok, shut)
  }

  function Run(s: State, trace: seq<Action>): (r: State)
    requires Inv(s)
    ensures Inv(r)
    decreases |trace|
  {
    if trace == [] then s
    else
      var t := if Enabled(s, trace[0]) then Apply(s, trace[0]) else s;
      Run(t, trace[1..])
  }

  /** Over any life of a handler: OnAccept runs at most once, at most one
      reply is sent and it is the one stored by the first accepted Finish
      or FinishWithError, nothing is sent unless OnAccept ran, and the
      handler is deleted exactly when it is FINISHED, owing nothing. */
  lemma Lifetime(trace: seq<Action>)
    ensures var r := Run(Initial(), trace);
      && |r.events| <= 1
      && |Sent(r.issued)| <= 1
      && (Sent(r.issued) != [] ==> r.reply.Some? && Sent(r.issued)[0] == r.reply.value && r.events == [OnAccept])
      && (r.deleted <==> r.status == Finished)
      && (r.deleted ==> Quiet(r))
  {
  }

  // ---- the object ----

  class ServerResponseWriterHandler {
    var status: Status
    var reply: Option<Reply>
    ghost var issued: seq<Op>
    ghost var events: seq<Event>
    ghost var owedAccept: int
    ghost var owedNotify: int
    ghost var owedWrite: int
    ghost var deleted: bool

    ghost function Model(): State
      reads this
    {
      State(status, reply, issued, events, owedAccept, owedNotify, owedWrite, deleted)
    }

    /** The generator's `new` followed by Init, which requests the next call. */
    constructor ()
      ensures Model() == Initial()
    {
      status, reply := Listening, None;
      issued, events := [RequestCall], [];
      owedAccept, owedNotify, owedWrite, deleted := 1, 0, 0, false;
    }

    method Finish(response: int, code: int, shut: bool)
      requires !deleted
      modifies this
      ensures Model() == StepReply(old(Model()), Success(response, code), shut)
    {
      if shut {
        return;
      }
      if status == Idle {
        reply := Some(Success(response, code));
        status := Finishing;
        Notify();
      }
    }

    method FinishWithError(code: int, shut: bool)
      requires !deleted
      modifies this
      ensures Model() == StepReply(old(Model()), Failure(code), shut)
    {
      if shut {
        return;
      }
      if status == Idle {
        reply := Some(Failure(code));
        status := Finishing;
        Notify();
      }
    }

    /** Notify: a zero-delay alarm on the notifier thunk. */
    method Notify()
      modifies this
      ensures Model() == old(Model()).(issued := old(issued) + [SetAlarm], owedNotify := old(owedNotify) + 1)
    {
      issued := issued + [SetAlarm];
      owedNotify := owedNotify + 1;
    }

    method ProceedToAccept(ok: bool, shut: bool)
      requires !deleted && owedAccept > 0
      modifies this
      ensures Model() == StepProceedToAccept(old(Model()), ok, shut)
    {
      owedAccept := owedAccept - 1;
      if shut {
        status := Finished;
        deleted := true;
        return;
      }
      if !ok {
        status := Finished;
        deleted := true;
        return;
      }
      issued := issued + [Rearm];
      status := Idle;
      events := events + [OnAccept];
    }

    method ProceedToWrite(ok: bool, shut: bool)
      requires !deleted && owedWrite > 0
      modifies this
      ensures Model() == StepProceedToWrite(old(Model()), ok, shut)
    {
      owedWrite := owedWrite - 1;
      if shut {
        status := Finished;
        deleted := true;
        return;
      }
      if !ok {
        status := Finished;
        deleted := true;
        return;
      }
      status := Finished;
      deleted := true;
    }

    method ProceedToNotify(ok: bool, shut: bool)
      requires !deleted && owedNotify > 0
      modifies this
      ensures Model() == StepProceedToNotify(old(Model()), ok, shut)
    {
      owedNotify := owedNotify - 1;
      if shut {
        status := Finished;
        deleted := true;
        return;
      }
      if !ok {
        status := Finished;
        deleted := true;
        return;
      }
      var rep := if reply.Some? then reply.value else Failure(0);
      issued := issued + [Send(rep)];
      owedWrite := owedWrite + 1;
      status := Finishing;
    }
  }
}
