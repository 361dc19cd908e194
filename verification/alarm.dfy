/** The alarm object (include/ggrpc/impl/alarm.h): a queue of pending alarms
    served by one gRPC timer. Setting an alarm while another is pending
    cancels the pending one (it is still reported, with `false`) and queues
    the new one behind it; each notification of the timer reports the front
    alarm, then every cancelled alarm behind it, and re-arms the timer for
    the first live alarm left.

    `issued` records the timer operations, `events` the user callbacks with
    the value they were given, `pushed` the callback of every accepted Set,
    `reported` the callbacks of the alarms reported so far, in order, `owed`
    the notifications the timer still owes, and `deleted` the `delete p` of
    SafeDeleter. */
module AlarmImpl {

  /** An AlarmFunc: empty, or a callback identified by `id`. */
  datatype AlarmFunc = Empty | Func(id: nat)

  /** One queued alarm; `deadline` is the delay in milliseconds. */
  datatype AlarmData = AlarmData(canceled: bool, deadline: int, alarm: AlarmFunc)

  /** Operations on the gRPC timer alarm_. */
  datatype Op = TimerSet(deadline: int) | TimerCancel

  /** A callback run with the value `fired` (true: the deadline passed). */
  datatype Event = OnAlarm(id: nat, fired: bool)

  datatype State = State(
    close: bool, release: bool, nesting: int, queue: seq<AlarmData>,
    issued: seq<Op>, events: seq<Event>, pushed: seq<AlarmFunc>,
    reported: seq<AlarmFunc>, owed: int, deleted: bool)

  function Initial(): (s: State)
    ensures Inv(s) && s.queue == [] && s.owed == 0 && !s.close
    ensures s.pushed == [] && s.events == []
  {
    State(false, false, 0, [], [], [], [], [], 0, false)
  }

  /** The callbacks of the queued alarms, in queue order. */
  function Funcs(q: seq<AlarmData>): seq<AlarmFunc>
  {
    seq(|q|, i requires 0 <= i < |q| => q[i].alarm)
  }

  /** The ids of the non-empty callbacks of `fs`, in order. */
  function Ids(fs: seq<AlarmFunc>): seq<nat>
    decreases |fs|
  {
    if fs == [] then []
    else Ids(fs[..|fs| - 1]) + (if fs[|fs| - 1].Func? then [fs[|fs| - 1].id] else [])
  }

  /** The callback ids of a run of events, in order. */
  function EventIds(evs: seq<Event>): seq<nat>
  {
    seq(|evs|, i requires 0 <= i < |evs| => evs[i].id)
  }

  /** SafeDeleter's condition for `delete p`. */
  predicate Deletable(s: State)
  {
    s.release && s.queue == [] && s.nesting == 0
  }

  /** What every reachable state keeps: the timer owes a notification exactly
      while the queue is non-empty; only the last queued alarm can be live;
      once closed none is; Release implies Close; the object is deleted
      exactly when SafeDeleter allows it; and the books of `Books`
      balance. */
  predicate Inv(s: State)
  {
    && s.nesting == 0
    && s.owed == (if s.queue == [] then 0 else 1)
    && (forall i :: 0 <= i < |s.queue| - 1 ==> s.queue[i].canceled)
    && (s.close ==> forall i :: 0 <= i < |s.queue| ==> s.queue[i].canceled)
    && (s.release ==> s.close)
    && (s.deleted <==> Deletable(s))
    && Books(s)
  }

  /** Every accepted alarm has been reported or is still queued, in the order
      of the Set calls, and the callbacks that ran are exactly those of the
      reported alarms, in that order. */
  predicate Books(s: State)
  {
    s.pushed == s.reported + Funcs(s.queue) && EventIds(s.events) == Ids(s.reported)
  }

  /** An alarm is deleted exactly when it has been released and the timer
      owes it nothing. */
  lemma Deletion(s: State)
    requires Inv(s)
    ensures s.deleted <==> s.release && s.owed == 0
  {
  }

  // ---- callbacks ----

  /** The events of running `f` with `fired`: none if `f` is empty. */
  function Invoke(f: AlarmFunc, fired: bool): seq<Event>
  {
    if f.Func? then [OnAlarm(f.id, fired)] else []
  }

  /** The events of running the callbacks of `ds` in order, each with `fired`:
      one per non-empty callback, in queue order, all with `fired`. */
  function Calls(ds: seq<AlarmData>, fired: bool): (evs: seq<Event>)
    ensures |evs| <= |ds|
    ensures forall i :: 0 <= i < |evs| ==> evs[i].fired == fired
    decreases |ds|
  {
    if ds == [] then []
    else Calls(ds[..|ds| - 1], fired) + Invoke(ds[|ds| - 1].alarm, fired)
  }

  /** The callbacks run for `ds` are those of its non-empty alarms, each
      once, in queue order. */
  lemma {:induction false} CallsIds(ds: seq<AlarmData>, fired: bool)
    ensures EventIds(Calls(ds, fired)) == Ids(Funcs(ds))
    decreases |ds|
  {
    if ds != [] {
      var front := ds[..|ds| - 1];
      CallsIds(front, fired);
      assert Funcs(ds)[..|ds| - 1] == Funcs(front);
      EventIdsAppend(Calls(front, fired), Invoke(ds[|ds| - 1].alarm, fired));
    }
  }

  lemma EventIdsAppend(a: seq<Event>, b: seq<Event>)
    ensures EventIds(a + b) == EventIds(a) + EventIds(b)
  {
  }

  lemma {:induction false} IdsAppend(a: seq<AlarmFunc>, b: seq<AlarmFunc>)
    ensures Ids(a + b) == Ids(a) + Ids(b)
    decreases |b|
  {
    if b == [] {
      assert a + b == a;
    } else {
      var b' := b[..|b| - 1];
      assert (a + b)[..|a + b| - 1] == a + b';
      IdsAppend(a, b');
    }
  }

  lemma FuncsAppend(a: seq<AlarmData>, b: seq<AlarmData>)
    ensures Funcs(a + b) == Funcs(a) + Funcs(b)
  {
  }

  lemma FuncsCons(q: seq<AlarmData>)
    requires q != []
    ensures Funcs(q) == [q[0].alarm] + Funcs(q[1..])
  {
    assert q == [q[0]] + q[1..];
    FuncsAppend([q[0]], q[1..]);
  }

  lemma FuncsSnoc(q: seq<AlarmData>, k: nat)
    requires k < |q|
    ensures Funcs(q[..k + 1]) == Funcs(q[..k]) + [q[k].alarm]
  {
    assert q[..k + 1] == q[..k] + [q[k]];
    FuncsAppend(q[..k], [q[k]]);
  }

  lemma FuncsSplit(q: seq<AlarmData>, k: nat)
    requires k <= |q|
    ensures Funcs(q) == Funcs(q[..k]) + Funcs(q[k..])
  {
    assert q == q[..k] + q[k..];
    FuncsAppend(q[..k], q[k..]);
  }

  /** Running the callbacks of two stretches of the queue one after the other. */
  lemma {:induction false} CallsAppend(a: seq<AlarmData>, b: seq<AlarmData>, fired: bool)
    ensures Calls(a + b, fired) == Calls(a, fired) + Calls(b, fired)
    decreases |b|
  {
    if b == [] {
      assert a + b == a;
    } else {
      var b' := b[..|b| - 1];
      assert (a + b)[..|a + b| - 1] == a + b';
      CallsAppend(a, b', fired);
    }
  }

  /** The callbacks of one more queued alarm. */
  lemma CallsSnoc(q: seq<AlarmData>, k: nat, fired: bool)
    requires k < |q|
    ensures Calls(q[..k + 1], fired) == Calls(q[..k], fired) + Invoke(q[k].alarm, fired)
    ensures q[k..][1..] == q[k + 1..]
  {
    assert q[..k + 1][..k] == q[..k];
  }

  // ---- internal steps ----

  /** RunCallback: an empty callback is skipped; otherwise it runs once. */
  function Fire(s: State, f: AlarmFunc, fired: bool): State
  {
    s.(events := s.events + Invoke(f, fired))
  }

  /** Every queued alarm marked cancelled. */
  function CancelAll(q: seq<AlarmData>): seq<AlarmData>
  {
    seq(|q|, i requires 0 <= i < |q| => q[i].(canceled := true))
  }

  /** DoCancel: nothing on an empty queue; otherwise every queued alarm is
      marked cancelled and the timer is cancelled. */
  function DoCancelStep(s: State): State
  {
    if s.queue == [] then s
    else s.(queue := CancelAll(s.queue), issued := s.issued + [TimerCancel])
  }

  function SafeDelete(s: State): State
  {
    s.(deleted := Deletable(s))
  }

  // ---- public entry points ----

  function StepSet(s: State, deadline: int, alarm: AlarmFunc): State
  {
    if s.close then s
    else
      var t := if s.queue == [] then s.(issued := s.issued + [TimerSet(deadline)], owed := s.owed + 1)
               else DoCancelStep(s);
      t.(queue := t.queue + [AlarmData(false, deadline, alarm)], pushed := s.pushed + [alarm])
  }

  /** Set is refused once closed and then changes nothing. Otherwise it arms
      the timer for an empty queue, or cancels every queued alarm and the
      timer, and in both cases queues the new alarm at the back, where it is
      the only live one. */
  lemma SetSpec(s: State, deadline: int, alarm: AlarmFunc)
    requires Inv(s) && !s.deleted
    ensures var r := StepSet(s, deadline, alarm);
      && Inv(r)
      && (s.close ==> r == s)
      && (!s.close ==>
            && r.queue == CancelAll(s.queue) + [AlarmData(false, deadline, alarm)]
            && r.issued == s.issued + (if s.queue == [] then [TimerSet(deadline)] else [TimerCancel])
            && r.events == s.events && r.owed == 1 && !r.deleted
            && r.pushed == s.pushed + [alarm] && r.reported == s.reported)
  {
    if !s.close {
      FuncsAppend(CancelAll(s.queue), [AlarmData(false, deadline, alarm)]);
      assert Funcs(CancelAll(s.queue)) == Funcs(s.queue);
    }
  }

  function StepCancel(s: State): State
  {
    SafeDelete(DoCancelStep(s))
  }

  function StepClose(s: State): State
  {
    SafeDelete(DoCancelStep(s.(close := true)))
  }

  function StepRelease(s: State): State
  {
    SafeDelete(DoCancelStep(s.(release := true, close := true)))
  }

  /** Cancel marks every queued alarm cancelled and cancels the timer, and
      changes nothing on an empty queue; Close does the same and refuses
      every later Set; Release closes, and deletes the alarm at once when
      nothing is queued. No callback runs in any of them. */
  lemma CancelSpec(s: State)
    requires Inv(s) && !s.deleted
    ensures var r := StepCancel(s);
      && Inv(r) && r.queue == CancelAll(s.queue) && r.events == s.events && r.close == s.close
      && (s.queue == [] ==> r == s)
      && (s.queue != [] ==> r.issued == s.issued + [TimerCancel])
    ensures var r := StepClose(s);
      && Inv(r) && r.close && r.queue == CancelAll(s.queue) && r.events == s.events
      && StepSet(r, 0, Empty) == r
    ensures !s.release ==> var r := StepRelease(s);
      && Inv(r) && r.close && r.release && r.queue == CancelAll(s.queue) && r.events == s.events
      && (r.deleted <==> s.queue == [])
  {
    assert Funcs(CancelAll(s.queue)) == Funcs(s.queue);
  }

  // ---- the timer notification ----

  /** Whether ProceedToNotify drops the queued alarm `d` without waiting. */
  predicate Drop(d: AlarmData, close: bool)
  {
    d.canceled || close
  }

  /** The number of alarms at the front of `q` that the drain loop removes:
      the longest run of alarms that are cancelled (or all, once closed). */
  function DrainCount(q: seq<AlarmData>, close: bool): (n: nat)
    ensures n <= |q|
    ensures forall i :: 0 <= i < n ==> Drop(q[i], close)
    ensures n < |q| ==> !Drop(q[n], close)
  {
    if q != [] && Drop(q[0], close) then
      var m := DrainCount(q[1..], close);
      assert forall i :: 1 <= i < m + 1 ==> q[i] == q[1..][i - 1];
      1 + m
    else 0
  }

  /** The front alarm is reported (true only if it was not cancelled and the
      timer fired) and popped. */
  function FireFront(s: State, ok: bool): State
    requires s.queue != []
  {
    var d := s.queue[0];
    Fire(s, d.alarm, !(d.canceled || !ok)).(queue := s.queue[1..], reported := s.reported + [d.alarm])
  }

  /** The first `k` queued alarms reported with false and popped, in order. */
  function DrainPrefix(s: State, k: nat): State
    requires k <= |s.queue|
  {
    s.(queue := s.queue[k..], events := s.events + Calls(s.queue[..k], false),
       reported := s.reported + Funcs(s.queue[..k]))
  }

  function Drain(s: State): State
  {
    DrainPrefix(s, DrainCount(s.queue, s.close))
  }

  /** The timer is set again for the new front, if any. */
  function Rearm(s: State): State
  {
    if s.queue == [] then s
    else s.(issued := s.issued + [TimerSet(s.queue[0].deadline)], owed := s.owed + 1)
  }

  function StepProceedToNotify(s: State, ok: bool): State
    requires s.queue != []
  {
    SafeDelete(Rearm(Drain(FireFront(s.(owed := s.owed - 1), ok))))
  }

  /** A notification reports the front alarm (with true only if it was live
      and the timer fired), then every cancelled alarm behind it with false,
      in queue order, each exactly once; the alarms behind stay queued in
      order, at most the live one is left, and the timer is re-armed exactly
      when one is left, for its deadline. */
  lemma ProceedToNotifySpec(s: State, ok: bool)
    requires Inv(s) && !s.deleted && s.owed > 0
    ensures s.queue != []
    ensures var r := StepProceedToNotify(s, ok);
      var d := s.queue[0];
      var n := DrainCount(s.queue[1..], s.close);
      && Inv(r)
      && r.queue == s.queue[n + 1..] && |r.queue| <= 1
      && r.events == s.events + Invoke(d.alarm, ok && !d.canceled) + Calls(s.queue[1..n + 1], false)
      && (r.queue == [] ==> r.issued == s.issued && r.owed == 0)
      && (r.queue != [] ==> !r.queue[0].canceled && r.issued == s.issued + [TimerSet(r.queue[0].deadline)])
      && r.pushed == s.pushed && r.reported == s.reported + [d.alarm] + Funcs(s.queue[1..n + 1])
  {
    FrontThenDrain(s, ok);
  }

  /** The report-and-drain part of a notification, before the timer is
      re-armed. */
  lemma FrontThenDrain(s: State, ok: bool)
    requires s.queue != [] && Books(s)
    ensures var u := Drain(FireFront(s.(owed := s.owed - 1), ok));
      var d := s.queue[0];
      var n := DrainCount(s.queue[1..], s.close);
      && u.queue == s.queue[n + 1..]
      && u.events == s.events + Invoke(d.alarm, ok && !d.canceled) + Calls(s.queue[1..n + 1], false)
      && u.reported == s.reported + [d.alarm] + Funcs(s.queue[1..n + 1])
      && u.pushed == s.pushed && u.issued == s.issued && u.owed == s.owed - 1
      && u.close == s.close && u.release == s.release && u.nesting == s.nesting && u.deleted == s.deleted
      && Books(u)
  {
    var t := FireFront(s.(owed := s.owed - 1), ok);
    var n := DrainCount(s.queue[1..], s.close);
    FrontKeepsBooks(s.(owed := s.owed - 1), ok);
    DrainKeepsBooks(t, n);
    assert t.queue == s.queue[1..];
    assert t.queue[..n] == s.queue[1..n + 1];
    assert t.queue[n..] == s.queue[n + 1..];
  }

  /** Reporting the front alarm moves it from the queue to `reported`,
      and runs at most its callback. */
  lemma FrontKeepsBooks(s: State, ok: bool)
    requires s.queue != [] && Books(s)
    ensures Books(FireFront(s, ok))
  {
    var d := s.queue[0];
    FuncsCons(s.queue);
    IdsAppend(s.reported, [d.alarm]);
    assert [d.alarm][..0] == [];
    EventIdsAppend(s.events, Invoke(d.alarm, !(d.canceled || !ok)));
  }

  /** Draining `k` alarms moves them from the queue to `reported`, and runs
      exactly their callbacks. */
  lemma DrainKeepsBooks(t: State, k: nat)
    requires k <= |t.queue| && Books(t)
    ensures Books(DrainPrefix(t, k))
  {
    FuncsSplit(t.queue, k);
    IdsAppend(t.reported, Funcs(t.queue[..k]));
    CallsIds(t.queue[..k], false);
    EventIdsAppend(t.events, Calls(t.queue[..k], false));
  }

  /** One more alarm drained: it is reported with false and popped. */
  lemma DrainPrefixNext(s: State, k: nat)
    requires k < |s.queue|
    ensures var t := DrainPrefix(s, k);
      t.queue != [] && t.queue[0] == s.queue[k] && t.close == s.close
      && DrainPrefix(s, k + 1)
         == Fire(t, s.queue[k].alarm, false).(queue := t.queue[1..], reported := t.reported + [s.queue[k].alarm])
  {
    var t := DrainPrefix(s, k);
    var u := DrainPrefix(s, k + 1);
    CallsSnoc(s.queue, k, false);
    FuncsSnoc(s.queue, k);
    assert u.events == t.events + Invoke(s.queue[k].alarm, false);
    assert u.reported == t.reported + [s.queue[k].alarm];
    assert u.queue == t.queue[1..];
  }

  // ---- lifetimes ----

  datatype Action =
    | Set(deadline: int, alarm: AlarmFunc) | Cancel | Close | Release
    | Notify(ok: bool)

  /** User calls reach the alarm only before Release (the `shared_ptr`'s
      deleter); a notification arrives only when one is owed. */
  predicate Enabled(s: State, a: Action)
  {
    && !s.deleted
    && (!a.Notify? ==> !s.release)
    && (a.Notify? ==> s.owed > 0)
  }

  function Apply(s: State, a: Action): (r: State)
    requires Inv(s) && Enabled(s, a)
    ensures Inv(r)
  {
    match a
    case Set(deadline, alarm) => SetSpec(s, deadline, alarm); StepSet(s, deadline, alarm)
    case Cancel => CancelSpec(s); StepCancel(s)
    case Close => CancelSpec(s); StepClose(s)
    case Release => CancelSpec(s); StepRelease(s)
    case Notify(ok) => ProceedToNotifySpec(s, ok); StepProceedToNotify(s, ok)
  }

  /** The alarm after a sequence of actions; actions that cannot happen are skipped. */
  function Run(s: State, trace: seq<Action>): (r: State)
    requires Inv(s)
    ensures Inv(r)
    decreases |trace|
  {
    if trace == [] then s
    else
      var t := if Enabled(s, trace[0]) then Apply(s, trace[0]) else s;
      Run(t, trace[1..])
  }

  /** Close is permanent: whatever follows, the alarm stays closed, so every
      later Set is refused. */
  lemma {:induction false} ClosedStaysClosed(s: State, trace: seq<Action>)
    requires Inv(s) && s.close
    ensures Run(s, trace).close
    decreases |trace|
  {
    if trace != [] {
      var t := if Enabled(s, trace[0]) then Apply(s, trace[0]) else s;
      assert t.close;
      ClosedStaysClosed(t, trace[1..]);
    }
  }

  /** A released alarm is deleted by the next notification at the latest:
      every queued alarm is reported and none is left behind. */
  lemma ReleasedDrains(s: State, ok: bool)
    requires Inv(s) && s.release && Enabled(s, Notify(ok))
    ensures Apply(s, Notify(ok)).deleted && Apply(s, Notify(ok)).queue == []
    ensures Apply(s, Notify(ok)).reported == s.pushed
  {
    ProceedToNotifySpec(s, ok);
    var n := DrainCount(s.queue[1..], s.close);
    assert n == |s.queue| - 1;
    assert s.queue[1..n + 1] == s.queue[1..];
    FuncsCons(s.queue);
  }

  /** Over any lifetime, the alarms are reported in the order they were set,
      each at most once; the callbacks run are exactly those of the reported
      alarms, once each and in that order; and once the alarm is deleted,
      every alarm ever accepted has been reported. */
  lemma Lifetime(trace: seq<Action>)
    ensures var r := Run(Initial(), trace);
      && r.reported == r.pushed[..|r.reported|]
      && EventIds(r.events) == Ids(r.reported)
      && (r.deleted ==> r.reported == r.pushed && EventIds(r.events) == Ids(r.pushed))
  {
    var r := Run(Initial(), trace);
    assert r.pushed == r.reported + Funcs(r.queue);
  }

  // ---- the object ----

  class Alarm {
    var close: bool
    var release: bool
    var nesting: int
    var queue: seq<AlarmData>
    ghost var issued: seq<Op>
    ghost var events: seq<Event>
    ghost var pushed: seq<AlarmFunc>
    ghost var reported: seq<AlarmFunc>
    ghost var owed: int
    ghost var deleted: bool

    ghost function Model(): State
      reads this
    {
      State(close, release, nesting, queue, issued, events, pushed, reported, owed, deleted)
    }

    constructor ()
      ensures Model() == Initial()
    {
      close, release, nesting, queue := false, false, 0, [];
      issued, events, pushed, reported, owed, deleted := [], [], [], [], 0, false;
    }

    /** Returns whether the alarm was accepted. */
    method Set(deadline: int, alarm: AlarmFunc) returns (accepted: bool)
      requires !deleted
      modifies this
      ensures accepted == !old(close)
      ensures Model() == StepSet(old(Model()), deadline, alarm)
    {
      if close {
        return false;
      }
      var data := AlarmData(false, deadline, alarm);
      if queue == [] {
        issued := issued + [TimerSet(deadline)];
        owed := owed + 1;
      } else {
        DoCancel();
      }
      queue := queue + [data];
      pushed := pushed + [alarm];
      return true;
    }

    method Release()
      requires !deleted
      modifies this
      ensures Model() == StepRelease(old(Model()))
    {
      release := true;
      close := true;
      DoCancel();
      SafeDeleter();
    }

    method Cancel()
      requires !deleted
      modifies this
      ensures Model() == StepCancel(old(Model()))
    {
      DoCancel();
      SafeDeleter();
    }

    method Close()
      requires !deleted
      modifies this
      ensures Model() == StepClose(old(Model()))
    {
      close := true;
      DoCancel();
      SafeDeleter();
    }

    method DoCancel()
      modifies this
      ensures Model() == DoCancelStep(old(Model()))
    {
      if queue == [] {
        return;
      }
      ghost var s0 := Model();
      for i := 0 to |queue|
        invariant |queue| == |s0.queue|
        invariant forall j :: 0 <= j < i ==> queue[j] == s0.queue[j].(canceled := true)
        invariant forall j :: i <= j < |queue| ==> queue[j] == s0.queue[j]
        invariant Model() == s0.(queue := queue)
      {
        queue := queue[i := queue[i].(canceled := true)];
      }
      issued := issued + [TimerCancel];
    }

    method RunCallback(f: AlarmFunc, fired: bool)
      modifies this
      ensures Model() == Fire(old(Model()), f, fired)
    {
      if f.Func? {
        nesting := nesting + 1;
        // the lock is released while the callback runs; what it throws is caught and logged
        events := events + [OnAlarm(f.id, fired)];
        nesting := nesting - 1;
      }
    }

    method SafeDeleter()
      modifies this
      ensures Model() == SafeDelete(old(Model()))
    {
      var del := release && queue == [] && nesting == 0;
      deleted := del;
    }

    /** The assert at the head of the handler becomes a precondition. */
    method ProceedToNotify(ok: bool)
      requires !deleted && owed > 0
      requires queue != []
      modifies this
      ensures Model() == StepProceedToNotify(old(Model()), ok)
    {
      owed := owed - 1;
      NotifyFront(ok);
      DrainCanceled();
      if queue == [] {
        SafeDeleter();
        return;
      }
      issued := issued + [TimerSet(queue[0].deadline)];
      owed := owed + 1;
      SafeDeleter();
    }

    /** Moves the front alarm out, runs its callback and pops it. */
    method NotifyFront(ok: bool)
      requires queue != []
      modifies this
      ensures Model() == FireFront(old(Model()), ok)
    {
      var data := queue[0];
      RunCallback(data.alarm, !(data.canceled || !ok));
      queue := queue[1..];
      reported := reported + [data.alarm];
    }

    /** The loop of ProceedToNotify that reports and pops every cancelled
        alarm at the front (every alarm, once closed). */
    method DrainCanceled()
      modifies this
      ensures Model() == Drain(old(Model()))
    {
      ghost var s0 := Model();
      ghost var n := DrainCount(s0.queue, s0.close);
      ghost var k := 0;
      assert s0.queue[..0] == [];
      while queue != [] && (queue[0].canceled || close)
        invariant 0 <= k <= n
        invariant Model() == DrainPrefix(s0, k)
        decreases |queue|
      {
        DrainPrefixNext(s0, k);
        assert k < n;
        var data := queue[0];
        RunCallback(data.alarm, false);
        queue := queue[1..];
        reported := reported + [data.alarm];
        k := k + 1;
      }
      assert k == n;
    }
  }
}
