/**
 The message stream as an async iterator: a queue of events nobody has read yet, a queue of readers
 that no event has reached yet, and the latch that ends the stream. Events, reads and the ending may
 come in any order.
 */
module StreamReading {
  import opened Options

  /** What listeners are told. */
  datatype Signal<+E> = RawEvent(event: E) | Failed(abort: bool) | Ended

  /** What a call of `next()` comes to. */
  datatype Answer<+E> = Waiting | Got(event: E) | Finished | Rejected(abort: bool)

  datatype Promise = Pending | Resolved | RejectedWith(abort: bool)

  /** The latch and the iterator's queues; a reader is known by the position of its answer. */
  datatype Stream<+E> = Stream(ended: bool, promise: Promise, log: seq<Signal<E>>,
                               pushQueue: seq<E>, readQueue: seq<nat>, done: bool, answers: seq<Answer<E>>)

  function NewStream<E>(): Stream<E> { Stream(false, Pending, [], [], [], false, []) }

  datatype Action<+E> = Deliver(event: E) | Read | Fail(abort: bool) | Finish

  // ----- one action -----

  function Answered<E>(answers: seq<Answer<E>>, readers: seq<nat>, a: Answer<E>): (r: seq<Answer<E>>)
    ensures |r| == |answers|
  {
    if readers == [] then answers
    else
      var rest := Answered(answers, readers[..|readers| - 1], a);
      var reader := readers[|readers| - 1];
      if reader < |rest| then rest[reader := a] else rest
  }

  /** What the iterator's own listeners do. */
  function Heard<E>(st: Stream<E>, s: Signal<E>): Stream<E> {
    match s
    case RawEvent(e) =>
      if st.readQueue != [] then
        st.(readQueue := st.readQueue[1..], answers := Answered(st.answers, [st.readQueue[0]], Got(e)))
      else st.(pushQueue := st.pushQueue + [e])
    case Failed(abort) =>
      st.(done := true, readQueue := [], answers := Answered(st.answers, st.readQueue, Rejected(abort)))
    case Ended =>
      st.(done := true, readQueue := [], answers := Answered(st.answers, st.readQueue, Finished))
  }

  function Emitted<E>(st: Stream<E>, s: Signal<E>): Stream<E>
    decreases if s.Failed? then 1 else 0
  {
    if st.ended then st
    else
      var marked := if s.Ended? then st.(ended := true, promise := if st.promise.Pending? then Resolved else st.promise)
                    else st;
      var told := Heard(marked.(log := marked.log + [s]), s);
      if s.Failed? then
        Emitted(told.(promise := if told.promise.Pending? then RejectedWith(s.abort) else told.promise), Ended)
      else told
  }

  function Asked<E>(st: Stream<E>): Stream<E> {
    if st.pushQueue != [] then
      st.(pushQueue := st.pushQueue[1..], answers := st.answers + [Got(st.pushQueue[0])])
    else if st.done then st.(answers := st.answers + [Finished])
    else st.(readQueue := st.readQueue + [|st.answers|], answers := st.answers + [Waiting])
  }

  function Act<E>(st: Stream<E>, a: Action<E>): Stream<E> {
    match a
    case Deliver(e) => if st.ended then st else Emitted(st, RawEvent(e))
    case Read => Asked(st)
    case Fail(abort) => Emitted(st, Failed(abort))
    case Finish => Emitted(st, Ended)
  }

  function ActAll<E>(run: seq<Action<E>>): Stream<E> {
    if run == [] then NewStream() else Act(ActAll(run[..|run| - 1]), run[|run| - 1])
  }

  lemma AnsweredOne<E>(answers: seq<Answer<E>>, reader: nat, a: Answer<E>)
    ensures Answered(answers, [reader], a) == if reader < |answers| then answers[reader := a] else answers
  {
    assert [reader][..0] == [];
    assert Answered(answers, [], a) == answers;
  }

  class LiveStream<E(==)> {
    var ended: bool
    var promise: Promise
    var log: seq<Signal<E>>
    var pushQueue: seq<E>
    var readQueue: seq<nat>
    var done: bool
    var answers: seq<Answer<E>>

    constructor ()
      ensures View() == NewStream()
    {
      ended, promise, log, pushQueue, readQueue, done, answers := false, Pending, [], [], [], false, [];
    }

    function View(): Stream<E>
      reads this
    {
      Stream(ended, promise, log, pushQueue, readQueue, done, answers)
    }

    method AnswerAll(a: Answer<E>)
      modifies this
      ensures View() == old(View()).(readQueue := [], answers := Answered(old(answers), old(readQueue), a))
    {
      for i := 0 to |readQueue|
        invariant View() == old(View()).(answers := Answered(old(answers), old(readQueue)[..i], a))
      {
        assert readQueue[..i + 1][..i] == readQueue[..i];
        var reader := readQueue[i];
        if reader < |answers| {
          answers := answers[reader := a];
        }
      }
      assert readQueue[..|readQueue|] == readQueue;
      readQueue := [];
    }

    method Hear(s: Signal<E>)
      modifies this
      ensures View() == Heard(old(View()), s)
    {
      match s
      case RawEvent(event) =>
        if readQueue != [] {
          var reader := readQueue[0];
          readQueue := readQueue[1..];
          AnsweredOne(answers, reader, Got(event));
          if reader < |answers| {
            answers := answers[reader := Got(event)];
          }
        } else {
          pushQueue := pushQueue + [event];
        }
      case Failed(abort) =>
        done := true;
        AnswerAll(Rejected(abort));
      case Ended =>
        done := true;
        AnswerAll(Finished);
    }

    method Emit(s: Signal<E>)
      modifies this
      ensures View() == Emitted(old(View()), s)
      decreases if s.Failed? then 1 else 0
    {
      if ended {
        return;
      }
      if s.Ended? {
        ended := true;
        promise := if promise.Pending? then Resolved else promise;
      }
      log := log + [s];
      Hear(s);
      if s.Failed? {
        promise := if promise.Pending? then RejectedWith(s.abort) else promise;
        Emit(Ended);
      }
    }

    method AddStreamEvent(event: E)
      modifies this
      ensures View() == Act(old(View()), Deliver(event))
    {
      if ended {
        return;
      }
      Emit(RawEvent(event));
    }

    /** A call of `next()`; its answer is at the position `reader`. */
    method Next() returns (reader: nat)
      modifies this
      ensures View() == Act(old(View()), Read) && reader == |old(answers)|
    {
      reader := |answers|;
      if pushQueue == [] {
        if done {
          answers := answers + [Finished];
          return;
        }
        readQueue := readQueue + [reader];
        answers := answers + [Waiting];
        return;
      }
      var chunk := pushQueue[0];
      pushQueue := pushQueue[1..];
      answers := answers + [Got(chunk)];
    }
  }

  // ----- what every run comes to -----

  datatype Ending = Broke(abort: bool) | Completed

  /** All that matters of a run: the events before its ending, the reads before it, and all the reads. */
  datatype Summary<+E> = Summary(events: seq<E>, early: nat, total: nat, ending: Option<Ending>)

  function Noted<E>(s: Summary<E>, a: Action<E>): Summary<E> {
    match a
    case Deliver(e) => if s.ending.None? then s.(events := s.events + [e]) else s
    case Read => s.(total := s.total + 1, early := if s.ending.None? then s.total + 1 else s.early)
    case Fail(abort) => if s.ending.None? then s.(ending := Some(Broke(abort))) else s
    case Finish => if s.ending.None? then s.(ending := Some(Completed)) else s
  }

  function Summed<E>(run: seq<Action<E>>): Summary<E> {
    if run == [] then Summary([], 0, 0, None) else Noted(Summed(run[..|run| - 1]), run[|run| - 1])
  }

  /** The `k`-th read gets the `k`-th event; past the last one it waits for the ending. */
  function Due<E>(s: Summary<E>, k: nat): Answer<E> {
    if k < |s.events| then Got(s.events[k])
    else
      match s.ending
      case None => Waiting
      case Some(Completed) => Finished
      case Some(Broke(abort)) => if k < s.early then Rejected(abort) else Finished
  }

  function Raws<E>(events: seq<E>): seq<Signal<E>> {
    if events == [] then [] else Raws(events[..|events| - 1]) + [RawEvent(events[|events| - 1])]
  }

  function Last<E>(ending: Option<Ending>): seq<Signal<E>> {
    match ending
    case None => []
    case Some(Completed) => [Ended]
    case Some(Broke(abort)) => [Failed(abort), Ended]
  }

  function Settled(ending: Option<Ending>): Promise {
    match ending
    case None => Pending
    case Some(Completed) => Resolved
    case Some(Broke(abort)) => RejectedWith(abort)
  }

  /** The stream is as its summary says. */
  predicate Fits<E(==)>(st: Stream<E>, s: Summary<E>) {
    && st.ended == st.done == s.ending.Some?
    && st.promise == Settled(s.ending)
    && st.log == Raws(s.events) + Last(s.ending)
    && FitsQueues(st, s)
  }

  predicate FitsQueues<E(==)>(st: Stream<E>, s: Summary<E>) {
    && s.early <= s.total && (s.ending.None? ==> s.early == s.total)
    && st.pushQueue == (if s.total < |s.events| then s.events[s.total..] else [])
    && |st.readQueue| == (if s.ending.None? && s.total > |s.events| then s.total - |s.events| else 0)
    && (forall i :: 0 <= i < |st.readQueue| ==> st.readQueue[i] == |s.events| + i)
    && |st.answers| == s.total
    && (forall k :: 0 <= k < s.total ==> st.answers[k] == Due(s, k))
  }

  lemma {:induction false} AnsweredAt<E>(answers: seq<Answer<E>>, readers: seq<nat>, from: nat, a: Answer<E>)
    requires forall i :: 0 <= i < |readers| ==> readers[i] == from + i
    requires from + |readers| <= |answers|
    ensures forall k :: 0 <= k < |answers| ==>
      Answered(answers, readers, a)[k] == if from <= k < from + |readers| then a else answers[k]
  {
    if readers != [] { AnsweredAt(answers, readers[..|readers| - 1], from, a); }
  }

  /** What an event that is delivered does to a stream that has not ended. */
  lemma DeliverStep<E>(st: Stream<E>, e: E)
    requires !st.ended
    ensures Act(st, Deliver(e)) ==
      if st.readQueue != [] then
        st.(log := st.log + [RawEvent(e)], readQueue := st.readQueue[1..],
            answers := Answered(st.answers, [st.readQueue[0]], Got(e)))
      else st.(log := st.log + [RawEvent(e)], pushQueue := st.pushQueue + [e])
  {
  }

  lemma RawsNext<E>(events: seq<E>, e: E)
    ensures Raws(events + [e]) == Raws(events) + [RawEvent(e)]
  {
    assert (events + [e])[..|events|] == events;
  }

  lemma DeliverQueues<E>(st: Stream<E>, s: Summary<E>, e: E)
    requires FitsQueues(st, s) && s.ending.None? && !st.ended
    ensures FitsQueues(Act(st, Deliver(e)), Noted(s, Deliver(e)))
  {
    DeliverStep(st, e);
    hide Act, Answered;
    if st.readQueue != [] { AnsweredAt(st.answers, [st.readQueue[0]], |s.events|, Got(e)); }
  }

  lemma DeliverFits<E>(st: Stream<E>, s: Summary<E>, e: E)
    requires Fits(st, s)
    ensures Fits(Act(st, Deliver(e)), Noted(s, Deliver(e)))
  {
    hide FitsQueues, Raws, Answered;
    if s.ending.None? {
      DeliverQueues(st, s, e);
      DeliverStep(st, e);
      RawsNext(s.events, e);
      hide Act;
      assert st.log == Raws(s.events) + [];
    }
  }

  function EndingOf<E>(a: Action<E>): Ending
    requires a.Fail? || a.Finish?
  {
    if a.Fail? then Broke(a.abort) else Completed
  }

  /** What an ending does to a stream that has not ended. */
  lemma EndStep<E>(st: Stream<E>, a: Action<E>)
    requires !st.ended && (a.Fail? || a.Finish?) && st.promise == Pending
    ensures Act(st, a) == st.(ended := true, done := true, readQueue := [], promise := Settled(Some(EndingOf(a))),
                              log := st.log + Last(Some(EndingOf(a))),
                              answers := Answered(st.answers, st.readQueue,
                                                  if a.Fail? then Rejected(a.abort) else Finished))
  {
    hide Answered;
    if a.Fail? {
      var failed: Signal<E> := Failed(a.abort);
      var told := Heard(st.(log := st.log + [failed]), failed).(promise := RejectedWith(a.abort));
      assert Act(st, a) == Emitted(told, Ended);
      AnsweredNone(told.answers, Finished);
      assert Emitted(told, Ended).log == st.log + [failed] + [Ended];
      assert st.log + [failed] + [Ended] == st.log + [failed, Ended];
    }
  }

  lemma AnsweredNone<E>(answers: seq<Answer<E>>, a: Answer<E>)
    ensures Answered(answers, [], a) == answers
  {
  }

  lemma EndQueues<E>(st: Stream<E>, s: Summary<E>, a: Action<E>)
    requires FitsQueues(st, s) && s.ending.None? && !st.ended && st.promise == Pending && (a.Fail? || a.Finish?)
    ensures FitsQueues(Act(st, a), Noted(s, a))
  {
    EndStep(st, a);
    hide Act, Answered;
    var answer := if a.Fail? then Rejected(a.abort) else Finished;
    if st.readQueue == [] {
      AnsweredNone(st.answers, answer);
    } else {
      AnsweredAt(st.answers, st.readQueue, |s.events|, answer);
    }
  }

  lemma EndFits<E>(st: Stream<E>, s: Summary<E>, a: Action<E>)
    requires Fits(st, s) && (a.Fail? || a.Finish?)
    ensures Fits(Act(st, a), Noted(s, a))
  {
    hide FitsQueues, Raws, Answered;
    if s.ending.None? {
      EndQueues(st, s, a);
      EndStep(st, a);
      hide Act;
      assert st.log == Raws(s.events);
    }
  }

  lemma ReadFits<E>(st: Stream<E>, s: Summary<E>)
    requires Fits(st, s)
    ensures Fits(Act(st, Read), Noted(s, Read))
  {
    hide Raws, Last, Settled;
  }

  /**
   For every interleaving: the `k`-th read gets the `k`-th event, what is queued is what has not been
   read, `end` is the last signal and comes once, and the end promise is rejected exactly when the
   stream broke.
   */
  lemma {:induction false} EveryRunFits<E>(run: seq<Action<E>>)
    ensures Fits(ActAll(run), Summed(run))
  {
    if run != [] {
      var earlier, a := run[..|run| - 1], run[|run| - 1];
      EveryRunFits(earlier);
      match a
      case Deliver(e) => DeliverFits(ActAll(earlier), Summed(earlier), e);
      case Read => ReadFits(ActAll(earlier), Summed(earlier));
      case _ => EndFits(ActAll(earlier), Summed(earlier), a);
    }
  }

  /** A reader is never kept waiting while there is something to read. */
  lemma OneQueueEmpty<E>(run: seq<Action<E>>)
    ensures var st := ActAll(run); st.pushQueue == [] || st.readQueue == []
  {
    EveryRunFits(run);
  }

  /** A failure is seen by whoever reads the events exactly when a reader is waiting as it happens. */
  lemma FailureSeen<E>(run: seq<Action<E>>)
    ensures var st, s := ActAll(run), Summed(run);
      (exists k :: 0 <= k < |st.answers| && st.answers[k].Rejected?)
      <==> s.ending.Some? && s.ending.value.Broke? && s.early > |s.events|
  {
    EveryRunFits(run);
    var st, s := ActAll(run), Summed(run);
    if s.ending.Some? && s.ending.value.Broke? && s.early > |s.events| {
      assert st.answers[|s.events|] == Due(s, |s.events|);
    }
  }

  lemma SummedNext<E>(run: seq<Action<E>>, a: Action<E>)
    ensures Summed(run + [a]) == Noted(Summed(run), a)
  {
    assert (run + [a])[..|run|] == run;
  }

  /** So an error that comes before the last event is read is lost: the reader is told that all went well. */
  lemma FailureLost<E>(e: E)
    ensures var st := ActAll([Deliver(e), Fail(false), Read, Read]);
      st.answers == [Got(e), Finished] && st.promise == RejectedWith(false)
  {
    var run: seq<Action<E>> := [Deliver(e), Fail(false), Read, Read];
    EveryRunFits(run);
    var one, two := [Deliver(e)], [Deliver(e), Fail(false)];
    var three := two + [Read];
    SummedNext([], Deliver(e));
    assert [] + [Deliver(e)] == one;
    assert Summed(one) == Summary([e], 0, 0, None);
    SummedNext(one, Fail(false));
    assert one + [Fail(false)] == two;
    assert Summed(two) == Summary([e], 0, 0, Some(Broke(false)));
    SummedNext(two, Read);
    SummedNext(three, Read);
    assert run == three + [Read];
  }
}
