/**
 `tee`: two branches over one iterator, each with a queue of the results that the other has already
 drawn. Whatever the order of reads, each branch sees the whole source, and no result is drawn twice.
 */
module StreamTee {
  import opened Basics
  import opened Options

  datatype Side = Left | Right

  /** The queues, and how many results the iterator has been asked for. */
  datatype Tee<+T> = Tee(left: seq<Option<T>>, right: seq<Option<T>>, drawn: nat)

  /** The iterator's results in order, `None` from the end of the source on. */
  function Result<T>(source: seq<T>, k: nat): Option<T> { if k < |source| then Some(source[k]) else None }

  function Queue<T>(t: Tee<T>, side: Side): seq<Option<T>> { if side.Left? then t.left else t.right }

  /** Before a branch takes its next result: its queue is not empty. */
  function Filled<T>(source: seq<T>, t: Tee<T>, side: Side): (r: Tee<T>)
    ensures Queue(r, side) != []
  {
    if Queue(t, side) == [] then
      var result := Result(source, t.drawn);
      Tee(t.left + [result], t.right + [result], t.drawn + 1)
    else t
  }

  function Shifted<T>(t: Tee<T>, side: Side): Tee<T>
    requires Queue(t, side) != []
  {
    if side.Left? then t.(left := t.left[1..]) else t.(right := t.right[1..])
  }

  class TeeBranches<T> {
    const source: seq<T>
    var left: seq<Option<T>>
    var right: seq<Option<T>>
    var drawn: nat

    constructor (source: seq<T>)
      ensures this.source == source && View() == Tee([], [], 0)
    {
      this.source := source;
      left, right, drawn := [], [], 0;
    }

    function View(): Tee<T>
      reads this
    {
      Tee(left, right, drawn)
    }

    method Next(side: Side) returns (result: Option<T>)
      modifies this
      ensures var filled := Filled(source, old(View()), side);
        View() == Shifted(filled, side) && result == Queue(filled, side)[0]
    {
      if (if side.Left? then left else right) == [] {
        var pulled := Result(source, drawn);
        drawn := drawn + 1;
        left := left + [pulled];
        right := right + [pulled];
      }
      match side
      case Left => result, left := left[0], left[1..];
      case Right => result, right := right[0], right[1..];
    }
  }

  // ----- every schedule of reads -----

  datatype Seen<+T> = Seen(tee: Tee<T>, left: seq<Option<T>>, right: seq<Option<T>>)

  /** The branches after a schedule of reads, with what each has been given. */
  function ReadAll<T>(source: seq<T>, schedule: seq<Side>): Seen<T> {
    if schedule == [] then Seen(Tee([], [], 0), [], [])
    else
      var before, side := ReadAll(source, schedule[..|schedule| - 1]), schedule[|schedule| - 1];
      var filled := Filled(source, before.tee, side);
      var given := Queue(filled, side)[0];
      if side.Left? then Seen(Shifted(filled, side), before.left + [given], before.right)
      else Seen(Shifted(filled, side), before.left, before.right + [given])
  }

  function Results<T>(source: seq<T>, n: nat): seq<Option<T>> {
    if n == 0 then [] else Results(source, n - 1) + [Result(source, n - 1)]
  }

  function Reads(schedule: seq<Side>, side: Side): nat {
    if schedule == [] then 0
    else Reads(schedule[..|schedule| - 1], side) + (if schedule[|schedule| - 1] == side then 1 else 0)
  }

  lemma {:induction false} ResultsAt<T>(source: seq<T>, n: nat)
    ensures |Results(source, n)| == n && forall k :: 0 <= k < n ==> Results(source, n)[k] == Result(source, k)
  {
    if n > 0 { ResultsAt(source, n - 1); }
  }

  /** What has been given and what waits in the queue are all the results drawn, in order. */
  predicate Conserves<T(==)>(source: seq<T>, given: seq<Option<T>>, queue: seq<Option<T>>, drawn: nat) {
    given + queue == Results(source, drawn)
  }

  lemma QueueGrows<T>(source: seq<T>, given: seq<Option<T>>, queue: seq<Option<T>>, drawn: nat)
    requires Conserves(source, given, queue, drawn)
    ensures Conserves(source, given, queue + [Result(source, drawn)], drawn + 1)
  {
    assert given + (queue + [Result(source, drawn)]) == given + queue + [Result(source, drawn)];
  }

  lemma QueueGives<T>(source: seq<T>, given: seq<Option<T>>, queue: seq<Option<T>>, drawn: nat)
    requires Conserves(source, given, queue, drawn) && queue != []
    ensures Conserves(source, given + [queue[0]], queue[1..], drawn)
  {
    assert given + [queue[0]] + queue[1..] == given + queue;
  }

  lemma {:induction false} Conserved<T>(source: seq<T>, schedule: seq<Side>)
    ensures var r := ReadAll(source, schedule);
      && Conserves(source, r.left, r.tee.left, r.tee.drawn)
      && Conserves(source, r.right, r.tee.right, r.tee.drawn)
      && |r.left| == Reads(schedule, Left) && |r.right| == Reads(schedule, Right)
      && r.tee.drawn == Max(|r.left|, |r.right|)
  {
    if schedule != [] {
      var side := schedule[|schedule| - 1];
      Conserved(source, schedule[..|schedule| - 1]);
      var before := ReadAll(source, schedule[..|schedule| - 1]);
      var filled := Filled(source, before.tee, side);
      ResultsLength(source, before.tee.drawn);
      assert |before.left| + |before.tee.left| == before.tee.drawn == |before.right| + |before.tee.right|;
      if filled.drawn != before.tee.drawn {
        QueueGrows(source, before.left, before.tee.left, before.tee.drawn);
        QueueGrows(source, before.right, before.tee.right, before.tee.drawn);
      }
      hide Conserves;
      if side.Left? {
        QueueGives(source, before.left, filled.left, filled.drawn);
      } else {
        QueueGives(source, before.right, filled.right, filled.drawn);
      }
    }
  }

  lemma GivenInOrder<T>(source: seq<T>, given: seq<Option<T>>, queue: seq<Option<T>>, drawn: nat)
    requires Conserves(source, given, queue, drawn)
    ensures given == Results(source, |given|) && |given| + |queue| == drawn
  {
    ResultsAt(source, drawn);
    ResultsAt(source, |given|);
    hide Results;
    assert forall k :: 0 <= k < |given| ==> given[k] == (given + queue)[k];
  }

  lemma ResultsLength<T>(source: seq<T>, n: nat)
    ensures |Results(source, n)| == n
  {
    ResultsAt(source, n);
  }

  /** The first `n` elements of the source, and then nothing but its end. */
  predicate SeesFirst<T(==)>(given: seq<Option<T>>, source: seq<T>, n: nat) {
    && |given| == n
    && forall k :: 0 <= k < n ==> given[k] == (if k < |source| then Some(source[k]) else None)
  }

  /**
   For every schedule of reads each branch is given exactly the source's elements, in order; one is drawn
   once, when the first of the two branches needs it; and one queue is always empty.
   */
  lemma EachSeesAll<T>(source: seq<T>, schedule: seq<Side>)
    ensures var r := ReadAll(source, schedule);
      && SeesFirst(r.left, source, Reads(schedule, Left))
      && SeesFirst(r.right, source, Reads(schedule, Right))
      && r.tee.drawn == Max(Reads(schedule, Left), Reads(schedule, Right))
      && (r.tee.left == [] || r.tee.right == [])
  {
    Conserved(source, schedule);
    var r := ReadAll(source, schedule);
    GivenInOrder(source, r.left, r.tee.left, r.tee.drawn);
    GivenInOrder(source, r.right, r.tee.right, r.tee.drawn);
    ResultsAt(source, |r.left|);
    ResultsAt(source, |r.right|);
    hide ReadAll, Results, Reads;
  }
}
