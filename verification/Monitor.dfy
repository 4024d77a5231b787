/** The synchronized queue between the threads of a bridge: a monitor with one
    waiting consumer and any number of producers. */
module Monitor {

  import opened Wire

  /** The consumer: about to test the queue inside pop; waiting on the condition
      variable; away with an item; or back from a pop that returned false. */
  datatype Consumer = Testing | Waiting(notified: bool) | Away | Ended

  /** items, done  the monitor's fields
      notifies     producers that have released the mutex and not yet notified */
  datatype Monitor<T> = Monitor(items: seq<T>, done: bool, consumer: Consumer, notifies: nat)

  /** push, up to the release of the mutex. */
  function Pushed<T>(q: Monitor<T>, x: T): Monitor<T> {
    q.(items := q.items + [x], notifies := q.notifies + 1)
  }

  /** finish, up to the release of the mutex. */
  function Finished<T>(q: Monitor<T>): Monitor<T> {
    q.(done := true, notifies := q.notifies + 1)
  }

  /** The notify_one of a producer; it is lost when nobody waits. */
  function Notified<T>(q: Monitor<T>): Monitor<T>
    requires q.notifies > 0
  {
    q.(notifies := q.notifies - 1, consumer := if q.consumer.Waiting? then Waiting(true) else q.consumer)
  }

  /** The consumer, holding the mutex, tests the queue and takes the first item,
      or starts to wait.  Repaired, it looks at `done` before it waits. */
  function Tested<T>(v: Variant, q: Monitor<T>): Monitor<T>
    requires q.consumer.Testing?
  {
    if q.items != [] then q.(items := q.items[1..], consumer := Away)
    else if v.Repaired? && q.done then q.(consumer := Ended)
    else q.(consumer := Waiting(false))
  }

  /** The consumer wakes up, notified or not, and has the mutex again.  As
      written, it looks at `done` here and only here. */
  function Woken<T>(v: Variant, q: Monitor<T>): Monitor<T>
    requires q.consumer.Waiting?
  {
    q.(consumer := if v.AsWritten? && q.done then Ended else Testing)
  }

  /** The consumer is back for the next item. */
  function Returned<T>(q: Monitor<T>): Monitor<T>
    requires q.consumer.Away?
  {
    q.(consumer := Testing)
  }

  // ---------------------------------------------------- all interleavings

  datatype Op<T> = DoPush(x: T) | DoFinish | DoNotify | DoTest | DoWake | DoReturn

  /** The monitor with its history: what was pushed, what was popped, and whether
      the present wait began after finish. */
  datatype History<T> = History(q: Monitor<T>, pushed: seq<T>, popped: seq<T>, late: bool)

  predicate CanDo<T>(h: History<T>, op: Op<T>) {
    match op
    case DoPush(_) => true
    case DoFinish => true
    case DoNotify => h.q.notifies > 0
    case DoTest => h.q.consumer.Testing?
    case DoWake => h.q.consumer.Waiting?
    case DoReturn => h.q.consumer.Away?
  }

  function Do<T>(v: Variant, h: History<T>, op: Op<T>): History<T>
    requires CanDo(h, op)
  {
    match op
    case DoPush(x) => h.(q := Pushed(h.q, x), pushed := h.pushed + [x])
    case DoFinish => h.(q := Finished(h.q))
    case DoNotify => h.(q := Notified(h.q))
    case DoTest =>
      h.(q := Tested(v, h.q),
         popped := h.popped + if h.q.items != [] then [h.q.items[0]] else [],
         late := h.q.done)
    case DoWake => h.(q := Woken(v, h.q))
    case DoReturn => h.(q := Returned(h.q))
  }

  ghost predicate Reaches<T>(v: Variant, h: History<T>, ops: seq<Op<T>>, h': History<T>)
    decreases ops
  {
    if ops == [] then h' == h
    else CanDo(h, ops[0]) && Reaches(v, Do(v, h, ops[0]), ops[1..], h')
  }

  function Start<T>(): History<T> { History(Monitor([], false, Testing, 0), [], [], false) }

  ghost predicate Inv<T>(v: Variant, h: History<T>) {
    && h.popped + h.q.items == h.pushed
    && (h.q.consumer.Ended? ==> h.q.done)
    && (h.q.consumer == Waiting(false) && h.q.items != [] ==> h.q.notifies > 0)
    && (h.q.consumer == Waiting(false) && h.q.done && !h.late ==> h.q.notifies > 0)
    && (v.Repaired? && h.q.consumer.Waiting? ==> !h.late)
  }

  lemma DoInv<T>(v: Variant, h: History<T>, op: Op<T>)
    requires Inv(v, h) && CanDo(h, op)
    ensures Inv(v, Do(v, h, op))
  {
    match op
    case DoPush(x) => assert h.popped + (h.q.items + [x]) == h.pushed + [x];
    case DoTest =>
      if h.q.items != [] {
        assert h.popped + h.q.items == h.popped + [h.q.items[0]] + h.q.items[1..];
      }
    case _ =>
  }

  lemma {:induction false} ReachesInv<T>(v: Variant, h: History<T>, ops: seq<Op<T>>, h': History<T>)
    requires Inv(v, h) && Reaches(v, h, ops, h')
    ensures Inv(v, h')
    decreases ops
  {
    if ops != [] {
      DoInv(v, h, ops[0]);
      ReachesInv(v, Do(v, h, ops[0]), ops[1..], h');
    }
  }

  /** In every interleaving: the popped items and then the queued ones are the
      pushed items, in order; pop returns false only after finish; a consumer
      that waits un-notified while there are items has a notification coming;
      and, as written, one that waits un-notified after finish without one coming
      began to wait after finish.  Repaired, none does. */
  lemma QueueMonitor<T>(v: Variant, ops: seq<Op<T>>, h: History<T>)
    requires Reaches(v, Start(), ops, h)
    ensures h.popped + h.q.items == h.pushed
    ensures h.q.consumer.Ended? ==> h.q.done
    ensures h.q.consumer == Waiting(false) && h.q.notifies == 0 ==> h.q.items == [] && (h.q.done ==> h.late)
    ensures v.Repaired? && h.q.consumer == Waiting(false) && h.q.notifies == 0 ==> !h.q.done
  {
    assert Inv(v, Start<T>());
    ReachesInv(v, Start(), ops, h);
  }

  lemma Before<T>(v: Variant, h: History<T>, op: Op<T>, ops: seq<Op<T>>, h': History<T>)
    requires CanDo(h, op) && Reaches(v, Do(v, h, op), ops, h')
    ensures Reaches(v, h, [op] + ops, h')
  {
    assert ([op] + ops)[1..] == ops;
  }

  /** As written, a consumer that begins to wait after finish can be left waiting
      with no notification to come. */
  lemma FinishCanBeMissed() returns (ops: seq<Op<int>>, h: History<int>)
    ensures Reaches(AsWritten, Start(), ops, h)
    ensures h.q.consumer == Waiting(false) && h.q.done && h.q.notifies == 0
  {
    var h1 := Do(AsWritten, Start<int>(), DoFinish);
    var h2 := Do(AsWritten, h1, DoNotify);
    h := Do(AsWritten, h2, DoTest);
    Before(AsWritten, h2, DoTest, [], h);
    Before(AsWritten, h1, DoNotify, [DoTest] + [], h);
    ops := [DoFinish] + ([DoNotify] + ([DoTest] + []));
    Before(AsWritten, Start<int>(), DoFinish, [DoNotify] + ([DoTest] + []), h);
  }

  /** As written, pop can return false although an item is queued. */
  lemma FinishCanDropItems() returns (ops: seq<Op<int>>, h: History<int>)
    ensures Reaches(AsWritten, Start(), ops, h)
    ensures h.q.consumer.Ended? && h.q.items != []
  {
    var h1 := Do(AsWritten, Start<int>(), DoTest);
    var h2 := Do(AsWritten, h1, DoPush(0));
    var h3 := Do(AsWritten, h2, DoFinish);
    h := Do(AsWritten, h3, DoWake);
    Before(AsWritten, h3, DoWake, [], h);
    Before(AsWritten, h2, DoFinish, [DoWake] + [], h);
    Before(AsWritten, h1, DoPush(0), [DoFinish] + ([DoWake] + []), h);
    ops := [DoTest] + ([DoPush(0)] + ([DoFinish] + ([DoWake] + [])));
    Before(AsWritten, Start<int>(), DoTest, [DoPush(0)] + ([DoFinish] + ([DoWake] + [])), h);
  }

  // --------------------------------------------- when finish goes wrong

  /** No producer pushes or finishes any more. */
  ghost predicate Quiet<T(!new)>(ops: seq<Op<T>>) {
    forall op :: op in ops ==> !op.DoPush? && !op.DoFinish?
  }

  /** pop can return false with an item queued. */
  ghost predicate CanDrop<T(!new)>(v: Variant, h: History<T>) {
    exists ops: seq<Op<T>>, h': History<T> ::
      Quiet(ops) && Reaches(v, h, ops, h') && h'.q.consumer.Ended? && h'.q.items != []
  }

  /** The consumer can come to wait with no notification to come. */
  ghost predicate CanStrand<T(!new)>(v: Variant, h: History<T>) {
    exists ops: seq<Op<T>>, h': History<T> ::
      Quiet(ops) && Reaches(v, h, ops, h') && h'.q.consumer == Waiting(false) && h'.q.notifies == 0
  }

  lemma QuietTail<T(!new)>(ops: seq<Op<T>>)
    requires Quiet(ops) && ops != []
    ensures Quiet(ops[1..]) && !ops[0].DoPush? && !ops[0].DoFinish?
  {
    assert ops[0] in ops && forall op :: op in ops[1..] ==> op in ops;
  }

  /** Without a waiting consumer, or without items, nothing is dropped. */
  lemma {:induction false} NothingDropped<T(!new)>(v: Variant, h: History<T>, ops: seq<Op<T>>, h': History<T>)
    requires h.q.done && Quiet(ops) && Reaches(v, h, ops, h')
    requires h.q.items == [] || (!h.q.consumer.Ended? && (v.Repaired? || !h.q.consumer.Waiting?))
    ensures h'.q.consumer.Ended? ==> h'.q.items == []
    decreases |ops|
  {
    if ops != [] {
      QuietTail(ops);
      NothingDropped(v, Do(v, h, ops[0]), ops[1..], h');
    }
  }

  /** After finish, a consumer that has not ended can lose items exactly if the
      queue is unrepaired and it waits while items are queued. */
  lemma DropsExactlyWhen<T(!new)>(v: Variant, h: History<T>)
    requires h.q.done && !h.q.consumer.Ended?
    ensures CanDrop(v, h) <==> v.AsWritten? && h.q.consumer.Waiting? && h.q.items != []
  {
    if v.AsWritten? && h.q.consumer.Waiting? && h.q.items != [] {
      Before(v, h, DoWake, [], Do(v, h, DoWake));
      assert Quiet<T>([DoWake] + []);
    } else {
      forall ops: seq<Op<T>>, h': History<T> | Quiet(ops) && Reaches(v, h, ops, h')
        ensures h'.q.consumer.Ended? ==> h'.q.items == []
      {
        NothingDropped(v, h, ops, h');
      }
    }
  }

  /** A consumer that a notification has reached or will reach, or that is
      repaired and looks at done, does not come to wait for ever. */
  lemma {:induction false} NotStranded<T(!new)>(v: Variant, h: History<T>, ops: seq<Op<T>>, h': History<T>)
    requires h.q.done && Quiet(ops) && Reaches(v, h, ops, h')
    requires v.Repaired? || h.q.consumer.Waiting? || h.q.consumer.Ended?
    requires h.q.consumer == Waiting(false) ==> h.q.notifies > 0
    ensures h'.q.consumer == Waiting(false) ==> h'.q.notifies > 0
    decreases |ops|
  {
    if ops != [] {
      QuietTail(ops);
      NotStranded(v, Do(v, h, ops[0]), ops[1..], h');
    }
  }

  /** A consumer that does not wait can come to wait for ever: it takes what is
      queued, the notifications go by, and it looks into the empty queue. */
  lemma {:induction false} Strands<T(!new)>(h: History<T>) returns (ops: seq<Op<T>>, h': History<T>)
    requires h.q.consumer.Testing? || h.q.consumer.Away?
    ensures Quiet(ops) && Reaches(AsWritten, h, ops, h') && h'.q.consumer == Waiting(false) && h'.q.notifies == 0
    decreases |h.q.items|, h.q.notifies, h.q.consumer.Away?
  {
    var op: Op<T> := if h.q.consumer.Away? then DoReturn else if h.q.notifies > 0 then DoNotify else DoTest;
    var h1 := Do(AsWritten, h, op);
    var rest: seq<Op<T>> := [];
    h' := h1;
    if !h1.q.consumer.Waiting? {
      rest, h' := Strands(h1);
    }
    Before(AsWritten, h, op, rest, h');
    ops := [op] + rest;
  }

  /** Once finished, a consumer that has not ended can be left waiting for ever
      exactly if the queue is unrepaired and it does not wait yet, or if it already
      waits with no notification to come. */
  lemma StrandsExactlyWhen<T(!new)>(v: Variant, h: History<T>)
    requires h.q.done && !h.q.consumer.Ended?
    ensures CanStrand(v, h)
      <==> (v.AsWritten? && !h.q.consumer.Waiting?) || (h.q.consumer == Waiting(false) && h.q.notifies == 0)
  {
    if h.q.consumer == Waiting(false) && h.q.notifies == 0 {
      assert Reaches(v, h, [], h) && Quiet<T>([]);
    } else if v.AsWritten? && !h.q.consumer.Waiting? {
      var ops, h' := Strands(h);
    } else {
      forall ops: seq<Op<T>>, h': History<T> | Quiet(ops) && Reaches(v, h, ops, h')
        ensures h'.q.consumer == Waiting(false) ==> h'.q.notifies > 0
      {
        NotStranded(v, h, ops, h');
      }
    }
  }

  /** The last finish of a queue: it can lose items exactly when it meets a waiting
      consumer and items, it can be missed exactly when it meets one that does not
      wait, and with the repair it does neither. */
  lemma FinishIsRightExactlyWhen<T(!new)>(v: Variant, h: History<T>)
    requires !h.q.consumer.Ended?
    ensures var h' := Do(v, h, DoFinish);
            && (CanDrop(v, h') <==> v.AsWritten? && h.q.consumer.Waiting? && h.q.items != [])
            && (CanStrand(v, h') <==> v.AsWritten? && !h.q.consumer.Waiting?)
  {
    DropsExactlyWhen(v, Do(v, h, DoFinish));
    StrandsExactlyWhen(v, Do(v, h, DoFinish));
  }

  // ------------------------------------------------------------ the class

  /** The queue as an object.  `consumer` and `notifies` stand for what the
      condition variable and the threads' program counters hold. */
  class Queue<T> {
    var queue: seq<T>
    var done: bool
    var consumer: Consumer
    var notifies: nat

    ghost function View(): Monitor<T>
      reads this
    {
      Monitor(queue, done, consumer, notifies)
    }

    constructor ()
      ensures View() == Start<T>().q
    {
      queue, done, consumer, notifies := [], false, Testing, 0;
    }

    method Push(item: T)
      modifies this
      ensures View() == Pushed(old(View()), item)
      ensures queue == old(queue) + [item] && done == old(done)
      ensures notifies == old(notifies) + 1 && consumer == old(consumer)
    {
      queue := queue + [item];
      notifies := notifies + 1;
    }

    method Finish()
      modifies this
      ensures View() == Finished(old(View()))
      ensures queue == old(queue) && done
      ensures notifies == old(notifies) + 1 && consumer == old(consumer)
    {
      done := true;
      notifies := notifies + 1;
    }

    method NotifyOne()
      requires notifies > 0
      modifies this
      ensures View() == Notified(old(View()))
      ensures queue == old(queue) && done == old(done) && notifies == old(notifies) - 1
      ensures consumer == if old(consumer) == Waiting(false) then Waiting(true) else old(consumer)
    {
      notifies := notifies - 1;
      if consumer.Waiting? {
        consumer := Waiting(true);
      }
    }

    /** pop, from the loop test to the return or the wait; `again` says that the
        thread now waits. */
    method PopTest(v: Variant) returns (item: seq<T>, again: bool)
      requires consumer.Testing?
      modifies this
      ensures View() == Tested(v, old(View()))
      ensures item + queue == old(queue) && |item| <= 1 && (item == [] <==> old(queue) == [])
      ensures done == old(done) && notifies == old(notifies)
      ensures consumer.Away? <==> item != []
      ensures consumer.Ended? <==> item == [] && done && v == Repaired
      ensures again <==> consumer == Waiting(false)
    {
      item, again := [], false;
      if queue == [] {
        if v.Repaired? && done {
          consumer := Ended;
          return;
        }
        consumer, again := Waiting(false), true;
        return;
      }
      item := [queue[0]];
      queue := queue[1..];
      consumer := Away;
    }

    /** pop, from the wake-up on. */
    method PopWake(v: Variant) returns (again: bool)
      requires consumer.Waiting?
      modifies this
      ensures View() == Woken(v, old(View()))
      ensures queue == old(queue) && done == old(done) && notifies == old(notifies)
      ensures consumer == if done && v == AsWritten then Ended else Testing
      ensures again <==> consumer.Testing?
    {
      if v.AsWritten? && done {
        consumer := Ended;
        return false;
      }
      consumer := Testing;
      again := true;
    }
  }
}
