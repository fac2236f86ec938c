/** The serialized job dispatcher: a FIFO of job records consumed one at a
    time by a single dispatcher, which runs each job and fulfils that job's
    future with its result or its exception.

    The threads and event loops of the implementation are not modelled.
    Every observable change is one atomic transition of a `State`:
    starting, stopping, submitting, the dispatcher taking the head record
    (its stop-flag test followed by `get()`) and the dispatcher finishing
    the record it holds (running the job and fulfilling the future). The
    last two are separate transitions because the dispatcher awaits the
    job in between, and other callers may start, stop or submit meanwhile.
    The class `JobQueue` at the end carries the implementation's fields and
    performs these transitions in place. */
module Jobs {
  import opened Basics

  /** What calling a job's body produces: a returned value or a raised
      exception. */
  datatype Completion<V, E> = Returned(value: V) | Raised(error: E)

  /** Why a job failed: its body raised, or the call never reached the body
      because the executor hand-off refused keyword arguments (the
      `TypeError` of `run_in_executor`, which passes positional arguments
      only). */
  datatype Failure<E> = BodyRaised(error: E) | KeywordsRejected

  /** The one-shot result cell handed back to a submitter. */
  datatype Outcome<V, E> = Pending | Resolved(value: V) | Failed(error: Failure<E>)

  /** A unit of work, tagged synchronous or asynchronous (the implementation
      tells them apart with `asyncio.iscoroutinefunction`). An asynchronous
      body is awaited with the positional and keyword arguments; a
      synchronous body is run by the executor, which can only pass it the
      positional ones. */
  datatype Work<!V, E> =
    | Sync(body: seq<V> -> Completion<V, E>)
    | Async(coroutine: (seq<V>, map<string, V>) -> Completion<V, E>)

  /** A job record: the work, its arguments and the future to fulfil (named
      by its number in the map of futures). */
  datatype Job<!V, E> = Job(work: Work<V, E>, args: seq<V>, kwargs: map<string, V>, future: nat)

  /** The value written into a job's future for a body's completion:
      `set_result` on a return, `set_exception` on a raise. */
  function Settle<V, E>(c: Completion<V, E>): (o: Outcome<V, E>)
    ensures !o.Pending?
    ensures o.Resolved? <==> c.Returned?
    ensures c.Returned? ==> o == Resolved(c.value)
    ensures c.Raised? ==> o == Failed(BodyRaised(c.error))
  {
    match c
    case Returned(v) => Resolved(v)
    case Raised(e) => Failed(BodyRaised(e))
  }

  /** Running a job and settling its future. An asynchronous job is awaited
      on the dispatcher's event loop with all its arguments. A synchronous
      one is handed to the loop's default executor: with keyword arguments
      that call raises before the body runs, and the future fails; without,
      the body runs on the positional arguments. Exactly one of
      `set_result` and `set_exception` happens, never neither. */
  function Run<V, E>(job: Job<V, E>): (o: Outcome<V, E>)
    ensures !o.Pending?
    ensures job.work.Async? ==> o == Settle(job.work.coroutine(job.args, job.kwargs))
    ensures job.work.Sync? && |job.kwargs| > 0 ==> o == Failed(KeywordsRejected)
    ensures job.work.Sync? && |job.kwargs| == 0 ==> o == Settle(job.work.body(job.args))
  {
    match job.work
    case Async(call) => Settle(call(job.args, job.kwargs))
    case Sync(call) => if |job.kwargs| > 0 then Failed(KeywordsRejected) else Settle(call(job.args))
  }

  /** Why a submission is refused: before the first `start` there is no
      event loop to hand the record to. */
  datatype SubmitError = NoEventLoop

  /** The dispatcher's whole state. `current` is the record the dispatcher
      has taken from the queue and not yet finished (a local variable of the
      dispatcher coroutine in the implementation); `futures` maps every
      future handed out so far to its outcome, and `nextFuture` numbers the
      next one. */
  datatype State<!V, E> = State(
    loopCreated: bool,
    isRunning: bool,
    stopFlag: bool,
    queue: seq<Job<V, E>>,
    current: Option<Job<V, E>>,
    futures: map<nat, Outcome<V, E>>,
    nextFuture: nat)

  /** What every reachable state satisfies. */
  ghost predicate Inv<V, E>(s: State<V, E>) {
    // the lifecycle pair always moves together
    && s.isRunning == !s.stopFlag
    // the futures handed out are exactly those numbered below nextFuture
    && (forall f: nat :: f in s.futures <==> f < s.nextFuture)
    // a queued record's future is still pending
    && (forall i :: 0 <= i < |s.queue| ==> s.queue[i].future in s.futures && s.futures[s.queue[i].future].Pending?)
    // records sit in the queue in submission order
    && (forall i, j :: 0 <= i < j < |s.queue| ==> s.queue[i].future < s.queue[j].future)
    // the record in flight is pending and older than everything queued
    && (s.current.Some? ==>
          && s.current.value.future in s.futures
          && s.futures[s.current.value.future].Pending?
          && forall i :: 0 <= i < |s.queue| ==> s.current.value.future < s.queue[i].future)
    // before the first start nothing has happened
    && (!s.loopCreated ==> !s.isRunning && s.queue == [] && s.current.None? && s.nextFuture == 0)
  }

  /** A fresh queue: not running, stop flag set, no event loop yet, no
      jobs. */
  function Init<V, E>(): (s: State<V, E>)
    ensures !s.isRunning && s.stopFlag
    ensures !s.loopCreated && s.nextFuture == 0
    ensures s.queue == [] && s.current.None? && s.futures == map[]
    ensures Inv(s)
  {
    State(false, false, true, [], None, map[], 0)
  }

  /** `start`: nothing when already running; otherwise running, stop flag
      cleared, and the dispatcher's event loop exists. The jobs are not
      touched. */
  function StartStep<V, E>(s: State<V, E>): (r: State<V, E>)
    ensures r.isRunning
    ensures s.isRunning ==> r == s
    ensures !s.isRunning ==> !r.stopFlag && r.loopCreated
    ensures r.queue == s.queue && r.current == s.current && r.futures == s.futures && r.nextFuture == s.nextFuture
  {
    if s.isRunning then s
    else s.(isRunning := true, stopFlag := false, loopCreated := true)
  }

  /** `stop`: nothing when not running; otherwise not running and stop flag
      set. Neither the queue nor the record in flight is touched. */
  function StopStep<V, E>(s: State<V, E>): (r: State<V, E>)
    ensures !r.isRunning
    ensures !s.isRunning ==> r == s
    ensures s.isRunning ==> r.stopFlag
    ensures r.loopCreated == s.loopCreated
    ensures r.queue == s.queue && r.current == s.current && r.futures == s.futures && r.nextFuture == s.nextFuture
  {
    if !s.isRunning then s
    else s.(isRunning := false, stopFlag := true)
  }

  /** `submit_job`: a new pending future, and a record carrying it appended
      at the tail of the queue; refused while there is no event loop. */
  function SubmitStep<V, E>(s: State<V, E>, work: Work<V, E>, args: seq<V>, kwargs: map<string, V>)
    : (r: (State<V, E>, Result<nat, SubmitError>))
    ensures !s.loopCreated <==> r.1.Err?
    ensures !s.loopCreated ==> r.0 == s
    ensures s.loopCreated ==>
      && r.1 == Ok(s.nextFuture)
      && r.0.queue == s.queue + [Job(work, args, kwargs, s.nextFuture)]
      && r.0.futures == s.futures[s.nextFuture := Pending]
      && r.0.nextFuture == s.nextFuture + 1
      && r.0.loopCreated && r.0.isRunning == s.isRunning && r.0.stopFlag == s.stopFlag
      && r.0.current == s.current
  {
    if !s.loopCreated then (s, Err(NoEventLoop))
    else
      var f := s.nextFuture;
      var job := Job(work, args, kwargs, f);
      (s.(queue := s.queue + [job], futures := s.futures[f := Pending], nextFuture := f + 1), Ok(f))
  }

  /** The dispatcher is between jobs, has not seen the stop flag, and a
      record is waiting. */
  predicate CanTake<V, E>(s: State<V, E>) {
    s.current.None? && !s.stopFlag && |s.queue| > 0
  }

  /** The head of the dispatcher loop: test the stop flag, then take the
      head record. With the flag set the loop has ended; with
      the queue empty `get()` waits; while a record is in flight the
      dispatcher is busy with it. In those cases nothing changes. */
  function TakeStep<V, E>(s: State<V, E>): (r: State<V, E>)
    ensures CanTake(s) ==> r.current == Some(s.queue[0]) && r.queue == s.queue[1..]
    ensures !CanTake(s) ==> r == s
    ensures r.futures == s.futures && r.isRunning == s.isRunning && r.stopFlag == s.stopFlag
    ensures r.loopCreated == s.loopCreated && r.nextFuture == s.nextFuture
  {
    if CanTake(s) then s.(current := Some(s.queue[0]), queue := s.queue[1..])
    else s
  }

  /** The body of the dispatcher loop: run the record in flight and fulfil
      its future with the outcome. The stop flag is not
      consulted here. Only that one future changes. */
  function FinishStep<V, E>(s: State<V, E>): (r: State<V, E>)
    ensures r.current.None?
    ensures s.current.Some? ==> r.futures == s.futures[s.current.value.future := Run(s.current.value)]
    ensures s.current.None? ==> r == s
    ensures r.queue == s.queue && r.isRunning == s.isRunning && r.stopFlag == s.stopFlag
    ensures r.loopCreated == s.loopCreated && r.nextFuture == s.nextFuture
  {
    match s.current
    case None => s
    case Some(job) => s.(current := None, futures := s.futures[job.future := Run(job)])
  }

  /** The transitions, as one datatype, so that a run of the system is a
      sequence of them. */
  datatype Op<!V, E> =
    | Start
    | Stop
    | Submit(work: Work<V, E>, args: seq<V>, kwargs: map<string, V>)
    | Take
    | Finish

  function Apply<V, E>(s: State<V, E>, op: Op<V, E>): State<V, E> {
    match op
    case Start => StartStep(s)
    case Stop => StopStep(s)
    case Submit(w, a, k) => SubmitStep(s, w, a, k).0
    case Take => TakeStep(s)
    case Finish => FinishStep(s)
  }

  function Replay<V, E>(s: State<V, E>, ops: seq<Op<V, E>>): State<V, E>
    decreases |ops|
  {
    if ops == [] then s else Replay(Apply(s, ops[0]), ops[1..])
  }

  /** Before the first `start`, nothing any other operation does changes a
      fresh queue, and every submission is refused for want of an event
      loop. */
  lemma {:induction false} SubmitBeforeStartFails<V, E>(ops: seq<Op<V, E>>, work: Work<V, E>, args: seq<V>, kwargs: map<string, V>)
    requires forall i :: 0 <= i < |ops| ==> !ops[i].Start?
    ensures Replay(Init(), ops) == Init()
    ensures SubmitStep(Replay(Init(), ops), work, args, kwargs) == (Init(), Err(NoEventLoop))
    decreases |ops|
  {
    if ops != [] {
      assert Apply(Init<V, E>(), ops[0]) == Init<V, E>();
      SubmitBeforeStartFails(ops[1..], work, args, kwargs);
    }
  }

  lemma SubmitKeepsInv<V, E>(s: State<V, E>, work: Work<V, E>, args: seq<V>, kwargs: map<string, V>)
    requires Inv(s)
    ensures Inv(SubmitStep(s, work, args, kwargs).0)
  {
    var t := SubmitStep(s, work, args, kwargs).0;
    if s.loopCreated {
      assert forall i :: 0 <= i < |s.queue| ==> t.queue[i] == s.queue[i];
      assert forall i :: 0 <= i < |s.queue| ==> s.queue[i].future < s.nextFuture;
    }
  }

  lemma TakeKeepsInv<V, E>(s: State<V, E>)
    requires Inv(s)
    ensures Inv(TakeStep(s))
  {
    if CanTake(s) {
      var t := TakeStep(s);
      assert forall i :: 0 <= i < |t.queue| ==> t.queue[i] == s.queue[i + 1];
    }
  }

  lemma FinishKeepsInv<V, E>(s: State<V, E>)
    requires Inv(s)
    ensures Inv(FinishStep(s))
  {
  }

  /** Every transition keeps the invariant. */
  lemma ApplyKeepsInv<V, E>(s: State<V, E>, op: Op<V, E>)
    requires Inv(s)
    ensures Inv(Apply(s, op))
  {
    match op
    case Submit(w, a, k) => SubmitKeepsInv(s, w, a, k);
    case Take => TakeKeepsInv(s);
    case Finish => FinishKeepsInv(s);
    case _ =>
  }

  lemma {:induction false} ReplayKeepsInv<V, E>(s: State<V, E>, ops: seq<Op<V, E>>)
    requires Inv(s)
    ensures Inv(Replay(s, ops))
    decreases |ops|
  {
    if ops != [] {
      ApplyKeepsInv(s, ops[0]);
      ReplayKeepsInv(Apply(s, ops[0]), ops[1..]);
    }
  }

  /** After any sequence of operations from a fresh queue, the queue runs
      exactly when its stop flag is clear. */
  lemma FlagsStayOpposite<V, E>(ops: seq<Op<V, E>>)
    ensures Replay(Init<V, E>(), ops).isRunning == !Replay(Init<V, E>(), ops).stopFlag
  {
    ReplayKeepsInv(Init<V, E>(), ops);
  }

  /** A second `start` or a second `stop` changes nothing. */
  lemma LifecycleIdempotent<V, E>(s: State<V, E>)
    ensures StartStep(StartStep(s)) == StartStep(s)
    ensures StopStep(StopStep(s)) == StopStep(s)
  {
  }

  /** A submission on a valid state hands out a future that did not exist
      before and is pending, and appends exactly one record behind the
      untouched earlier ones. */
  lemma SubmitAppendsOne<V, E>(s: State<V, E>, work: Work<V, E>, args: seq<V>, kwargs: map<string, V>)
    requires Inv(s) && s.loopCreated
    ensures var (t, r) := SubmitStep(s, work, args, kwargs);
      && r.Ok? && r.value !in s.futures && t.futures[r.value].Pending?
      && |t.queue| == |s.queue| + 1
      && t.queue[|s.queue|] == Job(work, args, kwargs, r.value)
      && (forall i :: 0 <= i < |s.queue| ==> t.queue[i] == s.queue[i])
      && (forall f :: f in s.futures ==> f in t.futures && t.futures[f] == s.futures[f])
  {
  }

  /** The dispatcher takes the oldest waiting record: the one whose future
      was handed out first. */
  lemma TakeIsOldest<V, E>(s: State<V, E>)
    requires Inv(s) && CanTake(s)
    ensures TakeStep(s).current.Some?
    ensures forall i :: 0 <= i < |s.queue| ==> TakeStep(s).current.value.future <= s.queue[i].future
  {
    forall i | 0 <= i < |s.queue| ensures s.queue[0].future <= s.queue[i].future {
      if i > 0 {
        assert s.queue[0].future < s.queue[i].future;
      }
    }
  }

  /** The future of the record the dispatcher would take next, or the next
      future to be handed out when the queue is empty: no record taken from
      now on has a smaller one. */
  function NextToTake<V, E>(s: State<V, E>): nat {
    if |s.queue| > 0 then s.queue[0].future else s.nextFuture
  }

  /** The futures of the records taken, in the order taken, along a run. */
  function TakenAlong<V, E>(s: State<V, E>, ops: seq<Op<V, E>>): seq<nat>
    decreases |ops|
  {
    if ops == [] then []
    else
      (if ops[0].Take? && CanTake(s) then [s.queue[0].future] else [])
      + TakenAlong(Apply(s, ops[0]), ops[1..])
  }

  lemma NextToTakeGrows<V, E>(s: State<V, E>, op: Op<V, E>)
    requires Inv(s)
    ensures NextToTake(s) <= NextToTake(Apply(s, op))
    ensures op.Take? && CanTake(s) ==> NextToTake(s) < NextToTake(Apply(s, op))
  {
    if op.Take? && CanTake(s) && |s.queue| > 1 {
      assert s.queue[0].future < s.queue[1].future;
    }
    if op.Take? && CanTake(s) && |s.queue| == 1 {
      assert s.queue[0].future in s.futures;
    }
  }

  /** FIFO: along any run, the dispatcher takes records in strictly
      increasing order of submission, each at most once, and none older than
      what was waiting at the start. */
  lemma {:induction false} TakenInSubmissionOrder<V, E>(s: State<V, E>, ops: seq<Op<V, E>>)
    requires Inv(s)
    ensures forall k :: 0 <= k < |TakenAlong(s, ops)| ==> NextToTake(s) <= TakenAlong(s, ops)[k]
    ensures forall k, l :: 0 <= k < l < |TakenAlong(s, ops)| ==> TakenAlong(s, ops)[k] < TakenAlong(s, ops)[l]
    decreases |ops|
  {
    if ops != [] {
      var t := Apply(s, ops[0]);
      ApplyKeepsInv(s, ops[0]);
      NextToTakeGrows(s, ops[0]);
      TakenInSubmissionOrder(t, ops[1..]);
    }
  }

  /** Once a future is fulfilled it is never written again. */
  lemma {:induction false} SettledIsFinal<V, E>(s: State<V, E>, ops: seq<Op<V, E>>, f: nat)
    requires Inv(s) && f in s.futures && !s.futures[f].Pending?
    ensures f in Replay(s, ops).futures && Replay(s, ops).futures[f] == s.futures[f]
    decreases |ops|
  {
    if ops != [] {
      var t := Apply(s, ops[0]);
      ApplyKeepsInv(s, ops[0]);
      assert f in t.futures && t.futures[f] == s.futures[f];
      SettledIsFinal(t, ops[1..], f);
    }
  }

  /** The stop flag is consulted only between jobs: whatever happens while a
      record is in flight — stops, starts, further submissions — the next
      finishing step fulfils that record's future with its own outcome, and
      that value stays. */
  lemma {:induction false} InFlightIsFulfilled<V, E>(s: State<V, E>, ops: seq<Op<V, E>>)
    requires Inv(s) && s.current.Some?
    ensures var t := Replay(s, ops + [Finish]);
      s.current.value.future in t.futures && t.futures[s.current.value.future] == Run(s.current.value)
    decreases |ops|
  {
    var job := s.current.value;
    if ops == [] {
      assert Replay(s, [Finish]) == FinishStep(s);
    } else {
      var t := Apply(s, ops[0]);
      ApplyKeepsInv(s, ops[0]);
      assert (ops + [Finish])[0] == ops[0];
      assert (ops + [Finish])[1..] == ops[1..] + [Finish];
      if ops[0].Finish? {
        SettledIsFinal(t, ops[1..] + [Finish], job.future);
      } else {
        assert t.current == s.current;
        InFlightIsFulfilled(t, ops[1..]);
      }
    }
  }

  /** After a stop, and as long as nobody starts the queue again, the records
      still queued are neither run nor discarded nor failed: they stay at the
      front of the queue with pending futures. */
  lemma {:induction false} QueuedStayPendingWhileStopped<V, E>(s: State<V, E>, ops: seq<Op<V, E>>)
    requires Inv(s) && s.stopFlag
    requires forall k :: 0 <= k < |ops| ==> !ops[k].Start?
    ensures var t := Replay(s, ops);
      && t.stopFlag
      && s.queue <= t.queue
      && forall i :: 0 <= i < |s.queue| ==> s.queue[i].future in t.futures && t.futures[s.queue[i].future].Pending?
    decreases |ops|
  {
    if ops != [] {
      var t := Apply(s, ops[0]);
      ApplyKeepsInv(s, ops[0]);
      assert s.queue <= t.queue;
      QueuedStayPendingWhileStopped(t, ops[1..]);
      ReplayKeepsInv(t, ops[1..]);
      var u := Replay(t, ops[1..]);
      forall i | 0 <= i < |s.queue| ensures s.queue[i].future in u.futures && u.futures[s.queue[i].future].Pending? {
        assert u.queue[i] == t.queue[i];
      }
    }
  }

  /** The dispatcher loop run without interruption: finish the record in
      flight, then keep taking and finishing records until the stop flag is
      seen or the queue is empty (where `get()` would wait). */
  function Drained<V, E>(s: State<V, E>): State<V, E>
    decreases |s.queue|, if s.current.Some? then 1 else 0
  {
    if s.current.Some? then Drained(FinishStep(s))
    else if CanTake(s) then Drained(TakeStep(s))
    else s
  }

  /** The futures of the records in a queue. */
  ghost function FuturesOf<V, E>(q: seq<Job<V, E>>): set<nat> {
    set i | 0 <= i < |q| :: q[i].future
  }

  /** Taking the head off a queue in submission order removes exactly the
      head's future from the queued ones. */
  lemma FuturesOfTail<V, E>(q: seq<Job<V, E>>)
    requires |q| > 0
    requires forall i, j :: 0 <= i < j < |q| ==> q[i].future < q[j].future
    ensures FuturesOf(q) == FuturesOf(q[1..]) + {q[0].future}
    ensures q[0].future !in FuturesOf(q[1..])
  {
    forall f | f in FuturesOf(q) ensures f in FuturesOf(q[1..]) + {q[0].future} {
      var i :| 0 <= i < |q| && q[i].future == f;
      if i > 0 {
        assert q[1..][i - 1].future == f;
      }
    }
    forall f | f in FuturesOf(q[1..]) ensures f in FuturesOf(q) && f != q[0].future {
      var i :| 0 <= i < |q[1..]| && q[1..][i].future == f;
      assert q[i + 1].future == f;
    }
  }

  /** One uninterrupted iteration of the dispatcher loop: the head record's
      future, and only it, receives the head record's outcome. */
  lemma DispatchIteration<V, E>(s: State<V, E>)
    requires Inv(s) && CanTake(s)
    ensures var u := FinishStep(TakeStep(s));
      && Inv(u) && !u.stopFlag && u.current.None?
      && u.queue == s.queue[1..]
      && u.futures == s.futures[s.queue[0].future := Run(s.queue[0])]
      && Drained(s) == Drained(u)
  {
    TakeKeepsInv(s);
    FinishKeepsInv(TakeStep(s));
  }

  /** Failure isolation and FIFO execution together: an uninterrupted run of
      the dispatcher on a running queue empties it, fulfils every queued
      record's future with that record's own outcome, whatever the other
      records returned or raised, and leaves every other future as it was. */
  lemma {:induction false} DrainedSettlesEach<V, E>(s: State<V, E>)
    requires Inv(s) && !s.stopFlag && s.current.None?
    ensures var t := Drained(s);
      && t.queue == [] && t.current.None?
      && (forall i :: 0 <= i < |s.queue| ==>
            s.queue[i].future in t.futures && t.futures[s.queue[i].future] == Run(s.queue[i]))
      && (forall f :: f in s.futures && f !in FuturesOf(s.queue) ==> f in t.futures && t.futures[f] == s.futures[f])
    decreases |s.queue|
  {
    if |s.queue| > 0 {
      var u := FinishStep(TakeStep(s));
      DispatchIteration(s);
      FuturesOfTail(s.queue);
      DrainedSettlesEach(u);
      var t := Drained(u);
      forall i | 0 <= i < |s.queue|
        ensures s.queue[i].future in t.futures && t.futures[s.queue[i].future] == Run(s.queue[i])
      {
        if i > 0 {
          assert u.queue[i - 1] == s.queue[i];
        } else {
          assert s.queue[0].future !in FuturesOf(u.queue);
        }
      }
    }
  }

  /** The scenario of jobs A returning 1, B raising "boom" and C returning 3,
      submitted back to back on a started queue and then dispatched: the
      three futures hold 1, the error and 3, in that order of submission. */
  lemma ThreeJobScenario()
    ensures var a := Sync((args: seq<int>) => Returned(1));
            var b := Async((args: seq<int>, kw: map<string, int>) => Raised("boom"));
            var c := Sync((args: seq<int>) => Returned(3));
            var s := Replay(Init<int, string>(), [Start, Submit(a, [], map[]), Submit(b, [], map[]), Submit(c, [], map[])]);
            var t := Drained(s);
            && {0, 1, 2} <= t.futures.Keys
            && t.futures[0] == Resolved(1) && t.futures[1] == Failed(BodyRaised("boom")) && t.futures[2] == Resolved(3)
  {
    var a := Sync((args: seq<int>) => Returned(1));
    var b := Async((args: seq<int>, kw: map<string, int>) => Raised("boom"));
    var c := Sync((args: seq<int>) => Returned(3));
    var s0 := StartStep(Init<int, string>());
    var s1 := SubmitStep(s0, a, [], map[]).0;
    var s2 := SubmitStep(s1, b, [], map[]).0;
    var s3 := SubmitStep(s2, c, [], map[]).0;
    var ops3: seq<Op<int, string>> := [Submit(c, [], map[])];
    var ops2: seq<Op<int, string>> := [Submit(b, [], map[])] + ops3;
    var ops1: seq<Op<int, string>> := [Submit(a, [], map[])] + ops2;
    var ops0: seq<Op<int, string>> := [Start] + ops1;
    assert Replay(s3, ops3[1..]) == s3;
    assert Replay(s2, ops3) == s3;
    assert Replay(s1, ops2) == s3;
    assert Replay(s0, ops1) == s3;
    assert Replay(Init<int, string>(), ops0) == s3;
    assert ops0 == [Start, Submit(a, [], map[]), Submit(b, [], map[]), Submit(c, [], map[])];
    ReplayKeepsInv(Init<int, string>(), ops0);
    assert s3.queue == [Job(a, [], map[], 0), Job(b, [], map[], 1), Job(c, [], map[], 2)];
    DrainedSettlesEach(s3);
    assert s3.queue[0].future == 0 && s3.queue[1].future == 1 && s3.queue[2].future == 2;
  }

  /** A synchronous job submitted with keyword arguments on a started
      queue: whatever its body would do, once dispatched its future holds
      the executor's refusal, and the body's own completion is never
      observed. An asynchronous job with the same arguments gets its body's
      outcome. */
  lemma SyncKeywordsFail<V, E>(body: seq<V> -> Completion<V, E>, coroutine: (seq<V>, map<string, V>) -> Completion<V, E>,
                               args: seq<V>, kwargs: map<string, V>)
    requires |kwargs| > 0
    ensures var s := Replay(Init<V, E>(), [Start, Submit(Sync(body), args, kwargs), Submit(Async(coroutine), args, kwargs)]);
            var t := Drained(s);
            && {0, 1} <= t.futures.Keys
            && t.futures[0] == Failed(KeywordsRejected)
            && t.futures[1] == Settle(coroutine(args, kwargs))
  {
    var s0 := StartStep(Init<V, E>());
    var s1 := SubmitStep(s0, Sync(body), args, kwargs).0;
    var s2 := SubmitStep(s1, Async(coroutine), args, kwargs).0;
    var ops2: seq<Op<V, E>> := [Submit(Async(coroutine), args, kwargs)];
    var ops1: seq<Op<V, E>> := [Submit(Sync(body), args, kwargs)] + ops2;
    var ops0: seq<Op<V, E>> := [Start] + ops1;
    assert Replay(s2, ops2[1..]) == s2;
    assert Replay(s1, ops2) == s2;
    assert Replay(s0, ops1) == s2;
    assert Replay(Init<V, E>(), ops0) == s2;
    assert ops0 == [Start, Submit(Sync(body), args, kwargs), Submit(Async(coroutine), args, kwargs)];
    ReplayKeepsInv(Init<V, E>(), ops0);
    assert s2.queue == [Job(Sync(body), args, kwargs, 0), Job(Async(coroutine), args, kwargs, 1)];
    DrainedSettlesEach(s2);
    assert s2.queue[0].future == 0 && s2.queue[1].future == 1;
  }

  // ---------------------------------------------------------------------
  // The queue object
  // ---------------------------------------------------------------------

  /** `JobQueue`, with its fields updated in place. */
  class JobQueue<V, E> {
    var loopCreated: bool
    var isRunning: bool
    var stopFlag: bool
    var queue: seq<Job<V, E>>
    var current: Option<Job<V, E>>
    var futures: map<nat, Outcome<V, E>>
    var nextFuture: nat

    function Model(): State<V, E>
      reads this
    {
      State(loopCreated, isRunning, stopFlag, queue, current, futures, nextFuture)
    }

    ghost predicate Valid()
      reads this
    {
      Inv(Model())
    }

    /** `__init__`: not running, stop flag set, empty queue. */
    constructor ()
      ensures Valid()
      ensures Model() == Init()
      ensures !isRunning && stopFlag && queue == []
    {
      loopCreated, isRunning, stopFlag := false, false, true;
      queue, current := [], None;
      futures, nextFuture := map[], 0;
    }

    method Start()
      requires Valid()
      modifies this
      ensures Valid()
      ensures Model() == StartStep(old(Model()))
      ensures isRunning && !stopFlag
    {
      if isRunning {
        return;
      }
      isRunning := true;
      stopFlag := false;
      loopCreated := true;
    }

    method Stop()
      requires Valid()
      modifies this
      ensures Valid()
      ensures Model() == StopStep(old(Model()))
      ensures !isRunning && stopFlag
    {
      if !isRunning {
        return;
      }
      isRunning := false;
      stopFlag := true;
    }

    /** `submit_job`: creates the future, appends the record and returns the
      future's number. */
    method Submit(work: Work<V, E>, args: seq<V>, kwargs: map<string, V>) returns (r: Result<nat, SubmitError>)
      requires Valid()
      modifies this
      ensures Valid()
      ensures (Model(), r) == SubmitStep(old(Model()), work, args, kwargs)
      ensures r.Ok? ==> && r.value !in old(futures) && futures[r.value].Pending?
                        && queue == old(queue) + [Job(work, args, kwargs, r.value)]
    {
      if !loopCreated {
        return Err(NoEventLoop);
      }
      var f := nextFuture;
      futures := futures[f := Pending];
      queue := queue + [Job(work, args, kwargs, f)];
      nextFuture := f + 1;
      r := Ok(f);
    }

    /** The head of the dispatcher loop: test the stop flag, then dequeue. */
    method BeginJob() returns (took: bool)
      requires Valid()
      modifies this
      ensures Valid()
      ensures Model() == TakeStep(old(Model()))
      ensures took == CanTake(old(Model()))
    {
      took := current.None? && !stopFlag && |queue| > 0;
      if took {
        current := Some(queue[0]);
        queue := queue[1..];
        ApplyKeepsInv(old(Model()), Take);
      }
    }

    /** The body of the dispatcher loop: run the job and fulfil its future. */
    method FinishJob()
      requires Valid()
      modifies this
      ensures Valid()
      ensures Model() == FinishStep(old(Model()))
    {
      if current.Some? {
        var job := current.value;
        var outcome: Outcome<V, E>;
        match job.work {
          case Async(call) =>
            var result := call(job.args, job.kwargs);
            outcome := Settle(result);
          case Sync(call) =>
            if |job.kwargs| > 0 {
              outcome := Failed(KeywordsRejected);
            } else {
              var result := call(job.args);
              outcome := Settle(result);
            }
        }
        futures := futures[job.future := outcome];
        current := None;
        ApplyKeepsInv(old(Model()), Finish);
      }
    }

    /** One iteration of the dispatcher loop, begun between jobs: take the
      head record unless stopped or empty, run it and fulfil its future.
      Returns the future fulfilled, if any. */
    method DispatchStep() returns (ran: Option<nat>)
      requires Valid() && current.None?
      modifies this
      ensures Valid() && current.None?
      ensures Model() == FinishStep(TakeStep(old(Model())))
      ensures ran == if CanTake(old(Model())) then Some(old(queue)[0].future) else None
      ensures ran.Some? ==> ran.value in futures && !futures[ran.value].Pending?
    {
      var head := if |queue| > 0 then Some(queue[0]) else None;
      var took := BeginJob();
      FinishJob();
      ran := if took then Some(head.value.future) else None;
    }

    /** `__dispatcher`: loop while the stop flag is clear, one job at a time,
      until the queue is empty. */
    method RunDispatcher()
      requires Valid() && current.None?
      modifies this
      ensures Valid()
      ensures Model() == Drained(old(Model()))
    {
      while !stopFlag && |queue| > 0
        invariant Valid() && current.None?
        invariant Drained(Model()) == Drained(old(Model()))
        decreases |queue|
      {
        var _ := DispatchStep();
      }
    }
  }
}
