/** The event queue that orders transitions and applies: one worker, any number of callers, interleaved
    step by step. */
module EventQueue {
  import opened RaftDefs

  datatype Node<E> = Node(idx: nat, event: E)

  /** `running` is the node the worker has taken and not finished; `done` what it has run. A worker with
      nothing to do is `asleep`. */
  datatype Queue<E> = Queue(
    queued: seq<Node<E>>,
    running: Option<Node<E>>,
    done: seq<Node<E>>,
    paused: bool,
    curIdx: nat,
    asleep: bool,
    interrupted: bool,
    exited: bool)

  /** Take, Finish, Sleep and Exit are the worker's; the rest are the callers'. */
  datatype Action<E> = Add(event: E) | Take | Finish | Sleep | Pause | Resume | Interrupt | Exit | Start

  function Empty<E>(): Queue<E> { Queue([], None, [], false, 0, false, false, false) }

  /** An interruption reaches the worker only in its sleep, and there whatever the queue holds by then. */
  predicate Enabled<E>(q: Queue<E>, a: Action<E>) {
    match a
    case Take => !q.exited && q.running == None && !q.paused && q.queued != []
    case Finish => q.running != None
    case Sleep => !q.exited && q.running == None && (q.paused || q.queued == [])
    case Exit => !q.exited && q.asleep && q.interrupted
    case Start => q.exited
    case _ => true
  }

  function Step<E>(q: Queue<E>, a: Action<E>): Queue<E>
    requires Enabled(q, a)
  {
    match a
    case Add(event) => q.(curIdx := q.curIdx + 1, queued := q.queued + [Node(q.curIdx + 1, event)])
    case Take => q.(queued := q.queued[1..], running := Some(q.queued[0]), asleep := false)
    case Finish => q.(running := None, done := q.done + [q.running.value])
    case Sleep => q.(asleep := true)
    case Pause => q.(paused := true)
    case Resume => q.(paused := false)
    case Interrupt => q.(interrupted := true)
    case Exit => q.(exited := true)
    case Start => q.(exited := false, interrupted := false, asleep := false)
  }

  function InFlight<E>(q: Queue<E>): seq<Node<E>> {
    if q.running == None then [] else [q.running.value]
  }

  /** Everything that was ever added, in the order it runs. */
  function All<E>(q: Queue<E>): seq<Node<E>> {
    q.done + InFlight(q) + q.queued
  }

  function Events<E>(nodes: seq<Node<E>>): seq<E> {
    seq(|nodes|, i requires 0 <= i < |nodes| => nodes[i].event)
  }

  /** The events a trace adds, in order. */
  function Added<E>(acts: seq<Action<E>>): seq<E> {
    if acts == [] then []
    else Added(acts[..|acts| - 1]) + if acts[|acts| - 1].Add? then [acts[|acts| - 1].event] else []
  }

  ghost predicate Trace<E(!new)>(qs: seq<Queue<E>>, acts: seq<Action<E>>) {
    && |qs| == |acts| + 1
    && forall k | 0 <= k < |acts| :: Enabled(qs[k], acts[k]) && qs[k + 1] == Step(qs[k], acts[k])
  }

  lemma StepAll<E>(q: Queue<E>, a: Action<E>)
    requires Enabled(q, a)
    ensures All(Step(q, a)) == All(q) + if a.Add? then [Node(q.curIdx + 1, a.event)] else []
  {
  }

  /** The events added are those run, then the one in flight, if any, then those queued, in order; and
      each carries its own number. */
  ghost predicate Conserved<E>(q: Queue<E>, added: seq<E>) {
    && Events(All(q)) == added && |All(q)| == q.curIdx
    && forall k | 0 <= k < |All(q)| :: All(q)[k].idx == k + 1
  }

  lemma ConservedStep<E>(q: Queue<E>, a: Action<E>, added: seq<E>)
    requires Enabled(q, a) && Conserved(q, added)
    ensures Conserved(Step(q, a), added + if a.Add? then [a.event] else [])
  {
    StepAll(q, a);
    assert added + [] == added;
  }

  /** Queue conservation: at every moment of every interleaving, nothing is lost, doubled or reordered. */
  lemma {:induction false} Conservation<E(!new)>(qs: seq<Queue<E>>, acts: seq<Action<E>>)
    requires Trace(qs, acts) && qs[0] == Empty()
    ensures Conserved(qs[|acts|], Added(acts))
    decreases |acts|
  {
    if acts == [] {
      assert All(qs[0]) == [];
    } else {
      var m := |acts| - 1;
      assert Enabled(qs[m], acts[m]) && qs[m + 1] == Step(qs[m], acts[m]);
      Conservation(qs[..m + 1], acts[..m]);
      ConservedStep(qs[m], acts[m], Added(acts[..m]));
    }
  }

  /** The worker sleeps and exits only between events. */
  ghost predicate Tidy<E>(q: Queue<E>) {
    (q.asleep || q.exited) ==> q.running == None
  }

  lemma {:induction false} AlwaysTidy<E(!new)>(qs: seq<Queue<E>>, acts: seq<Action<E>>, k: nat)
    requires Trace(qs, acts) && qs[0] == Empty() && k < |qs|
    ensures Tidy(qs[k])
  {
    if k > 0 {
      AlwaysTidy(qs, acts, k - 1);
      assert Enabled(qs[k - 1], acts[k - 1]) && qs[k] == Step(qs[k - 1], acts[k - 1]);
    }
  }

  /** `stop` from action s on: the queue is not paused and not interrupted yet, nobody adds, pauses or
      starts, and the interruption waits for an empty queue. */
  ghost predicate Stopping<E(!new)>(qs: seq<Queue<E>>, acts: seq<Action<E>>, s: nat) {
    && Trace(qs, acts) && s < |qs| && !qs[s].interrupted && !qs[s].exited
    && forall k | s <= k < |acts| ::
         && !acts[k].Add? && !acts[k].Pause? && !acts[k].Start?
         && (acts[k].Interrupt? ==> qs[k].queued == [])
  }

  lemma {:induction false} InterruptedIsEmpty<E(!new)>(qs: seq<Queue<E>>, acts: seq<Action<E>>, s: nat, k: nat)
    requires Stopping(qs, acts, s) && s <= k < |qs|
    ensures qs[k].exited ==> qs[k].interrupted
    ensures qs[k].interrupted ==> qs[k].queued == []
    decreases k
  {
    if s < k {
      InterruptedIsEmpty(qs, acts, s, k - 1);
      assert Enabled(qs[k - 1], acts[k - 1]) && qs[k] == Step(qs[k - 1], acts[k - 1]);
    }
  }

  /** When `stop` has joined the worker, with no concurrent adds, everything ever added has run, in order. */
  lemma StopRunsEverything<E(!new)>(qs: seq<Queue<E>>, acts: seq<Action<E>>, s: nat)
    requires Stopping(qs, acts, s) && qs[0] == Empty() && qs[|acts|].exited
    ensures Events(qs[|acts|].done) == Added(acts)
  {
    Conservation(qs, acts);
    AlwaysTidy(qs, acts, |acts|);
    InterruptedIsEmpty(qs, acts, s, |acts|);
    assert All(qs[|acts|]) == qs[|acts|].done;
  }

  lemma Lengths<E>(q: Queue<E>, added: seq<E>)
    requires Conserved(q, added)
    ensures |added| == |q.done| + |InFlight(q)| + |q.queued|
  {
    assert |Events(All(q))| == |All(q)|;
  }

  /** What `wait` promises, in every interleaving: when the queue is empty every event added has been taken,
      in order; all of them have run if and only if none is in flight. */
  lemma WaitPromises<E(!new)>(qs: seq<Queue<E>>, acts: seq<Action<E>>)
    requires Trace(qs, acts) && qs[0] == Empty() && qs[|acts|].queued == []
    ensures var q := qs[|acts|];
            && Events(q.done + InFlight(q)) == Added(acts)
            && (Events(q.done) == Added(acts) <==> q.running == None)
  {
    var q := qs[|acts|];
    Conservation(qs, acts);
    Lengths(q, Added(acts));
    assert All(q) == q.done + InFlight(q);
    assert q.running == None ==> q.done + InFlight(q) == q.done;
    assert |Events(q.done)| == |q.done|;
  }

  /** ... and one can be: `wait` returns as soon as the worker has taken the last event. */
  lemma WaitReturnsEarly<E>(q: Queue<E>)
    requires Enabled(q, Take) && |q.queued| == 1
    ensures var q' := Step(q, Take);
            q'.queued == [] && q'.running == Some(q.queued[0]) && q'.done == q.done
  {
  }

  /** A worker that was started exits only if it was interrupted since, whatever happened to an earlier one. */
  lemma {:induction false} ExitWasAsked<E(!new)>(qs: seq<Queue<E>>, acts: seq<Action<E>>, s: nat, k: nat)
    requires Trace(qs, acts) && s < k < |qs| && acts[s].Start?
    requires forall j | s < j < k :: !acts[j].Interrupt?
    ensures !qs[k].exited && !qs[k].interrupted
    decreases k
  {
    if s + 1 < k { ExitWasAsked(qs, acts, s, k - 1); }
    assert Enabled(qs[k - 1], acts[k - 1]) && qs[k] == Step(qs[k - 1], acts[k - 1]);
  }

  /** Between a pause and the next resume no event is taken, whatever else happens; one already in flight may end. */
  lemma {:induction false} PausedTakesNothing<E(!new)>(qs: seq<Queue<E>>, acts: seq<Action<E>>, p: nat, k: nat)
    requires Trace(qs, acts) && p < k < |qs| && acts[p].Pause?
    requires forall j | p < j < k :: !acts[j].Resume?
    ensures qs[k].paused && qs[k].done + InFlight(qs[k]) == qs[p].done + InFlight(qs[p])
    decreases k
  {
    if p + 1 < k { PausedTakesNothing(qs, acts, p, k - 1); }
    assert Enabled(qs[k - 1], acts[k - 1]) && qs[k] == Step(qs[k - 1], acts[k - 1]);
  }

  /** What an exit leaves behind, in every interleaving: exactly what is still queued. */
  lemma ExitLeaves<E(!new)>(qs: seq<Queue<E>>, acts: seq<Action<E>>)
    requires Trace(qs, acts) && qs[0] == Empty() && qs[|acts|].exited
    ensures var q := qs[|acts|];
            && Events(q.done + q.queued) == Added(acts)
            && (Events(q.done) == Added(acts) <==> q.queued == [])
  {
    var q := qs[|acts|];
    Conservation(qs, acts);
    AlwaysTidy(qs, acts, |acts|);
    Lengths(q, Added(acts));
    assert All(q) == q.done + q.queued;
    assert |Events(q.done)| == |q.done|;
  }

  /** Whatever is added after the interruption of a sleeping worker is left behind. */
  lemma LateAddIsLeft<E>(q: Queue<E>, event: E)
    requires q.asleep && q.interrupted && !q.exited
    ensures var late := Step(q, Add(event));
            && Enabled(late, Exit)
            && Step(late, Exit).exited && Step(late, Exit).queued == q.queued + [Node(q.curIdx + 1, event)]
  {
  }

  /** The queue object; `execute` is one worker iteration, cut at the points where the lock is free. */
  class EventQueueImpl<E(==)> {
    var q: seq<Node<E>>
    var running: Option<Node<E>>
    var done: seq<Node<E>>
    var paused: bool
    var curIdx: nat
    var asleep: bool
    var interrupted: bool
    var exited: bool

    function Value(): Queue<E>
      reads this
    {
      Queue(q, running, done, paused, curIdx, asleep, interrupted, exited)
    }

    constructor ()
      ensures Value() == Empty()
    {
      q, running, done, paused, curIdx := [], None, [], false, 0;
      asleep, interrupted, exited := false, false, false;
    }

    method AddEvent(event: E)
      modifies this`q, this`curIdx
      ensures Value() == Step(old(Value()), Add(event))
    {
      curIdx := curIdx + 1;
      q := q + [Node(curIdx, event)];
    }

    /** The head of the worker's loop: take an event or go to sleep. */
    method Await() returns (took: bool)
      requires !exited && running == None
      modifies this`q, this`running, this`asleep
      ensures took <==> Enabled(old(Value()), Take)
      ensures took || Enabled(old(Value()), Sleep)
      ensures Value() == Step(old(Value()), if took then Take else Sleep) && All(Value()) == All(old(Value()))
    {
      StepAll(Value(), if Enabled(Value(), Take) then Take else Sleep);
      took := !paused && q != [];
      if took {
        running := Some(q[0]);
        q := q[1..];
      }
      asleep := !took;
    }

    /** The interruption is thrown where the worker sleeps. */
    method Interrupted()
      requires Enabled(Value(), Exit)
      modifies this`exited
      ensures Value() == Step(old(Value()), Exit)
    {
      exited := true;
    }

    method FinishEvent()
      requires running != None
      modifies this`running, this`done
      ensures Value() == Step(old(Value()), Finish) && All(Value()) == All(old(Value()))
    {
      StepAll(Value(), Finish);
      done := done + [running.value];
      running := None;
    }

    method SetPaused(b: bool)
      modifies this`paused
      ensures Value() == Step(old(Value()), if b then Pause else Resume)
    {
      paused := b;
    }

    /** The worker's loop up to its next sleep, nobody interfering: everything queued runs, in order. */
    method Execute()
      requires !exited && running == None && !paused
      modifies this`q, this`running, this`done, this`asleep
      ensures done == All(old(Value())) && q == [] && running == None && asleep
    {
      var took := Await();
      while took
        invariant All(Value()) == All(old(Value()))
        invariant took ==> running != None && !asleep
        invariant !took ==> running == None && asleep && q == []
        decreases |q|, took
      {
        FinishEvent();
        took := Await();
      }
    }

    /** `stop`, nobody interfering: resume, wait until the worker has emptied the queue, interrupt, join. */
    method Stop()
      requires !exited && !interrupted
      modifies this
      ensures exited && done == All(old(Value())) && q == [] && running == None
    {
      SetPaused(false);
      if running != None { FinishEvent(); }
      Execute();
      interrupted := true;
      Interrupted();
    }
  }

  lemma EventsSnoc<E>(nodes: seq<Node<E>>, last: Node<E>)
    ensures Events(nodes + [last]) == Events(nodes) + [last.event]
  {
  }

  /** Committed entries become queued events, one each, in log order, after everything queued before. */
  method Apply(queue: EventQueueImpl<BasicEntry>, entries: seq<Entry>)
    modifies queue
    ensures Events(All(queue.Value()))
         == Events(All(old(queue.Value()))) + seq(|entries|, i requires 0 <= i < |entries| => Basic(entries[i]))
    ensures queue.done == old(queue.done) && queue.running == old(queue.running)
  {
    var i := 0;
    while i < |entries|
      invariant 0 <= i <= |entries|
      invariant Events(All(queue.Value()))
             == Events(All(old(queue.Value()))) + seq(i, k requires 0 <= k < i => Basic(entries[k]))
      invariant queue.done == old(queue.done) && queue.running == old(queue.running)
    {
      ghost var before := All(queue.Value());
      StepAll(queue.Value(), Add(Basic(entries[i])));
      queue.AddEvent(Basic(entries[i]));
      EventsSnoc(before, Node(queue.curIdx, Basic(entries[i])));
      i := i + 1;
    }
  }
}
