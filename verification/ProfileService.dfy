/** The service that admits profile tasks, starts them one at a time and stops them. */
module ProfileService {
  import opened Text

  /** Tasks are compared by identity, which `object` stands for. */
  datatype Task = Task(object: nat, name: string, duration: int, threshold: int, period: int, samples: int,
                       startTime: int, createTime: int)

  const MINUTE := 60000
  const MIN_DURATION := 1
  const MAX_DURATION := 15
  const MIN_PERIOD := 10
  const MAX_SAMPLES := 10

  function FinishTime(t: Task): int {
    t.startTime + t.duration * MINUTE
  }

  predicate WellFormed(t: Task) {
    && t.name != "" && MIN_DURATION <= t.duration <= MAX_DURATION && 0 <= t.threshold
    && MIN_PERIOD <= t.period && 0 < t.samples < MAX_SAMPLES
  }

  /** A task is admitted when it is well formed and finishes after everything that is queued. */
  predicate Admits(queue: seq<Task>, t: Task) {
    WellFormed(t) && forall i :: 0 <= i < |queue| ==> FinishTime(queue[i]) < FinishTime(t)
  }

  predicate Ordered(queue: seq<Task>) {
    forall i, j :: 0 <= i < j < |queue| ==> FinishTime(queue[i]) < FinishTime(queue[j])
  }

  function Without<T(==)>(queue: seq<T>, t: T): seq<T> {
    if queue == [] then []
    else if queue[0] == t then Without(queue[1..], t)
    else [queue[0]] + Without(queue[1..], t)
  }

  lemma {:induction false} WithoutIn<T>(queue: seq<T>, t: T, u: T)
    ensures multiset(Without(queue, t))[u] == if u == t then 0 else multiset(queue)[u]
    ensures u in Without(queue, t) ==> u in queue
  {
    if queue != [] {
      WithoutIn(queue[1..], t, u);
      assert queue == [queue[0]] + queue[1..];
    }
  }

  lemma {:induction false} WithoutKeepsOrder(queue: seq<Task>, t: Task)
    requires Ordered(queue)
    ensures Ordered(Without(queue, t))
  {
    if queue != [] {
      var head, tail := queue[0], queue[1..];
      var rest := Without(tail, t);
      assert queue == [head] + tail;
      OrderedConcat([head], tail);
      WithoutKeepsOrder(tail, t);
      if head != t {
        FollowsAll(head, tail, rest, t);
        OrderedConcat([head], rest);
      }
    }
  }

  lemma FollowsAll(head: Task, tail: seq<Task>, rest: seq<Task>, t: Task)
    requires rest == Without(tail, t) && forall i :: 0 <= i < |tail| ==> FinishTime(head) < FinishTime(tail[i])
    ensures forall j :: 0 <= j < |rest| ==> FinishTime(head) < FinishTime(rest[j])
  {
    forall j | 0 <= j < |rest| ensures FinishTime(head) < FinishTime(rest[j]) {
      WithoutIn(tail, t, rest[j]);
    }
  }

  /** Removal drops every occurrence of the task and nothing else, and keeps the rest in order. */
  lemma WithoutIsFilter(queue: seq<Task>, t: Task)
    ensures multiset(Without(queue, t)) == multiset(queue)[t := 0]
    ensures Ordered(queue) ==> Ordered(Without(queue, t))
  {
    forall u: Task ensures multiset(Without(queue, t))[u] == multiset(queue)[t := 0][u] {
      WithoutIn(queue, t, u);
    }
    if Ordered(queue) {
      WithoutKeepsOrder(queue, t);
    }
  }

  lemma {:induction false} WithoutAppend<T>(queue: seq<T>, u: T, t: T)
    ensures Without(queue + [u], t) == Without(queue, t) + if u == t then [] else [u]
  {
    if queue != [] {
      WithoutAppend(queue[1..], u, t);
      assert (queue + [u])[1..] == queue[1..] + [u];
    }
  }

  // --------------------------------------------------------------------------------------------
  // The service's own state

  /** What happens to an execution context, in the order the service does it. */
  datatype Event = Started(context: nat) | Stopped(context: nat) | Notified(context: nat)

  /** The task list and the execution contexts. A context is known by its position in `contexts`,
      which holds the task it was made for. */
  class ExecutionService {
    var queue: seq<Task>
    var lastCommandTime: int
    var current: Option<nat>
    var contexts: seq<Task>
    var log: seq<Event>

    constructor ()
      ensures queue == [] && lastCommandTime == -1 && current == None && contexts == [] && log == []
    {
      queue, lastCommandTime, current, contexts, log := [], -1, None, [], [];
    }

    method RemoveFromTaskList(task: Task) returns (removed: bool)
      modifies this`queue
      ensures queue == Without(old(queue), task)
      ensures removed <==> task in old(queue)
    {
      var left: seq<Task> := [];
      removed := false;
      ghost var all, k := queue, 0;
      while queue != []
        invariant 0 <= k <= |all| && queue == all[k..]
        invariant left == Without(all[..k], task)
        invariant removed <==> task in all[..k]
        decreases |queue|
      {
        var item := queue[0];
        queue := queue[1..];
        WithoutAppend(all[..k], item, task);
        assert all[..k] + [item] == all[..k + 1];
        k := k + 1;
        if item == task {
          removed := true;
        } else {
          left := left + [item];
        }
      }
      assert all[..k] == all;
      for i := 0 to |left|
        invariant queue == left[..i]
      {
        queue := queue + [left[i]];
      }
    }

    method CheckProfileTask(task: Task) returns (admitted: bool)
      ensures admitted <==> Admits(queue, task)
      ensures admitted <==>
                && task.name != "" && 1 <= task.duration <= 15 && 0 <= task.threshold && 10 <= task.period
                && 0 < task.samples < 10
                && forall i :: 0 <= i < |queue| ==>
                     queue[i].startTime + queue[i].duration * 60000 < task.startTime + task.duration * 60000
    {
      if |task.name| == 0 || task.duration < MIN_DURATION || task.duration > MAX_DURATION || task.threshold < 0
         || task.period < MIN_PERIOD || task.samples <= 0 || task.samples >= MAX_SAMPLES {
        return false;
      }
      var finish := FinishTime(task);
      for i := 0 to |queue|
        invariant forall j :: 0 <= j < i ==> FinishTime(queue[j]) < finish
      {
        if task.startTime <= finish <= FinishTime(queue[i]) {
          return false;
        }
      }
      return true;
    }

    /** The delay after which the task is to be started, if it was admitted. */
    method AddProfileTask(task: Task, now: int) returns (delay: Option<int>)
      modifies this`queue, this`lastCommandTime
      ensures lastCommandTime == if task.createTime > old(lastCommandTime) then task.createTime else old(lastCommandTime)
      ensures Admits(old(queue), task) ==> queue == old(queue) + [task] && delay == Some(task.startTime - now)
      ensures !Admits(old(queue), task) ==> queue == old(queue) && delay == None
      ensures old(Ordered(queue)) ==> Ordered(queue)
    {
      if task.createTime > lastCommandTime {
        lastCommandTime := task.createTime;
      }
      var admitted := CheckProfileTask(task);
      if !admitted {
        return None;
      }
      queue := queue + [task];
      return Some(task.startTime - now);
    }

    method CompareAndSet(expected: Option<nat>, update: Option<nat>) returns (done: bool)
      modifies this`current
      ensures done <==> old(current) == expected
      ensures current == if done then update else old(current)
    {
      done := current == expected;
      if done {
        current := update;
      }
    }

    /** The service is between two calls: its log is the whole history of its contexts. */
    ghost predicate Valid()
      reads this
    {
      && (current.Some? ==> current.value == |contexts| - 1)
      && |log| == 3 * |contexts| - (if current.Some? then 2 else 0)
      && InTurn(log)
    }

    method StopCurrentProfileTask(needStop: Option<nat>)
      requires Valid() && (needStop.Some? ==> needStop.value < |contexts|)
      modifies this`current, this`log, this`queue
      ensures Valid()
      ensures needStop == None || needStop != old(current) ==>
                current == old(current) && log == old(log) && queue == old(queue)
      ensures needStop.Some? && needStop == old(current) ==>
                && current == None
                && log == old(log) + [Stopped(needStop.value), Notified(needStop.value)]
                && queue == Without(old(queue), contexts[needStop.value])
    {
      if needStop == None {
        return;
      }
      var done := CompareAndSet(needStop, None);
      if !done {
        return;
      }
      log := log + [Stopped(needStop.value)];
      var removed := RemoveFromTaskList(contexts[needStop.value]);
      log := log + [Notified(needStop.value)];
    }

    /** Starts a task; whatever was running is stopped and reported first. */
    method ProcessProfileTask(task: Task) returns (stopAfter: int)
      requires Valid()
      modifies this
      ensures Valid()
      ensures contexts == old(contexts) + [task] && current == Some(|old(contexts)|)
      ensures stopAfter == task.duration * MINUTE && lastCommandTime == old(lastCommandTime)
      ensures queue == if old(current).None? then old(queue)
                       else Without(old(queue), old(contexts)[|old(contexts)| - 1])
      ensures log == old(log)
                     + (if old(current).None? then [] else [Stopped(old(current).value), Notified(old(current).value)])
                     + [Started(|old(contexts)|)]
    {
      StopCurrentProfileTask(current);
      contexts := contexts + [task];
      current := Some(|contexts| - 1);
      log := log + [Started(|contexts| - 1)];
      stopAfter := task.duration * MINUTE;
    }
  }

  /** The k-th event is the start, the stop or the finish notice of context k / 3. */
  predicate InTurn(log: seq<Event>) {
    forall k :: 0 <= k < |log| ==>
      log[k] == if k % 3 == 0 then Started(k / 3) else if k % 3 == 1 then Stopped(k / 3) else Notified(k / 3)
  }

  // --------------------------------------------------------------------------------------------
  // Racing callers. Both calls hold the reentrant lock throughout, so at most one is under way;
  // what others may do between its steps is only to wait, or to change the task list.

  /** How far the call that holds the lock has come. `next` is the task to start once the stop,
      nested in a start, is over. */
  datatype Call =
    | Free
    | Entered(need: Option<nat>, next: Option<Task>)
    | Swapped(context: nat, next: Option<Task>)
    | Halted(context: nat, next: Option<Task>)
    | Removed(context: nat, next: Option<Task>)
    | StopDone(next: Option<Task>)
    | Installed(context: nat)

  datatype State = State(queue: seq<Task>, current: Option<nat>, contexts: seq<Task>, log: seq<Event>, call: Call)

  datatype Step =
    | Process(task: Task)   // the scheduler starts a task
    | Stop(context: nat)    // a duration timer, or the `finally` of a profiler thread
    | Queue(queue: seq<Task>) // the task list changes under its own lock
    | Advance

  predicate Enabled(s: State, step: Step) {
    match step
    case Process(_) => s.call == Free
    case Stop(c) => s.call == Free && c < |s.contexts|
    case Queue(_) => true
    case Advance => s.call != Free && CallOk(s)
  }

  /** Contexts that a call mentions exist. */
  predicate CallOk(s: State) {
    match s.call
    case Swapped(c, _) => c < |s.contexts|
    case Halted(c, _) => c < |s.contexts|
    case _ => true
  }

  function Advanced(s: State): State
    requires s.call != Free && CallOk(s)
  {
    match s.call
    case Entered(need, next) =>
      if need.None? || s.current != need then s.(call := StopDone(next))
      else s.(current := None, call := Swapped(need.value, next))
    case Swapped(c, next) => s.(log := s.log + [Stopped(c)], call := Halted(c, next))
    case Halted(c, next) => s.(queue := Without(s.queue, s.contexts[c]), call := Removed(c, next))
    case Removed(c, next) => s.(log := s.log + [Notified(c)], call := StopDone(next))
    case StopDone(None) => s.(call := Free)
    case StopDone(Some(task)) =>
      s.(contexts := s.contexts + [task], current := Some(|s.contexts|), call := Installed(|s.contexts|))
    case Installed(c) => s.(log := s.log + [Started(c)], call := Free)
  }

  function Apply(s: State, step: Step): State
    requires Enabled(s, step)
  {
    match step
    case Process(task) => s.(call := Entered(s.current, Some(task)))
    case Stop(c) => s.(call := Entered(Some(c), None))
    case Queue(queue) => s.(queue := queue)
    case Advance => Advanced(s)
  }

  predicate Initial(s: State) {
    s.current == None && s.contexts == [] && s.log == [] && s.call == Free
  }

  predicate Run(s: State, steps: seq<Step>, t: State)
    decreases |steps|
  {
    if steps == [] then s == t
    else Enabled(s, steps[0]) && Run(Apply(s, steps[0]), steps[1..], t)
  }

  /** The events still owed to the newest context. */
  function Owed(s: State): int {
    match s.call
    case Swapped(_, _) => 2
    case Halted(_, _) => 1
    case Removed(_, _) => 1
    case Installed(_) => 3
    case _ => if s.current.Some? then 2 else 0
  }

  predicate Inv(s: State) {
    && InTurn(s.log)
    && (s.current.Some? ==> s.current.value == |s.contexts| - 1)
    && |s.log| == 3 * |s.contexts| - Owed(s)
    && match s.call
       case Entered(need, next) => next.Some? ==> need == s.current
       case Swapped(c, _) => s.current == None && c == |s.contexts| - 1
       case Halted(c, _) => s.current == None && c == |s.contexts| - 1
       case Removed(c, _) => s.current == None && c == |s.contexts| - 1
       case StopDone(next) => next.Some? ==> s.current == None
       case Installed(c) => s.current == Some(c)
       case Free => true
  }

  lemma StepKeepsInv(s: State, step: Step)
    requires Inv(s) && Enabled(s, step)
    ensures Inv(Apply(s, step))
    ensures s.log <= Apply(s, step).log
  {
  }

  lemma {:induction false} RunKeepsInv(s: State, steps: seq<Step>, t: State)
    requires Inv(s) && Run(s, steps, t)
    ensures Inv(t) && s.log <= t.log
    decreases |steps|
  {
    if steps != [] {
      StepKeepsInv(s, steps[0]);
      RunKeepsInv(Apply(s, steps[0]), steps[1..], t);
    }
  }

  /** An event happens at position k of the log. */
  predicate Happens(log: seq<Event>, e: Event, k: int) {
    0 <= k < |log| && log[k] == e
  }

  ghost predicate ReportedBefore(log: seq<Event>, c: nat, j: int) {
    exists i :: i < j && Happens(log, Notified(c), i)
  }

  /** However the timers, the profiler threads and the next start race: nothing happens twice, a
      context is stopped after its start and reported after its stop, and before a later context
      starts every earlier one has been stopped and reported. */
  lemma ContextsTakeTurns(s: State, steps: seq<Step>, t: State)
    requires Initial(s) && Run(s, steps, t)
    ensures forall e, i, j :: Happens(t.log, e, i) && Happens(t.log, e, j) ==> i == j
    ensures forall c, j :: Happens(t.log, Stopped(c), j) ==> Happens(t.log, Started(c), j - 1)
    ensures forall c, j :: Happens(t.log, Notified(c), j) ==> Happens(t.log, Stopped(c), j - 1)
    ensures forall c: nat, d: nat, j :: c < d && Happens(t.log, Started(d), j) ==> ReportedBefore(t.log, c, j)
  {
    RunKeepsInv(s, steps, t);
    forall c: nat, d: nat, j | c < d && Happens(t.log, Started(d), j)
      ensures ReportedBefore(t.log, c, j)
    {
      EarlierReported(t.log, c, d, j);
    }
  }

  lemma EarlierReported(log: seq<Event>, c: nat, d: nat, j: int)
    requires InTurn(log) && c < d && Happens(log, Started(d), j)
    ensures 3 * c + 2 < j && Happens(log, Notified(c), 3 * c + 2)
  {
    assert log[j] == Started(d);
    assert j % 3 == 0 && j / 3 == d;
    assert (3 * c + 2) % 3 == 2 && (3 * c + 2) / 3 == c;
  }

  /** At rest at most the newest context runs; it is the current one, and every other has been reported. */
  lemma OnlyCurrentRuns(s: State, steps: seq<Step>, t: State, c: nat)
    requires Initial(s) && Run(s, steps, t) && t.call == Free && c < |t.contexts|
    ensures Happens(t.log, Started(c), 3 * c)
    ensures t.current == Some(c) <==> Stopped(c) !in t.log
    ensures t.current == Some(c) <==> Notified(c) !in t.log
  {
    RunKeepsInv(s, steps, t);
    if t.current != Some(c) {
      assert t.log[3 * c + 1] == Stopped(c) && t.log[3 * c + 2] == Notified(c);
    }
  }

  function StepsLeft(call: Call): nat {
    match call
    case Free => 0
    case Installed(_) => 1
    case StopDone(next) => if next.None? then 1 else 2
    case Removed(_, _) => 3
    case Halted(_, _) => 4
    case Swapped(_, _) => 5
    case Entered(_, _) => 6
  }

  /** The state in which the call under way releases the lock when the task list is left alone. */
  function Settled(s: State): State
    requires Inv(s)
    decreases StepsLeft(s.call)
  {
    if s.call == Free then s
    else
      StepKeepsInv(s, Advance);
      Settled(Advanced(s))
  }

  /** A call to stop, run to its end, does what `ExecutionService.StopCurrentProfileTask` promises. */
  lemma StopSettles(s: State, c: nat)
    requires Inv(s) && s.call == Free && c < |s.contexts|
    ensures Inv(Apply(s, Stop(c)))
    ensures Settled(Apply(s, Stop(c)))
            == if s.current != Some(c) then s
               else s.(current := None, queue := Without(s.queue, s.contexts[c]),
                       log := s.log + [Stopped(c), Notified(c)])
  {
    StepKeepsInv(s, Stop(c));
    var s1 := Apply(s, Stop(c));
    StepKeepsInv(s1, Advance);
    var s2 := Advanced(s1);
    assert Settled(s1) == Settled(s2);
    if s.current == Some(c) {
      StopEnds(s2, c, None);
      StopLeaves(s2.(queue := Without(s2.queue, s2.contexts[c]), log := s2.log + [Stopped(c), Notified(c)],
                     call := StopDone(None)));
    } else {
      StopLeaves(s2);
    }
  }

  lemma StopLeaves(s: State)
    requires Inv(s) && s.call == StopDone(None)
    ensures Settled(s) == s.(call := Free)
  {
    StepKeepsInv(s, Advance);
    assert Settled(s) == Settled(Advanced(s));
  }

  /** A call to start, run to its end, does what `ExecutionService.ProcessProfileTask` promises. */
  lemma ProcessSettles(s: State, task: Task)
    requires Inv(s) && s.call == Free
    ensures Inv(Apply(s, Process(task)))
    ensures Settled(Apply(s, Process(task)))
            == match s.current
               case None => Begun(s, task)
               case Some(c) =>
                 Begun(s.(queue := Without(s.queue, s.contexts[c]), log := s.log + [Stopped(c), Notified(c)]), task)
  {
    StepKeepsInv(s, Process(task));
    var s1 := Apply(s, Process(task));
    StepKeepsInv(s1, Advance);
    var s2 := Advanced(s1);
    assert Settled(s1) == Settled(s2);
    if s.current.Some? {
      var c := s.current.value;
      StopEnds(s2, c, Some(task));
      StartEnds(s2.(queue := Without(s2.queue, s2.contexts[c]), log := s2.log + [Stopped(c), Notified(c)],
                    call := StopDone(Some(task))), task);
    } else {
      StartEnds(s2, task);
    }
  }

  /** A new context is current and started. */
  function Begun(s: State, task: Task): State {
    s.(contexts := s.contexts + [task], current := Some(|s.contexts|), log := s.log + [Started(|s.contexts|)],
       call := Free)
  }

  lemma StartEnds(s: State, task: Task)
    requires Inv(s) && s.call == StopDone(Some(task))
    ensures Settled(s) == Begun(s, task)
  {
    StepKeepsInv(s, Advance);
    var s1 := Advanced(s);
    StepKeepsInv(s1, Advance);
    assert Settled(s) == Settled(s1) == Settled(Advanced(s1));
  }

  lemma StopEnds(s: State, c: nat, next: Option<Task>)
    requires Inv(s) && s.call == Swapped(c, next)
    ensures var s' := s.(queue := Without(s.queue, s.contexts[c]), log := s.log + [Stopped(c), Notified(c)],
                         call := StopDone(next));
            Inv(s') && Settled(s) == Settled(s')
  {
    StepKeepsInv(s, Advance);
    var s1 := Advanced(s);
    StepKeepsInv(s1, Advance);
    var s2 := Advanced(s1);
    StepKeepsInv(s2, Advance);
    var s3 := Advanced(s2);
    assert Settled(s) == Settled(s1) == Settled(s2) == Settled(s3);
    assert s.log + [Stopped(c)] + [Notified(c)] == s.log + [Stopped(c), Notified(c)];
  }

  // --------------------------------------------------------------------------------------------
  // The task list and the last command time, step by step. A removal holds its own lock; an addition
  // compares and assigns the last command time, looks at the queue and appends to it without that lock.

  datatype Phase =
    | Idle
    | Draining(target: Task, held: seq<Task>)
    | Refilling(held: seq<Task>)

  /** How far a call of `add_profile_task` has come. `newer` is the outcome of its comparison. */
  datatype Adding = Compared(task: Task, newer: bool) | Updated(task: Task) | Checked(task: Task)

  /** `last` is the last command time, and `seen` the newest create time of the tasks whose update is over. */
  datatype Tasks = Tasks(queue: seq<Task>, phase: Phase, last: int, seen: int, callers: map<nat, Adding>)

  datatype Move =
    | Compare(caller: nat, task: Task)
    | Write(caller: nat, task: Task)
    | Check(caller: nat)
    | Put(caller: nat)
    | BeginRemoval(target: Task)
    | Take
    | TurnRound
    | PutBack
    | EndRemoval

  /** The tasks in the order in which they will be queued when no further step interferes. */
  function Lined(s: Tasks): seq<Task> {
    match s.phase
    case Idle => s.queue
    case Draining(_, held) => held + s.queue
    case Refilling(held) => s.queue + held
  }

  predicate CanMove(s: Tasks, m: Move) {
    match m
    case Compare(a, _) => a !in s.callers
    case Write(a, x) => a in s.callers && s.callers[a].Compared? && s.callers[a].task == x
    case Check(a) => a in s.callers && s.callers[a].Updated?
    case Put(a) => a in s.callers && s.callers[a].Checked?
    case BeginRemoval(_) => s.phase == Idle
    case Take => s.phase.Draining? && s.queue != []
    case TurnRound => s.phase.Draining? && s.queue == []
    case PutBack => s.phase.Refilling? && s.phase.held != []
    case EndRemoval => s.phase == Refilling([])
  }

  function Max(a: int, b: int): int {
    if a < b then b else a
  }

  function Moved(s: Tasks, m: Move): Tasks
    requires CanMove(s, m)
  {
    match m
    case Compare(a, x) => s.(callers := s.callers[a := Compared(x, x.createTime > s.last)])
    case Write(a, x) =>
      s.(last := if s.callers[a].newer then x.createTime else s.last, seen := Max(s.seen, x.createTime),
         callers := s.callers[a := Updated(x)])
    case Check(a) =>
      var x := s.callers[a].task;
      s.(callers := if Admits(s.queue, x) then s.callers[a := Checked(x)] else s.callers - {a})
    case Put(a) => s.(queue := s.queue + [s.callers[a].task], callers := s.callers - {a})
    case BeginRemoval(t) => s.(phase := Draining(t, []))
    case Take =>
      var held := if s.queue[0] == s.phase.target then s.phase.held else s.phase.held + [s.queue[0]];
      s.(queue := s.queue[1..], phase := s.phase.(held := held))
    case TurnRound => s.(phase := Refilling(s.phase.held))
    case PutBack => s.(queue := s.queue + [s.phase.held[0]], phase := Refilling(s.phase.held[1..]))
    case EndRemoval => s.(phase := Idle)
  }

  predicate After(queue: seq<Task>, x: Task) {
    queue == [] || FinishTime(queue[|queue| - 1]) < FinishTime(x)
  }

  /** Whether a task is put where the order of finish times allows it: after the last task in line before
      it, and before what a removal under way will put back behind it. */
  predicate Harmless(s: Tasks, m: Move) {
    m.Put? && m.caller in s.callers ==>
      var x := s.callers[m.caller].task;
      match s.phase
      case Idle => After(s.queue, x)
      case Draining(_, held) => After(held + s.queue, x)
      case Refilling(held) => After(s.queue, x) && (held == [] || FinishTime(x) < FinishTime(held[0]))
  }

  lemma OrderedConcat(a: seq<Task>, b: seq<Task>)
    ensures Ordered(a + b) <==>
              Ordered(a) && Ordered(b) && (forall i, j :: 0 <= i < |a| && 0 <= j < |b| ==> FinishTime(a[i]) < FinishTime(b[j]))
  {
    if Ordered(a + b) {
      assert forall i :: 0 <= i < |a| ==> (a + b)[i] == a[i];
      assert forall j :: 0 <= j < |b| ==> (a + b)[|a| + j] == b[j];
    }
  }

  lemma PutInTheMiddle(a: seq<Task>, x: Task, b: seq<Task>)
    requires Ordered(a + b)
    ensures Ordered(a + [x] + b) <==> After(a, x) && (b == [] || FinishTime(x) < FinishTime(b[0]))
  {
    OrderedConcat(a, b);
    OrderedConcat(a + [x], b);
    OrderedConcat(a, [x]);
    if a != [] && After(a, x) {
      assert forall i :: 0 <= i < |a| - 1 ==> FinishTime(a[i]) < FinishTime(a[|a| - 1]);
    }
    if b != [] && FinishTime(x) < FinishTime(b[0]) {
      assert forall j :: 0 < j < |b| ==> FinishTime(b[0]) < FinishTime(b[j]);
    }
    if Ordered(a + [x] + b) {
      assert (a + [x])[|a|] == x && [x][0] == x;
    }
  }

  lemma PutAtTheEnd(a: seq<Task>, x: Task)
    requires Ordered(a)
    ensures Ordered(a + [x]) <==> After(a, x)
  {
    assert a + [] == a && a + [x] + [] == a + [x];
    PutInTheMiddle(a, x, []);
  }

  lemma PutKeepsOrder(s: Tasks, a: nat)
    requires Ordered(Lined(s)) && CanMove(s, Put(a))
    ensures Ordered(Lined(Moved(s, Put(a)))) <==> Harmless(s, Put(a))
  {
    var x := s.callers[a].task;
    match s.phase
    case Idle => PutAtTheEnd(s.queue, x);
    case Draining(_, held) =>
      PutAtTheEnd(held + s.queue, x);
      assert held + (s.queue + [x]) == held + s.queue + [x];
    case Refilling(held) => PutInTheMiddle(s.queue, x, held);
  }

  lemma TakeKeepsOrder(held: seq<Task>, x: Task, rest: seq<Task>)
    requires Ordered(held + ([x] + rest))
    ensures Ordered(held + [x] + rest) && Ordered(held + rest)
  {
    assert held + ([x] + rest) == held + [x] + rest;
    OrderedConcat(held + [x], rest);
    OrderedConcat(held, [x]);
    OrderedConcat(held, rest);
    assert forall i :: 0 <= i < |held| ==> (held + [x])[i] == held[i];
  }

  lemma OthersKeepLine(s: Tasks, m: Move)
    requires CanMove(s, m) && !m.Put? && !m.Take?
    ensures Lined(Moved(s, m)) == Lined(s)
  {
    if m.PutBack? {
      var held := s.phase.held;
      assert s.queue + held == s.queue + [held[0]] + held[1..];
    }
  }

  /** A step keeps the finish times strictly increasing exactly when it is harmless. */
  lemma MoveKeepsOrder(s: Tasks, m: Move)
    requires Ordered(Lined(s)) && CanMove(s, m)
    ensures Ordered(Lined(Moved(s, m))) <==> Harmless(s, m)
  {
    match m
    case Put(a) => PutKeepsOrder(s, a);
    case Take =>
      var held, x, rest := s.phase.held, s.queue[0], s.queue[1..];
      assert s.queue == [x] + rest;
      TakeKeepsOrder(held, x, rest);
    case _ =>
      OthersKeepLine(s, m);
  }

  predicate Moves(s: Tasks, ms: seq<Move>, t: Tasks)
    decreases |ms|
  {
    if ms == [] then s == t else CanMove(s, ms[0]) && Moves(Moved(s, ms[0]), ms[1..], t)
  }

  predicate AllHarmless(s: Tasks, ms: seq<Move>)
    decreases |ms|
  {
    ms == [] || (CanMove(s, ms[0]) && Harmless(s, ms[0]) && AllHarmless(Moved(s, ms[0]), ms[1..]))
  }

  /** The finish times stay strictly increasing as long as no task is put where it does harm. */
  lemma {:induction false} FinishTimesIncrease(s: Tasks, ms: seq<Move>, t: Tasks)
    requires Ordered(Lined(s)) && Moves(s, ms, t) && AllHarmless(s, ms)
    ensures Ordered(Lined(t))
    decreases |ms|
  {
    if ms != [] {
      MoveKeepsOrder(s, ms[0]);
      FinishTimesIncrease(Moved(s, ms[0]), ms[1..], t);
    }
  }

  // The last command time

  /** A caller that found its task newer writes over a time that is newer still. */
  predicate Overwrites(s: Tasks, m: Move) {
    && m.Write? && m.caller in s.callers && s.callers[m.caller].Compared? && s.callers[m.caller].newer
    && m.task.createTime < s.last
  }

  /** The last command time is never newer than what was seen, nor are tasks that were found not newer. */
  predicate Bounded(s: Tasks) {
    && s.last <= s.seen
    && forall a :: a in s.callers && s.callers[a].Compared? && !s.callers[a].newer ==> s.callers[a].task.createTime <= s.seen
  }

  lemma MoveKeepsBounded(s: Tasks, m: Move)
    requires Bounded(s) && CanMove(s, m)
    ensures Bounded(Moved(s, m)) && s.seen <= Moved(s, m).seen
  {
  }

  /** A step keeps the last command time the newest seen exactly when it does not write over a newer one, that
      is, when nothing newer has been written since its caller compared. */
  lemma MoveKeepsLast(s: Tasks, m: Move)
    requires Bounded(s) && s.last == s.seen && CanMove(s, m)
    ensures Moved(s, m).last == Moved(s, m).seen <==> !Overwrites(s, m)
  {
  }

  /** The newest create time among the tasks whose update is over, admitted or not. */
  function Newest(last: int, ms: seq<Move>): int
    decreases |ms|
  {
    if ms == [] then last else Newest(if ms[0].Write? then Max(last, ms[0].task.createTime) else last, ms[1..])
  }

  lemma {:induction false} NewestIsMaximum(last: int, ms: seq<Move>)
    ensures last <= Newest(last, ms)
    ensures forall i :: 0 <= i < |ms| && ms[i].Write? ==> ms[i].task.createTime <= Newest(last, ms)
    ensures Newest(last, ms) == last
            || exists i :: 0 <= i < |ms| && ms[i].Write? && ms[i].task.createTime == Newest(last, ms)
    decreases |ms|
  {
    if ms != [] {
      var next := if ms[0].Write? then Max(last, ms[0].task.createTime) else last;
      NewestIsMaximum(next, ms[1..]);
      if Newest(last, ms) != last && Newest(last, ms) != next {
        var i :| 0 <= i < |ms[1..]| && ms[1..][i].Write? && ms[1..][i].task.createTime == Newest(next, ms[1..]);
        assert ms[i + 1].Write? && ms[i + 1].task.createTime == Newest(last, ms);
      }
    }
  }

  predicate NoOverwrite(s: Tasks, ms: seq<Move>)
    decreases |ms|
  {
    ms == [] || (CanMove(s, ms[0]) && !Overwrites(s, ms[0]) && NoOverwrite(Moved(s, ms[0]), ms[1..]))
  }

  /** In every run `seen` is the newest of the tasks whose update is over and the last command time is not
      newer; it is the newest as long as no caller writes over a newer one. */
  lemma {:induction false} LastIsNewest(s: Tasks, ms: seq<Move>, t: Tasks)
    requires Bounded(s) && Moves(s, ms, t)
    ensures Bounded(t) && t.seen == Newest(s.seen, ms)
    ensures s.last == s.seen && NoOverwrite(s, ms) ==> t.last == Newest(s.last, ms)
    decreases |ms|
  {
    if ms != [] {
      MoveKeepsBounded(s, ms[0]);
      if s.last == s.seen {
        MoveKeepsLast(s, ms[0]);
      }
      LastIsNewest(Moved(s, ms[0]), ms[1..], t);
    }
  }

  /** A task that was offered has its update over once its caller has come further. */
  lemma {:induction false} OfferedIsWritten(s: Tasks, ms: seq<Move>, t: Tasks, a: nat)
    requires Moves(s, ms, t) && a in s.callers && s.callers[a].Compared?
    requires !(a in t.callers && t.callers[a].Compared?)
    ensures Write(a, s.callers[a].task) in ms
    decreases |ms|
  {
    if ms[0] != Write(a, s.callers[a].task) {
      assert Moved(s, ms[0]).callers[a] == s.callers[a];
      OfferedIsWritten(Moved(s, ms[0]), ms[1..], t, a);
    }
  }

  // Sequential runs

  /** An addition begins when no other is under way and no removal, and a removal when no addition is. */
  predicate Serial(s: Tasks, m: Move) {
    match m
    case Compare(_, _) => s.callers == map[] && s.phase == Idle
    case BeginRemoval(_) => s.callers == map[]
    case _ => true
  }

  predicate AllSerial(s: Tasks, ms: seq<Move>)
    decreases |ms|
  {
    ms == [] || (CanMove(s, ms[0]) && Serial(s, ms[0]) && AllSerial(Moved(s, ms[0]), ms[1..]))
  }

  /** One addition at a time, and what it found out still holds. */
  predicate Orderly(s: Tasks) {
    && (s.phase != Idle ==> s.callers == map[])
    && (forall a, b :: a in s.callers && b in s.callers ==> a == b)
    && (forall a :: a in s.callers && s.callers[a].Compared? ==> (s.callers[a].newer <==> s.callers[a].task.createTime > s.last))
    && (forall a :: a in s.callers && s.callers[a].Checked? ==> After(s.queue, s.callers[a].task))
  }

  lemma SerialKeepsOrderly(s: Tasks, m: Move)
    requires Orderly(s) && CanMove(s, m) && Serial(s, m)
    ensures Orderly(Moved(s, m)) && Harmless(s, m) && !Overwrites(s, m)
  {
    if m.Compare? || m.Write? || m.Check? || m.Put? {
      assert forall a :: a in Moved(s, m).callers ==> a == m.caller;
    }
  }

  /** Sequential runs put and write only where it does no harm. */
  lemma {:induction false} SequentialIsHarmless(s: Tasks, ms: seq<Move>)
    requires Orderly(s) && AllSerial(s, ms)
    ensures AllHarmless(s, ms) && NoOverwrite(s, ms)
    decreases |ms|
  {
    if ms != [] {
      SerialKeepsOrderly(s, ms[0]);
      SequentialIsHarmless(Moved(s, ms[0]), ms[1..]);
    }
  }

  /** Every sequential run that begins with nothing under way keeps the finish times strictly increasing and
      ends with the newest create time of the tasks whose update is over. */
  lemma SequentialRuns(s: Tasks, ms: seq<Move>, t: Tasks)
    requires s.callers == map[] && s.last == s.seen && Ordered(Lined(s)) && Moves(s, ms, t) && AllSerial(s, ms)
    ensures Ordered(Lined(t)) && t.last == Newest(s.last, ms)
  {
    SequentialIsHarmless(s, ms);
    FinishTimesIncrease(s, ms, t);
    LastIsNewest(s, ms, t);
  }

  // Removals and runs that go wrong

  /** What the queue will hold once the removal is over. */
  predicate Leaves(s: Tasks, target: Task, rest: seq<Task>) {
    match s.phase
    case Idle => s.queue == rest
    case Draining(t, held) => t == target && held + Without(s.queue, target) == rest
    case Refilling(held) => s.queue + held == rest
  }

  lemma RemovalStep(s: Tasks, m: Move, target: Task, rest: seq<Task>)
    requires m in {Take, TurnRound, PutBack, EndRemoval} && CanMove(s, m) && Leaves(s, target, rest)
    ensures Leaves(Moved(s, m), target, rest)
  {
    match m
    case Take =>
      var held, x, more := s.phase.held, s.queue[0], Without(s.queue[1..], target);
      assert held + ([x] + more) == held + [x] + more;
      assert held + ([] + more) == held + more;
    case TurnRound =>
      assert s.phase.held + [] == s.phase.held == [] + s.phase.held;
    case PutBack =>
      assert s.queue + s.phase.held == s.queue + [s.phase.held[0]] + s.phase.held[1..];
    case EndRemoval =>
      assert s.queue + [] == s.queue;
  }

  /** A removal that nothing interrupts filters the queue, whatever the number of its steps. */
  lemma {:induction false} RemovalFilters(s: Tasks, ms: seq<Move>, t: Tasks, target: Task, rest: seq<Task>)
    requires Moves(s, ms, t) && t.phase == Idle
    requires forall i :: 0 <= i < |ms| ==> ms[i] in {Take, TurnRound, PutBack, EndRemoval}
    requires Leaves(s, target, rest)
    ensures t.queue == rest
    decreases |ms|
  {
    if ms != [] {
      assert ms[0] in {Take, TurnRound, PutBack, EndRemoval};
      RemovalStep(s, ms[0], target, rest);
      RemovalFilters(Moved(s, ms[0]), ms[1..], t, target, rest);
    }
  }

  /** A call up to its check, when its task is admitted. */
  function Passed(s: Tasks, a: nat, x: Task): Tasks {
    s.(last := Max(s.last, x.createTime), seen := Max(s.seen, x.createTime), callers := s.callers[a := Checked(x)])
  }

  lemma PassesCheck(s: Tasks, a: nat, x: Task)
    requires a !in s.callers && Admits(s.queue, x)
    ensures Moves(s, [Compare(a, x), Write(a, x), Check(a)], Passed(s, a, x))
  {
    var s1 := Moved(s, Compare(a, x));
    var s2 := Moved(s1, Write(a, x));
    var s3 := Passed(s, a, x);
    assert Moved(s2, Check(a)) == s3;
    Prefix(s2, Check(a), [], s3);
    Prefix(s1, Write(a, x), [Check(a)], s3);
    Prefix(s, Compare(a, x), [Write(a, x), Check(a)], s3);
  }

  /** A run in which a task is added between the two halves of a removal, and the order is lost. */
  lemma AdditionDuringRemovalBreaksOrder(early: Task, late: Task, other: Task)
    requires WellFormed(late) && FinishTime(early) < FinishTime(late) && early != other
    ensures exists s: Tasks, ms, t ::
              s.phase == Idle && s.callers == map[] && s.queue == [early] && Moves(s, ms, t) && t.phase == Idle && !Ordered(t.queue)
  {
    var s0 := Tasks([early], Idle, 0, 0, map[]);
    var s3 := s0.(queue := [], phase := Refilling([early]));
    var s4 := Passed(s3, 0, late);
    var s5 := s4.(queue := [late], callers := map[]);
    var s6 := s5.(queue := [late, early], phase := Idle);
    DrainsOne(s0, early, other);
    PassesCheck(s3, 0, late);
    PutsAndRefills(s4, late, early);
    Joined(s3, [Compare(0, late), Write(0, late), Check(0)], s4, [Put(0), PutBack, EndRemoval], s6);
    Joined(s0, [BeginRemoval(other), Take, TurnRound], s3,
           [Compare(0, late), Write(0, late), Check(0)] + [Put(0), PutBack, EndRemoval], s6);
    assert FinishTime(s6.queue[1]) < FinishTime(s6.queue[0]);
  }

  lemma DrainsOne(s: Tasks, x: Task, other: Task)
    requires s.queue == [x] && s.phase == Idle && x != other
    ensures Moves(s, [BeginRemoval(other), Take, TurnRound], s.(queue := [], phase := Refilling([x])))
  {
    var s1 := s.(phase := Draining(other, []));
    var s2 := s.(queue := [], phase := Draining(other, [x]));
    var s3 := s.(queue := [], phase := Refilling([x]));
    assert [x][1..] == [] && [] + [x] == [x];
    assert Moved(s1, Take) == s2;
    Prefix(s2, TurnRound, [], s3);
    Prefix(s1, Take, [TurnRound], s3);
    Prefix(s, BeginRemoval(other), [Take, TurnRound], s3);
  }

  lemma PutsAndRefills(s: Tasks, x: Task, held: Task)
    requires s.queue == [] && s.phase == Refilling([held]) && s.callers == map[0 := Checked(x)]
    ensures Moves(s, [Put(0), PutBack, EndRemoval], s.(queue := [x, held], phase := Idle, callers := map[]))
  {
    var s5 := s.(queue := [x], callers := map[]);
    var s6 := s.(queue := [x, held], phase := Refilling([]), callers := map[]);
    var s7 := s6.(phase := Idle);
    assert s.callers - {0} == map[] && [] + [x] == [x];
    assert Moved(s, Put(0)) == s5;
    assert [held][1..] == [] && [x] + [held] == [x, held];
    assert Moved(s5, PutBack) == s6;
    Prefix(s6, EndRemoval, [], s7);
    Prefix(s5, PutBack, [EndRemoval], s7);
    Prefix(s, Put(0), [PutBack, EndRemoval], s7);
  }

  /** A run in which two callers check before either puts, and the order is lost. */
  lemma RacingAdditionsBreakOrder(early: Task, late: Task)
    requires WellFormed(early) && WellFormed(late) && FinishTime(early) < FinishTime(late)
    ensures exists s: Tasks, ms, t ::
              s.queue == [] && s.phase == Idle && s.callers == map[] && Moves(s, ms, t) && t.phase == Idle && !Ordered(t.queue)
  {
    var s0 := Tasks([], Idle, 0, 0, map[]);
    var s1 := Passed(s0, 0, late);
    var s2 := Passed(s1, 1, early);
    var s4 := s2.(queue := [late, early], callers := map[]);
    PassesCheck(s0, 0, late);
    PassesCheck(s1, 1, early);
    PutsBoth(s2, late, early);
    Joined(s1, [Compare(1, early), Write(1, early), Check(1)], s2, [Put(0), Put(1)], s4);
    Joined(s0, [Compare(0, late), Write(0, late), Check(0)], s1,
           [Compare(1, early), Write(1, early), Check(1)] + [Put(0), Put(1)], s4);
    assert FinishTime(s4.queue[1]) < FinishTime(s4.queue[0]);
  }

  lemma PutsBoth(s: Tasks, x: Task, y: Task)
    requires s.queue == [] && s.callers == map[0 := Checked(x), 1 := Checked(y)]
    ensures Moves(s, [Put(0), Put(1)], s.(queue := [x, y], callers := map[]))
  {
    var s3 := s.(queue := [x], callers := map[1 := Checked(y)]);
    var s4 := s.(queue := [x, y], callers := map[]);
    assert s.callers - {0} == s3.callers && [] + [x] == [x];
    assert Moved(s, Put(0)) == s3;
    assert s3.callers - {1} == map[] && [x] + [y] == [x, y];
    assert Moved(s3, Put(1)) == s4;
    Prefix(s3, Put(1), [], s4);
    Prefix(s, Put(0), [Put(1)], s4);
  }

  /** A run in which two callers compare before either writes, and the newest create time is lost. */
  lemma RacingUpdatesLoseNewest(older: Task, newer: Task, last: int)
    requires last < older.createTime < newer.createTime
    ensures exists s: Tasks, ms, t ::
              s.callers == map[] && s.last == s.seen == last && Moves(s, ms, t)
              && t.last == older.createTime < Newest(last, ms) == newer.createTime
  {
    var s0 := Tasks([], Idle, last, last, map[]);
    var s1 := s0.(callers := map[0 := Compared(older, true)]);
    var s2 := s0.(callers := map[0 := Compared(older, true), 1 := Compared(newer, true)]);
    var s3 := Tasks([], Idle, newer.createTime, newer.createTime, map[0 := Compared(older, true), 1 := Updated(newer)]);
    var s4 := s3.(last := older.createTime, callers := map[0 := Updated(older), 1 := Updated(newer)]);
    assert Moved(s0, Compare(0, older)) == s1;
    assert Moved(s1, Compare(1, newer)) == s2;
    assert Moved(s2, Write(1, newer)) == s3;
    assert Moved(s3, Write(0, older)) == s4;
    Prefix(s3, Write(0, older), [], s4);
    Prefix(s2, Write(1, newer), [Write(0, older)], s4);
    Prefix(s1, Compare(1, newer), [Write(1, newer), Write(0, older)], s4);
    Prefix(s0, Compare(0, older), [Compare(1, newer), Write(1, newer), Write(0, older)], s4);
    LastIsNewest(s0, [Compare(0, older)] + [Compare(1, newer), Write(1, newer), Write(0, older)], s4);
  }

  lemma {:induction false} Joined(s: Tasks, a: seq<Move>, mid: Tasks, b: seq<Move>, t: Tasks)
    requires Moves(s, a, mid) && Moves(mid, b, t)
    ensures Moves(s, a + b, t)
    decreases |a|
  {
    if a == [] {
      assert a + b == b;
    } else {
      Joined(Moved(s, a[0]), a[1..], mid, b, t);
      assert (a + b)[1..] == a[1..] + b;
    }
  }

  lemma Prefix(s: Tasks, m: Move, ms: seq<Move>, t: Tasks)
    requires CanMove(s, m) && Moves(Moved(s, m), ms, t)
    ensures Moves(s, [m] + ms, t)
  {
    assert ([m] + ms)[1..] == ms;
  }
}
