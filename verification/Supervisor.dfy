/** The asyncio root that supervises the reporter tasks until shutdown and then cleans them up.
    What other tasks do while the root awaits is a parameter: the statuses found on waking up. */
module Supervisor {
  import opened Text

  datatype Status = Running | Succeeded | Cancelled | Failed

  /** A task that has ended keeps its outcome. */
  predicate Evolves(before: seq<Status>, after: seq<Status>) {
    |before| == |after| && forall t :: 0 <= t < |before| && before[t] != Running ==> after[t] == before[t]
  }

  lemma EvolvesTransitively(a: seq<Status>, b: seq<Status>, c: seq<Status>)
    requires Evolves(a, b) && Evolves(b, c)
    ensures Evolves(a, c)
  {
    forall t | 0 <= t < |a| && a[t] != Running ensures c[t] == a[t] {
      assert b[t] == a[t];
    }
  }

  /** What `asyncio.wait` returns with: the statuses by then, the tasks it reports, the shutdown event. */
  datatype Wake = Wake(status: seq<Status>, done: seq<nat>, finished: bool)

  predicate Wakes(status: seq<Status>, wakes: seq<Wake>)
    decreases |wakes|
  {
    wakes == [] ||
    (&& Evolves(status, wakes[0].status)
     && (forall i :: 0 <= i < |wakes[0].done| ==>
           wakes[0].done[i] < |status| && wakes[0].status[wakes[0].done[i]] != Running)
     && Wakes(wakes[0].status, wakes[1..]))
  }

  predicate NoRepeats(log: seq<nat>) {
    forall i, j :: 0 <= i < j < |log| ==> log[i] != log[j]
  }

  /** The first wake-up that brings the shutdown event or a task that has ended; their number if none does. */
  function Decisive(wakes: seq<Wake>): (k: nat)
    ensures k <= |wakes|
    ensures forall i :: 0 <= i < k ==> !wakes[i].finished && wakes[i].done == []
    ensures k < |wakes| ==> wakes[k].finished || wakes[k].done != []
  {
    if wakes == [] || wakes[0].finished || wakes[0].done != [] then 0 else
      var k := Decisive(wakes[1..]);
      assert forall i :: 1 <= i < k + 1 ==> wakes[i] == wakes[1..][i - 1];
      k + 1
  }

  /** Tasks are numbered; `handled` holds those marked as logged, `log` the error lines written. */
  class Root {
    var status: seq<Status>
    var handled: set<nat>
    var log: seq<nat>
    var finished: bool

    ghost predicate Valid()
      reads this
    {
      NoRepeats(log) && forall t :: t in log <==> t in handled
    }

    /** The tasks have just been created. */
    constructor (tasks: nat)
      ensures Valid() && log == [] && !finished && status == seq(tasks, _ => Running)
    {
      status, handled, log, finished := seq(tasks, _ => Running), {}, [], false;
    }

    /** The outcome to be reported, if any, is logged unless the task has been handled. */
    method LogOutcome(task: nat, completion: bool, cancellation: bool) returns (logged: bool)
      requires Valid() && task < |status|
      modifies this`handled, this`log
      ensures Valid()
      ensures logged <==> && task !in old(log)
                          && (status[task] == Failed || (status[task] == Succeeded && completion)
                              || (status[task] == Cancelled && cancellation))
      ensures log == if logged then old(log) + [task] else old(log)
    {
      if task in handled {
        return false;
      }
      if status[task] == Running || (status[task] == Cancelled && !cancellation)
         || (status[task] == Succeeded && !completion) {
        return false;
      }
      handled := handled + {task};
      log := log + [task];
      return true;
    }

    /** Waits for shutdown or for the first task that ends. `ended` is false while it still waits. */
    method Supervise(wakes: seq<Wake>) returns (ended: bool)
      requires Valid() && Wakes(status, wakes)
      modifies this
      ensures Valid() && Evolves(old(status), status)
      ensures log == old(log)
              || (ended && exists t: nat :: t < |status| && status[t] != Running && log == old(log) + [t])
      ensures ended <==> finished
      ensures ended && log == old(log) ==> old(finished) || exists k :: 0 <= k < |wakes| && wakes[k].finished
      ensures old(log) == [] && !old(finished) ==>
                var k := Decisive(wakes);
                && (ended <==> k < |wakes|)
                && (ended ==> status == wakes[k].status && log == if wakes[k].finished then [] else [wakes[k].done[0]])
    {
      var k := 0;
      while !finished
        invariant 0 <= k <= |wakes|
        invariant Valid() && log == old(log) && Evolves(old(status), status) && Wakes(status, wakes[k..])
        invariant finished == old(finished)
        invariant old(log) == [] ==> forall i :: 0 <= i < k ==> wakes[i].done == [] && !wakes[i].finished
        decreases |wakes| - k
      {
        if k == |wakes| {
          return false;
        }
        var wake := wakes[k];
        assert wakes[k..][0] == wake && wakes[k..][1..] == wakes[k + 1..];
        EvolvesTransitively(old(status), status, wake.status);
        status := wake.status;
        if wake.finished {
          finished := true;
          return true;
        }
        for i := 0 to |wake.done|
          invariant Valid() && log == old(log) && status == wake.status && !finished
          invariant old(log) == [] ==> i == 0
        {
          var logged := LogOutcome(wake.done[i], true, true);
          if logged {
            finished := true;
            return true;
          }
        }
        k := k + 1;
      }
      return true;
    }

    /** Logs the failed ones among `tasks`. */
    method LogFailed(tasks: seq<nat>)
      requires Valid() && forall i :: 0 <= i < |tasks| ==> tasks[i] < |status|
      modifies this`handled, this`log
      ensures Valid() && old(log) <= log
      ensures forall t :: t in log <==> t in old(log) || (t in tasks && status[t] == Failed)
    {
      for i := 0 to |tasks|
        invariant Valid() && old(log) <= log
        invariant forall t :: t in log <==> t in old(log) || (t in tasks[..i] && status[t] == Failed)
      {
        var _ := LogOutcome(tasks[i], false, false);
        assert tasks[..i + 1] == tasks[..i] + [tasks[i]];
      }
      assert tasks[..|tasks|] == tasks;
    }

    /** The tasks that have ended, or have not, without the current one. */
    method Select(current: Option<nat>, ended: bool) returns (tasks: seq<nat>)
      ensures forall t: nat :: t in tasks <==> t < |status| && Some(t) != current && (ended <==> status[t] != Running)
    {
      tasks := [];
      for t := 0 to |status|
        invariant forall u: nat :: u in tasks <==> u < t && Some(u) != current && (ended <==> status[u] != Running)
      {
        if Some(t) != current && (ended <==> status[t] != Running) {
          tasks := tasks + [t];
        }
      }
    }

    /** Logs the tasks that failed, cancels the rest and logs those that then fail. `settled` gives the
        statuses when the cancelled tasks have ended or the wait for them has timed out; `current` is
        the task that runs the cleanup, if it is among them. */
    method CancelPendingTasks(current: Option<nat>, settled: seq<Status>)
      requires Valid() && Evolves(status, settled)
      modifies this`status, this`handled, this`log
      ensures Valid() && old(log) <= log
      ensures status == if Rest(old(status), current) then old(status) else settled
      ensures forall t: nat :: t in log <==>
                t in old(log) || (t < |status| && Some(t) != current && status[t] == Failed)
    {
      var done := Select(current, true);
      assert forall i :: 0 <= i < |done| ==> done[i] in done;
      LogFailed(done);
      var pending := Select(current, false);
      if pending == [] {
        return;
      }
      assert forall i :: 0 <= i < |pending| ==> pending[i] in pending;
      assert pending[0] in pending;
      status := settled;
      LogFailed(pending);
    }

    /** The awaits while the queues are shut down, then cleanup, after at most one outcome was logged. */
    method WindDown(drained: seq<Status>, settled: seq<Status>)
      requires Valid() && |log| <= 1 && Evolves(status, drained) && Evolves(drained, settled)
      requires forall t :: t in log ==> t < |status| && status[t] != Running
      modifies this`status, this`handled, this`log
      ensures Valid() && old(log) <= log && |status| == |old(status)|
      ensures forall t: nat :: t < |status| && status[t] == Failed ==> t in log
      ensures forall i :: 0 <= i < |log| ==> log[i] < |status| && status[log[i]] != Running
      ensures forall i :: |old(log)| <= i < |log| ==> status[log[i]] == Failed
    {
      ghost var supervised, were := log, status;
      status := drained;
      EvolvesTransitively(were, drained, settled);
      CancelPendingTasks(None, settled);
      CleanupAddsFailures(supervised, log, were, status);
    }
  }

  /** Every task other than the current one has ended. */
  predicate Rest(status: seq<Status>, current: Option<nat>) {
    forall t :: 0 <= t < |status| && Some(t) != current ==> status[t] != Running
  }

  /** What cleanup adds to the log of a supervision that logged at most one outcome. */
  lemma CleanupAddsFailures(supervised: seq<nat>, log: seq<nat>, were: seq<Status>, status: seq<Status>)
    requires |supervised| <= 1 && supervised <= log && Evolves(were, status)
    requires forall t :: t in supervised ==> t < |were| && were[t] != Running
    requires forall t: nat :: t in log <==> t in supervised || (t < |status| && status[t] == Failed)
    requires NoRepeats(log)
    ensures forall i :: 0 <= i < |log| ==> log[i] < |status| && status[log[i]] != Running
    ensures forall i :: |supervised| <= i < |log| ==> status[log[i]] == Failed
  {
    forall i | 0 <= i < |log|
      ensures log[i] < |status| && status[log[i]] != Running
      ensures |supervised| <= i ==> status[log[i]] == Failed
    {
      assert log[i] in log;
      if log[i] in supervised {
        assert supervised[0] == log[0];
      }
    }
  }

  /** The whole life of the root: supervision, the awaits while the queues are shut down, cleanup. The
      functions say what has become of the tasks when these awaits are over. Supervision ends with the first
      wake-up that brings the shutdown event or an ended task, and logs the outcome of the latter. A failure
      is logged exactly once unless its task outlives the wait for cancelled tasks, and apart from failures
      only the outcome that ended the supervision is ever logged. */
  method Live(tasks: nat, wakes: seq<Wake>, drain: seq<Status> -> seq<Status>, cancel: seq<Status> -> seq<Status>)
    returns (ended: bool, log: seq<nat>, status: seq<Status>)
    requires Wakes(seq(tasks, _ => Running), wakes)
    requires forall s :: Evolves(s, drain(s))
    requires forall s :: Evolves(s, cancel(s))
    ensures NoRepeats(log) && |status| == tasks
    ensures !ended ==> log == []
    ensures ended <==> Decisive(wakes) < |wakes|
    ensures ended && !wakes[Decisive(wakes)].finished ==> log != [] && log[0] == wakes[Decisive(wakes)].done[0]
    ensures ended ==> forall t: nat :: t < tasks && status[t] == Failed ==> t in log
    ensures forall i :: 0 <= i < |log| ==> log[i] < tasks && status[log[i]] != Running
    ensures forall i :: 0 <= i < |log| && (i > 0 || (ended && wakes[Decisive(wakes)].finished)) ==> status[log[i]] == Failed
  {
    var root := new Root(tasks);
    ended := root.Supervise(wakes);
    if ended {
      var drained := drain(root.status);
      root.WindDown(drained, cancel(drained));
    }
    log, status := root.log, root.status;
  }
}
