/** The allocation of profiling slots: request threads reserve by compare-and-set on a counter and then
    scan the slot array; one profiler thread takes snapshots, clears slots and decrements. Each step
    below is one atomic access to the counter, the array or the total. */
module ProfileSlots {
  import opened Text

  type ThreadId = nat
  type ContextId = nat

  /** A profiler is an object of its own; several may watch one trace context. */
  datatype Profiler = Profiler(id: nat, context: ContextId)

  /** Where a request thread is in `attempt_profiling`. */
  datatype Request =
    | Idle
    | Saw(count: int)                             // read the counter and found room
    | Scanning(profiler: Profiler, index: nat)    // won the counter and tries slot `index` next
    | OutOfSlots(profiler: Profiler)              // scanned the whole array in vain

  /** Where the profiler thread is. */
  datatype Stopper =
    | Watching
    | Looking(context: ContextId, index: nat)     // in the loop of `stop_tracing_profile`
    | Found(context: ContextId, index: nat)
    | Cleared

  datatype State = State(
    counter: int,
    slots: seq<Option<Profiler>>,
    requests: map<ThreadId, Request>,
    stopper: Stopper,
    started: int,
    sequence: map<Profiler, nat>,
    snapshots: seq<(Profiler, nat)>)

  function Initial(n: nat): State {
    State(0, seq(n, _ => None), map[], Watching, 0, map[], [])
  }

  datatype Step =
    | Arrive(thread: ThreadId)
    | ReadCounter(thread: ThreadId)
    | GiveUp(thread: ThreadId)                    // another operation, or the total is used up
    | Reserve(thread: ThreadId, profiler: Profiler)
    | TrySlot(thread: ThreadId)
    | Snapshot(slot: nat)
    | DumpFails(slot: nat)                        // the watched thread has ended
    | Look
    | Clear
    | Decrement

  predicate At(s: State, t: ThreadId) {
    t in s.requests
  }

  predicate Enabled(s: State, step: Step) {
    match step
    case Arrive(t) => !At(s, t)
    case ReadCounter(t) => At(s, t) && s.requests[t].Idle?
    case GiveUp(t) => At(s, t) && s.requests[t].Saw?
    case Reserve(t, p) => At(s, t) && s.requests[t].Saw? && p !in s.sequence
    case TrySlot(t) => At(s, t) && s.requests[t].Scanning?
    case Snapshot(k) => s.stopper.Watching? && k < |s.slots| && s.slots[k].Some? && s.slots[k].value in s.sequence
    case DumpFails(k) => s.stopper.Watching? && k < |s.slots| && s.slots[k].Some?
    case Look => s.stopper.Looking?
    case Clear => s.stopper.Found? && s.stopper.index < |s.slots|
    case Decrement => s.stopper.Cleared?
  }

  /** `max` is the limit on the number of sampled requests. */
  function Apply(s: State, step: Step, max: int): State
    requires Enabled(s, step)
  {
    match step
    case Arrive(t) => s.(requests := s.requests[t := Idle])
    case ReadCounter(t) =>
      if s.counter >= |s.slots| then s else s.(requests := s.requests[t := Saw(s.counter)])
    case GiveUp(t) => s.(requests := s.requests[t := Idle])
    case Reserve(t, p) =>
      if s.counter == s.requests[t].count then
        s.(counter := s.counter + 1, requests := s.requests[t := Scanning(p, 0)], sequence := s.sequence[p := 0])
      else s.(requests := s.requests[t := Idle])
    case TrySlot(t) =>
      var i := s.requests[t].index;
      if i >= |s.slots| then s.(requests := s.requests[t := OutOfSlots(s.requests[t].profiler)])
      else if s.slots[i] == None then
        s.(slots := s.slots[i := Some(s.requests[t].profiler)], requests := s.requests[t := Idle])
      else s.(requests := s.requests[t := Scanning(s.requests[t].profiler, i + 1)])
    case Snapshot(k) =>
      var p := s.slots[k].value;
      var n := s.sequence[p];
      var started := if n == 0 then s.started + 1 else s.started;
      if n == 0 && started > max then s.(started := started, stopper := Looking(p.context, 0))
      else s.(started := started, sequence := s.sequence[p := n + 1], snapshots := s.snapshots + [(p, n)])
    case DumpFails(k) => s.(stopper := Looking(s.slots[k].value.context, 0))
    case Look =>
      var i := s.stopper.index;
      if i >= |s.slots| then s.(stopper := Watching)
      else if s.slots[i].Some? && s.slots[i].value.context == s.stopper.context then s.(stopper := Found(s.stopper.context, i))
      else s.(stopper := Looking(s.stopper.context, i + 1))
    case Clear => s.(slots := s.slots[s.stopper.index := None], stopper := Cleared)
    case Decrement => s.(counter := s.counter - 1, stopper := Watching)
  }

  ghost predicate Leads(s: State, steps: seq<Step>, max: int, end: State)
    decreases |steps|
  {
    if steps == [] then s == end
    else Enabled(s, steps[0]) && Leads(Apply(s, steps[0], max), steps[1..], max, end)
  }

  // ----- counting -----

  /** Slots taken from index `i` on. */
  function Taken(slots: seq<Option<Profiler>>, i: nat): nat
    requires i <= |slots|
    decreases |slots| - i
  {
    if i == |slots| then 0 else (if slots[i].Some? then 1 else 0) + Taken(slots, i + 1)
  }

  /** Threads that hold a reservation and are still to try slot `i` or a later one. */
  ghost function Scanners(requests: map<ThreadId, Request>, i: nat): set<ThreadId> {
    set t | t in requests && ((requests[t].Scanning? && requests[t].index >= i) || requests[t].OutOfSlots?)
  }

  ghost function Ahead(s: State, i: nat): int
    requires i <= |s.slots|
  {
    Taken(s.slots, i) + |Scanners(s.requests, i)|
  }

  ghost predicate RoomAhead(s: State, i: nat)
    requires i <= |s.slots|
  {
    Ahead(s, i) <= |s.slots| - i
  }

  /** At most `max - i` profilers are placed at, or scanning towards, slot `i` or beyond; the counter
      counts them all, and the one being taken away. */
  ghost predicate Inv(s: State) {
    && (forall i :: 0 <= i <= |s.slots| ==> RoomAhead(s, i))
    && s.counter == Ahead(s, 0) + (if s.stopper.Cleared? then 1 else 0)
    && s.counter <= |s.slots|
    && (forall t :: t in s.requests && s.requests[t].Saw? ==> s.requests[t].count < |s.slots|)
    && (forall t :: t in s.requests && s.requests[t].Scanning? ==> s.requests[t].index <= |s.slots|)
    && (s.stopper.Found? ==>
          && s.stopper.index < |s.slots| && s.slots[s.stopper.index].Some?
          && s.slots[s.stopper.index].value.context == s.stopper.context)
  }

  lemma {:induction false} TakenUpdate(slots: seq<Option<Profiler>>, k: nat, v: Option<Profiler>, i: nat)
    requires k < |slots| && i <= |slots|
    ensures Taken(slots[k := v], i) == Taken(slots, i)
              + (if i <= k then (if v.Some? then 1 else 0) - (if slots[k].Some? then 1 else 0) else 0)
    decreases |slots| - i
  {
    if i < |slots| {
      TakenUpdate(slots, k, v, i + 1);
    }
  }

  lemma {:induction false} NoneTaken(n: nat, i: nat)
    requires i <= n
    ensures Taken(seq(n, _ => None), i) == 0
    decreases n - i
  {
    if i < n {
      NoneTaken(n, i + 1);
    }
  }

  /** A request's new phase adds it to the scanners, takes it away, or neither. */
  lemma ScannersUpdate(requests: map<ThreadId, Request>, t: ThreadId, v: Request, i: nat)
    ensures var now := (v.Scanning? && v.index >= i) || v.OutOfSlots?;
            var was := t in Scanners(requests, i);
            |Scanners(requests[t := v], i)| == |Scanners(requests, i)| + (if now then 1 else 0) - (if was then 1 else 0)
  {
    var before, after := Scanners(requests, i), Scanners(requests[t := v], i);
    if (v.Scanning? && v.index >= i) || v.OutOfSlots? {
      assert after == before + {t};
    } else {
      assert after == before - {t};
    }
  }

  /** Nobody with a reservation runs past the last slot. */
  lemma ScannerHasRoom(s: State, t: ThreadId)
    requires Inv(s) && t in s.requests
    ensures !s.requests[t].OutOfSlots?
    ensures s.requests[t].Scanning? ==> s.requests[t].index < |s.slots|
  {
    var n := |s.slots|;
    assert RoomAhead(s, n);
    assert Scanners(s.requests, n) == {};
    assert t !in Scanners(s.requests, n);
  }

  lemma PhaseKeepsRoom(s: State, t: ThreadId, v: Request)
    requires forall i :: 0 <= i <= |s.slots| ==> RoomAhead(s, i)
    requires t in s.requests ==> !s.requests[t].Scanning? && !s.requests[t].OutOfSlots?
    requires !v.Scanning? && !v.OutOfSlots?
    ensures var u := s.(requests := s.requests[t := v]);
            (forall i :: 0 <= i <= |s.slots| ==> RoomAhead(u, i)) && Ahead(u, 0) == Ahead(s, 0)
  {
    forall i: nat | i <= |s.slots|
      ensures |Scanners(s.requests[t := v], i)| == |Scanners(s.requests, i)|
    {
      ScannersUpdate(s.requests, t, v, i);
    }
    var u := s.(requests := s.requests[t := v]);
    forall i: nat | i <= |s.slots|
      ensures RoomAhead(u, i)
    {
      assert RoomAhead(s, i);
    }
  }

  lemma ReserveKeepsInv(s: State, t: ThreadId, p: Profiler, max: int)
    requires Inv(s) && Enabled(s, Reserve(t, p))
    ensures Inv(Apply(s, Reserve(t, p), max))
  {
    var u := Apply(s, Reserve(t, p), max);
    if s.counter == s.requests[t].count {
      forall i: nat | i <= |u.slots|
        ensures RoomAhead(u, i)
      {
        assert RoomAhead(s, i);
        ScannersUpdate(s.requests, t, Scanning(p, 0), i);
        if i == 0 {
          assert s.counter < |s.slots|;
        }
      }
      ScannersUpdate(s.requests, t, Scanning(p, 0), 0);
    } else {
      PhaseKeepsRoom(s, t, Idle);
    }
  }

  /** Placing a profiler moves it from the scanners to the slots. */
  lemma PlaceKeepsAhead(s: State, t: ThreadId, i: nat)
    requires Inv(s) && t in s.requests && s.requests[t].Scanning? && i <= |s.slots|
    requires s.requests[t].index < |s.slots| && s.slots[s.requests[t].index] == None
    ensures var k := s.requests[t].index;
            var u := s.(slots := s.slots[k := Some(s.requests[t].profiler)], requests := s.requests[t := Idle]);
            Ahead(u, i) == Ahead(s, i)
  {
    var k := s.requests[t].index;
    TakenUpdate(s.slots, k, Some(s.requests[t].profiler), i);
    ScannersUpdate(s.requests, t, Idle, i);
  }

  /** Passing a taken slot leaves room ahead: the slot and the thread both counted before it. */
  lemma PassKeepsRoom(s: State, t: ThreadId, i: nat)
    requires Inv(s) && t in s.requests && s.requests[t].Scanning? && i <= |s.slots|
    requires var k := s.requests[t].index; k < |s.slots| && s.slots[k].Some?
    ensures var u := s.(requests := s.requests[t := Scanning(s.requests[t].profiler, s.requests[t].index + 1)]);
            RoomAhead(u, i) && (i == 0 ==> Ahead(u, i) == Ahead(s, i))
  {
    var k := s.requests[t].index;
    ScannersUpdate(s.requests, t, Scanning(s.requests[t].profiler, k + 1), i);
    assert RoomAhead(s, i);
    if i == k + 1 {
      assert RoomAhead(s, k);
      assert Scanners(s.requests, k) >= Scanners(s.requests, k + 1) + {t};
      SubsetSize(Scanners(s.requests, k + 1) + {t}, Scanners(s.requests, k));
    }
  }

  lemma {:induction false} SubsetSize(a: set<ThreadId>, b: set<ThreadId>)
    requires a <= b
    ensures |a| <= |b|
    decreases |a|
  {
    if a != {} {
      var x :| x in a;
      SubsetSize(a - {x}, b - {x});
    }
  }

  lemma TryKeepsInv(s: State, t: ThreadId, max: int)
    requires Inv(s) && Enabled(s, TrySlot(t))
    ensures Inv(Apply(s, TrySlot(t), max))
  {
    var u := Apply(s, TrySlot(t), max);
    ScannerHasRoom(s, t);
    var k := s.requests[t].index;
    if s.slots[k] == None {
      forall i: nat | i <= |u.slots|
        ensures RoomAhead(u, i)
      {
        assert RoomAhead(s, i);
        PlaceKeepsAhead(s, t, i);
      }
      PlaceKeepsAhead(s, t, 0);
    } else {
      forall i: nat | i <= |u.slots|
        ensures RoomAhead(u, i)
      {
        PassKeepsRoom(s, t, i);
      }
      PassKeepsRoom(s, t, 0);
    }
  }

  lemma ClearKeepsInv(s: State, max: int)
    requires Inv(s) && Enabled(s, Clear)
    ensures Inv(Apply(s, Clear, max))
  {
    var u := Apply(s, Clear, max);
    forall i: nat | i <= |u.slots|
      ensures RoomAhead(u, i)
    {
      assert RoomAhead(s, i);
      TakenUpdate(s.slots, s.stopper.index, None, i);
    }
    TakenUpdate(s.slots, s.stopper.index, None, 0);
  }

  /** Steps that leave slots, counter and scanners alone. */
  lemma OtherKeepsInv(s: State, u: State)
    requires Inv(s) && u.slots == s.slots && u.requests == s.requests && u.counter == s.counter
    requires u.stopper.Cleared? <==> s.stopper.Cleared?
    requires u.stopper.Found? ==>
               && u.stopper.index < |s.slots| && s.slots[u.stopper.index].Some?
               && s.slots[u.stopper.index].value.context == u.stopper.context
    ensures Inv(u)
  {
    forall i: nat | i <= |u.slots|
      ensures RoomAhead(u, i)
    {
      assert RoomAhead(s, i);
    }
  }

  lemma StepKeepsInv(s: State, step: Step, max: int)
    requires Inv(s) && Enabled(s, step)
    ensures Inv(Apply(s, step, max))
  {
    var u := Apply(s, step, max);
    match step
    case Arrive(t) => PhaseKeepsRoom(s, t, Idle);
    case ReadCounter(t) => PhaseKeepsRoom(s, t, Saw(s.counter));
    case GiveUp(t) => PhaseKeepsRoom(s, t, Idle);
    case Reserve(t, p) => ReserveKeepsInv(s, t, p, max);
    case TrySlot(t) => TryKeepsInv(s, t, max);
    case Clear => ClearKeepsInv(s, max);
    case Decrement =>
      forall i: nat | i <= |u.slots|
        ensures RoomAhead(u, i)
      {
        assert RoomAhead(s, i);
      }
    case _ => OtherKeepsInv(s, u);
  }

  lemma {:induction false} RunKeepsInv(s: State, steps: seq<Step>, max: int, end: State)
    requires Inv(s) && Leads(s, steps, max, end)
    ensures Inv(end) && |end.slots| == |s.slots|
    decreases |steps|
  {
    if steps != [] {
      StepKeepsInv(s, steps[0], max);
      RunKeepsInv(Apply(s, steps[0], max), steps[1..], max, end);
    }
  }

  lemma InitialInv(n: nat)
    ensures Inv(Initial(n))
  {
    var s := Initial(n);
    forall i: nat | i <= n
      ensures RoomAhead(s, i)
    {
      NoneTaken(n, i);
      assert Scanners(s.requests, i) == {};
    }
    NoneTaken(n, 0);
    assert Scanners(s.requests, 0) == {};
  }

  /** However many threads race with the profiler thread, a thread that reserved a slot finds one in its
      single scan, and once nobody is under way the counter is the number of taken slots. The slot about to
      be cleared holds a profiler of the context that is to be stopped. */
  lemma EveryReservationFindsASlot(n: nat, steps: seq<Step>, max: int, end: State)
    requires Leads(Initial(n), steps, max, end)
    ensures forall t :: t in end.requests ==> !end.requests[t].OutOfSlots?
    ensures forall t :: t in end.requests && end.requests[t].Scanning? ==> end.requests[t].index < n
    ensures 0 <= end.counter <= n
    ensures Scanners(end.requests, 0) == {} && !end.stopper.Cleared? ==> end.counter == Taken(end.slots, 0)
    ensures end.stopper.Found? ==>
              && end.stopper.index < |end.slots| && end.slots[end.stopper.index].Some?
              && end.slots[end.stopper.index].value.context == end.stopper.context
  {
    InitialInv(n);
    RunKeepsInv(Initial(n), steps, max, end);
    forall t | t in end.requests
      ensures !end.requests[t].OutOfSlots?
      ensures end.requests[t].Scanning? ==> end.requests[t].index < n
    {
      ScannerHasRoom(end, t);
    }
  }

  // ----- sampling -----

  /** Profilers that have built a snapshot. */
  ghost function Sampled(s: State): set<Profiler> {
    set p | p in s.sequence && s.sequence[p] > 0
  }

  /** The numbers of one profiler's snapshots, in the order they were taken. */
  function Numbers(snapshots: seq<(Profiler, nat)>, p: Profiler): seq<nat> {
    if snapshots == [] then []
    else
      var rest := Numbers(snapshots[..|snapshots| - 1], p);
      var last := snapshots[|snapshots| - 1];
      if last.0 == p then rest + [last.1] else rest
  }

  /** 0, 1, ..., n - 1 */
  function UpTo(n: nat): seq<nat> {
    if n == 0 then [] else UpTo(n - 1) + [n - 1]
  }

  /** How many of `dumps` first dumps a limit of `max` lets through. */
  function Permitted(dumps: int, max: int): int {
    if dumps <= max then dumps else if max >= 0 then max else 0
  }

  ghost predicate SamplingInv(s: State, max: int) {
    && s.started >= 0
    && |Sampled(s)| == Permitted(s.started, max)
    && (forall p :: p in s.sequence ==> Numbers(s.snapshots, p) == UpTo(s.sequence[p]))
    && (forall p :: p !in s.sequence ==> Numbers(s.snapshots, p) == [])
  }

  lemma NumbersAppend(snapshots: seq<(Profiler, nat)>, p: Profiler, n: nat, q: Profiler)
    ensures Numbers(snapshots + [(p, n)], q) == Numbers(snapshots, q) + (if q == p then [n] else [])
  {
    assert (snapshots + [(p, n)])[..|snapshots|] == snapshots;
  }

  lemma SnapshotKeepsNumbers(s: State, k: nat, max: int, q: Profiler)
    requires SamplingInv(s, max) && Enabled(s, Snapshot(k))
    ensures var u := Apply(s, Snapshot(k), max);
            Numbers(u.snapshots, q) == if q in u.sequence then UpTo(u.sequence[q]) else []
  {
    NumbersAppend(s.snapshots, s.slots[k].value, s.sequence[s.slots[k].value], q);
  }

  lemma SnapshotKeepsSampling(s: State, k: nat, max: int)
    requires SamplingInv(s, max) && Enabled(s, Snapshot(k))
    ensures SamplingInv(Apply(s, Snapshot(k), max), max)
  {
    var u := Apply(s, Snapshot(k), max);
    var p := s.slots[k].value;
    if s.sequence[p] == 0 && s.started + 1 > max {
      assert Sampled(u) == Sampled(s);
    } else {
      assert Sampled(u) == Sampled(s) + {p};
    }
    forall q
      ensures Numbers(u.snapshots, q) == if q in u.sequence then UpTo(u.sequence[q]) else []
    {
      SnapshotKeepsNumbers(s, k, max, q);
    }
  }

  lemma StepKeepsSampling(s: State, step: Step, max: int)
    requires SamplingInv(s, max) && Enabled(s, step)
    ensures SamplingInv(Apply(s, step, max), max)
  {
    var u := Apply(s, step, max);
    if step.Snapshot? {
      SnapshotKeepsSampling(s, step.slot, max);
    } else {
      assert Sampled(u) == Sampled(s);
    }
  }

  lemma {:induction false} RunKeepsSampling(s: State, steps: seq<Step>, max: int, end: State)
    requires SamplingInv(s, max) && Leads(s, steps, max, end)
    ensures SamplingInv(end, max)
    decreases |steps|
  {
    if steps != [] {
      StepKeepsSampling(s, steps[0], max);
      RunKeepsSampling(Apply(s, steps[0], max), steps[1..], max, end);
    }
  }

  /** A dump of a profiler that has sampled before, and a first dump while fewer than `max` were made, adds
      the profiler's next snapshot; any other first dump adds nothing and has its context stopped. */
  lemma DumpSamplesUnlessUsedUp(s: State, k: nat, max: int)
    requires SamplingInv(s, max) && Enabled(s, Snapshot(k))
    ensures var p := s.slots[k].value;
            var taken := Numbers(s.snapshots, p);
            var u := Apply(s, Snapshot(k), max);
            if taken != [] || s.started < max then u.snapshots == s.snapshots + [(p, |taken|)] && u.stopper == s.stopper
            else u.snapshots == s.snapshots && u.stopper == Looking(p.context, 0)
  {
    UpToSize(s.sequence[s.slots[k].value]);
  }

  lemma {:induction false} UpToSize(n: nat)
    ensures |UpTo(n)| == n
  {
    if n > 0 {
      UpToSize(n - 1);
    }
  }

  /** How many dumps a run makes of profilers that have no snapshot yet. */
  ghost function FirstDumps(s: State, steps: seq<Step>, max: int): nat
    decreases |steps|
  {
    if steps == [] || !Enabled(s, steps[0]) then 0
    else
      (if steps[0].Snapshot? && Numbers(s.snapshots, s.slots[steps[0].slot].value) == [] then 1 else 0)
      + FirstDumps(Apply(s, steps[0], max), steps[1..], max)
  }

  lemma {:induction false} RunCountsFirstDumps(s: State, steps: seq<Step>, max: int, end: State)
    requires SamplingInv(s, max) && Leads(s, steps, max, end)
    ensures end.started == s.started + FirstDumps(s, steps, max)
    decreases |steps|
  {
    if steps != [] {
      StepKeepsSampling(s, steps[0], max);
      if steps[0].Snapshot? {
        UpToSize(s.sequence[s.slots[steps[0].slot].value]);
      }
      RunCountsFirstDumps(Apply(s, steps[0], max), steps[1..], max, end);
    }
  }

  /** Over the whole life of a task, as many profilers build snapshots as made a first dump, up to `max`
      of them, and each one's snapshots are numbered 0, 1, 2, ... without gaps. */
  lemma SamplingIsLimited(n: nat, steps: seq<Step>, max: int, end: State)
    requires Leads(Initial(n), steps, max, end)
    ensures end.started == FirstDumps(Initial(n), steps, max)
    ensures max >= 0 ==> |Sampled(end)| == if end.started <= max then end.started else max
    ensures max < 0 ==> Sampled(end) == {}
    ensures forall p :: p in end.sequence ==> Numbers(end.snapshots, p) == UpTo(end.sequence[p])
    ensures forall p :: Numbers(end.snapshots, p) != [] <==> p in Sampled(end)
  {
    assert Sampled(Initial(n)) == {};
    RunKeepsSampling(Initial(n), steps, max, end);
    RunCountsFirstDumps(Initial(n), steps, max, end);
    forall p | p in end.sequence
      ensures Numbers(end.snapshots, p) != [] <==> p in Sampled(end)
    {
      UpToSize(end.sequence[p]);
    }
  }

  // ----- whose profiler is where -----

  /** Profilers in slots or looked after by a scanning thread have been reserved for, and each is in only one
      slot or one thread's hands. */
  ghost predicate Distinct(s: State) {
    && (forall i :: 0 <= i < |s.slots| && s.slots[i].Some? ==> s.slots[i].value in s.sequence)
    && (forall t :: t in s.requests && s.requests[t].Scanning? ==> s.requests[t].profiler in s.sequence)
    && (forall i, j :: 0 <= i < j < |s.slots| && s.slots[i].Some? ==> s.slots[i] != s.slots[j])
    && (forall i, t :: 0 <= i < |s.slots| && t in s.requests && s.requests[t].Scanning? ==>
          s.slots[i] != Some(s.requests[t].profiler))
    && (forall t, u :: t in s.requests && u in s.requests && s.requests[t].Scanning? && s.requests[u].Scanning? && t != u ==>
          s.requests[t].profiler != s.requests[u].profiler)
  }

  lemma ReserveKeepsDistinct(s: State, t: ThreadId, p: Profiler, max: int)
    requires Distinct(s) && Enabled(s, Reserve(t, p))
    ensures Distinct(Apply(s, Reserve(t, p), max))
  {
  }

  lemma TryKeepsDistinct(s: State, t: ThreadId, max: int)
    requires Distinct(s) && Enabled(s, TrySlot(t))
    ensures Distinct(Apply(s, TrySlot(t), max))
  {
  }

  /** Fewer profilers in slots and no more scans. */
  lemma FewerStayDistinct(s: State, u: State)
    requires Distinct(s) && |u.slots| == |s.slots| && u.sequence.Keys == s.sequence.Keys
    requires forall i :: 0 <= i < |s.slots| ==> u.slots[i] == None || u.slots[i] == s.slots[i]
    requires forall t :: t in u.requests && u.requests[t].Scanning? ==> t in s.requests && u.requests[t] == s.requests[t]
    ensures Distinct(u)
  {
  }

  lemma StepKeepsDistinct(s: State, step: Step, max: int)
    requires Distinct(s) && Enabled(s, step)
    ensures Distinct(Apply(s, step, max))
  {
    match step
    case Reserve(t, p) => ReserveKeepsDistinct(s, t, p, max);
    case TrySlot(t) => TryKeepsDistinct(s, t, max);
    case _ => FewerStayDistinct(s, Apply(s, step, max));
  }

  lemma {:induction false} RunKeepsDistinct(s: State, steps: seq<Step>, max: int, end: State)
    requires Distinct(s) && Leads(s, steps, max, end)
    ensures Distinct(end)
    decreases |steps|
  {
    if steps != [] {
      StepKeepsDistinct(s, steps[0], max);
      RunKeepsDistinct(Apply(s, steps[0], max), steps[1..], max, end);
    }
  }

  /** However threads race, no profiler is in two slots, and none is in a slot while a thread still looks
      for one for it. */
  lemma NoProfilerIsPlacedTwice(n: nat, steps: seq<Step>, max: int, end: State)
    requires Leads(Initial(n), steps, max, end)
    ensures Distinct(end)
  {
    RunKeepsDistinct(Initial(n), steps, max, end);
  }

  // ----- one call at a time -----

  function FirstFree(slots: seq<Option<Profiler>>): (k: nat)
    ensures k <= |slots|
    ensures k < |slots| ==> slots[k] == None
    ensures forall i :: 0 <= i < k ==> slots[i].Some?
  {
    if slots == [] || slots[0] == None then 0 else
      var k := FirstFree(slots[1..]);
      assert forall i :: 1 <= i < k + 1 ==> slots[i] == slots[1..][i - 1];
      k + 1
  }

  function FirstOf(slots: seq<Option<Profiler>>, c: ContextId): (k: nat)
    ensures k <= |slots|
    ensures k < |slots| ==> slots[k].Some? && slots[k].value.context == c
    ensures forall i :: 0 <= i < k ==> !(slots[i].Some? && slots[i].value.context == c)
  {
    if slots == [] || (slots[0].Some? && slots[0].value.context == c) then 0 else
      var k := FirstOf(slots[1..], c);
      assert forall i :: 1 <= i < k + 1 ==> slots[i] == slots[1..][i - 1];
      k + 1
  }

  lemma {:induction false} AllTaken(slots: seq<Option<Profiler>>, i: nat)
    requires i <= |slots| && forall k :: i <= k < |slots| ==> slots[k].Some?
    ensures Taken(slots, i) == |slots| - i
    decreases |slots| - i
  {
    if i < |slots| {
      AllTaken(slots, i + 1);
    }
  }

  /** A reserved scan that nobody interrupts, from slot `requests[t].index` on. */
  function ScanSteps(s: State, t: ThreadId): seq<Step>
    requires t in s.requests && s.requests[t].Scanning?
  {
    var k := FirstFree(s.slots);
    if s.requests[t].index <= k then seq(k - s.requests[t].index + 1, _ => TrySlot(t)) else []
  }

  /** Left alone, a thread with a reservation puts its profiler into the first free slot. */
  lemma {:induction false} ScanFillsFirstFree(s: State, t: ThreadId, max: int)
    requires t in s.requests && s.requests[t].Scanning? && FirstFree(s.slots) < |s.slots|
    requires s.requests[t].index <= FirstFree(s.slots)
    ensures Leads(s, ScanSteps(s, t), max,
                  s.(slots := s.slots[FirstFree(s.slots) := Some(s.requests[t].profiler)], requests := s.requests[t := Idle]))
    decreases |s.slots| - s.requests[t].index
  {
    var i, k := s.requests[t].index, FirstFree(s.slots);
    var u := Apply(s, TrySlot(t), max);
    var steps := ScanSteps(s, t);
    assert steps[0] == TrySlot(t);
    if i < k {
      ScanFillsFirstFree(u, t, max);
      assert u.requests[t := Idle] == s.requests[t := Idle];
      assert steps[1..] == ScanSteps(u, t);
    } else {
      assert steps[1..] == [];
    }
  }

  /** Left alone while a slot is free, an attempt that asks for its profiler wins the counter and puts it
      into the first free slot. */
  lemma AttemptFillsFirstFree(s: State, t: ThreadId, p: Profiler, max: int)
    requires Inv(s) && t in s.requests && s.requests[t].Idle? && p !in s.sequence
    requires s.counter < |s.slots| && Scanners(s.requests, 0) == {} && !s.stopper.Cleared?
    ensures Enabled(s, ReadCounter(t)) && var seen := Apply(s, ReadCounter(t), max);
            Enabled(seen, Reserve(t, p)) && var won := Apply(seen, Reserve(t, p), max);
            var k := FirstFree(s.slots);
            && won.requests[t] == Scanning(p, 0) && k < |s.slots|
            && Leads(won, ScanSteps(won, t), max,
                     s.(counter := s.counter + 1, slots := s.slots[k := Some(p)], requests := s.requests[t := Idle],
                        sequence := s.sequence[p := 0]))
  {
    var won := Apply(Apply(s, ReadCounter(t), max), Reserve(t, p), max);
    assert s.counter == Taken(s.slots, 0);
    if FirstFree(s.slots) == |s.slots| {
      AllTaken(s.slots, 0);
    }
    ScanFillsFirstFree(won, t, max);
    assert won.requests[t := Idle] == s.requests[t := Idle];
  }

  /** The loop of `stop_tracing_profile`, uninterrupted, from the slot where the stopper is. */
  function StopSteps(s: State): seq<Step>
    requires s.stopper.Looking?
  {
    var k := FirstOf(s.slots, s.stopper.context);
    if s.stopper.index > k then []
    else seq(k - s.stopper.index + 1, _ => Look) + if k < |s.slots| then [Clear, Decrement] else []
  }

  /** Left alone, the stopper clears the first slot of the context it looks for and counts it off, or
      changes nothing when there is none. */
  lemma {:induction false} StopClearsFirst(s: State, max: int)
    requires s.stopper.Looking? && s.stopper.index <= FirstOf(s.slots, s.stopper.context)
    ensures var k := FirstOf(s.slots, s.stopper.context);
            Leads(s, StopSteps(s), max,
                  if k < |s.slots| then s.(slots := s.slots[k := None], counter := s.counter - 1, stopper := Watching)
                  else s.(stopper := Watching))
    decreases |s.slots| - s.stopper.index
  {
    var i, k := s.stopper.index, FirstOf(s.slots, s.stopper.context);
    var u := Apply(s, Look, max);
    var steps := StopSteps(s);
    assert steps[0] == Look;
    if i < k {
      StopClearsFirst(u, max);
      assert steps[1..] == StopSteps(u);
    } else if k < |s.slots| {
      assert steps[1..] == [Clear, Decrement];
      assert [Clear, Decrement][1..] == [Decrement];
      var v := Apply(u, Clear, max);
      assert Leads(Apply(v, Decrement, max), [], max, Apply(v, Decrement, max));
      assert Leads(v, [Decrement], max, Apply(v, Decrement, max));
    } else {
      assert steps[1..] == [];
    }
  }

  /** A failed dump of the profiler in slot `k`, and the stop that follows when nobody interferes: the first
      slot of its context is free again and counted off. */
  lemma FailedDumpStopsContext(s: State, k: nat, max: int)
    requires Enabled(s, DumpFails(k))
    ensures var u := Apply(s, DumpFails(k), max);
            var first := FirstOf(s.slots, s.slots[k].value.context);
            && u.stopper.Looking? && first <= k
            && Leads(u, StopSteps(u), max, s.(slots := s.slots[first := None], counter := s.counter - 1))
  {
    var u := Apply(s, DumpFails(k), max);
    StopClearsFirst(u, max);
    assert FirstOf(s.slots, s.slots[k].value.context) <= k;
  }

  /** `AtomicInteger` and `AtomicArray` as one call sees them. */
  class ExecutionContext {
    var counter: int
    var slots: array<Option<Profiler>>

    constructor (n: nat)
      ensures counter == 0 && fresh(slots) && slots[..] == seq(n, _ => None)
    {
      counter := 0;
      slots := new Option<Profiler>[n](_ => None);
    }

    method CompareAndSet(i: nat, expected: Option<Profiler>, update: Option<Profiler>) returns (ok: bool)
      requires i < slots.Length
      modifies slots
      ensures ok == (old(slots[i]) == expected)
      ensures slots[..] == if ok then old(slots[..])[i := update] else old(slots[..])
    {
      ok := slots[i] == expected;
      if ok {
        slots[i] := update;
      }
    }

    /** `attempt_profiling` without interference; `wanted` is the comparison of operation names. */
    method AttemptProfiling(p: Profiler, wanted: bool, total: int, max: int) returns (placed: bool)
      requires counter == Taken(slots[..], 0)
      modifies this`counter, slots
      ensures counter == Taken(slots[..], 0)
      ensures placed <==> wanted && total <= max && old(counter) < slots.Length
      ensures !placed ==> slots[..] == old(slots[..])
      ensures placed ==> var k := FirstFree(old(slots[..])); k < slots.Length && slots[..] == old(slots[..])[k := Some(p)]
    {
      if counter >= slots.Length || !wanted || total > max {
        return false;
      }
      counter := counter + 1;
      ghost var before := slots[..];
      var i := 0;
      while i < slots.Length
        invariant 0 <= i <= slots.Length && slots[..] == before && counter == old(counter) + 1
        invariant forall k :: 0 <= k < i ==> before[k].Some?
      {
        var ok := CompareAndSet(i, None, Some(p));
        if ok {
          assert FirstFree(before) == i;
          TakenUpdate(before, i, Some(p), 0);
          return true;
        }
        i := i + 1;
      }
      AllTaken(before, 0);
      assert false;
    }

    /** `stop_tracing_profile` without interference. */
    method StopTracing(c: ContextId)
      requires counter == Taken(slots[..], 0)
      modifies this`counter, slots
      ensures counter == Taken(slots[..], 0)
      ensures var k := FirstOf(old(slots[..]), c);
              slots[..] == if k < slots.Length then old(slots[..])[k := None] else old(slots[..])
    {
      ghost var before := slots[..];
      var i := 0;
      while i < slots.Length
        invariant 0 <= i <= slots.Length && slots[..] == before && counter == old(counter)
        invariant forall k :: 0 <= k < i ==> !(before[k].Some? && before[k].value.context == c)
      {
        if slots[i].Some? && slots[i].value.context == c {
          assert FirstOf(before, c) == i;
          TakenUpdate(before, i, None, 0);
          slots[i] := None;
          counter := counter - 1;
          return;
        }
        i := i + 1;
      }
    }
  }
}
