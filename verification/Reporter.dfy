/** The reporter pipeline: a bounded queue, producers that archive into it, batches that are sent and
    succeed or fail, and a shutdown that abandons what is left while a flush may still be running. */
module Reporter {

  /** Archived items are told apart. */
  type Item = nat
  type WorkerId = nat

  /** A thread at work on items it holds. */
  datatype Worker =
    | Pulling(sent: seq<Item>, inHand: seq<Item>)       // a batch or the abandon loop; `inHand` is taken, not yet done
    | Dropping(items: seq<Item>)                         // about to report its items as dropped
    | Adding(items: seq<Item>, total: int)               // has read the drop total and will write it back

  function Items(w: Worker): seq<Item> {
    match w
    case Pulling(sent, inHand) => sent + inHand
    case Dropping(items) => items
    case Adding(items, _) => items
  }

  /** `unfinished` and `total` are the queue's count of open tasks and the process-wide drop total. */
  datatype State = State(
    capacity: int,
    queue: seq<Item>,
    unfinished: int,
    workers: map<WorkerId, Worker>,
    total: int,
    archived: set<Item>,
    delivered: set<Item>,
    dropped: set<Item>)

  datatype Step =
    | Archive(worker: WorkerId, item: Item)   // put without blocking; a full queue makes the caller report a drop
    | Open(worker: WorkerId)                  // a batch or an abandon loop begins
    | Take(worker: WorkerId)
    | MarkDone(worker: WorkerId)
    | Succeed(worker: WorkerId)
    | Fail(worker: WorkerId)                  // a failed call
    | Drained(worker: WorkerId)               // the abandon loop found the queue empty
    | ReadTotal(worker: WorkerId)
    | WriteTotal(worker: WorkerId)

  predicate Full(s: State) {
    s.capacity > 0 && |s.queue| >= s.capacity
  }

  predicate Enabled(s: State, step: Step) {
    match step
    case Archive(w, x) => w !in s.workers && x !in s.archived
    case Open(w) => w !in s.workers
    case Take(w) => w in s.workers && s.workers[w].Pulling? && s.workers[w].inHand == [] && s.queue != []
    case MarkDone(w) => w in s.workers && s.workers[w].Pulling? && s.workers[w].inHand != []
    case Succeed(w) => w in s.workers && s.workers[w].Pulling? && s.workers[w].inHand == []
    case Fail(w) => w in s.workers && s.workers[w].Pulling? && s.workers[w].inHand == []
    case Drained(w) => w in s.workers && s.workers[w].Pulling? && s.workers[w].inHand == [] && s.queue == []
    case ReadTotal(w) => w in s.workers && s.workers[w].Dropping?
    case WriteTotal(w) => w in s.workers && s.workers[w].Adding?
  }

  /** What a worker has sent or abandoned in vain is to be reported as dropped, if it is anything. */
  function Discard(s: State, w: WorkerId): State
    requires w in s.workers && s.workers[w].Pulling?
  {
    if s.workers[w].sent == [] then s.(workers := s.workers - {w})
    else s.(workers := s.workers[w := Dropping(s.workers[w].sent)])
  }

  function Apply(s: State, step: Step): State
    requires Enabled(s, step)
  {
    match step
    case Archive(w, x) =>
      var t := s.(archived := s.archived + {x});
      if Full(s) then t.(workers := s.workers[w := Dropping([x])])
      else t.(queue := s.queue + [x], unfinished := s.unfinished + 1)
    case Open(w) => s.(workers := s.workers[w := Pulling([], [])])
    case Take(w) => s.(queue := s.queue[1..], workers := s.workers[w := Pulling(s.workers[w].sent, [s.queue[0]])])
    case MarkDone(w) =>
      s.(unfinished := s.unfinished - 1, workers := s.workers[w := Pulling(Items(s.workers[w]), [])])
    case Succeed(w) => s.(delivered := s.delivered + Set(s.workers[w].sent), workers := s.workers - {w})
    case Fail(w) => Discard(s, w)
    case Drained(w) => Discard(s, w)
    case ReadTotal(w) => s.(workers := s.workers[w := Adding(s.workers[w].items, s.total)])
    case WriteTotal(w) =>
      s.(total := s.workers[w].total + |s.workers[w].items|,
         dropped := s.dropped + Set(s.workers[w].items),
         workers := s.workers - {w})
  }

  function Initial(capacity: int): State {
    State(capacity, [], 0, map[], 0, {}, {}, {})
  }

  ghost predicate Leads(s: State, steps: seq<Step>, end: State)
    decreases |steps|
  {
    if steps == [] then s == end
    else Enabled(s, steps[0]) && Leads(Apply(s, steps[0]), steps[1..], end)
  }

  // ----- sequences of distinct items -----

  function Set(xs: seq<Item>): (r: set<Item>)
    ensures forall x :: x in r <==> x in xs
  {
    set x | x in xs
  }

  ghost predicate NoDup(xs: seq<Item>) {
    forall i, j :: 0 <= i < j < |xs| ==> xs[i] != xs[j]
  }

  lemma {:induction false} SetSize(xs: seq<Item>)
    requires NoDup(xs)
    ensures |Set(xs)| == |xs|
  {
    if xs != [] {
      var last := xs[|xs| - 1];
      var front := xs[..|xs| - 1];
      SetSize(front);
      assert xs == front + [last];
      assert last !in front;
      assert Set(xs) == Set(front) + {last};
    }
  }

  // ----- every item is in exactly one place -----

  /** The workers with an item taken and not yet marked done. */
  ghost function Holding(s: State): set<WorkerId> {
    set w | w in s.workers && s.workers[w].Pulling? && s.workers[w].inHand != []
  }

  ghost predicate HeldBy(s: State, x: Item, w: WorkerId) {
    w in s.workers && x in Items(s.workers[w])
  }

  ghost predicate WorkersOk(s: State) {
    && (forall w :: w in s.workers ==> NoDup(Items(s.workers[w])))
    && (forall w :: w in s.workers && s.workers[w].Pulling? ==> |s.workers[w].inHand| <= 1)
    && (forall x, v, w :: HeldBy(s, x, v) && HeldBy(s, x, w) ==> v == w)
  }

  ghost predicate Apart(s: State) {
    && NoDup(s.queue)
    && (forall x :: x in s.queue ==> x in s.archived && x !in s.delivered && x !in s.dropped)
    && (forall x, w :: HeldBy(s, x, w) ==> x in s.archived && x !in s.queue && x !in s.delivered && x !in s.dropped)
    && (forall x :: x in s.delivered ==> x in s.archived && x !in s.dropped)
    && (forall x :: x in s.dropped ==> x in s.archived)
  }

  ghost predicate Accounted(s: State) {
    forall x :: x in s.archived ==> x in s.queue || (exists w :: HeldBy(s, x, w)) || x in s.delivered || x in s.dropped
  }

  ghost predicate Inv(s: State) {
    WorkersOk(s) && Apart(s) && Accounted(s) && s.unfinished == |s.queue| + |Holding(s)|
  }

  /** A worker's items change hands; everybody else keeps theirs. */
  lemma HeldAfter(s: State, t: State, w: WorkerId)
    requires forall v :: v != w ==> (v in t.workers <==> v in s.workers)
    requires forall v :: v != w && v in s.workers ==> t.workers[v] == s.workers[v]
    ensures forall x, v :: v != w ==> (HeldBy(t, x, v) <==> HeldBy(s, x, v))
  {
  }

  lemma HoldingAfter(s: State, t: State, w: WorkerId)
    requires forall v :: v != w ==> (v in t.workers <==> v in s.workers)
    requires forall v :: v != w && v in s.workers ==> t.workers[v] == s.workers[v]
    ensures |Holding(t)| == |Holding(s)| + (if w in Holding(t) then 1 else 0) - (if w in Holding(s) then 1 else 0)
  {
    if w in Holding(t) {
      assert Holding(t) == Holding(s) + {w};
    } else {
      assert Holding(t) == Holding(s) - {w};
    }
  }

  lemma ArchiveKeepsInv(s: State, w: WorkerId, x: Item)
    requires Inv(s) && Enabled(s, Archive(w, x))
    ensures Inv(Apply(s, Archive(w, x)))
  {
    var t := Apply(s, Archive(w, x));
    HeldAfter(s, t, w);
    HoldingAfter(s, t, w);
    forall y | y in t.archived
      ensures y in t.queue || (exists v :: HeldBy(t, y, v)) || y in t.delivered || y in t.dropped
    {
      if y == x {
        assert Full(s) ==> HeldBy(t, x, w);
      } else if v :| HeldBy(s, y, v) {
        assert HeldBy(t, y, v);
      }
    }
  }

  /** An item moves from the head of the queue into a worker's hands. */
  lemma TakeKeepsPlaces(s: State, t: State, w: WorkerId, x: Item)
    requires WorkersOk(s) && Apart(s) && w in s.workers && w in t.workers
    requires t.archived == s.archived && t.delivered == s.delivered && t.dropped == s.dropped
    requires s.queue == [x] + t.queue && Items(t.workers[w]) == Items(s.workers[w]) + [x]
    requires t.workers[w].Pulling? && |t.workers[w].inHand| <= 1
    requires forall v :: v != w ==> (v in t.workers <==> v in s.workers)
    requires forall v :: v != w && v in s.workers ==> t.workers[v] == s.workers[v]
    ensures WorkersOk(t) && Apart(t)
    ensures forall y, v :: HeldBy(t, y, v) <==> HeldBy(s, y, v) || (v == w && y == x)
  {
    HeldAfter(s, t, w);
    assert s.queue[0] == x && forall i :: 0 <= i < |t.queue| ==> s.queue[i + 1] == t.queue[i];
    assert x in s.queue && x !in t.queue;
    assert !HeldBy(s, x, w);
    assert forall y :: HeldBy(t, y, w) <==> HeldBy(s, y, w) || y == x;
  }

  lemma TakeKeepsInv(s: State, w: WorkerId)
    requires Inv(s) && Enabled(s, Take(w))
    ensures Inv(Apply(s, Take(w)))
  {
    var t := Apply(s, Take(w));
    var x := s.queue[0];
    HoldingAfter(s, t, w);
    assert s.queue == [x] + t.queue;
    assert Items(t.workers[w]) == Items(s.workers[w]) + [x];
    TakeKeepsPlaces(s, t, w, x);
    TakeAccounts(s, t, w, x);
  }

  lemma TakeAccounts(s: State, t: State, w: WorkerId, x: Item)
    requires Accounted(s) && t.archived == s.archived && t.delivered == s.delivered && t.dropped == s.dropped
    requires forall y :: y in s.queue <==> y == x || y in t.queue
    requires forall y, v :: HeldBy(t, y, v) <==> HeldBy(s, y, v) || (v == w && y == x)
    ensures Accounted(t)
  {
    forall y | y in t.archived
      ensures y in t.queue || (exists v :: HeldBy(t, y, v)) || y in t.delivered || y in t.dropped
    {
      if v :| HeldBy(s, y, v) {
        assert HeldBy(t, y, v);
      } else if y == x {
        assert HeldBy(t, y, w);
      }
    }
  }

  /** A worker that keeps its items keeps everything in place. */
  lemma SameItemsKeepsPlaces(s: State, t: State, w: WorkerId)
    requires WorkersOk(s) && Apart(s) && Accounted(s)
    requires t.queue == s.queue && t.archived == s.archived && t.delivered == s.delivered && t.dropped == s.dropped
    requires forall v :: v != w ==> (v in t.workers <==> v in s.workers)
    requires forall v :: v != w && v in s.workers ==> t.workers[v] == s.workers[v]
    requires w in t.workers && Items(t.workers[w]) == (if w in s.workers then Items(s.workers[w]) else [])
    requires t.workers[w].Pulling? ==> t.workers[w].inHand == []
    ensures WorkersOk(t) && Apart(t) && Accounted(t)
  {
    assert forall x, v :: HeldBy(t, x, v) <==> HeldBy(s, x, v);
  }

  /** A worker leaves, and its items are all delivered or all dropped. */
  lemma SettleKeepsPlaces(s: State, t: State, w: WorkerId)
    requires WorkersOk(s) && Apart(s) && Accounted(s) && w in s.workers
    requires t.queue == s.queue && t.archived == s.archived && t.workers == s.workers - {w}
    requires || (t.delivered == s.delivered + Set(Items(s.workers[w])) && t.dropped == s.dropped)
             || (t.dropped == s.dropped + Set(Items(s.workers[w])) && t.delivered == s.delivered)
    ensures WorkersOk(t) && Apart(t) && Accounted(t)
  {
    assert forall x, v :: HeldBy(t, x, v) <==> HeldBy(s, x, v) && v != w;
    forall x | x in Items(s.workers[w])
      ensures HeldBy(s, x, w)
    {
    }
    forall y | y in t.archived
      ensures y in t.queue || (exists v :: HeldBy(t, y, v)) || y in t.delivered || y in t.dropped
    {
      if v :| HeldBy(s, y, v) {
        assert v != w ==> HeldBy(t, y, v);
      }
    }
  }

  lemma DiscardKeepsPlaces(s: State, w: WorkerId)
    requires WorkersOk(s) && Apart(s) && Accounted(s) && w in s.workers && s.workers[w].Pulling? && s.workers[w].inHand == []
    ensures var t := Discard(s, w); WorkersOk(t) && Apart(t) && Accounted(t)
  {
    if s.workers[w].sent == [] {
      SettleKeepsPlaces(s, Discard(s, w), w);
    } else {
      SameItemsKeepsPlaces(s, Discard(s, w), w);
    }
  }

  lemma StepKeepsInv(s: State, step: Step)
    requires Inv(s) && Enabled(s, step)
    ensures Inv(Apply(s, step))
  {
    var t := Apply(s, step);
    var w := step.worker;
    HoldingAfter(s, t, w);
    match step
    case Archive(_, x) => ArchiveKeepsInv(s, w, x);
    case Take(_) => TakeKeepsInv(s, w);
    case Succeed(_) => SettleKeepsPlaces(s, t, w);
    case WriteTotal(_) => SettleKeepsPlaces(s, t, w);
    case Fail(_) => DiscardKeepsPlaces(s, w);
    case Drained(_) => DiscardKeepsPlaces(s, w);
    case _ => SameItemsKeepsPlaces(s, t, w);
  }

  lemma {:induction false} RunKeepsInv(s: State, steps: seq<Step>, end: State)
    requires Inv(s) && Leads(s, steps, end)
    ensures Inv(end)
    decreases |steps|
  {
    if steps != [] {
      StepKeepsInv(s, steps[0]);
      RunKeepsInv(Apply(s, steps[0]), steps[1..], end);
    }
  }

  lemma InitialInv(capacity: int)
    ensures Inv(Initial(capacity))
  {
    assert Holding(Initial(capacity)) == {};
  }

  /** With an empty queue and nobody at work everything has been settled. */
  lemma NothingIsLeft(s: State)
    requires Inv(s) && s.queue == [] && s.workers == map[]
    ensures s.unfinished == 0 && s.archived == s.delivered + s.dropped && s.delivered !! s.dropped
  {
    assert Holding(s) == {};
    assert forall x, v :: !HeldBy(s, x, v);
  }

  // ----- what becomes of an item -----

  /** The items of the batches whose call succeeded. */
  ghost function Confirmed(s: State, steps: seq<Step>): set<Item>
    decreases |steps|
  {
    if steps == [] || !Enabled(s, steps[0]) then {}
    else
      (if steps[0].Succeed? then Set(s.workers[steps[0].worker].sent) else {})
      + Confirmed(Apply(s, steps[0]), steps[1..])
  }

  /** The items that a step sees fail: the one that a full queue refuses, those of a batch whose call failed
      and those taken by the abandon loop. */
  ghost function RefusedAt(s: State, step: Step): set<Item>
    requires Enabled(s, step)
  {
    match step
    case Archive(_, x) => if s.capacity > 0 && |s.queue| >= s.capacity then {x} else {}
    case Fail(w) => Set(s.workers[w].sent)
    case Drained(w) => Set(s.workers[w].sent)
    case _ => {}
  }

  ghost function Refused(s: State, steps: seq<Step>): set<Item>
    decreases |steps|
  {
    if steps == [] || !Enabled(s, steps[0]) then {}
    else RefusedAt(s, steps[0]) + Refused(Apply(s, steps[0]), steps[1..])
  }

  /** The item is dropped, or in the hands of a thread that is about to report it as dropped. */
  ghost predicate Doomed(s: State, x: Item) {
    x in s.dropped || exists w :: HeldBy(s, x, w) && !s.workers[w].Pulling?
  }

  lemma StepDooms(s: State, step: Step, x: Item)
    requires Enabled(s, step)
    ensures Doomed(Apply(s, step), x) <==> Doomed(s, x) || x in RefusedAt(s, step)
  {
    var t, w := Apply(s, step), step.worker;
    HeldAfter(s, t, w);
    if v :| HeldBy(s, x, v) && !s.workers[v].Pulling? {
      assert v != w ==> HeldBy(t, x, v) && !t.workers[v].Pulling?;
      assert v == w && step.ReadTotal? ==> HeldBy(t, x, w) && !t.workers[w].Pulling?;
    }
    if x in RefusedAt(s, step) {
      assert HeldBy(t, x, w) && !t.workers[w].Pulling?;
    }
  }

  lemma {:induction false} RunDooms(s: State, steps: seq<Step>, end: State, x: Item)
    requires Leads(s, steps, end)
    ensures Doomed(end, x) <==> Doomed(s, x) || x in Refused(s, steps)
    decreases |steps|
  {
    if steps != [] {
      StepDooms(s, steps[0], x);
      RunDooms(Apply(s, steps[0]), steps[1..], end, x);
    }
  }

  lemma {:induction false} RunDelivers(s: State, steps: seq<Step>, end: State)
    requires Leads(s, steps, end)
    ensures end.delivered == s.delivered + Confirmed(s, steps)
    decreases |steps|
  {
    if steps != [] {
      RunDelivers(Apply(s, steps[0]), steps[1..], end);
    }
  }

  lemma DoomedIsNotDelivered(s: State, x: Item)
    requires Inv(s) && Doomed(s, x)
    ensures x !in s.delivered
  {
  }

  /** In every run, delivered are exactly the items of batches whose call succeeded. Exactly the items
      of failed batches, those abandoned and those that a full queue refused are dropped or about to be,
      by a thread that has yet to report them, and none of them is ever delivered. */
  lemma OutcomeDecidesFate(s: State, steps: seq<Step>, end: State)
    requires Inv(s) && Leads(s, steps, end)
    ensures end.delivered == s.delivered + Confirmed(s, steps)
    ensures forall x :: Doomed(end, x) <==> Doomed(s, x) || x in Refused(s, steps)
    ensures forall x :: x in Refused(s, steps) ==> x !in end.delivered
    ensures forall x :: x in Refused(s, steps) && (forall w :: !HeldBy(end, x, w)) ==> x in end.dropped
  {
    RunKeepsInv(s, steps, end);
    RunDelivers(s, steps, end);
    forall x
      ensures Doomed(end, x) <==> Doomed(s, x) || x in Refused(s, steps)
      ensures x in Refused(s, steps) ==> x !in end.delivered
    {
      RunDooms(s, steps, end, x);
      if x in Refused(s, steps) {
        DoomedIsNotDelivered(end, x);
      }
    }
  }

  /** Over a run in two parts after which nobody is at work. */
  lemma FatesInTheEnd(first: State, before: seq<Step>, s: State, steps: seq<Step>, end: State)
    requires first.delivered == {} && first.dropped == {} && first.workers == map[]
    requires Leads(first, before, s) && Leads(s, steps, end) && end.workers == map[]
    ensures end.delivered == Confirmed(first, before) + Confirmed(s, steps)
    ensures end.dropped == Refused(first, before) + Refused(s, steps)
  {
    RunDelivers(first, before, s);
    RunDelivers(s, steps, end);
    forall x
      ensures x in end.dropped <==> x in Refused(first, before) || x in Refused(s, steps)
    {
      RunDooms(first, before, s, x);
      RunDooms(s, steps, end, x);
    }
  }

  /** However archiving, sending, failing and abandoning interleave: each archived item is in exactly one of
      the queue, one worker's hands, the delivered and the dropped; delivered are the items of successful
      batches, dropped or about to be those of failed ones, the abandoned and the refused; the queue's
      open tasks are the queued items and those taken but not marked done; so waiting for the queue ends
      exactly when it is empty and nobody holds an unmarked item. */
  lemma NoItemIsLostOrDuplicated(capacity: int, steps: seq<Step>, end: State)
    requires Leads(Initial(capacity), steps, end)
    ensures forall x :: x in end.archived <==>
              x in end.queue || (exists w :: HeldBy(end, x, w)) || x in end.delivered || x in end.dropped
    ensures NoDup(end.queue) && forall w :: w in end.workers ==> NoDup(Items(end.workers[w]))
    ensures forall x, v, w :: HeldBy(end, x, v) && HeldBy(end, x, w) ==> v == w
    ensures forall x, w :: HeldBy(end, x, w) ==> x !in end.queue && x !in end.delivered && x !in end.dropped
    ensures forall x :: x in end.queue ==> x !in end.delivered && x !in end.dropped
    ensures end.delivered !! end.dropped
    ensures end.delivered == Confirmed(Initial(capacity), steps)
    ensures forall x :: x in Refused(Initial(capacity), steps) <==> Doomed(end, x)
    ensures end.unfinished == |end.queue| + |Holding(end)|
    ensures end.unfinished == 0 <==> end.queue == [] && Holding(end) == {}
  {
    InitialInv(capacity);
    RunKeepsInv(Initial(capacity), steps, end);
    OutcomeDecidesFate(Initial(capacity), steps, end);
    assert forall x :: !Doomed(Initial(capacity), x);
  }

  /** The items that the run's takes put into a thread's hands, in order. */
  ghost function Taken(s: State, steps: seq<Step>): seq<Item>
    decreases |steps|
  {
    if steps == [] || !Enabled(s, steps[0]) then []
    else
      var t := Apply(s, steps[0]);
      (if steps[0].Take? && steps[0].worker in t.workers && t.workers[steps[0].worker].Pulling?
       then t.workers[steps[0].worker].inHand else [])
      + Taken(t, steps[1..])
  }

  /** The items archived while the queue had room, in order. */
  ghost function Accepted(s: State, steps: seq<Step>): seq<Item>
    decreases |steps|
  {
    if steps == [] || !Enabled(s, steps[0]) then []
    else
      (if steps[0].Archive? && RefusedAt(s, steps[0]) == {} then [steps[0].item] else [])
      + Accepted(Apply(s, steps[0]), steps[1..])
  }

  /** However threads interleave, items leave the queue in the order in which they were archived. */
  lemma {:induction false} QueueIsFirstInFirstOut(s: State, steps: seq<Step>, end: State)
    requires Leads(s, steps, end)
    ensures Taken(s, steps) + end.queue == s.queue + Accepted(s, steps)
    decreases |steps|
  {
    if steps != [] {
      var step, t := steps[0], Apply(s, steps[0]);
      var taken, accepted := Taken(t, steps[1..]), Accepted(t, steps[1..]);
      QueueIsFirstInFirstOut(t, steps[1..], end);
      if step.Take? {
        assert s.queue == [s.queue[0]] + t.queue;
        assert Accepted(s, steps) == accepted;
        TakenFirst(s.queue[0], s.queue, t.queue, taken, end.queue, accepted);
      } else if step.Archive? && RefusedAt(s, step) == {} {
        assert Taken(s, steps) == taken;
        AcceptedLast(step.item, s.queue, t.queue, taken, end.queue, accepted);
      } else {
        assert Taken(s, steps) == taken && Accepted(s, steps) == accepted;
      }
    }
  }

  lemma TakenFirst(x: Item, q: seq<Item>, rest: seq<Item>, taken: seq<Item>, left: seq<Item>, accepted: seq<Item>)
    requires q == [x] + rest && taken + left == rest + accepted
    ensures [x] + taken + left == q + accepted
  {
    assert [x] + taken + left == [x] + (taken + left);
  }

  lemma AcceptedLast(x: Item, q: seq<Item>, more: seq<Item>, taken: seq<Item>, left: seq<Item>, accepted: seq<Item>)
    requires more == q + [x] && taken + left == more + accepted
    ensures taken + left == q + ([x] + accepted)
  {
  }

  // ----- shutdown -----

  /** No producer archives any more. */
  predicate NoProducers(steps: seq<Step>) {
    forall i :: 0 <= i < |steps| ==> !steps[i].Archive?
  }

  /** How many of the steps are a worker's own. */
  function StepsOf(steps: seq<Step>, w: WorkerId): nat {
    if steps == [] then 0 else (if steps[0].worker == w then 1 else 0) + StepsOf(steps[1..], w)
  }

  function TakesOf(steps: seq<Step>, w: WorkerId): nat {
    if steps == [] then 0 else (if steps[0] == Take(w) then 1 else 0) + TakesOf(steps[1..], w)
  }

  function Takes(steps: seq<Step>): nat {
    if steps == [] then 0 else (if steps[0].Take? then 1 else 0) + Takes(steps[1..])
  }

  /** Without producers every item taken is one fewer to take, whoever takes it. */
  lemma {:induction false} TakesShrinkQueue(s: State, steps: seq<Step>, end: State)
    requires Leads(s, steps, end) && NoProducers(steps)
    ensures Takes(steps) + |end.queue| == |s.queue|
    decreases |steps|
  {
    if steps != [] {
      assert !steps[0].Archive?;
      assert forall i :: 0 <= i < |steps[1..]| ==> steps[1..][i] == steps[i + 1];
      TakesShrinkQueue(Apply(s, steps[0]), steps[1..], end);
    }
  }

  lemma {:induction false} TakesOfOne(steps: seq<Step>, w: WorkerId)
    ensures TakesOf(steps, w) <= Takes(steps)
  {
    if steps != [] {
      TakesOfOne(steps[1..], w);
    }
  }

  /** The steps a worker can still make if it takes nothing more. */
  function Rest(s: State, w: WorkerId): nat {
    if w !in s.workers then 0
    else match s.workers[w]
      case Pulling(_, inHand) => if inHand == [] then 3 else 4
      case Dropping(_) => 2
      case Adding(_, _) => 1
  }

  /** A worker that begins nothing new makes one step for each item taken, one to mark it done, and
      at most three more. */
  lemma {:induction false} WorkersStop(s: State, steps: seq<Step>, end: State, w: WorkerId)
    requires Leads(s, steps, end) && NoProducers(steps) && Open(w) !in steps
    ensures StepsOf(steps, w) + Rest(end, w) <= Rest(s, w) + 2 * TakesOf(steps, w)
    decreases |steps|
  {
    if steps != [] {
      assert !steps[0].Archive? && steps[0] in steps;
      assert forall i :: 0 <= i < |steps[1..]| ==> steps[1..][i] == steps[i + 1];
      WorkersStop(Apply(s, steps[0]), steps[1..], end, w);
    }
  }

  /** Without producers, every worker that begins nothing new has left after a number of its own steps
      that the queue bounds, however the others interleave; and until then a step of its own is enabled. */
  lemma NobodyWorksForever(s: State, steps: seq<Step>, end: State, w: WorkerId)
    requires Leads(s, steps, end) && NoProducers(steps) && Open(w) !in steps
    ensures StepsOf(steps, w) <= 4 + 2 * |s.queue|
    ensures w in end.workers ==>
              || Enabled(end, MarkDone(w)) || Enabled(end, Succeed(w)) || Enabled(end, ReadTotal(w))
              || Enabled(end, WriteTotal(w))
  {
    WorkersStop(s, steps, end, w);
    TakesOfOne(steps, w);
    TakesShrinkQueue(s, steps, end);
  }

  lemma {:induction false} EmptyQueueStaysEmpty(s: State, steps: seq<Step>, end: State)
    requires Leads(s, steps, end) && s.queue == [] && NoProducers(steps)
    ensures end.queue == []
    decreases |steps|
  {
    if steps != [] {
      assert !steps[0].Archive?;
      assert forall i :: 0 <= i < |steps[1..]| ==> steps[1..][i] == steps[i + 1];
      EmptyQueueStaysEmpty(Apply(s, steps[0]), steps[1..], end);
    }
  }

  /** The worker runs the abandon loop: it takes and marks until it finds the queue empty. */
  predicate Abandons(steps: seq<Step>, w: WorkerId) {
    forall i :: 0 <= i < |steps| && steps[i].worker == w ==> !steps[i].Succeed? && !steps[i].Fail? && !steps[i].Open?
  }

  /** While the abandon loop runs it can go on, whatever a flush takes away from it; it makes at most two
      steps for each item queued when it began and one more; and when it has ended the queue is empty
      for good. */
  lemma {:induction false} AbandonLoopEnds(s: State, steps: seq<Step>, end: State, w: WorkerId)
    requires Leads(s, steps, end) && NoProducers(steps) && Abandons(steps, w)
    requires w in s.workers && s.workers[w].Pulling?
    ensures w in end.workers && end.workers[w].Pulling? ==>
              Enabled(end, Take(w)) || Enabled(end, MarkDone(w)) || Enabled(end, Drained(w))
    ensures w in end.workers && end.workers[w].Pulling? ==> StepsOf(steps, w) <= 1 + 2 * |s.queue|
    ensures !(w in end.workers && end.workers[w].Pulling?) ==> end.queue == [] && Drained(w) in steps
    decreases |steps|
  {
    if steps != [] {
      var next := Apply(s, steps[0]);
      assert !steps[0].Archive?;
      assert forall i :: 0 <= i < |steps[1..]| ==> steps[1..][i] == steps[i + 1];
      if w in next.workers && next.workers[w].Pulling? {
        AbandonLoopEnds(next, steps[1..], end, w);
        if w in end.workers && end.workers[w].Pulling? {
          AbandonSteps(s, steps, end, w);
        }
      } else {
        assert steps[0] == Drained(w);
        EmptyQueueStaysEmpty(next, steps[1..], end);
        WorkerStaysAway(next, steps[1..], end, w);
      }
    }
  }

  lemma AbandonSteps(s: State, steps: seq<Step>, end: State, w: WorkerId)
    requires Leads(s, steps, end) && NoProducers(steps) && Abandons(steps, w)
    requires w in s.workers && s.workers[w].Pulling? && w in end.workers && end.workers[w].Pulling?
    ensures StepsOf(steps, w) <= 1 + 2 * |s.queue|
  {
    assert forall i :: 0 <= i < |steps| && steps[i] == Open(w) ==> steps[i].worker == w;
    WorkersStop(s, steps, end, w);
    TakesOfOne(steps, w);
    TakesShrinkQueue(s, steps, end);
  }

  /** A worker that has stopped pulling does not begin again. */
  lemma {:induction false} WorkerStaysAway(s: State, steps: seq<Step>, end: State, w: WorkerId)
    requires Leads(s, steps, end) && NoProducers(steps) && Abandons(steps, w)
    requires !(w in s.workers && s.workers[w].Pulling?)
    ensures !(w in end.workers && end.workers[w].Pulling?)
    decreases |steps|
  {
    if steps != [] {
      assert !steps[0].Archive?;
      assert steps[0].worker == w ==> !steps[0].Open?;
      assert forall i :: 0 <= i < |steps[1..]| ==> steps[1..][i] == steps[i + 1];
      WorkerStaysAway(Apply(s, steps[0]), steps[1..], end, w);
    }
  }

  /** Shutdown: after any run, producers stop and one worker abandons the queue while others may still
      send. Once all have left, and `NobodyWorksForever` says they do, the queue is empty, joining it
      ends, and every item ever archived has been delivered or dropped, not both. */
  lemma ShutdownSettlesEverything(capacity: int, before: seq<Step>, s: State, steps: seq<Step>, end: State, w: WorkerId)
    requires Leads(Initial(capacity), before, s) && Leads(s, steps, end)
    requires NoProducers(steps) && Abandons(steps, w) && w in s.workers && s.workers[w].Pulling?
    requires end.workers == map[]
    ensures end.queue == [] && end.unfinished == 0
    ensures end.archived == end.delivered + end.dropped && end.delivered !! end.dropped
    ensures end.delivered == Confirmed(Initial(capacity), before) + Confirmed(s, steps)
    ensures end.dropped == Refused(Initial(capacity), before) + Refused(s, steps)
  {
    InitialInv(capacity);
    RunKeepsInv(Initial(capacity), before, s);
    RunKeepsInv(s, steps, end);
    AbandonLoopEnds(s, steps, end, w);
    NothingIsLeft(end);
    FatesInTheEnd(Initial(capacity), before, s, steps, end);
  }

  // ----- the drop total -----

  ghost predicate TotalBounded(s: State) {
    && s.total <= |s.dropped|
    && forall w :: w in s.workers && s.workers[w].Adding? ==> s.workers[w].total <= |s.dropped|
  }

  lemma StepKeepsTotalBounded(s: State, step: Step)
    requires Inv(s) && TotalBounded(s) && Enabled(s, step)
    ensures TotalBounded(Apply(s, step)) && |s.dropped| <= |Apply(s, step).dropped|
  {
    if step.WriteTotal? {
      DroppedGrows(s, step.worker);
    }
  }

  lemma DroppedGrows(s: State, w: WorkerId)
    requires Inv(s) && Enabled(s, WriteTotal(w))
    ensures |Apply(s, WriteTotal(w)).dropped| == |s.dropped| + |s.workers[w].items|
  {
    var items := s.workers[w].items;
    SetSize(items);
    forall x | x in Set(items)
      ensures x !in s.dropped
    {
      assert HeldBy(s, x, w);
    }
    assert s.dropped !! Set(items);
  }

  /** Writing the total back keeps it exact exactly when no other thread has written since it was read. */
  lemma TotalExactUnlessOverwritten(s: State, w: WorkerId)
    requires Inv(s) && s.total == |s.dropped| && Enabled(s, WriteTotal(w))
    ensures var t := Apply(s, WriteTotal(w)); t.total == |t.dropped| <==> s.workers[w].total == s.total
  {
    DroppedGrows(s, w);
  }

  /** Every write back follows its own read with no other write in between. */
  ghost predicate UndisturbedLeads(s: State, steps: seq<Step>, end: State)
    decreases |steps|
  {
    if steps == [] then s == end
    else
      && Enabled(s, steps[0])
      && (steps[0].WriteTotal? ==> s.workers[steps[0].worker].total == s.total)
      && UndisturbedLeads(Apply(s, steps[0]), steps[1..], end)
  }

  lemma {:induction false} UndisturbedTotalIsExact(s: State, steps: seq<Step>, end: State)
    requires Inv(s) && s.total == |s.dropped| && UndisturbedLeads(s, steps, end)
    ensures end.total == |end.dropped|
    decreases |steps|
  {
    if steps != [] {
      StepKeepsInv(s, steps[0]);
      if steps[0].WriteTotal? {
        TotalExactUnlessOverwritten(s, steps[0].worker);
      }
      UndisturbedTotalIsExact(Apply(s, steps[0]), steps[1..], end);
    }
  }

  /** In any run the total never counts more than was dropped. */
  lemma {:induction false} TotalNeverOvercounts(s: State, steps: seq<Step>, end: State)
    requires Inv(s) && TotalBounded(s) && Leads(s, steps, end)
    ensures end.total <= |end.dropped|
    decreases |steps|
  {
    if steps != [] {
      StepKeepsInv(s, steps[0]);
      StepKeepsTotalBounded(s, steps[0]);
      TotalNeverOvercounts(Apply(s, steps[0]), steps[1..], end);
    }
  }

  /** Two threads that read the total before either writes it: the first one's items are dropped and
      not counted. */
  lemma OverlappingReportsLoseACount(s: State, v: WorkerId, w: WorkerId)
    requires Inv(s) && v != w && v in s.workers && w in s.workers && s.workers[v].Dropping? && s.workers[w].Dropping?
    ensures Enabled(s, ReadTotal(v)) && var a := Apply(s, ReadTotal(v));
            Enabled(a, ReadTotal(w)) && var b := Apply(a, ReadTotal(w));
            Enabled(b, WriteTotal(v)) && var c := Apply(b, WriteTotal(v));
            Enabled(c, WriteTotal(w)) && var d := Apply(c, WriteTotal(w));
            && |d.dropped| == |s.dropped| + |s.workers[v].items| + |s.workers[w].items|
            && d.total == s.total + |s.workers[w].items|
  {
    var a := Apply(s, ReadTotal(v));
    StepKeepsInv(s, ReadTotal(v));
    var b := Apply(a, ReadTotal(w));
    StepKeepsInv(a, ReadTotal(w));
    DroppedGrows(b, v);
    var c := Apply(b, WriteTotal(v));
    StepKeepsInv(b, WriteTotal(v));
    DroppedGrows(c, w);
  }

  // ----- one thread at a time -----

  /** `queue.Queue` as the helpers use it. */
  class SyncQueue {
    const capacity: int
    var items: seq<Item>
    var unfinished: int

    constructor (capacity: int)
      ensures this.capacity == capacity && items == [] && unfinished == 0
    {
      this.capacity := capacity;
      items := [];
      unfinished := 0;
    }

    method PutNowait(x: Item) returns (full: bool)
      modifies this
      ensures full <==> capacity > 0 && |old(items)| >= capacity
      ensures items == if full then old(items) else old(items) + [x]
      ensures unfinished == if full then old(unfinished) else old(unfinished) + 1
    {
      full := capacity > 0 && |items| >= capacity;
      if !full {
        items := items + [x];
        unfinished := unfinished + 1;
      }
    }

    method GetNowait() returns (empty: bool, x: Item)
      modifies this`items
      ensures empty <==> old(items) == []
      ensures !empty ==> x == old(items)[0] && items == old(items)[1..]
      ensures empty ==> items == []
    {
      empty, x := items == [], 0;
      if !empty {
        x := items[0];
        items := items[1..];
      }
    }

    method TaskDone()
      requires unfinished > 0
      modifies this`unfinished
      ensures unfinished == old(unfinished) - 1
    {
      unfinished := unfinished - 1;
    }

    /** `_abandon_sync_queue`: drops every item and balances the count, so that joining can end. */
    method Abandon() returns (abandoned: nat)
      requires unfinished >= |items|
      modifies this
      ensures items == [] && abandoned == |old(items)| && unfinished == old(unfinished) - abandoned
    {
      abandoned := 0;
      while true
        invariant abandoned + |items| == |old(items)|
        invariant unfinished == old(unfinished) - abandoned
        decreases |items|
      {
        var empty, x := GetNowait();
        if empty {
          break;
        }
        TaskDone();
        abandoned := abandoned + 1;
      }
    }
  }

  /** A line of the drop log: what was dropped since the last line, and in all. */
  datatype Line = Line(kind: string, delta: int, total: int)

  function Logged(lines: seq<Line>, kind: string): int {
    if lines == [] then 0
    else
      var last := lines[|lines| - 1];
      Logged(lines[..|lines| - 1], kind) + if last.kind == kind then last.delta else 0
  }

  lemma LoggedAppend(lines: seq<Line>, line: Line, kind: string)
    ensures Logged(lines + [line], kind) == Logged(lines, kind) + if line.kind == kind then line.delta else 0
  {
    assert (lines + [line])[..|lines + [line]| - 1] == lines;
  }

  function Get(m: map<string, int>, kind: string): int {
    if kind in m then m[kind] else 0
  }

  /** When the last line of a kind was written; the clock's zero if there is none. */
  function Since(m: map<string, real>, kind: string): real {
    if kind in m then m[kind] else 0.0
  }

  const INTERVAL := 30.0

  /** The lines of a kind add up to what has been logged of it, never more than was dropped. */
  ghost predicate Balanced(lines: seq<Line>, logged: map<string, int>, totals: map<string, int>, kind: string) {
    Logged(lines, kind) == Get(logged, kind) && 0 <= Get(logged, kind) <= Get(totals, kind)
  }

  lemma CountKeepsBalance(lines: seq<Line>, logged: map<string, int>, totals: map<string, int>, kind: string, count: nat,
                          k: string)
    requires Balanced(lines, logged, totals, k)
    ensures var after := totals[kind := Get(totals, kind) + count];
            && Balanced(lines, logged, after, k)
            && Get(after, k) == Get(totals, k) + if k == kind then count else 0
  {
  }

  lemma LineKeepsBalance(lines: seq<Line>, logged: map<string, int>, totals: map<string, int>, kind: string, k: string)
    requires Balanced(lines, logged, totals, k) && Get(totals, kind) >= 0
    ensures var total := Get(totals, kind);
            var written := lines + [Line(kind, total - Get(logged, kind), total)];
            && Balanced(written, logged[kind := total], totals, k)
            && (k == kind ==> Logged(written, kind) == total)
  {
    var total := Get(totals, kind);
    LoggedAppend(lines, Line(kind, total - Get(logged, kind), total), k);
  }

  /** The tables behind `log_dropped_throttled`. */
  class DropLog {
    var totals: map<string, int>
    var logged: map<string, int>
    var lastAt: map<string, real>
    var lines: seq<Line>

    ghost predicate Valid()
      reads this
    {
      forall kind :: Balanced(lines, logged, totals, kind)
    }

    constructor ()
      ensures Valid() && totals == map[] && lines == []
    {
      totals, logged, lastAt, lines := map[], map[], map[], [];
    }

    method LogDropped(kind: string, count: int, force: bool, now: real)
      requires Valid()
      modifies this
      ensures Valid()
      ensures forall k :: Get(totals, k) == Get(old(totals), k) + if k == kind && count > 0 then count else 0
      ensures count > 0 && force ==> Logged(lines, kind) == Get(totals, kind)
      ensures count > 0 && (force || now - Since(old(lastAt), kind) >= 30.0) ==>
                && lines == old(lines) + [Line(kind, Get(totals, kind) - Get(old(logged), kind), Get(totals, kind))]
                && lastAt == old(lastAt)[kind := now]
      ensures !(count > 0 && (force || now - Since(old(lastAt), kind) >= 30.0)) ==>
                lines == old(lines) && lastAt == old(lastAt)
    {
      if count <= 0 {
        return;
      }
      ghost var was := totals;
      var total := Get(totals, kind) + count;
      totals := totals[kind := total];
      forall k
        ensures Balanced(lines, logged, totals, k)
        ensures Get(totals, k) == Get(was, k) + if k == kind then count else 0
      {
        CountKeepsBalance(lines, logged, was, kind, count, k);
      }
      if !force && now - Since(lastAt, kind) < INTERVAL {
        return;
      }
      assert Balanced(lines, logged, totals, kind);
      Write(kind, now);
    }

    /** Writes a line of what was dropped since the last one. */
    method Write(kind: string, now: real)
      requires Valid() && Get(totals, kind) >= 0
      modifies this`logged, this`lastAt, this`lines
      ensures Valid() && Logged(lines, kind) == Get(totals, kind)
      ensures lines == old(lines) + [Line(kind, Get(totals, kind) - Get(old(logged), kind), Get(totals, kind))]
      ensures lastAt == old(lastAt)[kind := now]
    {
      var total := Get(totals, kind);
      var line := Line(kind, total - Get(logged, kind), total);
      ghost var written, after := lines + [line], logged[kind := total];
      forall k
        ensures Balanced(written, after, totals, k)
      {
        LineKeepsBalance(lines, logged, totals, kind, k);
      }
      LineKeepsBalance(lines, logged, totals, kind, kind);
      lines := lines + [line];
      logged := logged[kind := total];
      lastAt := lastAt[kind := now];
    }
  }
}
