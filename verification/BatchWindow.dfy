/** How long the generators that feed a reporting call may keep waiting for the queue. Clock readings
    are real numbers, and the clock does not run backwards. */
module BatchWindow {
  import opened Text

  /** What the environment does around one `Queue.get`: the time that passes before the clock is read
      for it, and how long after that an item becomes available. */
  datatype Pull = Pull(pause: real, arrival: real)

  predicate Plausible(pulls: seq<Pull>) {
    forall i :: 0 <= i < |pulls| ==> pulls[i].pause >= 0.0 && pulls[i].arrival >= 0.0
  }

  /** A `Queue.get` called at `begin`, over at `end`. */
  datatype Get = Get(begin: real, timeout: real, end: real, got: bool)

  function Wait(now: real, timeout: real, arrival: real): (g: Get)
    requires timeout >= 0.0
    ensures g.got ==> g.end == now + arrival
    ensures g.end <= now + timeout
  {
    if arrival <= timeout then Get(now, timeout, now + arrival, true) else Get(now, timeout, now + timeout, false)
  }

  /** The items that a batch delivers are those that were got; only the last wait can be in vain. */
  predicate Served(gets: seq<Get>, taken: int) {
    && (taken == |gets| || taken == |gets| - 1)
    && forall i :: 0 <= i < |gets| ==> (gets[i].got <==> i < taken)
  }

  /** The clock at the end of the wait before the i-th. */
  function Clock(start: real, gets: seq<Get>, i: int): real
    requires 0 <= i <= |gets|
  {
    if i == 0 then start else gets[i - 1].end
  }

  /** The i-th wait starts where the one before ended, after the pause, and lasts for the item or for
      what is left until the deadline. */
  predicate GrpcRound(start: real, window: real, pulls: seq<Pull>, gets: seq<Get>, i: int) {
    && 0 <= i < |gets| && i < |pulls|
    && var now := Clock(start, gets, i) + pulls[i].pause;
       gets[i] == Wait(now, if start + window > now then start + window - now else 0.0, pulls[i].arrival)
  }

  /** The gRPC generator: an absolute deadline, and at least one attempt. Every wait is over by the
      deadline, except that a first attempt made too late returns at once; and the generator stops
      only at an empty queue or past the deadline. */
  method GrpcBatch(start: real, window: real, pulls: seq<Pull>) returns (taken: nat, gets: seq<Get>)
    requires window >= 0.0 && Plausible(pulls)
    ensures Served(gets, taken) && |gets| <= |pulls|
    ensures forall i :: 0 <= i < |gets| ==> GrpcRound(start, window, pulls, gets, i)
    ensures forall i :: 0 <= i < |gets| ==>
              gets[i].end <= start + window || (i == 0 && gets[0].begin > start + window && gets[0].end == gets[0].begin)
    ensures pulls != [] ==> gets != []
    ensures taken == |gets| < |pulls| ==> Clock(start, gets, taken) + pulls[taken].pause >= start + window
  {
    var deadline := start + window;
    var now := start;
    var first := true;
    taken, gets := 0, [];
    for k := 0 to |pulls|
      invariant taken == k == |gets| && (first <==> k == 0) && now == Clock(start, gets, k)
      invariant Served(gets, taken)
      invariant forall i :: 0 <= i < k ==> GrpcRound(start, window, pulls, gets, i)
      invariant forall i :: 0 <= i < k ==>
                  gets[i].end <= deadline || (i == 0 && gets[0].begin > deadline && gets[0].end == gets[0].begin)
    {
      now := now + pulls[k].pause;
      var remaining := deadline - now;
      if remaining <= 0.0 && !first {
        return;
      }
      first := false;
      var g := Wait(now, if remaining > 0.0 then remaining else 0.0, pulls[k].arrival);
      ghost var before := gets;
      gets := gets + [g];
      now := g.end;
      forall i | 0 <= i <= k ensures GrpcRound(start, window, pulls, gets, i) {
        assert i < k ==> GrpcRound(start, window, pulls, before, i);
        assert Clock(start, gets, i) == Clock(start, before, i);
      }
      if !g.got {
        return;
      }
      taken := taken + 1;
    }
  }

  /** One round of the HTTP generator: nothing once the window, less the whole seconds elapsed, is used
      up. The clock is first read when the first item is asked for. */
  function HttpGet(start: real, window: nat, now: real, first: bool, pull: Pull): (g: Option<Get>)
    ensures first ==> g.Some? && g.value.end <= start + window as real
    ensures g.Some? && start <= now && pull.pause >= 0.0 ==> g.value.end < start + window as real + 1.0
  {
    var at := if first then start else now + pull.pause;
    var timeout: int := if first then window else window - (at - start).Floor;
    if !first && timeout <= 0 then None else Some(Wait(at, timeout as real, pull.arrival))
  }

  predicate HttpRound(start: real, window: nat, pulls: seq<Pull>, gets: seq<Get>, i: int) {
    0 <= i < |gets| && i < |pulls|
    && HttpGet(start, window, Clock(start, gets, i), i == 0, pulls[i]) == Some(gets[i])
  }

  /** Each wait follows from the one before, and they stop at an empty queue or an exhausted window. */
  predicate HttpRounds(start: real, window: nat, pulls: seq<Pull>, gets: seq<Get>) {
    && |gets| <= |pulls|
    && (forall i :: 0 <= i < |gets| ==> HttpRound(start, window, pulls, gets, i))
    && (forall i :: 0 <= i < |gets| - 1 ==> gets[i].got)
    && (|gets| < |pulls| && (gets == [] || gets[|gets| - 1].got) ==>
          HttpGet(start, window, Clock(start, gets, |gets|), gets == [], pulls[|gets|]) == None)
  }

  /** The waits of the HTTP generator. Because the elapsed time is truncated to whole seconds, one may
      last longer than the window, but always less than one second longer. */
  method HttpBatch(start: real, window: nat, pulls: seq<Pull>) returns (taken: nat, gets: seq<Get>)
    requires Plausible(pulls)
    ensures Served(gets, taken) && HttpRounds(start, window, pulls, gets)
    ensures forall i :: 0 <= i < |gets| ==> gets[i].end < start + window as real + 1.0
    ensures pulls != [] ==> gets != [] && gets[0].begin == start && gets[0].timeout == window as real
    ensures taken == |gets| < |pulls| ==> Clock(start, gets, taken) + pulls[taken].pause >= start + window as real
  {
    var now := start;
    taken, gets := 0, [];
    for k := 0 to |pulls|
      invariant taken == k == |gets| && Served(gets, taken)
      invariant start <= now == Clock(start, gets, k)
      invariant k > 0 ==> gets[0].begin == start && gets[0].timeout == window as real
      invariant forall i :: 0 <= i < k ==> HttpRound(start, window, pulls, gets, i)
      invariant forall i :: 0 <= i < k ==> gets[i].end < start + window as real + 1.0
    {
      ghost var round := HttpGet(start, window, now, k == 0, pulls[k]);
      var timeout: int := window;
      if k > 0 {
        now := now + pulls[k].pause;
        timeout := timeout - (now - start).Floor;
        if timeout <= 0 {
          assert round == None;
          return;
        }
      }
      var g := Wait(now, timeout as real, pulls[k].arrival);
      assert round == Some(g);
      ghost var before := gets;
      gets := gets + [g];
      now := g.end;
      forall i | 0 <= i <= k ensures HttpRound(start, window, pulls, gets, i) {
        assert i < k ==> HttpRound(start, window, pulls, before, i);
        assert Clock(start, gets, i) == Clock(start, before, i);
      }
      if !g.got {
        return;
      }
      taken := taken + 1;
    }
  }

  /** The bound of the HTTP generator is the best possible: every shorter overrun is reached. */
  lemma HttpOverrunIsTight(start: real, window: nat, short: real)
    requires window > 0 && 0.0 < short <= 1.0
    ensures exists pulls, gets: seq<Get> ::
              && Plausible(pulls) && HttpRounds(start, window, pulls, gets)
              && |gets| == 2 && gets[1].end == start + window as real + 1.0 - short
  {
    var at := start + (1.0 - short);
    var pulls := [Pull(0.0, 0.0), Pull(1.0 - short, window as real + 1.0)];
    var gets := [Wait(start, window as real, 0.0), Wait(at, window as real, window as real + 1.0)];
    assert gets[0].end == start && (at - start).Floor == 0;
    assert HttpRound(start, window, pulls, gets, 0) && HttpRound(start, window, pulls, gets, 1);
    assert HttpRounds(start, window, pulls, gets);
  }

  const FLOOR := 10.0
  const MARGIN := 5.0

  /** The deadline of a reporting call. */
  function CallTimeout(window: real): real {
    if FLOOR >= window + MARGIN then FLOOR else window + MARGIN
  }

  /** A call outlives the window of its generator by the margin, and by more exactly when the window is
      below five seconds. */
  lemma CallOutlivesWindow(window: real)
    ensures CallTimeout(window) >= window + 5.0 && CallTimeout(window) >= 10.0
    ensures CallTimeout(window) == window + 5.0 || CallTimeout(window) == 10.0
    ensures CallTimeout(window) > window + 5.0 <==> window < 5.0
  {
  }
}
