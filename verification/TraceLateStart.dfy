/** Creating and starting a span as two steps, with anything in between. A segment is then handed over at
    most once exactly as long as no span is started in a segment that has been handed over. */
module TraceLateStart {
  import opened Text
  import opened Base64
  import opened Carrier
  import opened TraceEngine
  import opened TraceInvariant
  import opened TraceRuns
  import opened TraceLineage
  import opened TraceFrames

  datatype Act =
    | Make(task: TaskId, request: Request, span: SpanId, context: ContextId) // get_context and new_*_span
    | Launch(task: TaskId, span: SpanId)                                     // start
    | Other(step: Step)                                                       // any other step of the engine

  predicate Can(w: World, a: Act) {
    match a
    case Make(t, r, s, c) => TaskKnown(w, t) && s !in w.spans && c !in w.contexts && Create(w, t, r, s, c).Created?
    case Launch(t, s) => t in w.stacks && SpanKnown(w, s)
    case Other(step) => !step.Enter? && Enabled(w, step)
  }

  function Done(w: World, a: Act): World
    requires Can(w, a)
  {
    match a
    case Make(t, r, s, c) => Create(w, t, r, s, c).world
    case Launch(t, s) => Start(w, t, s)
    case Other(step) => Apply(w, step)
  }

  ghost predicate Homed(w: World) {
    forall s :: s in w.spans ==> w.spans[s].context in w.contexts && w.spans[s].depth >= 0
  }

  ghost predicate CountsRight(w: World) {
    forall c :: c in w.contexts ==> w.contexts[c].nspans == |Live(w, c)|
  }

  ghost predicate AllOver(w: World) {
    forall i :: 0 <= i < |w.archived| ==> Over(w, w.archived[i].context)
  }

  ghost predicate Once(w: World) {
    forall i, j :: 0 <= i < j < |w.archived| ==> w.archived[i].context != w.archived[j].context
  }

  /** The live counts are right, and what has been handed over is over: traced, without an open span, and
      handed over once. */
  ghost predicate Settled(w: World) {
    Homed(w) && CountsRight(w) && AllOver(w) && Once(w)
  }

  ghost predicate Over(w: World, c: ContextId) {
    c in w.contexts && !w.contexts[c].noop && w.contexts[c].nspans == 0
  }

  // ----- creating -----

  /** Counts, suppression and finished spans stay, and a new context has no open or finished span. */
  ghost predicate KeepsCounts(w: World, v: World) {
    && (forall c :: c in w.contexts ==>
          && c in v.contexts && v.contexts[c].nspans == w.contexts[c].nspans && v.contexts[c].noop == w.contexts[c].noop
          && v.contexts[c].segment.spans == w.contexts[c].segment.spans)
    && (forall c :: c in v.contexts && c !in w.contexts ==> v.contexts[c].nspans == 0 && v.contexts[c].segment.spans == [])
  }

  /** Depths and homes stay, and a new span is not open. */
  ghost predicate KeepsDepths(w: World, v: World) {
    && (forall s :: s in w.spans ==> s in v.spans && v.spans[s].depth == w.spans[s].depth
                                     && v.spans[s].context == w.spans[s].context)
    && (forall s :: s in v.spans && s !in w.spans ==> v.spans[s].depth == 0 && v.spans[s].context in v.contexts)
  }

  lemma ExtractCounts(w: World, s: SpanId, f: Fields, fallback: Bytes)
    requires SpanKnown(w, s)
    ensures var v := Extract(w, s, f, fallback);
            KeepsCounts(w, v) && KeepsDepths(w, v) && v.contexts.Keys == w.contexts.Keys && v.spans.Keys == w.spans.Keys
  {
  }

  lemma FinishCounts(w: World, s: SpanId, r: Request)
    requires SpanKnown(w, s)
    ensures var v := Finish(w, s, r);
            KeepsCounts(w, v) && KeepsDepths(w, v) && v.contexts.Keys == w.contexts.Keys && v.spans.Keys == w.spans.Keys
  {
    if BringsCarrier(r) {
      ExtractCounts(w, s, r.carrier.value.fields, r.traceId);
    }
  }

  lemma AddSpanCounts(w: World, parent: Option<SpanId>, r: Request, s: SpanId, c: ContextId)
    requires (parent.Some? ==> SpanKnown(w, parent.value)) && s !in w.spans && c !in w.contexts
    ensures KeepsCounts(w, AddSpan(w, parent, r, s, c)) && KeepsDepths(w, AddSpan(w, parent, r, s, c))
  {
  }

  lemma CountsTwice(u: World, v: World, w: World)
    requires KeepsCounts(u, v) && KeepsDepths(u, v) && KeepsCounts(v, w) && KeepsDepths(v, w)
    requires v.contexts.Keys == w.contexts.Keys && v.spans.Keys == w.spans.Keys
    ensures KeepsCounts(u, w) && KeepsDepths(u, w)
  {
  }

  lemma NewSpanCounts(w: World, parent: Option<SpanId>, r: Request, s: SpanId, c: ContextId)
    requires (parent.Some? ==> SpanKnown(w, parent.value)) && s !in w.spans && c !in w.contexts
    requires NewSpan(w, parent, r, s, c).Created?
    ensures KeepsCounts(w, NewSpan(w, parent, r, s, c).world) && KeepsDepths(w, NewSpan(w, parent, r, s, c).world)
  {
    var bare := AddSpan(w, parent, r, s, c);
    AddSpanCounts(w, parent, r, s, c);
    if parent.Some? && w.spans[parent.value].depth == 0 {
      var p := w.spans[parent.value];
      var f := ParentCarrier(p, w.contexts[p.context], r.config).value;
      var mid := Extract(bare, s, f, r.traceId);
      ExtractCounts(bare, s, f, r.traceId);
      FinishCounts(mid, s, r);
      CountsTwice(w, bare, mid);
      CountsTwice(w, mid, Finish(mid, s, r));
    } else {
      FinishCounts(bare, s, r);
      CountsTwice(w, bare, Finish(bare, s, r));
    }
  }

  lemma CreateCounts(w: World, t: TaskId, r: Request, s: SpanId, c: ContextId)
    requires Can(w, Make(t, r, s, c))
    ensures KeepsCounts(w, Create(w, t, r, s, c).world) && KeepsDepths(w, Create(w, t, r, s, c).world)
  {
    if !UnderNoop(w, t, r) && !Suppresses(r) && !TakesOver(w, t, r) {
      NewSpanCounts(w, Top(w, t), r, s, c);
    }
  }

  /** What keeps counts and depths and hands nothing over keeps everything settled. */
  lemma CountsKeepSettled(w: World, v: World)
    requires Settled(w) && KeepsCounts(w, v) && KeepsDepths(w, v) && v.archived == w.archived
    ensures Settled(v)
  {
    forall c | c in v.contexts
      ensures v.contexts[c].nspans == |Live(v, c)|
    {
      if c in w.contexts {
        assert Live(v, c) == Live(w, c);
      } else {
        assert Live(v, c) == {};
      }
    }
  }

  // ----- starting and stopping -----

  lemma LiveAfter(w: World, v: World, s: SpanId, d: ContextId)
    requires forall x :: x in v.spans <==> x in w.spans
    requires forall x :: x in w.spans && x != s ==> v.spans[x] == w.spans[x]
    requires s in w.spans && v.spans[s].context == w.spans[s].context
    ensures d != w.spans[s].context ==> Live(v, d) == Live(w, d)
    ensures d == w.spans[s].context && v.spans[s].depth > 0 ==> Live(v, d) == Live(w, d) + {s}
    ensures d == w.spans[s].context && v.spans[s].depth <= 0 ==> Live(v, d) == Live(w, d) - {s}
  {
  }

  lemma StartCounts(w: World, t: TaskId, s: SpanId)
    requires Can(w, Launch(t, s)) && CountsRight(w) && w.spans[s].depth >= 0
    ensures CountsRight(Start(w, t, s))
  {
    var v := Start(w, t, s);
    StartFrame(w, t, s);
    forall d | d in w.contexts
      ensures v.contexts[d].nspans == |Live(v, d)|
    {
      LiveAfter(w, v, s, d);
      StartedCount(w, t, s, d);
      assert s in Live(w, w.spans[s].context) <==> w.spans[s].depth > 0;
      assert w.contexts[d].nspans == |Live(w, d)|;
      if d == w.spans[s].context {
        assert w.spans[s].depth > 0 ==> Live(w, d) + {s} == Live(w, d);
        assert w.spans[s].depth == 0 ==> |Live(w, d) + {s}| == |Live(w, d)| + 1;
      }
    }
  }

  lemma StopCounts(w: World, t: TaskId, s: SpanId)
    requires Enabled(w, Leave(t, s)) && CountsRight(w)
    ensures CountsRight(Stop(w, t, s))
  {
    var v := Stop(w, t, s);
    StopFrame(w, t, s);
    forall d | d in w.contexts
      ensures v.contexts[d].nspans == |Live(v, d)|
    {
      LiveAfter(w, v, s, d);
      assert s in Live(w, w.spans[s].context);
      assert w.contexts[d].nspans == |Live(w, d)|;
      assert d == w.spans[s].context && w.spans[s].depth > 1 ==> Live(v, d) == Live(w, d);
    }
  }

  /** What starting does to a context's count. */
  lemma StartedCount(w: World, t: TaskId, s: SpanId, c: ContextId)
    requires Can(w, Launch(t, s)) && c in w.contexts
    ensures var v := Start(w, t, s);
            && c in v.contexts && v.contexts[c].noop == w.contexts[c].noop && v.archived == w.archived
            && v.contexts[c].nspans
               == w.contexts[c].nspans + if c == w.spans[s].context && w.spans[s].depth == 0 then 1 else 0
  {
  }

  lemma LaunchOver(w: World, t: TaskId, s: SpanId)
    requires Can(w, Launch(t, s)) && AllOver(w) && w.spans[s].depth >= 0
    ensures AllOver(Start(w, t, s)) <==> w.spans[s].depth > 0 || !IsArchived(w, w.spans[s].context)
  {
    var v := Start(w, t, s);
    var home := w.spans[s].context;
    StartedCount(w, t, s, home);
    if w.spans[s].depth == 0 && IsArchived(w, home) {
      var i :| 0 <= i < |w.archived| && w.archived[i].context == home;
      assert Over(w, w.archived[i].context) && !Over(v, v.archived[i].context);
    } else {
      forall i | 0 <= i < |v.archived|
        ensures Over(v, v.archived[i].context)
      {
        assert Over(w, w.archived[i].context);
        StartedCount(w, t, s, w.archived[i].context);
      }
    }
  }

  lemma StartHomed(w: World, t: TaskId, s: SpanId)
    requires Can(w, Launch(t, s)) && Homed(w)
    ensures Homed(Start(w, t, s)) && Start(w, t, s).archived == w.archived
  {
  }

  /** A span can be started without harm exactly when it is open already or its segment has not been
      handed over. */
  lemma LaunchKeepsSettled(w: World, t: TaskId, s: SpanId)
    requires Settled(w) && Can(w, Launch(t, s))
    ensures Settled(Start(w, t, s)) <==> w.spans[s].depth > 0 || !IsArchived(w, w.spans[s].context)
  {
    StartHomed(w, t, s);
    StartCounts(w, t, s);
    LaunchOver(w, t, s);
  }

  /** The last stop hands over a context that has not been handed over. */
  lemma StopArchives(w: World, t: TaskId, s: SpanId)
    requires Settled(w) && Enabled(w, Leave(t, s))
    ensures AllOver(Stop(w, t, s)) && Once(Stop(w, t, s))
  {
    var v := Stop(w, t, s);
    var home := w.spans[s].context;
    assert s in Live(w, home) && w.contexts[home].nspans > 0;
    forall i | 0 <= i < |w.archived|
      ensures w.archived[i].context != home && Over(v, w.archived[i].context)
    {
      assert Over(w, w.archived[i].context);
    }
  }

  lemma StopKeepsSettled(w: World, t: TaskId, s: SpanId)
    requires Settled(w) && Enabled(w, Leave(t, s))
    ensures Settled(Stop(w, t, s))
  {
    StopHomed(w, t, s);
    StopCounts(w, t, s);
    StopArchives(w, t, s);
  }

  lemma StopHomed(w: World, t: TaskId, s: SpanId)
    requires Enabled(w, Leave(t, s)) && Homed(w)
    ensures Homed(Stop(w, t, s))
  {
  }

  lemma OtherCounts(w: World, step: Step)
    requires Can(w, Other(step)) && !step.Leave?
    ensures KeepsCounts(w, Apply(w, step)) && KeepsDepths(w, Apply(w, step)) && Apply(w, step).archived == w.archived
  {
    if step.Extracts? {
      ExtractCounts(w, step.span, step.fields, step.fallback);
    }
  }

  lemma OtherKeepsSettled(w: World, step: Step)
    requires Settled(w) && Can(w, Other(step))
    ensures Settled(Apply(w, step))
  {
    if step.Leave? {
      StopKeepsSettled(w, step.task, step.span);
    } else {
      OtherCounts(w, step);
      CountsKeepSettled(w, Apply(w, step));
    }
  }

  /** Every act keeps what has been handed over settled, exactly when it is not a late start. */
  lemma ActKeepsSettled(w: World, a: Act)
    requires Settled(w) && Can(w, a)
    ensures Settled(Done(w, a)) <==> !Late(w, a)
  {
    match a
    case Make(t, r, s, c) =>
      CreateCounts(w, t, r, s, c);
      CreateFrame(w, t, r, s, c);
      CountsKeepSettled(w, Done(w, a));
    case Launch(t, s) => LaunchKeepsSettled(w, t, s);
    case Other(step) => OtherKeepsSettled(w, step);
  }

  /** A span is started, for the first time or again, after its segment has been handed over. */
  ghost predicate Late(w: World, a: Act) {
    a.Launch? && SpanKnown(w, a.span) && w.spans[a.span].depth <= 0 && IsArchived(w, w.spans[a.span].context)
  }

  ghost predicate ActsLead(w: World, acts: seq<Act>, end: World)
    decreases |acts|
  {
    if acts == [] then w == end
    else Can(w, acts[0]) && !Late(w, acts[0]) && ActsLead(Done(w, acts[0]), acts[1..], end)
  }

  /** In every run without a late start, whatever happens between creating and starting spans, no segment
      is handed over twice, and none that has an open span. */
  lemma {:induction false} HandedOverOnce(w: World, acts: seq<Act>, end: World)
    requires Settled(w) && ActsLead(w, acts, end)
    ensures Settled(end)
    decreases |acts|
  {
    if acts != [] {
      ActKeepsSettled(w, acts[0]);
      HandedOverOnce(Done(w, acts[0]), acts[1..], end);
    }
  }

  // ----- what is handed over -----

  /** The segment holds finished spans of its context, each once. */
  ghost predicate TidyAt(w: World, c: ContextId)
    requires c in w.contexts
  {
    && NoDup(w.contexts[c].segment.spans)
    && forall x :: x in w.contexts[c].segment.spans ==> Belongs(w, x, c) && w.spans[x].depth == 0
  }

  /** So does every segment, and what has been handed over is what it still holds. */
  ghost predicate Tidy(w: World) {
    && (forall c :: c in w.contexts ==> TidyAt(w, c))
    && (forall i :: 0 <= i < |w.archived| ==> Kept(w, w.archived[i]))
  }

  ghost predicate Kept(w: World, a: Archive) {
    a.context in w.contexts && a.spans == w.contexts[a.context].segment.spans
  }

  /** A finished span is started again. */
  ghost predicate Restarts(w: World, a: Act) {
    a.Launch? && SpanKnown(w, a.span) && w.spans[a.span].depth <= 0
    && a.span in w.contexts[w.spans[a.span].context].segment.spans
  }

  lemma CountsKeepTidy(w: World, v: World)
    requires Tidy(w) && KeepsCounts(w, v) && KeepsDepths(w, v) && v.archived == w.archived
    ensures Tidy(v)
  {
    forall c | c in v.contexts
      ensures TidyAt(v, c)
    {
      assert c in w.contexts ==> TidyAt(w, c);
    }
    forall i | 0 <= i < |v.archived|
      ensures Kept(v, v.archived[i])
    {
      assert Kept(w, w.archived[i]);
    }
  }

  lemma StartedSegments(w: World, t: TaskId, s: SpanId)
    requires Can(w, Launch(t, s))
    ensures var v := Start(w, t, s);
            && v.contexts.Keys == w.contexts.Keys && v.spans.Keys == w.spans.Keys && v.archived == w.archived
            && (forall c :: c in w.contexts ==> v.contexts[c].segment == w.contexts[c].segment)
            && (forall x :: x in w.spans && x != s ==> v.spans[x] == w.spans[x])
            && v.spans[s].context == w.spans[s].context && v.spans[s].depth == w.spans[s].depth + 1
  {
  }

  lemma LaunchKeepsTidy(w: World, t: TaskId, s: SpanId)
    requires Tidy(w) && Can(w, Launch(t, s)) && w.spans[s].depth >= 0
    ensures Tidy(Start(w, t, s)) <==> !Restarts(w, Launch(t, s))
  {
    var v := Start(w, t, s);
    var home := w.spans[s].context;
    StartedSegments(w, t, s);
    assert TidyAt(w, home);
    if Restarts(w, Launch(t, s)) {
      assert !TidyAt(v, home);
    } else {
      forall c | c in v.contexts
        ensures TidyAt(v, c)
      {
        assert TidyAt(w, c);
      }
      forall i | 0 <= i < |v.archived|
        ensures Kept(v, v.archived[i])
      {
        assert Kept(w, w.archived[i]);
      }
    }
  }

  lemma StoppedSegments(w: World, t: TaskId, s: SpanId)
    requires Enabled(w, Leave(t, s))
    ensures var v := Stop(w, t, s);
            var home := w.spans[s].context;
            var held := w.contexts[home].segment.spans;
            && v.contexts.Keys == w.contexts.Keys && v.spans.Keys == w.spans.Keys
            && (forall c :: c in w.contexts && c != home ==> v.contexts[c].segment == w.contexts[c].segment)
            && v.contexts[home].segment.spans == (if w.spans[s].depth == 1 && !w.contexts[home].noop then held + [s] else held)
            && (forall x :: x in w.spans && x != s ==> v.spans[x] == w.spans[x])
            && v.spans[s].context == home && v.spans[s].depth == w.spans[s].depth - 1
            && (v.archived == w.archived
                || (w.spans[s].depth == 1 && v.archived == w.archived + [Archive(home, v.contexts[home].segment.spans)]))
  {
  }

  lemma StopTidies(w: World, t: TaskId, s: SpanId, c: ContextId)
    requires Enabled(w, Leave(t, s)) && c in w.contexts && TidyAt(w, c)
    ensures c in Stop(w, t, s).contexts && TidyAt(Stop(w, t, s), c)
  {
    StoppedSegments(w, t, s);
  }

  lemma StopKeeps(w: World, t: TaskId, s: SpanId, a: Archive)
    requires Enabled(w, Leave(t, s)) && Kept(w, a) && a.context != w.spans[s].context
    ensures Kept(Stop(w, t, s), a)
  {
  }

  lemma StopKeepsTidy(w: World, t: TaskId, s: SpanId)
    requires Settled(w) && Tidy(w) && Enabled(w, Leave(t, s))
    ensures Tidy(Stop(w, t, s))
  {
    var v := Stop(w, t, s);
    StoppedSegments(w, t, s);
    NotOverYet(w, s);
    forall c | c in v.contexts
      ensures TidyAt(v, c)
    {
      assert TidyAt(w, c);
      StopTidies(w, t, s, c);
    }
    forall i | 0 <= i < |v.archived|
      ensures Kept(v, v.archived[i])
    {
      if i < |w.archived| {
        assert Kept(w, w.archived[i]);
        StopKeeps(w, t, s, w.archived[i]);
      }
    }
  }

  /** The context of an open span has not been handed over. */
  lemma NotOverYet(w: World, s: SpanId)
    requires AllOver(w) && CountsRight(w) && SpanKnown(w, s) && w.spans[s].depth > 0
    ensures forall i :: 0 <= i < |w.archived| ==> w.archived[i].context != w.spans[s].context
  {
    assert s in Live(w, w.spans[s].context);
    forall i | 0 <= i < |w.archived|
      ensures w.archived[i].context != w.spans[s].context
    {
      assert Over(w, w.archived[i].context);
    }
  }

  /** An act keeps segments tidy exactly when it does not start a finished span again. */
  lemma ActKeepsTidy(w: World, a: Act)
    requires Settled(w) && Tidy(w) && Can(w, a)
    ensures Tidy(Done(w, a)) <==> !Restarts(w, a)
  {
    match a
    case Make(t, r, s, c) =>
      CreateCounts(w, t, r, s, c);
      CreateFrame(w, t, r, s, c);
      CountsKeepTidy(w, Done(w, a));
    case Launch(t, s) => LaunchKeepsTidy(w, t, s);
    case Other(step) => OtherKeepsTidy(w, step);
  }

  lemma OtherKeepsTidy(w: World, step: Step)
    requires Settled(w) && Tidy(w) && Can(w, Other(step))
    ensures Tidy(Apply(w, step))
  {
    if step.Leave? {
      StopKeepsTidy(w, step.task, step.span);
    } else {
      OtherCounts(w, step);
      CountsKeepTidy(w, Apply(w, step));
    }
  }

  /** No act of the run starts a finished span again. */
  ghost predicate NoRestarts(w: World, acts: seq<Act>)
    decreases |acts|
  {
    acts == [] || (!Restarts(w, acts[0]) && (Can(w, acts[0]) ==> NoRestarts(Done(w, acts[0]), acts[1..])))
  }

  lemma {:induction false} RunKeepsTidy(w: World, acts: seq<Act>, end: World)
    requires Settled(w) && Tidy(w) && ActsLead(w, acts, end) && NoRestarts(w, acts)
    ensures Settled(end) && Tidy(end)
    decreases |acts|
  {
    if acts != [] {
      ActKeepsSettled(w, acts[0]);
      ActKeepsTidy(w, acts[0]);
      RunKeepsTidy(Done(w, acts[0]), acts[1..], end);
    }
  }

  /** A span of the context has been created and not started. */
  ghost predicate Waits(w: World, x: SpanId, c: ContextId) {
    Belongs(w, x, c) && c in w.contexts && w.spans[x].depth == 0 && x !in w.contexts[c].segment.spans
  }

  /** What has been handed over holds spans of its context, each once, and all of them exactly when none is
      waiting to be started. */
  lemma HandOverIsComplete(w: World, i: nat)
    requires Settled(w) && Tidy(w) && i < |w.archived|
    ensures var a := w.archived[i];
            && NoDup(a.spans) && (forall x :: x in a.spans ==> Belongs(w, x, a.context))
            && ((forall x :: Belongs(w, x, a.context) ==> x in a.spans) <==> (forall x :: !Waits(w, x, a.context)))
  {
    var a := w.archived[i];
    assert Kept(w, a) && Over(w, a.context);
    assert TidyAt(w, a.context);
    assert Live(w, a.context) == {};
    forall x | Belongs(w, x, a.context)
      ensures w.spans[x].depth == 0
    {
      assert x !in Live(w, a.context);
    }
    forall x
      ensures Waits(w, x, a.context) <==> Belongs(w, x, a.context) && x !in a.spans
    {
    }
  }

  /** From the initial state: whatever happens between creating and starting, if no span is started late or
      again, every segment is handed over at most once, and completely exactly when none of its spans is
      waiting to be started. */
  lemma HandOvers(acts: seq<Act>, end: World, i: nat)
    requires ActsLead(Initial(), acts, end) && NoRestarts(Initial(), acts) && i < |end.archived|
    ensures var a := end.archived[i];
            && (forall j :: 0 <= j < |end.archived| && end.archived[j].context == a.context ==> j == i)
            && NoDup(a.spans) && (forall x :: x in a.spans ==> Belongs(end, x, a.context))
            && ((forall x :: Belongs(end, x, a.context) ==> x in a.spans) <==> (forall x :: !Waits(end, x, a.context)))
  {
    InitialSettled();
    RunKeepsTidy(Initial(), acts, end);
    HandOverIsComplete(end, i);
  }

  lemma InitialSettled()
    ensures Settled(Initial()) && Tidy(Initial())
  {
  }

  /** A late start, once stopped, hands the segment over a second time. */
  lemma LateStartArchivesTwice(w: World, t: TaskId, s: SpanId)
    requires Settled(w) && Can(w, Launch(t, s)) && Late(w, Launch(t, s))
    ensures Enabled(Start(w, t, s), Leave(t, s)) && ArchivedTwice(Stop(Start(w, t, s), t, s), w.spans[s].context)
  {
    var v := Start(w, t, s);
    var home := w.spans[s].context;
    var i :| 0 <= i < |w.archived| && w.archived[i].context == home;
    assert Over(w, w.archived[i].context);
    LastStopArchives(v, t, s, home);
    SecondArchive(w, Stop(v, t, s), home);
  }

  lemma FirstAct(w: World, a: Act, acts: seq<Act>, end: World)
    requires Can(w, a) && !Late(w, a) && ActsLead(Done(w, a), acts, end)
    ensures ActsLead(w, [a] + acts, end)
  {
    assert ([a] + acts)[1..] == acts;
  }

  predicate Plain(r: Request) {
    r.kind.Local? && !r.ignored && !r.sampledOut
  }

  /** A root, open or not, and perhaps a child that has been created. */
  function Pair(r: Request, q: Request, depth: int, spans: seq<SpanId>, child: bool): World {
    var root := Span(0, false, 0, -1, r.op, None, Local, UNKNOWN, UNKNOWN, depth, []);
    var c := Context(false, if child then 1 else 0, depth, Segment(r.segmentId, spans, [TraceId(r.traceId, true)]),
                     if depth == 0 && spans == [] then None else Some(0));
    World(if child then map[0 := root, 1 := BareSpan(0, 1, 0, q)] else map[0 := root], map[0 := c],
          map[0 := if depth == 1 then [0] else []], [])
  }

  lemma MakesRoot(r: Request, q: Request)
    requires Plain(r)
    ensures var w := World(map[], map[], map[0 := []], []);
            Can(w, Make(0, r, 0, 0)) && Done(w, Make(0, r, 0, 0)) == Pair(r, q, 0, [], false)
  {
    var w := World(map[], map[], map[0 := []], []);
    assert AddSpan(w, None, r, 0, 0) == Pair(r, q, 0, [], false);
  }

  lemma LaunchesRoot(r: Request, q: Request)
    ensures var w := Pair(r, q, 0, [], false);
            Can(w, Launch(0, 0)) && !Late(w, Launch(0, 0)) && Start(w, 0, 0) == Pair(r, q, 1, [], false)
  {
    var w := Pair(r, q, 0, [], false);
    assert Pushed([], 0) == [0];
    var v := Start(w, 0, 0);
    assert v.spans == Pair(r, q, 1, [], false).spans && v.stacks == Pair(r, q, 1, [], false).stacks;
  }

  lemma MakesChild(r: Request, q: Request)
    requires Plain(q)
    ensures var w := Pair(r, q, 1, [], false);
            Can(w, Make(0, q, 1, 1)) && Done(w, Make(0, q, 1, 1)) == Pair(r, q, 1, [], true)
  {
    var w := Pair(r, q, 1, [], false);
    var v := AddSpan(w, Some(0), q, 1, 1);
    assert Top(w, 0) == Some(0);
    assert v.spans == Pair(r, q, 1, [], true).spans && v.contexts == Pair(r, q, 1, [], true).contexts;
  }

  lemma LeavesRoot(r: Request, q: Request)
    ensures var w := Pair(r, q, 1, [], true);
            var v := Pair(r, q, 0, [0], true).(archived := [Archive(0, [0])]);
            Can(w, Other(Leave(0, 0))) && Stop(w, 0, 0) == v
  {
    var w := Pair(r, q, 1, [], true);
    var v := Pair(r, q, 0, [0], true).(archived := [Archive(0, [0])]);
    assert Remove([0], 0) == [] && [] + [0] == [0];
    assert Stop(w, 0, 0).spans == v.spans && Stop(w, 0, 0).contexts == v.contexts;
    assert [] + [Archive(0, [0])] == [Archive(0, [0])];
  }

  /** A child is created under an open span, which is left before the child is started. */
  lemma LateStartIsReached(r: Request, q: Request)
    requires Plain(r) && Plain(q)
    ensures exists acts, w :: ActsLead(Initial(), acts, w) && Can(w, Launch(0, 1)) && Late(w, Launch(0, 1))
  {
    var w1 := World(map[], map[], map[0 := []], []);
    var end := Pair(r, q, 0, [0], true).(archived := [Archive(0, [0])]);
    MakesRoot(r, q);
    LaunchesRoot(r, q);
    MakesChild(r, q);
    LeavesRoot(r, q);
    assert Done(Initial(), Other(Begin(0))) == w1;
    FirstAct(Pair(r, q, 1, [], true), Other(Leave(0, 0)), [], end);
    FirstAct(Pair(r, q, 1, [], false), Make(0, q, 1, 1), [Other(Leave(0, 0))], end);
    FirstAct(Pair(r, q, 0, [], false), Launch(0, 0), [Make(0, q, 1, 1), Other(Leave(0, 0))], end);
    FirstAct(w1, Make(0, r, 0, 0), [Launch(0, 0), Make(0, q, 1, 1), Other(Leave(0, 0))], end);
    FirstAct(Initial(), Other(Begin(0)), [Make(0, r, 0, 0), Launch(0, 0), Make(0, q, 1, 1), Other(Leave(0, 0))], end);
    assert end.archived[0].context == 0;
  }
}
