/** What happens to a segment after it has been handed over. The agent is given the segment itself, so a
    later change would be reported, or be made while it is being reported. */
module TraceFinality {
  import opened Text
  import opened Base64
  import opened TraceEngine
  import opened TraceInvariant
  import opened TraceRuns
  import opened TraceFrames
  import X = TraceExamples

  /** The segment of `c`, its trace ids and its spans are what they were. */
  ghost predicate SameSegment(w: World, v: World, c: ContextId) {
    && c in w.contexts && c in v.contexts && v.contexts[c].segment == w.contexts[c].segment
    && (forall s :: Belongs(v, s, c) <==> Belongs(w, s, c))
    && (forall s :: Belongs(w, s, c) ==> v.spans[s] == w.spans[s])
  }

  lemma SameTwice(u: World, v: World, w: World, c: ContextId)
    requires SameSegment(u, v, c) && SameSegment(v, w, c)
    ensures SameSegment(u, w, c)
  {
  }

  /** None of the spans of an archived context is open. */
  lemma ArchivedIsClosed(w: World, c: ContextId)
    requires Inv(w, {}) && IsArchived(w, c)
    ensures c in w.contexts && !w.contexts[c].noop && forall s :: Belongs(w, s, c) ==> w.spans[s].depth == 0
  {
    var i :| 0 <= i < |w.archived| && w.archived[i].context == c;
    assert ContextOk(w, c, {}) && Live(w, c) == {};
    forall s | Belongs(w, s, c)
      ensures w.spans[s].depth == 0
    {
      assert SpanOk(w, s, {}) && s !in Live(w, c);
    }
  }

  lemma OnlyElsewhere(w: World, v: World, s: SpanId, h: ContextId, c: ContextId)
    requires Only(w, v, s, h) && c in w.contexts && h != c && v.spans[s].context != c
    requires s in w.spans ==> w.spans[s].context != c
    ensures SameSegment(w, v, c)
  {
  }

  lemma EnterElsewhere(w: World, t: TaskId, r: Request, s: SpanId, x: ContextId, c: ContextId)
    requires Inv(w, {}) && Enabled(w, Enter(t, r, s, x)) && ReuseIsLive(w, Enter(t, r, s, x)) && IsArchived(w, c)
    ensures SameSegment(w, Apply(w, Enter(t, r, s, x)), c)
  {
    var made := Create(w, t, r, s, x);
    var home := made.world.spans[made.span].context;
    ArchivedIsClosed(w, c);
    CreateFrame(w, t, r, s, x);
    StartFrame(made.world, t, made.span);
    MadeElsewhere(w, t, r, s, x, c);
    OnlyElsewhere(w, made.world, made.span, home, c);
    OnlyElsewhere(made.world, Start(made.world, t, made.span), made.span, home, c);
    SameTwice(w, made.world, Start(made.world, t, made.span), c);
  }

  /** A new span, or the one that is reused, is not in a closed context. */
  lemma MadeElsewhere(w: World, t: TaskId, r: Request, s: SpanId, x: ContextId, c: ContextId)
    requires SpansOk(w, {}) && Enabled(w, Enter(t, r, s, x)) && ReuseIsLive(w, Enter(t, r, s, x))
    requires c in w.contexts && !w.contexts[c].noop && forall y :: Belongs(w, y, c) ==> w.spans[y].depth == 0
    ensures var made := Create(w, t, r, s, x);
            made.world.spans[made.span].context != c && (made.span in w.spans ==> w.spans[made.span].context != c)
  {
    var top := Top(w, t);
    if top.Some? {
      assert SpanOk(w, top.value, {});
    }
    if !UnderNoop(w, t, r) && !Suppresses(r) && !TakesOver(w, t, r) {
      NewSpanFrame(w, top, r, s, x);
    }
  }

  /** The step continues a snapshot in the segment of `c`. */
  ghost predicate ContinuesIn(w: World, step: Step, c: ContextId) {
    && step.Continued? && TaskKnown(w, step.task) && w.stacks[step.task] != []
    && Continues(w, step.task, step.snapshot) && w.spans[Top(w, step.task).value].context == c
  }

  /** It extracts a carrier into one of its spans. */
  ghost predicate ExtractsInto(w: World, step: Step, c: ContextId) {
    step.Extracts? && Belongs(w, step.span, c)
  }

  /** It gives one of its spans another operation, peer or component. */
  ghost predicate Alters(w: World, step: Step, c: ContextId) {
    && step.Annotate? && Belongs(w, step.span, c)
    && var sp := w.spans[step.span];
       sp.op != step.op || sp.peer != Some(step.peer) || sp.component != step.component
  }

  ghost predicate Disturbs(w: World, step: Step, c: ContextId) {
    ContinuesIn(w, step, c) || ExtractsInto(w, step, c) || Alters(w, step, c)
  }

  ghost predicate Closed(w: World, c: ContextId) {
    c in w.contexts && forall s :: Belongs(w, s, c) ==> w.spans[s].depth == 0
  }

  lemma LeaveElsewhere(w: World, t: TaskId, s: SpanId, c: ContextId)
    requires Closed(w, c) && Enabled(w, Leave(t, s))
    ensures SameSegment(w, Stop(w, t, s), c)
  {
    assert !Belongs(w, s, c);
  }

  lemma AnnotateElsewhere(w: World, step: Step, c: ContextId)
    requires c in w.contexts && Enabled(w, step) && step.Annotate?
    ensures SameSegment(w, Apply(w, step), c) <==> !Alters(w, step, c)
  {
    var v := Apply(w, step);
    assert forall s :: Belongs(v, s, c) <==> Belongs(w, s, c);
    if Belongs(w, step.span, c) {
      assert Alters(w, step, c) <==> v.spans[step.span] != w.spans[step.span];
    }
  }

  /** Relating always changes the list of trace ids. */
  lemma RelateChanges(related: seq<TraceId>, id: Bytes)
    requires related != [] && (related[0].generated ==> |related| == 1)
    ensures Relate(related, TraceId(id, false)) != related
  {
    if !related[0].generated {
      assert |Relate(related, TraceId(id, false))| == |related| + 1;
    }
  }

  lemma ExtractElsewhere(w: World, step: Step, c: ContextId)
    requires SpansOk(w, {}) && Related(w) && c in w.contexts && !w.contexts[c].noop && Enabled(w, step) && step.Extracts?
    ensures SameSegment(w, Apply(w, step), c) <==> !ExtractsInto(w, step, c)
  {
    assert SpanOk(w, step.span, {});
    if ExtractsInto(w, step, c) {
      RelateChanges(w.contexts[c].segment.related, CarriedId(step.fields, step.fallback).value);
    } else {
      ExtractFrame(w, step.span, step.fields, step.fallback);
      OnlyElsewhere(w, Apply(w, step), step.span, w.spans[step.span].context, c);
    }
  }

  lemma ContinueElsewhere(w: World, step: Step, c: ContextId)
    requires c in w.contexts && Enabled(w, step) && step.Continued?
    ensures SameSegment(w, Apply(w, step), c) <==> !ContinuesIn(w, step, c)
  {
    var s := Top(w, step.task).value;
    if ContinuesIn(w, step, c) {
      assert |Apply(w, step).spans[s].refs| == |w.spans[s].refs| + 1;
      assert Belongs(w, s, c);
    }
  }

  /** An archived segment survives a step unchanged exactly when the step does not disturb it: continue a
      snapshot in it, which takes a task that inherited one of its spans as its topmost one, or extract
      into or alter one of its spans. */
  lemma ArchivedSegmentIsFinal(w: World, step: Step, c: ContextId)
    requires Inv(w, {}) && Enabled(w, step) && ReuseIsLive(w, step) && IsArchived(w, c)
    ensures SameSegment(w, Apply(w, step), c) <==> !Disturbs(w, step, c)
  {
    ArchivedIsClosed(w, c);
    if step.Enter? {
      EnterElsewhere(w, step.task, step.request, step.span, step.context, c);
    } else if step.Extracts? {
      InvRelated(w, {});
      ExtractElsewhere(w, step, c);
    } else {
      OtherElsewhere(w, step, c);
    }
  }

  lemma OtherElsewhere(w: World, step: Step, c: ContextId)
    requires Closed(w, c) && Enabled(w, step) && !step.Enter? && !step.Extracts?
    ensures SameSegment(w, Apply(w, step), c) <==> !Disturbs(w, step, c)
  {
    if step.Leave? {
      LeaveElsewhere(w, step.task, step.span, c);
    } else if step.Annotate? {
      AnnotateElsewhere(w, step, c);
    } else if step.Continued? {
      ContinueElsewhere(w, step, c);
    }
  }

  /** No step of the run disturbs the segment. */
  ghost predicate LeavesAlone(w: World, steps: seq<Step>, c: ContextId)
    decreases |steps|
  {
    steps == [] || (!Disturbs(w, steps[0], c) && (Enabled(w, steps[0]) ==> LeavesAlone(Apply(w, steps[0]), steps[1..], c)))
  }

  /** So whole runs leave it unchanged. */
  lemma {:induction false} ArchivedSegmentStays(w: World, steps: seq<Step>, end: World, c: ContextId)
    requires Inv(w, {}) && Leads(w, steps, end) && IsArchived(w, c) && LeavesAlone(w, steps, c)
    ensures SameSegment(w, end, c) && IsArchived(end, c)
    decreases |steps|
  {
    if steps == [] {
      ArchivedIsClosed(w, c);
    } else {
      var v := Apply(w, steps[0]);
      ArchivedSegmentIsFinal(w, steps[0], c);
      StepKeepsInv(w, steps[0]);
      StepExtendsArchive(w, steps[0]);
      var i :| 0 <= i < |w.archived| && w.archived[i].context == c;
      assert v.archived[i].context == c;
      ArchivedSegmentStays(v, steps[1..], end, c);
      SameTwice(w, v, end, c);
    }
  }

  /** A run after which a step changes an archived segment. */
  lemma ArchivedSegmentIsChanged()
    ensures exists steps, w, step, c ::
              Leads(Initial(), steps, w) && IsArchived(w, c) && Enabled(w, step) && !SameSegment(w, Apply(w, step), c)
  {
    X.FinishedParentIsInherited();
    var steps, w :| Leads(Initial(), steps, w) && X.Inherited(w);
    InitialInv();
    RunKeepsInv(Initial(), steps, w);
    assert ContextOk(w, 0, {});
    FinishedIsArchived(w, 0);
    ContinuesInherited(w);
  }

  lemma ContinuesInherited(w: World)
    requires Inv(w, {}) && X.Inherited(w) && IsArchived(w, 0)
    ensures exists step :: Enabled(w, step) && !SameSegment(w, Apply(w, step), 0)
  {
    var other := w.contexts[0].segment.id + [0];
    assert |other| != |w.contexts[0].segment.id|;
    var step := Continued(1, Snapshot(Some(other), 0, Some([1]), None), Config([3], [4]), [1]);
    assert ContinuesIn(w, step, 0);
    ArchivedSegmentIsFinal(w, step, 0);
  }
}
