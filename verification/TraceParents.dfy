/** What an entered span is: suppressed, its parent taken over, or a child of the span that lies on top of
    the task's list; and, over whole runs, that the parent ids of a segment are those of that nesting. */
module TraceParents {
  import opened Text
  import opened Base64
  import opened Carrier
  import opened TraceEngine
  import opened TraceInvariant
  import opened TraceRuns
  import opened TraceFrames
  import R = TraceReferences

  // ----- one entry -----

  /** The span that a task would make a child of. */
  function Parent(w: World, t: TaskId): Span
    requires TaskKnown(w, t) && w.stacks[t] != []
  {
    w.spans[w.stacks[t][|w.stacks[t]| - 1]]
  }

  /** The operation is not ignored, an entry span brings no suppressed carrier, and the topmost span's
      context is a traced one, or sampling lets a first span through. */
  predicate Wanted(w: World, t: TaskId, r: Request)
    requires TaskKnown(w, t)
  {
    && !r.ignored && !(r.kind.Entry? && r.carrier.Some? && r.carrier.value.Suppressed())
    && if w.stacks[t] == [] then !r.sampledOut else !w.contexts[Parent(w, t).context].noop
  }

  /** The topmost span is an entry span whose component the request inherits, or an exit span whose
      inheritance is the component of the request. */
  predicate MeetsKin(w: World, t: TaskId, r: Request)
    requires TaskKnown(w, t)
  {
    w.stacks[t] != [] &&
    match (r.kind, Parent(w, t).kind)
    case (Entry, Entry) => r.inherit == Some(Parent(w, t).component)
    case (Exit, Exit) => r.component == Some(Parent(w, t).inherit)
    case _ => false
  }

  /** What is not wanted gets a span of its own that is not traced, in a suppressed context. */
  lemma UnwantedIsSuppressed(w: World, t: TaskId, r: Request, s: SpanId, c: ContextId)
    requires Enabled(w, Enter(t, r, s, c)) && !Wanted(w, t, r)
    ensures var v := Apply(w, Enter(t, r, s, c));
            && s in v.spans && v.spans[s].noop && v.spans[s].depth == 1
            && v.spans[s].context in v.contexts && v.contexts[v.spans[s].context].noop
            && forall x :: x in w.spans ==> x in v.spans && v.spans[x] == w.spans[x]
  {
  }

  /** Kin is entered once more and takes the operation of the request; an exit span takes its peer and
      component too, and its inheritance if it has one, and an entry span forgets its component. No span is
      made. */
  lemma KinTakesOver(w: World, t: TaskId, r: Request, s: SpanId, c: ContextId)
    requires Enabled(w, Enter(t, r, s, c)) && Wanted(w, t, r) && MeetsKin(w, t, r)
    ensures var v := Apply(w, Enter(t, r, s, c));
            var p := w.stacks[t][|w.stacks[t]| - 1];
            && v.spans.Keys == w.spans.Keys
            && (forall x :: x in w.spans && x != p ==> v.spans[x] == w.spans[x])
            && var was, now := w.spans[p], v.spans[p];
               && now.op == r.op && now.depth == was.depth + 1
               && now.context == was.context && now.sid == was.sid && now.pid == was.pid && now.kind == was.kind == r.kind
               && now.refs == was.refs && now.noop == was.noop
               && (r.kind.Entry? ==> now.peer == was.peer && now.component == UNKNOWN && now.inherit == was.inherit)
               && (r.kind.Exit? ==>
                     && now.peer == Some(r.peer) && r.component == Some(now.component)
                     && now.inherit == if r.inherit.Some? then r.inherit.value else was.inherit)
  {
  }

  /** What a span made for a request is, whatever references it gets. */
  ghost predicate MadeFor(sp: Span, home: ContextId, sid: int, pid: int, r: Request) {
    && sp.context == home && !sp.noop && sp.sid == sid && sp.pid == pid
    && sp.op == r.op && sp.kind == r.kind
    && sp.peer == (if r.kind.Exit? then Some(r.peer) else None)
    && sp.component == (if r.kind.Exit? && r.component.Some? then r.component.value else UNKNOWN)
  }

  lemma FinishKeepsMade(w: World, s: SpanId, r: Request, home: ContextId, sid: int, pid: int)
    requires SpanKnown(w, s) && MadeFor(w.spans[s], home, sid, pid, r)
    requires w.spans[s].inherit == UNKNOWN && w.spans[s].depth == 0
    ensures MadeFor(Finish(w, s, r).spans[s], home, sid, pid, r) && Finish(w, s, r).spans[s].depth == 0
    ensures Finish(w, s, r).spans[s].inherit == if r.kind.Exit? && r.inherit.Some? then r.inherit.value else UNKNOWN
  {
  }

  /** What `new_span` makes, before it is started. */
  lemma NewSpanIsChild(w: World, parent: Option<SpanId>, r: Request, s: SpanId, c: ContextId)
    requires (parent.Some? ==> SpanKnown(w, parent.value)) && NewSpan(w, parent, r, s, c).Created?
    ensures var sp := NewSpan(w, parent, r, s, c).world.spans[s];
            && (if parent.Some? && w.spans[parent.value].depth != 0 then
                  var p := w.spans[parent.value];
                  MadeFor(sp, p.context, w.contexts[p.context].lastSid + 1, p.sid, r)
                else MadeFor(sp, c, 0, -1, r))
            && sp.inherit == (if r.kind.Exit? && r.inherit.Some? then r.inherit.value else UNKNOWN)
            && sp.depth == 0
  {
    var bare := AddSpan(w, parent, r, s, c);
    var b := bare.spans[s];
    if parent.Some? && w.spans[parent.value].depth == 0 {
      var p := w.spans[parent.value];
      var f := ParentCarrier(p, w.contexts[p.context], r.config).value;
      FinishKeepsMade(Extract(bare, s, f, r.traceId), s, r, b.context, b.sid, b.pid);
    } else {
      FinishKeepsMade(bare, s, r, b.context, b.sid, b.pid);
    }
  }

  /** Creating and starting change no other span. */
  lemma EnterFrame(w: World, t: TaskId, r: Request, s: SpanId, c: ContextId)
    requires Enabled(w, Enter(t, r, s, c))
    ensures var made := Create(w, t, r, s, c);
            var v := Apply(w, Enter(t, r, s, c));
            && v.spans.Keys == w.spans.Keys + {made.span}
            && (forall x :: x in w.spans && x != made.span ==> v.spans[x] == w.spans[x])
            && v.spans[made.span] == StartedSpan(made.world.spans[made.span])
  {
    var made := Create(w, t, r, s, c);
    CreateFrame(w, t, r, s, c);
    StartFrame(made.world, t, made.span);
    StartValues(made.world, t, made.span);
  }

  /** Otherwise a span is made. Under an open topmost span it is that span's child, in its context and with
      the next span id there; under a finished one, or none, it is the root of a new context. */
  lemma EntryMakesChild(w: World, t: TaskId, r: Request, s: SpanId, c: ContextId)
    requires Enabled(w, Enter(t, r, s, c)) && Wanted(w, t, r) && !MeetsKin(w, t, r)
    ensures var v := Apply(w, Enter(t, r, s, c));
            && v.spans.Keys == w.spans.Keys + {s}
            && (forall x :: x in w.spans ==> v.spans[x] == w.spans[x])
            && (if w.stacks[t] != [] && Parent(w, t).depth != 0 then
                  var p := Parent(w, t);
                  MadeFor(v.spans[s], p.context, w.contexts[p.context].lastSid + 1, p.sid, r)
                else MadeFor(v.spans[s], c, 0, -1, r))
            && v.spans[s].inherit == (if r.kind.Exit? && r.inherit.Some? then r.inherit.value else UNKNOWN)
            && v.spans[s].depth == 1
  {
    assert Create(w, t, r, s, c) == NewSpan(w, Top(w, t), r, s, c);
    EnterFrame(w, t, r, s, c);
    NewSpanIsChild(w, Top(w, t), r, s, c);
  }

  /** The context in which a span is made: under an open topmost span it is that span's, one span id and one
      open span further; otherwise a new one for the segment id drawn, with the span as its primary
      endpoint, and with the trace id drawn unless a parent or a carrier brings another. */
  lemma EntryCounts(w: World, t: TaskId, r: Request, s: SpanId, c: ContextId)
    requires Enabled(w, Enter(t, r, s, c)) && Wanted(w, t, r) && !MeetsKin(w, t, r)
    requires StackOk(w, t, {})
    ensures var v := Apply(w, Enter(t, r, s, c));
            if w.stacks[t] != [] && Parent(w, t).depth != 0 then
              var h := Parent(w, t).context;
              && h in v.contexts && !v.contexts[h].noop && v.contexts[h].segment.id == w.contexts[h].segment.id
              && v.contexts[h].segment.spans == w.contexts[h].segment.spans
              && v.contexts[h].lastSid == w.contexts[h].lastSid + 1 && v.contexts[h].nspans == w.contexts[h].nspans + 1
            else
              && c in v.contexts && !v.contexts[c].noop && v.contexts[c].segment.id == r.segmentId
              && v.contexts[c].segment.spans == []
              && v.contexts[c].lastSid == 0 && v.contexts[c].nspans == 1 && v.contexts[c].primary == Some(s)
              && (w.stacks[t] == [] && !(r.kind.Entry? && r.carrier.Some? && IsValid(r.carrier.value.fields)) ==>
                    v.contexts[c].segment.related == [TraceId(r.traceId, true)])
  {
    var top := Top(w, t);
    var made := Create(w, t, r, s, c);
    assert made == NewSpan(w, top, r, s, c);
    if top.Some? && w.spans[top.value].depth == 0 {
      R.NewSplit(w, top.value, r, s, c);
    } else {
      R.NewUnder(w, top, r, s, c);
    }
    NewSpanIsChild(w, top, r, s, c);
    StartValues(made.world, t, s);
  }

  // ----- runs -----

  /** For every span, which span lay on top of the task's list when it was entered, if any did. */
  type Nesting = map<SpanId, Option<SpanId>>

  function Noted(under: Nesting, w: World, step: Step): Nesting
    requires Enabled(w, step)
  {
    if step.Enter? && step.span in Apply(w, step).spans then under[step.span := Top(w, step.task)] else under
  }

  ghost predicate LeadsNoting(w: World, under: Nesting, steps: seq<Step>, end: World, endUnder: Nesting)
    decreases |steps|
  {
    if steps == [] then w == end && under == endUnder
    else
      && Enabled(w, steps[0]) && ReuseIsLive(w, steps[0])
      && LeadsNoting(Apply(w, steps[0]), Noted(under, w, steps[0]), steps[1..], end, endUnder)
  }

  /** A traced span's parent id is the span id of the span it was entered on top of, if that is in the same
      context, and -1 otherwise. */
  ghost predicate Nests(w: World, under: Nesting, s: SpanId)
    requires s in w.spans
  {
    && s in under
    && (under[s].Some? ==> under[s].value in w.spans)
    && (!w.spans[s].noop ==>
          w.spans[s].pid
          == if under[s].Some? && w.spans[under[s].value].context == w.spans[s].context then w.spans[under[s].value].sid
             else -1)
  }

  ghost predicate NestingOk(w: World, under: Nesting) {
    under.Keys == w.spans.Keys && forall s :: s in w.spans ==> Nests(w, under, s)
  }

  /** Context, ids and kind of a span never change. */
  ghost predicate SameIds(a: Span, b: Span) {
    a.context == b.context && a.noop == b.noop && a.sid == b.sid && a.pid == b.pid && a.kind == b.kind
  }

  lemma EnterKeepsIds(w: World, t: TaskId, r: Request, s: SpanId, c: ContextId)
    requires Enabled(w, Enter(t, r, s, c))
    ensures var v := Apply(w, Enter(t, r, s, c));
            && (forall x :: x in w.spans ==> x in v.spans && SameIds(w.spans[x], v.spans[x]))
            && (forall x :: x in v.spans && x !in w.spans ==> x == s)
  {
    EnterFrame(w, t, r, s, c);
    if Wanted(w, t, r) && MeetsKin(w, t, r) {
      KinTakesOver(w, t, r, s, c);
    } else {
      assert Create(w, t, r, s, c).span == s;
    }
  }

  lemma StepKeepsIds(w: World, step: Step)
    requires Enabled(w, step)
    ensures var v := Apply(w, step);
            && (forall x :: x in w.spans ==> x in v.spans && SameIds(w.spans[x], v.spans[x]))
            && (forall x :: x in v.spans && x !in w.spans ==> step.Enter? && x == step.span)
  {
    if step.Enter? {
      EnterKeepsIds(w, step.task, step.request, step.span, step.context);
    }
  }

  lemma EnteredNests(w: World, under: Nesting, step: Step)
    requires Enabled(w, step) && step.Enter? && step.span in Apply(w, step).spans
    ensures Nests(Apply(w, step), Noted(under, w, step), step.span)
  {
    var t, r, s, c := step.task, step.request, step.span, step.context;
    StepKeepsIds(w, step);
    if !Wanted(w, t, r) {
      UnwantedIsSuppressed(w, t, r, s, c);
    } else if MeetsKin(w, t, r) {
      KinTakesOver(w, t, r, s, c);
    } else {
      EntryMakesChild(w, t, r, s, c);
    }
  }

  lemma StepKeepsNesting(w: World, under: Nesting, step: Step)
    requires NestingOk(w, under) && Enabled(w, step)
    ensures NestingOk(Apply(w, step), Noted(under, w, step))
  {
    var v, noted := Apply(w, step), Noted(under, w, step);
    StepKeepsIds(w, step);
    forall x | x in v.spans
      ensures Nests(v, noted, x)
    {
      if x in w.spans {
        assert Nests(w, under, x);
      } else {
        EnteredNests(w, under, step);
      }
    }
  }

  lemma {:induction false} RunKeepsNesting(w: World, under: Nesting, steps: seq<Step>, end: World, endUnder: Nesting)
    requires NestingOk(w, under) && LeadsNoting(w, under, steps, end, endUnder)
    ensures NestingOk(end, endUnder) && Leads(w, steps, end)
    decreases |steps|
  {
    if steps != [] {
      StepKeepsNesting(w, under, steps[0]);
      RunKeepsNesting(Apply(w, steps[0]), Noted(under, w, steps[0]), steps[1..], end, endUnder);
    }
  }

  /** However tasks interleave, an archived segment is the tree in which its spans were nested: all of its
      spans but span 0 were entered on top of another span of it, whose span id is their parent id, and
      span 0 was entered on top of none of them. */
  lemma SegmentIsTheNesting(steps: seq<Step>, end: World, under: Nesting, i: nat, s: SpanId)
    requires LeadsNoting(Initial(), map[], steps, end, under) && i < |end.archived| && s in end.archived[i].spans
    ensures s in end.spans && s in under
    ensures end.spans[s].sid > 0 ==>
              under[s].Some? && under[s].value in end.archived[i].spans && under[s].value in end.spans
              && end.spans[s].pid == end.spans[under[s].value].sid
    ensures end.spans[s].sid == 0 ==>
              end.spans[s].pid == -1 && (under[s].Some? ==> under[s].value !in end.archived[i].spans)
  {
    var a := end.archived[i];
    RunKeepsNesting(Initial(), map[], steps, end, under);
    InitialInv();
    RunKeepsInv(Initial(), steps, end);
    EverySegmentArchivedOnce(steps, end);
    assert Complete(end, a);
    assert Belongs(end, s, a.context);
    assert SpanOk(end, s, {});
    assert Nests(end, under, s);
    if under[s].Some? {
      assert SpanOk(end, under[s].value, {});
    }
  }

  /** Every run can be noted, and noting does not change it. */
  lemma {:induction false} EveryRunIsNoted(w: World, under: Nesting, steps: seq<Step>, end: World) returns (noted: Nesting)
    requires Leads(w, steps, end)
    ensures LeadsNoting(w, under, steps, end, noted)
    decreases |steps|
  {
    if steps == [] {
      noted := under;
    } else {
      noted := EveryRunIsNoted(Apply(w, steps[0]), Noted(under, w, steps[0]), steps[1..], end);
    }
  }
}
