/** First references: in every run, the first reference that a segment gets names its trace, and a
    segment that it names is in the same trace; and exactly which steps spoil this. */
module TraceFirstRefs {
  import opened Text
  import opened Base64
  import opened Carrier
  import opened TraceEngine
  import opened TraceInvariant
  import opened TraceRuns
  import opened TraceLineage
  import opened TraceReferences
  import opened TraceFrames

  // ----- which references a step adds -----

  /** The reference to a finished parent, if its carrier is valid. */
  function ParentRefs(parent: Span, pc: Context, g: Config): seq<SegmentRef> {
    var f := ParentCarrier(parent, pc, g);
    if f.Ok? && IsValid(f.value) then [RefTo(f.value)] else []
  }

  /** The span that gets references, and these. */
  function Added(w: World, step: Step): Option<(SpanId, seq<SegmentRef>)> {
    match step
    case Enter(t, r, s, c) =>
      if EntersUnder(w, step) || OpensSegment(w, step, false) then Some((s, WithCarrier([], r)))
      else if OpensSegment(w, step, true) then
        var parent := w.spans[Top(w, t).value];
        Some((s, WithCarrier(ParentRefs(parent, w.contexts[parent.context], r.config), r)))
      else None
    case Extracts(s, f, _) =>
      if SpanKnown(w, s) && !w.spans[s].noop && IsValid(f) && RefTo(f) !in w.spans[s].refs then Some((s, [RefTo(f)]))
      else None
    case Continued(t, p, g, _) =>
      if TaskKnown(w, t) && w.stacks[t] != [] && Continues(w, t, p) then Some((Top(w, t).value, [ThreadRef(p, g)]))
      else None
    case _ => None
  }

  function AddedTo(a: Option<(SpanId, seq<SegmentRef>)>, s: SpanId): seq<SegmentRef> {
    if a.Some? && a.value.0 == s then a.value.1 else []
  }

  /** Old spans keep their references, in order, and nothing else is added. */
  ghost predicate RefsFollow(w: World, v: World, a: Option<(SpanId, seq<SegmentRef>)>) {
    && (forall s :: s in w.spans ==> s in v.spans && v.spans[s].refs == w.spans[s].refs + AddedTo(a, s))
    && (forall s :: s in v.spans && s !in w.spans ==> v.spans[s].refs == AddedTo(a, s))
  }

  lemma StartRefs(w: World, t: TaskId, s: SpanId)
    requires t in w.stacks && SpanKnown(w, s)
    ensures RefsFollow(w, Start(w, t, s), None)
  {
  }

  lemma FinishedRefs(sp: Span, r: Request)
    ensures FinishedSpan(sp, r).refs == WithCarrier(sp.refs, r)
  {
  }

  lemma NewSpanOwnRefs(w: World, parent: Option<SpanId>, r: Request, s: SpanId, c: ContextId)
    requires (parent.Some? ==> SpanKnown(w, parent.value)) && NewSpan(w, parent, r, s, c).Created?
    ensures var refs := if parent.Some? && w.spans[parent.value].depth == 0
                        then ParentRefs(w.spans[parent.value], w.contexts[w.spans[parent.value].context], r.config) else [];
            NewSpan(w, parent, r, s, c).world.spans[s].refs == WithCarrier(refs, r)
  {
    if parent.Some? && w.spans[parent.value].depth == 0 {
      var p := w.spans[parent.value];
      var f := ParentCarrier(p, w.contexts[p.context], r.config);
      NewSplit(w, parent.value, r, s, c);
      var sp := ExtractedSpan(BareSpan(c, 0, -1, r), f.value);
      assert sp.refs == ParentRefs(p, w.contexts[p.context], r.config);
      FinishedRefs(sp, r);
    } else {
      NewUnder(w, parent, r, s, c);
      var home := if parent.Some? then w.spans[parent.value].context else c;
      var was := if parent.Some? then w.contexts[home] else NewContext(r);
      FinishedRefs(BareSpan(home, was.lastSid + 1, if parent.Some? then w.spans[parent.value].sid else -1, r), r);
    }
  }

  lemma NewSpanRefs(w: World, parent: Option<SpanId>, r: Request, s: SpanId, c: ContextId)
    requires (parent.Some? ==> SpanKnown(w, parent.value)) && s !in w.spans && NewSpan(w, parent, r, s, c).Created?
    ensures var refs := if parent.Some? && w.spans[parent.value].depth == 0
                        then ParentRefs(w.spans[parent.value], w.contexts[w.spans[parent.value].context], r.config) else [];
            RefsFollow(w, NewSpan(w, parent, r, s, c).world, Some((s, WithCarrier(refs, r))))
  {
    var v := NewSpan(w, parent, r, s, c).world;
    NewSpanFrame(w, parent, r, s, c);
    NewSpanOwnRefs(w, parent, r, s, c);
    forall x | x in w.spans
      ensures x in v.spans && v.spans[x].refs == w.spans[x].refs + []
    {
      assert v.spans[x] == w.spans[x];
    }
  }

  lemma CreateRefs(w: World, t: TaskId, r: Request, s: SpanId, c: ContextId)
    requires Enabled(w, Enter(t, r, s, c))
    ensures RefsFollow(w, Create(w, t, r, s, c).world, Added(w, Enter(t, r, s, c)))
  {
    if !UnderNoop(w, t, r) && !Suppresses(r) && !TakesOver(w, t, r) {
      NewSpanRefs(w, Top(w, t), r, s, c);
    }
  }

  lemma RefsThenStart(w: World, v: World, u: World, a: Option<(SpanId, seq<SegmentRef>)>)
    requires RefsFollow(w, v, a) && RefsFollow(v, u, None) && u.spans.Keys == v.spans.Keys
    ensures RefsFollow(w, u, a)
  {
    forall s | s in u.spans
      ensures u.spans[s].refs == v.spans[s].refs
    {
      assert v.spans[s].refs + [] == v.spans[s].refs;
    }
  }

  /** What every step does to the references. */
  lemma StepRefs(w: World, step: Step)
    requires Enabled(w, step)
    ensures RefsFollow(w, Apply(w, step), Added(w, step))
  {
    match step
    case Enter(t, r, s, c) =>
      var made := Create(w, t, r, s, c);
      CreateRefs(w, t, r, s, c);
      StartRefs(made.world, t, made.span);
      StartKeepsSpanHomes(made.world, t, made.span);
      RefsThenStart(w, made.world, Start(made.world, t, made.span), Added(w, step));
    case _ =>
  }

  /** The context of the span that gets references. */
  function AddedHome(w: World, step: Step): ContextId
    requires Added(w, step).Some?
  {
    match step
    case Enter(t, r, s, c) => if EntersUnder(w, step) then w.spans[Top(w, t).value].context else c
    case Extracts(s, _, _) => w.spans[s].context
    case Continued(t, _, _, _) => w.spans[Top(w, t).value].context
  }

  ghost predicate AddedAt(w: World, step: Step, v: World) {
    Added(w, step).Some? ==>
      var s := Added(w, step).value.0;
      s in v.spans && !v.spans[s].noop && v.spans[s].context == AddedHome(w, step)
  }

  lemma SplitHome(w: World, p: SpanId, r: Request, s: SpanId, c: ContextId)
    requires SpanKnown(w, p) && w.spans[p].depth == 0 && NewSpan(w, Some(p), r, s, c).Created?
    ensures var sp := NewSpan(w, Some(p), r, s, c).world.spans[s]; !sp.noop && sp.context == c
  {
    NewSplit(w, p, r, s, c);
  }

  lemma UnderHome(w: World, parent: Option<SpanId>, r: Request, s: SpanId, c: ContextId)
    requires parent.Some? ==> SpanKnown(w, parent.value) && w.spans[parent.value].depth != 0
    ensures NewSpan(w, parent, r, s, c).Created?
    ensures var sp := NewSpan(w, parent, r, s, c).world.spans[s];
            !sp.noop && sp.context == if parent.Some? then w.spans[parent.value].context else c
  {
    NewUnder(w, parent, r, s, c);
  }

  lemma NewSpanHome(w: World, parent: Option<SpanId>, r: Request, s: SpanId, c: ContextId)
    requires (parent.Some? ==> SpanKnown(w, parent.value)) && NewSpan(w, parent, r, s, c).Created?
    ensures var sp := NewSpan(w, parent, r, s, c).world.spans[s];
            !sp.noop && sp.context == if parent.Some? && w.spans[parent.value].depth != 0
                                      then w.spans[parent.value].context else c
  {
    if parent.Some? && w.spans[parent.value].depth == 0 {
      SplitHome(w, parent.value, r, s, c);
    } else {
      UnderHome(w, parent, r, s, c);
    }
  }

  lemma EnterAddedAt(w: World, t: TaskId, r: Request, s: SpanId, c: ContextId)
    requires Enabled(w, Enter(t, r, s, c)) && Added(w, Enter(t, r, s, c)).Some?
    ensures AddedAt(w, Enter(t, r, s, c), Apply(w, Enter(t, r, s, c)))
  {
    var made := Create(w, t, r, s, c);
    assert made == NewSpan(w, Top(w, t), r, s, c);
    NewSpanHome(w, Top(w, t), r, s, c);
    StartKeepsSpanHomes(made.world, t, made.span);
  }

  lemma StepAddedAt(w: World, step: Step)
    requires Inv(w, {}) && Enabled(w, step)
    ensures AddedAt(w, step, Apply(w, step))
  {
    if Added(w, step).Some? {
      match step
      case Enter(t, r, s, c) => EnterAddedAt(w, t, r, s, c);
      case Extracts(s, f, _) => StepKeepsSpans(w, step);
      case Continued(t, p, g, _) =>
        StepKeepsSpans(w, step);
        assert SpanOk(w, Top(w, t).value, {});
    }
  }

  // ----- first references -----

  ghost predicate Referenced(w: World, c: ContextId) {
    exists s :: Belongs(w, s, c) && w.spans[s].refs != []
  }

  ghost function FirstOf(w: World, c: ContextId): SegmentRef
    requires Referenced(w, c)
  {
    var s :| Belongs(w, s, c) && w.spans[s].refs != [];
    w.spans[s].refs[0]
  }

  /** The first reference of every segment, in the order of addition: a segment that had none before a
      step and has one after it has got its first. */
  ghost function Noted(first: map<ContextId, SegmentRef>, w: World, v: World): map<ContextId, SegmentRef> {
    map c | c in v.contexts && (c in first || (Referenced(v, c) && !Referenced(w, c))) ::
      if c in first then first[c] else FirstOf(v, c)
  }

  /** What holds between a world and the next, whatever the step. */
  ghost predicate Follows(w: World, step: Step, v: World) {
    && RefsFollow(w, v, Added(w, step)) && AddedAt(w, step, v)
    && PrimariesFollow(w, v, Relating(w, step))
    && (step.Enter? ==> EntryPrimaries(w, step, v))
    && (!step.Enter? ==> v.contexts.Keys == w.contexts.Keys)
    && KeepsSpans(w, v) && KeepsNoop(w, v)
    && v.spans.Keys <= w.spans.Keys + (if step.Enter? then {step.span} else {})
  }

  lemma StepFollows(w: World, step: Step)
    requires Inv(w, {}) && NamesEveryTrace(w) && Enabled(w, step)
    ensures Follows(w, step, Apply(w, step))
  {
    InvRelated(w, {});
    StepRefs(w, step);
    StepAddedAt(w, step);
    StepPrimaries(w, step);
    StepKeepsSpans(w, step);
    StepKeepsNoop(w, step);
  }

  /** The step gives context `c` a reference. */
  ghost predicate Gives(w: World, step: Step, c: ContextId) {
    Added(w, step).Some? && Added(w, step).value.1 != [] && AddedHome(w, step) == c
  }

  lemma ReferencedAfter(w: World, step: Step, v: World, c: ContextId)
    requires RefsFollow(w, v, Added(w, step)) && AddedAt(w, step, v) && KeepsSpans(w, v)
    ensures Referenced(v, c) <==> Referenced(w, c) || Gives(w, step, c)
    ensures !Referenced(w, c) && Referenced(v, c) ==> FirstOf(v, c) == Added(w, step).value.1[0]
  {
    if Referenced(w, c) {
      var s :| Belongs(w, s, c) && w.spans[s].refs != [];
      assert Belongs(v, s, c) && v.spans[s].refs != [];
    }
    if Gives(w, step, c) {
      var s := Added(w, step).value.0;
      assert Belongs(v, s, c) && v.spans[s].refs != [];
    }
    forall s | Belongs(v, s, c) && v.spans[s].refs != [] && !Referenced(w, c)
      ensures Gives(w, step, c) && v.spans[s].refs[0] == Added(w, step).value.1[0]
    {
      if s in w.spans {
        assert Belongs(w, s, c) && w.spans[s].refs == [];
        assert [] + AddedTo(Added(w, step), s) == AddedTo(Added(w, step), s);
      }
    }
  }

  /** Every segment's first reference names its trace. Besides, suppressed spans have no references, and a
      segment that has one does not have a made-up trace id. */
  ghost predicate Anchored(w: World, first: map<ContextId, SegmentRef>) {
    && (forall s :: s in w.spans && w.spans[s].noop ==> w.spans[s].refs == [])
    && (forall c :: c in w.contexts && !w.contexts[c].noop ==> (Referenced(w, c) ==> !Primary(w, c).generated))
    && (forall c :: c in first <==> c in w.contexts && Referenced(w, c))
    && (forall c :: c in first ==> Heads(w, c, first[c]))
    && (forall c :: c in first ==> first[c].traceId == Primary(w, c).value)
  }

  /** The reference stands first in a span of the context. */
  ghost predicate Heads(w: World, c: ContextId, ref: SegmentRef) {
    exists s :: Belongs(w, s, c) && w.spans[s].refs != [] && w.spans[s].refs[0] == ref
  }

  /** A reference with trace id `id` does not give the segment of `c` a first reference that names another
      trace: there is one already, the made-up id gives way to `id`, or `id` is the segment's own. */
  ghost predicate MayName(w: World, c: ContextId, id: Bytes) {
    Referenced(w, c) || (if Primary(w, c).generated then id != [] else id == Primary(w, c).value)
  }

  /** No segment gets a first reference that names another trace than its own. */
  ghost predicate Anchors(w: World, step: Step) {
    match step
    case Enter(t, r, _, _) =>
      && (EntersUnder(w, step) && BringsCarrier(r) ==>
            MayName(w, w.spans[Top(w, t).value].context, r.carrier.value.fields.traceId))
      && (OpensSegment(w, step, true) ==>
            var parent := w.spans[Top(w, t).value];
            var f := ParentCarrier(parent, w.contexts[parent.context], r.config);
            || (f.Ok? && IsValid(f.value)) || !BringsCarrier(r)
            || r.carrier.value.fields.traceId == Primary(w, parent.context).value)
    case Extracts(s, f, _) =>
      SpanKnown(w, s) && !w.spans[s].noop && IsValid(f) ==> MayName(w, w.spans[s].context, f.traceId)
    case Continued(t, p, _, _) =>
      TaskKnown(w, t) && w.stacks[t] != [] && Continues(w, t, p) ==>
        MayName(w, w.spans[Top(w, t).value].context, p.traceId.value)
    case _ => true
  }

  /** One context's share of `Anchored`. */
  ghost predicate AnchoredAt(w: World, c: ContextId, first: map<ContextId, SegmentRef>) {
    && (Referenced(w, c) ==> !Primary(w, c).generated)
    && (c in first ==> first[c].traceId == Primary(w, c).value)
  }

  /** The step relates `c`, whose id is made up. */
  ghost predicate Renames(w: World, step: Step, c: ContextId) {
    Relating(w, step).Some? && Relating(w, step).value.0 == c && Primary(w, c).generated
  }

  /** The step gives `c` its first reference, and with another id than `c` then has. */
  ghost predicate Misnames(w: World, step: Step, c: ContextId) {
    && Gives(w, step, c) && !Referenced(w, c)
    && Added(w, step).value.1[0].traceId
       != (if Renames(w, step, c) then Relating(w, step).value.1 else Primary(w, c).value)
  }

  /** A reference to an old context comes with a relation. */
  lemma GivesRelates(w: World, step: Step, c: ContextId)
    requires Gives(w, step, c) && c in w.contexts && (step.Enter? ==> step.context !in w.contexts)
    ensures Relating(w, step).Some? && Relating(w, step).value.0 == c
  {
  }

  lemma OldContextAnchored(w: World, step: Step, v: World, first: map<ContextId, SegmentRef>, c: ContextId)
    requires Anchored(w, first) && Follows(w, step, v) && c in w.contexts && !w.contexts[c].noop
    requires step.Enter? ==> step.context !in w.contexts
    ensures AnchoredAt(v, c, Noted(first, w, v)) <==> !Misnames(w, step, c)
  {
    ReferencedAfter(w, step, v, c);
    if Gives(w, step, c) {
      GivesRelates(w, step, c);
    }
    PrimaryAfter(w, step, v, c);
    NotedAt(first, w, v, c);
  }

  lemma PrimaryAfter(w: World, step: Step, v: World, c: ContextId)
    requires PrimariesFollow(w, v, Relating(w, step)) && c in w.contexts
    ensures c in v.contexts
    ensures Primary(v, c) == if Renames(w, step, c) then TraceId(Relating(w, step).value.1, false) else Primary(w, c)
  {
  }

  lemma NotedAt(first: map<ContextId, SegmentRef>, w: World, v: World, c: ContextId)
    requires c in v.contexts
    ensures c in Noted(first, w, v) <==> c in first || (Referenced(v, c) && !Referenced(w, c))
    ensures c in Noted(first, w, v) ==> Noted(first, w, v)[c] == if c in first then first[c] else FirstOf(v, c)
  {
  }

  lemma NewContextAnchored(w: World, step: Step, v: World, first: map<ContextId, SegmentRef>)
    requires SpansOk(w, {}) && Anchored(w, first) && Follows(w, step, v) && step.Enter? && step.context !in w.contexts
    requires OpensSegment(w, step, false)
    ensures AnchoredAt(v, step.context, Noted(first, w, v))
  {
    ReferencedAfter(w, step, v, step.context);
    NewIsUnreferenced(w, step.context, first);
  }

  lemma NewIsUnreferenced(w: World, c: ContextId, first: map<ContextId, SegmentRef>)
    requires SpansOk(w, {}) && Anchored(w, first) && c !in w.contexts
    ensures c !in first && !Referenced(w, c)
  {
    forall s | s in w.spans
      ensures w.spans[s].context != c
    {
      assert SpanOk(w, s, {});
    }
  }

  /** The references of a span split off a finished parent. */
  lemma SplitRefs(w: World, step: Step)
    requires OpensSegment(w, step, true)
    ensures var parent := w.spans[Top(w, step.task).value];
            var f := ParentCarrier(parent, w.contexts[parent.context], step.request.config);
            var refs := Added(w, step).value.1;
            && (refs != [] <==> (f.Ok? && IsValid(f.value)) || BringsCarrier(step.request))
            && (refs != [] ==> refs[0].traceId == if f.Ok? && IsValid(f.value) then Primary(w, parent.context).value
                                                  else step.request.carrier.value.fields.traceId)
  {
  }

  lemma SplitContextAnchored(w: World, step: Step, v: World, first: map<ContextId, SegmentRef>)
    requires SpansOk(w, {}) && NamesEveryTrace(w)
    requires Anchored(w, first) && Follows(w, step, v) && step.Enter? && step.context !in w.contexts
    requires OpensSegment(w, step, true)
    ensures AnchoredAt(v, step.context, Noted(first, w, v)) <==> Anchors(w, step)
  {
    ReferencedAfter(w, step, v, step.context);
    NewIsUnreferenced(w, step.context, first);
    TopHasTrace(w, step.task, step.request);
    SplitRefs(w, step);
  }

  lemma UnderExactly(w: World, step: Step)
    requires SpansOk(w, {}) && EntersUnder(w, step) && step.context !in w.contexts
    ensures Anchors(w, step) <==> !Misnames(w, step, w.spans[Top(w, step.task).value].context)
  {
  }

  lemma ExtractExactly(w: World, step: Step)
    requires SpansOk(w, {}) && step.Extracts? && SpanKnown(w, step.span) && !w.spans[step.span].noop
    ensures Anchors(w, step) <==> !Misnames(w, step, w.spans[step.span].context)
  {
    var c := w.spans[step.span].context;
    if !Referenced(w, c) {
      assert Belongs(w, step.span, c) && w.spans[step.span].refs == [];
    }
  }

  lemma ContinueExactly(w: World, step: Step)
    requires step.Continued? && DrawsIds(step) && TaskKnown(w, step.task) && w.stacks[step.task] != []
    requires Continues(w, step.task, step.snapshot)
    ensures Anchors(w, step) <==> !Misnames(w, step, w.spans[Top(w, step.task).value].context)
  {
  }

  /** Only the context whose segment is related can get a first reference with a wrong id. */
  lemma MisnamesRelated(w: World, step: Step, c: ContextId)
    requires Misnames(w, step, c) && c in w.contexts && (step.Enter? ==> step.context !in w.contexts)
    ensures Relating(w, step).Some? && Relating(w, step).value.0 == c
  {
    GivesRelates(w, step, c);
  }

  lemma RelatedExactly(w: World, step: Step)
    requires SpansOk(w, {}) && DrawsIds(step) && Relating(w, step).Some? && !OpensSegment(w, step, true)
    requires step.Enter? ==> step.context !in w.contexts
    ensures var c := Relating(w, step).value.0;
            c in w.contexts && !w.contexts[c].noop && (Anchors(w, step) <==> !Misnames(w, step, c))
  {
    match step
    case Enter(t, _, _, _) => UnderExactly(w, step);
    case Extracts(s, _, _) =>
      assert SpanOk(w, s, {});
      ExtractExactly(w, step);
    case Continued(_, _, _, _) => ContinueExactly(w, step);
  }

  lemma UnrelatedIsAnchored(w: World, step: Step)
    requires Relating(w, step).None? && !OpensSegment(w, step, true)
    ensures Anchors(w, step)
  {
  }

  /** The condition on the state says of every context that it does not get a first reference to another
      trace. */
  lemma AnchorsExactly(w: World, step: Step)
    requires SpansOk(w, {}) && DrawsIds(step) && !OpensSegment(w, step, true)
    requires step.Enter? ==> step.context !in w.contexts
    ensures Anchors(w, step) <==> forall c :: c in w.contexts && !w.contexts[c].noop ==> !Misnames(w, step, c)
  {
    forall c | c in w.contexts && Misnames(w, step, c)
      ensures Relating(w, step).Some? && Relating(w, step).value.0 == c
    {
      MisnamesRelated(w, step, c);
    }
    if Relating(w, step).Some? {
      RelatedExactly(w, step);
    } else {
      UnrelatedIsAnchored(w, step);
    }
  }

  lemma HeadsStay(w: World, v: World, a: Option<(SpanId, seq<SegmentRef>)>, c: ContextId, ref: SegmentRef)
    requires RefsFollow(w, v, a) && KeepsSpans(w, v) && Heads(w, c, ref)
    ensures Heads(v, c, ref)
  {
    var s :| Belongs(w, s, c) && w.spans[s].refs != [] && w.spans[s].refs[0] == ref;
    assert Belongs(v, s, c) && v.spans[s].refs[0] == ref;
  }

  lemma NotedHeads(w: World, step: Step, v: World, first: map<ContextId, SegmentRef>, c: ContextId)
    requires SpansOk(w, {}) && Anchored(w, first) && Follows(w, step, v) && c in v.contexts
    ensures c in Noted(first, w, v) <==> Referenced(v, c)
    ensures c in Noted(first, w, v) ==> Heads(v, c, Noted(first, w, v)[c])
  {
    ReferencedAfter(w, step, v, c);
    NotedAt(first, w, v, c);
    if c !in w.contexts {
      NewIsUnreferenced(w, c, first);
    }
    if c in first {
      HeadsStay(w, v, Added(w, step), c, first[c]);
    } else if Referenced(v, c) {
      var s :| Belongs(v, s, c) && v.spans[s].refs != [] && v.spans[s].refs[0] == FirstOf(v, c);
    }
  }

  lemma DarkStayBare(w: World, step: Step, v: World, first: map<ContextId, SegmentRef>)
    requires Anchored(w, first) && Follows(w, step, v)
    ensures forall s :: s in v.spans && v.spans[s].noop ==> v.spans[s].refs == []
  {
  }

  /** A referenced context is traced. */
  lemma ReferencedIsTraced(w: World, c: ContextId)
    requires SpansOk(w, {}) && Referenced(w, c) && forall s :: s in w.spans && w.spans[s].noop ==> w.spans[s].refs == []
    ensures c in w.contexts && !w.contexts[c].noop
  {
    var s :| Belongs(w, s, c) && w.spans[s].refs != [];
    assert SpanOk(w, s, {});
  }

  /** Every traced context has its share. */
  ghost predicate AllAnchored(w: World, first: map<ContextId, SegmentRef>) {
    forall c :: c in w.contexts && !w.contexts[c].noop ==> AnchoredAt(w, c, first)
  }

  /** All that `Anchored` says context by context. */
  lemma AnchoredByContext(w: World, step: Step, v: World, first: map<ContextId, SegmentRef>)
    requires SpansOk(w, {}) && SpansOk(v, {}) && Anchored(w, first) && Follows(w, step, v)
    ensures Anchored(v, Noted(first, w, v)) <==> AllAnchored(v, Noted(first, w, v))
  {
    DarkStayBare(w, step, v, first);
    forall c | c in v.contexts
      ensures c in Noted(first, w, v) <==> Referenced(v, c)
      ensures c in Noted(first, w, v) ==> Heads(v, c, Noted(first, w, v)[c]) && !v.contexts[c].noop
    {
      NotedHeads(w, step, v, first, c);
      if Referenced(v, c) {
        ReferencedIsTraced(v, c);
      }
    }
    AnchoredIs(v, Noted(first, w, v));
  }

  lemma AnchoredIs(v: World, next: map<ContextId, SegmentRef>)
    requires forall s :: s in v.spans && v.spans[s].noop ==> v.spans[s].refs == []
    requires forall c :: c in next ==> c in v.contexts
    requires forall c :: c in v.contexts ==> (c in next <==> Referenced(v, c))
    requires forall c :: c in next ==> Heads(v, c, next[c]) && !v.contexts[c].noop
    ensures Anchored(v, next) <==> AllAnchored(v, next)
  {
  }

  /** A step that opens a segment relates no other. */
  lemma OpenedAlone(w: World, step: Step, v: World, split: bool)
    requires SpansOk(v, {}) && Follows(w, step, v) && OpensSegment(w, step, split)
    ensures Relating(w, step) == None && step.context in v.contexts && !v.contexts[step.context].noop
  {
    var s := Added(w, step).value.0;
    assert SpanOk(v, s, {});
  }

  ghost predicate OldAnchored(w: World, v: World, first: map<ContextId, SegmentRef>) {
    forall c :: c in w.contexts && !w.contexts[c].noop ==> c in v.contexts && AnchoredAt(v, c, first)
  }

  lemma OldContextsAnchored(w: World, step: Step, v: World, first: map<ContextId, SegmentRef>)
    requires Anchored(w, first) && Follows(w, step, v)
    requires step.Enter? ==> step.context !in w.contexts
    ensures OldAnchored(w, v, Noted(first, w, v))
            <==> forall c :: c in w.contexts && !w.contexts[c].noop ==> !Misnames(w, step, c)
  {
    forall c | c in w.contexts && !w.contexts[c].noop
      ensures c in v.contexts
      ensures AnchoredAt(v, c, Noted(first, w, v)) <==> !Misnames(w, step, c)
    {
      OldContextAnchored(w, step, v, first, c);
    }
  }

  /** Old contexts and at most one new one. */
  lemma AllAreOldOrNew(w: World, step: Step, v: World, next: map<ContextId, SegmentRef>)
    requires Follows(w, step, v) && (step.Enter? ==> step.context !in w.contexts)
    ensures AllAnchored(v, next)
            <==> && OldAnchored(w, v, next)
                 && (step.Enter? && step.context in v.contexts && !v.contexts[step.context].noop ==>
                       AnchoredAt(v, step.context, next))
  {
    assert forall c :: c in w.contexts ==> c in v.contexts;
  }

  lemma ContextsAnchored(w: World, step: Step, v: World, first: map<ContextId, SegmentRef>)
    requires SpansOk(w, {}) && SpansOk(v, {}) && NamesEveryTrace(w) && Anchored(w, first) && Follows(w, step, v)
    requires DrawsIds(step) && (step.Enter? ==> step.context !in w.contexts)
    ensures AllAnchored(v, Noted(first, w, v)) <==> Anchors(w, step)
  {
    AllAreOldOrNew(w, step, v, Noted(first, w, v));
    OldContextsAnchored(w, step, v, first);
    if OpensSegment(w, step, true) {
      OpenedAlone(w, step, v, true);
      SplitContextAnchored(w, step, v, first);
    } else {
      AnchorsExactly(w, step);
      if OpensSegment(w, step, false) {
        NewContextAnchored(w, step, v, first);
      }
    }
  }

  /** A step keeps every segment's first reference in the segment's own trace exactly when it does not give
      a segment a first reference that names another one. In particular an extraction without a valid
      carrier always does. */
  lemma FirstReferenceNamesTrace(w: World, step: Step, first: map<ContextId, SegmentRef>)
    requires Inv(w, {}) && NamesEveryTrace(w) && Anchored(w, first)
    requires Enabled(w, step) && ReuseIsLive(w, step) && DrawsIds(step)
    ensures Anchored(Apply(w, step), Noted(first, w, Apply(w, step))) <==> Anchors(w, step)
  {
    var v := Apply(w, step);
    StepFollows(w, step);
    StepKeepsInv(w, step);
    AnchoredByContext(w, step, v, first);
    ContextsAnchored(w, step, v, first);
  }
}
