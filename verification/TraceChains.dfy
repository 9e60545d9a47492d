/** Chains of first references over whole runs: segments that they join share one trace id, across
    processes, threads and finished parents. */
module TraceChains {
  import opened Text
  import opened Base64
  import opened Carrier
  import opened TraceEngine
  import opened TraceInvariant
  import opened TraceRuns
  import opened TraceLineage
  import opened TraceFirstRefs

  // ----- segment ids -----

  ghost predicate KeepsIds(w: World, v: World) {
    forall c :: c in w.contexts ==> c in v.contexts && v.contexts[c].segment.id == w.contexts[c].segment.id
  }

  lemma AddSpanIds(w: World, parent: Option<SpanId>, r: Request, s: SpanId, c: ContextId)
    requires (parent.Some? ==> SpanKnown(w, parent.value)) && c !in w.contexts
    ensures var v := AddSpan(w, parent, r, s, c);
            KeepsIds(w, v) && v.contexts.Keys <= w.contexts.Keys + {c}
            && (c in v.contexts ==> v.contexts[c].segment.id == r.segmentId)
  {
  }

  lemma ExtractIds(w: World, s: SpanId, f: Fields, fallback: Bytes)
    requires SpanKnown(w, s)
    ensures KeepsIds(w, Extract(w, s, f, fallback)) && Extract(w, s, f, fallback).contexts.Keys == w.contexts.Keys
  {
  }

  lemma FinishIds(w: World, s: SpanId, r: Request)
    requires SpanKnown(w, s)
    ensures KeepsIds(w, Finish(w, s, r)) && Finish(w, s, r).contexts.Keys == w.contexts.Keys
  {
    if BringsCarrier(r) {
      ExtractIds(w, s, r.carrier.value.fields, r.traceId);
    }
  }

  /** The only new context, if any, is `c`, with the id that was drawn or suppressed. */
  ghost predicate NewIds(w: World, v: World, c: ContextId, id: Bytes) {
    && KeepsIds(w, v) && v.contexts.Keys <= w.contexts.Keys + {c}
    && (c in v.contexts && c !in w.contexts && !v.contexts[c].noop ==> v.contexts[c].segment.id == id)
  }

  lemma NewSpanIds(w: World, parent: Option<SpanId>, r: Request, s: SpanId, c: ContextId)
    requires (parent.Some? ==> SpanKnown(w, parent.value)) && c !in w.contexts && NewSpan(w, parent, r, s, c).Created?
    ensures NewIds(w, NewSpan(w, parent, r, s, c).world, c, r.segmentId)
  {
    var bare := AddSpan(w, parent, r, s, c);
    AddSpanIds(w, parent, r, s, c);
    if parent.Some? && w.spans[parent.value].depth == 0 {
      var p := w.spans[parent.value];
      var f := ParentCarrier(p, w.contexts[p.context], r.config).value;
      ExtractIds(bare, s, f, r.traceId);
      FinishIds(Extract(bare, s, f, r.traceId), s, r);
    } else {
      FinishIds(bare, s, r);
    }
  }

  lemma CreateIds(w: World, t: TaskId, r: Request, s: SpanId, c: ContextId)
    requires Enabled(w, Enter(t, r, s, c))
    ensures NewIds(w, Create(w, t, r, s, c).world, c, r.segmentId)
  {
    if !UnderNoop(w, t, r) && !Suppresses(r) && !TakesOver(w, t, r) {
      NewSpanIds(w, Top(w, t), r, s, c);
    }
  }

  lemma StartIds(w: World, t: TaskId, s: SpanId)
    requires t in w.stacks && SpanKnown(w, s)
    ensures KeepsIds(w, Start(w, t, s)) && Start(w, t, s).contexts.Keys == w.contexts.Keys
    ensures KeepsNoop(w, Start(w, t, s))
  {
  }

  /** No step changes a segment's id, and a new one has the id that the step drew. */
  lemma StepIds(w: World, step: Step)
    requires Enabled(w, step)
    ensures KeepsIds(w, Apply(w, step))
    ensures step.Enter? ==> NewIds(w, Apply(w, step), step.context, step.request.segmentId)
    ensures !step.Enter? ==> Apply(w, step).contexts.Keys == w.contexts.Keys
  {
    match step
    case Enter(t, r, s, c) =>
      var made := Create(w, t, r, s, c);
      CreateIds(w, t, r, s, c);
      StartIds(made.world, t, made.span);
    case Extracts(s, f, fallback) => ExtractIds(w, s, f, fallback);
    case _ =>
  }

  // ----- what a reference names -----

  ghost predicate IsTraced(w: World, c: ContextId) {
    c in w.contexts && !w.contexts[c].noop
  }

  ghost predicate DistinctIds(w: World) {
    forall c, d :: IsTraced(w, c) && IsTraced(w, d) && w.contexts[c].segment.id == w.contexts[d].segment.id ==> c == d
  }

  /** Whatever segment of the net the reference names, that segment is in the trace it names. */
  ghost predicate Accounts(n: Net, ref: SegmentRef) {
    forall d :: IsTraced(n.world, d) && n.world.contexts[d].segment.id == ref.segmentId ==>
      Exported(n, d) && Primary(n.world, d).value == ref.traceId
  }

  ghost predicate Names(n: Net, first: map<ContextId, SegmentRef>) {
    && (forall c :: c in first ==> Accounts(n, first[c]))
    && (forall i, d :: 0 <= i < |n.wire| && SentFrom(n, i, d) ==> HeaderNames(n, i, d))
    && (forall k, d :: 0 <= k < |n.captured| && CapturedFrom(n, k, d) ==>
          d in n.world.contexts && n.captured[k].snapshot.segmentId == Some(n.world.contexts[d].segment.id))
  }

  ghost predicate HeaderNames(n: Net, i: nat, d: ContextId) {
    && i < |n.wire| && d in n.world.contexts && Receive(n.wire[i].header).Ok?
    && Receive(n.wire[i].header).value.fields.segmentId == n.world.contexts[d].segment.id
  }

  /** No segment of the net has the id. */
  ghost predicate Unknown(w: World, id: Bytes) {
    forall d :: IsTraced(w, d) ==> w.contexts[d].segment.id != id
  }

  /** Ids are drawn fresh, and what comes from outside names segments from outside. */
  ghost predicate Honest(n: Net, first: map<ContextId, SegmentRef>, m: Move) {
    StepOf(n, m).Some? ==>
      && (StepOf(n, m).value.Enter? ==>
            var id := StepOf(n, m).value.request.segmentId;
            Unknown(n.world, id) && forall c :: c in first ==> first[c].segmentId != id)
      && (m.Plain? ==>
            match m.step
            case Enter(_, r, _, _) =>
              BringsCarrier(r) ==>
                Unknown(n.world, r.carrier.value.fields.segmentId) && r.carrier.value.fields.segmentId != r.segmentId
            case Extracts(_, f, _) => Unknown(n.world, f.segmentId)
            case Continued(_, p, _, _) => p.segmentId.Some? ==> Unknown(n.world, p.segmentId.value)
            case _ => true)
  }

  /** Everything exported stays exported, with its trace. */
  lemma ExportedStays(n: Net, step: Step, v: World, causes: set<SpanId>, a: Option<(ContextId, ContextId)>, d: ContextId)
    requires KeepsSpans(n.world, v) && (a.Some? ==> a.value.0 !in n.origin) && Exported(n, d)
    ensures Exported(Record(n, step, v, causes, a), d)
  {
    var u := Record(n, step, v, causes, a);
    if i :| 0 <= i < |n.wire| && SentFrom(n, i, d) {
      assert SentFrom(u, i, d);
    } else if k :| 0 <= k < |n.captured| && CapturedFrom(n, k, d) {
      assert CapturedFrom(u, k, d);
    } else {
      var e :| e in n.origin && n.origin[e] == d;
      assert e in u.origin && u.origin[e] == d;
    }
  }

  lemma AccountsStays(n: Net, step: Step, v: World, causes: set<SpanId>, a: Option<(ContextId, ContextId)>, ref: SegmentRef)
    requires Accounts(n, ref) && KeepsSpans(n.world, v) && KeepsNoop(n.world, v) && KeepsIds(n.world, v)
    requires PrimariesFollow(n.world, v, Relating(n.world, step)) && !Rewrites(n, step)
    requires a.Some? ==> a.value.0 !in n.origin
    requires forall d :: IsTraced(v, d) && d !in n.world.contexts ==> v.contexts[d].segment.id != ref.segmentId
    ensures Accounts(Record(n, step, v, causes, a), ref)
  {
    var u := Record(n, step, v, causes, a);
    forall d | IsTraced(v, d) && v.contexts[d].segment.id == ref.segmentId
      ensures Exported(u, d) && Primary(v, d).value == ref.traceId
    {
      assert IsTraced(n.world, d);
      ExportedStays(n, step, v, causes, a, d);
    }
  }

  // ----- where references come from -----

  lemma UnknownAccounts(n: Net, ref: SegmentRef)
    requires Unknown(n.world, ref.segmentId)
    ensures Accounts(n, ref)
  {
  }

  /** A header that can be referred to was sent from a traced segment. */
  lemma ValidHeaderIsTraced(n: Net, i: nat)
    requires Suppressing(n) && i < |n.wire| && Receive(n.wire[i].header).Ok?
    requires IsValid(Receive(n.wire[i].header).value.fields)
    ensures n.wire[i].sender in n.world.spans && !n.world.spans[n.wire[i].sender].noop
  {
    if Dark(n.world, n.wire[i].sender) {
      EmptyHeaderSuppresses();
    }
  }

  lemma HeaderAccounts(n: Net, first: map<ContextId, SegmentRef>, i: nat)
    requires OneTrace(n) && Names(n, first) && DistinctIds(n.world) && SpansOk(n.world, {})
    requires i < |n.wire| && n.wire[i].sender in n.world.spans && !n.world.spans[n.wire[i].sender].noop
    requires Receive(n.wire[i].header).Ok? && IsValid(Receive(n.wire[i].header).value.fields)
    ensures Accounts(n, RefTo(Receive(n.wire[i].header).value.fields))
    ensures !Unknown(n.world, Receive(n.wire[i].header).value.fields.segmentId)
  {
    var e := n.world.spans[n.wire[i].sender].context;
    assert SpanOk(n.world, n.wire[i].sender, {});
    assert SentFrom(n, i, e) && HeaderNames(n, i, e);
    assert Exported(n, e) && IsTraced(n.world, e);
    DeliveredTrace(n, i);
  }

  lemma SnapshotAccounts(n: Net, first: map<ContextId, SegmentRef>, k: nat, g: Config)
    requires OneTrace(n) && SnapshotsTraced(n) && Names(n, first) && DistinctIds(n.world)
    requires k < |n.captured| && SnapshotValid(n.captured[k].snapshot)
    ensures Accounts(n, ThreadRef(n.captured[k].snapshot, g))
  {
    var e := n.captured[k].context;
    assert CapturedFrom(n, k, e);
    assert Exported(n, e) && IsTraced(n.world, e);
  }

  /** What holds of a net in which all first references name their traces and segments. */
  ghost predicate Linked(n: Net, first: map<ContextId, SegmentRef>) {
    Traced(n) && Anchored(n.world, first) && Names(n, first) && DistinctIds(n.world)
  }

  /** A carrier brought along names a segment in its trace, and not the one being opened. */
  lemma CarrierAccounts(n: Net, first: map<ContextId, SegmentRef>, m: Move, step: Step)
    requires Linked(n, first) && MoveEnabled(n, m) && StepOf(n, m) == Some(step) && Honest(n, first, m)
    requires step.Enter? && BringsCarrier(step.request)
    ensures Accounts(n, RefTo(step.request.carrier.value.fields))
    ensures step.request.carrier.value.fields.segmentId != step.request.segmentId
  {
    if m.Plain? {
      UnknownAccounts(n, RefTo(step.request.carrier.value.fields));
    } else {
      ValidHeaderIsTraced(n, m.message);
      HeaderAccounts(n, first, m.message);
    }
  }

  /** The state after a step, as `After` records it. */
  ghost predicate Recorded(n: Net, m: Move, step: Step, u: Net) {
    && MoveEnabled(n, m) && StepOf(n, m) == Some(step) && !Rewrites(n, step)
    && u == Record(n, step, u.world, Causes(n, m, step), Adoption(n, m))
    && (Adoption(n, m).Some? ==> Adoption(n, m).value.0 !in n.origin)
    && Follows(n.world, step, u.world) && KeepsIds(n.world, u.world)
    && (step.Enter? ==> NewIds(n.world, u.world, step.context, step.request.segmentId))
  }

  lemma AfterIsRecorded(n: Net, m: Move, step: Step)
    requires Traced(n) && MoveEnabled(n, m) && StepOf(n, m) == Some(step) && !Rewrites(n, step)
    ensures Recorded(n, m, step, After(n, m)) && After(n, m).world == Apply(n.world, step)
  {
    InvRelated(n.world, {});
    StepFollows(n.world, step);
    StepIds(n.world, step);
    MoveAdopts(n, m, step);
  }

  /** A reference that is in order before a step is so after it. */
  lemma StillAccounts(n: Net, m: Move, step: Step, u: Net, ref: SegmentRef)
    requires Recorded(n, m, step, u) && Accounts(n, ref)
    requires step.Enter? ==> ref.segmentId != step.request.segmentId
    ensures Accounts(u, ref)
  {
    AccountsStays(n, step, u.world, Causes(n, m, step), Adoption(n, m), ref);
  }

  /** A reference to a segment that is exported is in order. */
  lemma OneAccounts(w: World, u: Net, p: ContextId, ref: SegmentRef)
    requires IsTraced(w, p) && DistinctIds(w) && KeepsIds(w, u.world) && KeepsNoop(w, u.world)
    requires forall d :: IsTraced(u.world, d) && d !in w.contexts ==> u.world.contexts[d].segment.id != ref.segmentId
    requires ref.segmentId == w.contexts[p].segment.id && Exported(u, p) && Primary(u.world, p).value == ref.traceId
    ensures Accounts(u, ref)
  {
    forall d | IsTraced(u.world, d) && u.world.contexts[d].segment.id == ref.segmentId
      ensures d == p
    {
      assert IsTraced(w, d);
    }
  }

  /** A split records the parent's context as the origin of the new one. */
  lemma SplitOrigin(n: Net, m: Move, step: Step)
    requires MoveEnabled(n, m) && StepOf(n, m) == Some(step) && OpensSegment(n.world, step, true)
    ensures Adoption(n, m) == Some((step.context, n.world.spans[Top(n.world, step.task).value].context))
  {
  }

  /** The finished parent that a split refers to. */
  function ParentOf(w: World, step: Step): Span
    requires OpensSegment(w, step, true)
  {
    w.spans[Top(w, step.task).value]
  }

  lemma ParentAccounts(n: Net, m: Move, step: Step, u: Net, ref: SegmentRef)
    requires SpansOk(n.world, {}) && DistinctIds(n.world) && Recorded(n, m, step, u) && OpensSegment(n.world, step, true)
    requires Unknown(n.world, step.request.segmentId)
    requires ParentOf(n.world, step).context in n.world.contexts
    requires ref.segmentId == n.world.contexts[ParentOf(n.world, step).context].segment.id
    requires ref.traceId == Primary(n.world, ParentOf(n.world, step).context).value
    ensures Accounts(u, ref)
  {
    var p := ParentOf(n.world, step).context;
    ParentIsTraced(n.world, step);
    ParentIsExported(n, m, step, u);
    PrimaryAfter(n.world, step, u.world, p);
    NewIdsDiffer(n.world, step, u.world, ref);
    OneAccounts(n.world, u, p, ref);
  }

  lemma ParentIsExported(n: Net, m: Move, step: Step, u: Net)
    requires MoveEnabled(n, m) && StepOf(n, m) == Some(step) && OpensSegment(n.world, step, true)
    requires u == Record(n, step, u.world, Causes(n, m, step), Adoption(n, m))
    ensures Exported(u, ParentOf(n.world, step).context)
  {
    SplitOrigin(n, m, step);
    assert step.context in u.origin && u.origin[step.context] == ParentOf(n.world, step).context;
  }

  lemma NewIdsDiffer(w: World, step: Step, v: World, ref: SegmentRef)
    requires step.Enter? && NewIds(w, v, step.context, step.request.segmentId) && ref.segmentId != step.request.segmentId
    ensures forall d :: IsTraced(v, d) && d !in w.contexts ==> v.contexts[d].segment.id != ref.segmentId
  {
  }

  lemma ParentIsTraced(w: World, step: Step)
    requires SpansOk(w, {}) && OpensSegment(w, step, true)
    ensures IsTraced(w, ParentOf(w, step).context) && Relating(w, step) == None
  {
    assert SpanOk(w, Top(w, step.task).value, {});
  }

  /** Whose reference comes first: the parent's, or the carrier's. */
  lemma HeadOfEntry(w: World, step: Step)
    requires step.Enter? && Added(w, step).Some? && Added(w, step).value.1 != []
    ensures var head := Added(w, step).value.1[0];
            || (BringsCarrier(step.request) && head == RefTo(step.request.carrier.value.fields))
            || (OpensSegment(w, step, true)
                && head.segmentId == w.contexts[ParentOf(w, step).context].segment.id
                && head.traceId == Primary(w, ParentOf(w, step).context).value)
  {
  }

  lemma CarrierHeadAccounts(n: Net, first: map<ContextId, SegmentRef>, m: Move, step: Step, u: Net, head: SegmentRef)
    requires Linked(n, first) && Recorded(n, m, step, u) && Honest(n, first, m) && step.Enter?
    requires BringsCarrier(step.request) && head == RefTo(step.request.carrier.value.fields)
    ensures Accounts(u, head)
  {
    CarrierAccounts(n, first, m, step);
    StillAccounts(n, m, step, u, head);
  }

  lemma EntryAccounts(n: Net, first: map<ContextId, SegmentRef>, m: Move, step: Step, u: Net)
    requires Linked(n, first) && Recorded(n, m, step, u) && Honest(n, first, m) && step.Enter?
    requires Added(n.world, step).Some? && Added(n.world, step).value.1 != []
    ensures Accounts(u, Added(n.world, step).value.1[0])
  {
    var head := Added(n.world, step).value.1[0];
    HeadOfEntry(n.world, step);
    if BringsCarrier(step.request) && head == RefTo(step.request.carrier.value.fields) {
      CarrierHeadAccounts(n, first, m, step, u, head);
    } else {
      ParentAccounts(n, m, step, u, head);
    }
  }

  /** The first of the references that a step adds is in order after it. */
  lemma AddedAccounts(n: Net, first: map<ContextId, SegmentRef>, m: Move, step: Step, u: Net)
    requires Linked(n, first) && Recorded(n, m, step, u) && Honest(n, first, m)
    requires Added(n.world, step).Some? && Added(n.world, step).value.1 != []
    ensures Accounts(u, Added(n.world, step).value.1[0])
  {
    if step.Enter? {
      EntryAccounts(n, first, m, step, u);
    } else {
      LaterAccounts(n, first, m, step);
      StillAccounts(n, m, step, u, Added(n.world, step).value.1[0]);
    }
  }

  /** What an extraction or a continuation adds. */
  lemma LaterAccounts(n: Net, first: map<ContextId, SegmentRef>, m: Move, step: Step)
    requires Linked(n, first) && MoveEnabled(n, m) && StepOf(n, m) == Some(step) && Honest(n, first, m) && !step.Enter?
    requires Added(n.world, step).Some?
    ensures Accounts(n, Added(n.world, step).value.1[0])
  {
    if step.Extracts? {
      ExtractedAccounts(n, first, m, step);
    } else {
      ContinuedAccounts(n, first, m, step);
    }
  }

  lemma ExtractedAccounts(n: Net, first: map<ContextId, SegmentRef>, m: Move, step: Step)
    requires Linked(n, first) && MoveEnabled(n, m) && StepOf(n, m) == Some(step) && Honest(n, first, m)
    requires step.Extracts? && IsValid(step.fields)
    ensures Accounts(n, RefTo(step.fields))
  {
    if m.Plain? {
      UnknownAccounts(n, RefTo(step.fields));
    } else {
      ValidHeaderIsTraced(n, m.message);
      HeaderAccounts(n, first, m.message);
    }
  }

  lemma ContinuedAccounts(n: Net, first: map<ContextId, SegmentRef>, m: Move, step: Step)
    requires Linked(n, first) && MoveEnabled(n, m) && StepOf(n, m) == Some(step) && Honest(n, first, m)
    requires step.Continued? && SnapshotValid(step.snapshot)
    ensures Accounts(n, ThreadRef(step.snapshot, step.config))
  {
    if m.Plain? {
      UnknownAccounts(n, ThreadRef(step.snapshot, step.config));
    } else {
      SnapshotAccounts(n, first, m.index, step.config);
    }
  }

  lemma FirstsAccount(n: Net, first: map<ContextId, SegmentRef>, m: Move, step: Step, u: Net, c: ContextId)
    requires Linked(n, first) && Recorded(n, m, step, u) && Honest(n, first, m)
    requires c in Noted(first, n.world, u.world)
    ensures Accounts(u, Noted(first, n.world, u.world)[c])
  {
    NotedAt(first, n.world, u.world, c);
    if c in first {
      StillAccounts(n, m, step, u, first[c]);
    } else {
      ReferencedAfter(n.world, step, u.world, c);
      AddedAccounts(n, first, m, step, u);
    }
  }

  lemma WireStillNames(n: Net, first: map<ContextId, SegmentRef>, m: Move, step: Step, u: Net)
    requires Suppressing(n) && Names(n, first) && Recorded(n, m, step, u)
    ensures forall i, d :: 0 <= i < |u.wire| && SentFrom(u, i, d) ==> HeaderNames(u, i, d)
    ensures forall k, d :: 0 <= k < |u.captured| && CapturedFrom(u, k, d) ==>
              d in u.world.contexts && u.captured[k].snapshot.segmentId == Some(u.world.contexts[d].segment.id)
  {
    forall i, d | 0 <= i < |u.wire| && SentFrom(u, i, d)
      ensures HeaderNames(u, i, d)
    {
      assert SentFrom(n, i, d) && HeaderNames(n, i, d);
    }
    forall k, d | 0 <= k < |u.captured| && CapturedFrom(u, k, d)
      ensures d in u.world.contexts && u.captured[k].snapshot.segmentId == Some(u.world.contexts[d].segment.id)
    {
      assert CapturedFrom(n, k, d);
    }
  }

  lemma StillDistinct(n: Net, first: map<ContextId, SegmentRef>, m: Move, step: Step, u: Net)
    requires DistinctIds(n.world) && Recorded(n, m, step, u) && Honest(n, first, m)
    ensures DistinctIds(u.world)
  {
    forall c, d | IsTraced(u.world, c) && IsTraced(u.world, d) && u.world.contexts[c].segment.id == u.world.contexts[d].segment.id
      ensures c == d
    {
      assert c in n.world.contexts ==> IsTraced(n.world, c);
      assert d in n.world.contexts ==> IsTraced(n.world, d);
    }
  }

  // ----- the moves that are not steps of the engine -----

  lemma NotedInPlace(w: World, first: map<ContextId, SegmentRef>)
    requires Anchored(w, first)
    ensures Noted(first, w, w) == first
  {
  }

  lemma SentStillAccounts(n: Net, u: Net, ref: SegmentRef)
    requires u.world == n.world && u.origin == n.origin && n.wire <= u.wire && n.captured <= u.captured && Accounts(n, ref)
    ensures Accounts(u, ref)
  {
    forall d | IsTraced(n.world, d) && n.world.contexts[d].segment.id == ref.segmentId
      ensures Exported(u, d)
    {
      if i :| 0 <= i < |n.wire| && SentFrom(n, i, d) {
        assert u.wire[i] == n.wire[i] && SentFrom(u, i, d);
      } else if k :| 0 <= k < |n.captured| && CapturedFrom(n, k, d) {
        assert u.captured[k] == n.captured[k] && CapturedFrom(u, k, d);
      }
    }
  }

  lemma InjectedNames(w: World, s: SpanId, g: Config)
    requires CanInject(w, s) && !w.spans[s].noop && SpansOk(w, {})
    ensures Receive(InjectedHeader(w, s, g)).Ok?
    ensures Receive(InjectedHeader(w, s, g)).value.fields.segmentId == w.contexts[w.spans[s].context].segment.id
  {
    assert SpanOk(w, s, {});
    var f := CarrierOf(w.spans[s], w.contexts[w.spans[s].context], w.spans[s].peer.value, g);
    DecimalHasNoDash(w.spans[s].sid);
    HeaderRoundTrip(f);
  }

  lemma SentKeepsNames(n: Net, first: map<ContextId, SegmentRef>, s: SpanId, header: string)
    requires Names(n, first) && SpanKnown(n.world, s)
    requires !n.world.spans[s].noop ==>
               && Receive(header).Ok?
               && Receive(header).value.fields.segmentId == n.world.contexts[n.world.spans[s].context].segment.id
    ensures Names(n.(wire := n.wire + [Message(header, s)]), first)
  {
    var u := n.(wire := n.wire + [Message(header, s)]);
    forall c | c in first
      ensures Accounts(u, first[c])
    {
      SentStillAccounts(n, u, first[c]);
    }
    forall i, d | 0 <= i < |u.wire| && SentFrom(u, i, d)
      ensures HeaderNames(u, i, d)
    {
      if i < |n.wire| {
        assert SentFrom(n, i, d) && HeaderNames(n, i, d);
      }
    }
    assert forall k, d :: CapturedFrom(u, k, d) <==> CapturedFrom(n, k, d);
  }

  lemma InjectKeepsNames(n: Net, first: map<ContextId, SegmentRef>, m: Move)
    requires SpansOk(n.world, {}) && Names(n, first) && m.Inject? && MoveEnabled(n, m)
    ensures Names(After(n, m), first)
  {
    if !n.world.spans[m.span].noop {
      InjectedNames(n.world, m.span, m.config);
    }
    SentKeepsNames(n, first, m.span, InjectedHeader(n.world, m.span, m.config));
  }

  lemma CaptureKeepsNames(n: Net, first: map<ContextId, SegmentRef>, m: Move)
    requires Names(n, first) && m.CaptureIn? && MoveEnabled(n, m)
    ensures Names(After(n, m), first)
  {
    var u := After(n, m);
    forall c | c in first
      ensures Accounts(u, first[c])
    {
      SentStillAccounts(n, u, first[c]);
    }
    forall i, d | 0 <= i < |u.wire| && SentFrom(u, i, d)
      ensures HeaderNames(u, i, d)
    {
      assert SentFrom(n, i, d) && HeaderNames(n, i, d);
    }
    forall k, d | 0 <= k < |u.captured| && CapturedFrom(u, k, d)
      ensures d in u.world.contexts && u.captured[k].snapshot.segmentId == Some(u.world.contexts[d].segment.id)
    {
      if k < |n.captured| {
        assert CapturedFrom(n, k, d);
      }
    }
  }

  // ----- runs -----

  /** A net and the first reference that each segment got. */
  datatype Ledger = Ledger(net: Net, first: map<ContextId, SegmentRef>)

  ghost function Next(l: Ledger, m: Move): Ledger
    requires MoveEnabled(l.net, m)
  {
    Ledger(After(l.net, m), Noted(l.first, l.net.world, After(l.net, m).world))
  }

  /** The move rewrites no id that was read, gives no segment a first reference to another trace and is honest. */
  ghost predicate Proper(l: Ledger, m: Move) {
    && MoveEnabled(l.net, m) && Honest(l.net, l.first, m)
    && (StepOf(l.net, m).Some? ==>
          !Rewrites(l.net, StepOf(l.net, m).value) && Anchors(l.net.world, StepOf(l.net, m).value))
  }

  ghost predicate ProperlyLeads(l: Ledger, moves: seq<Move>, end: Ledger)
    decreases |moves|
  {
    if moves == [] then l == end
    else Proper(l, moves[0]) && ProperlyLeads(Next(l, moves[0]), moves[1..], end)
  }

  function InitialLedger(): Ledger {
    Ledger(InitialNet(), map[])
  }

  lemma StepKeepsLinked(l: Ledger, m: Move, step: Step)
    requires Linked(l.net, l.first) && Proper(l, m) && StepOf(l.net, m) == Some(step)
    ensures Linked(Next(l, m).net, Next(l, m).first)
  {
    var n, u := l.net, After(l.net, m);
    MoveKeepsTraced(n, m);
    AfterIsRecorded(n, m, step);
    FirstReferenceNamesTrace(n.world, step, l.first);
    WireStillNames(n, l.first, m, step, u);
    StillDistinct(n, l.first, m, step, u);
    forall c | c in Next(l, m).first
      ensures Accounts(u, Next(l, m).first[c])
    {
      FirstsAccount(n, l.first, m, step, u, c);
    }
  }

  lemma MoveKeepsLinked(l: Ledger, m: Move)
    requires Linked(l.net, l.first) && Proper(l, m)
    ensures Linked(Next(l, m).net, Next(l, m).first)
  {
    if StepOf(l.net, m).Some? {
      StepKeepsLinked(l, m, StepOf(l.net, m).value);
    } else {
      MoveKeepsTraced(l.net, m);
      NotedInPlace(l.net.world, l.first);
      if m.Inject? {
        InjectKeepsNames(l.net, l.first, m);
      } else {
        CaptureKeepsNames(l.net, l.first, m);
      }
    }
  }

  lemma {:induction false} RunKeepsLinked(l: Ledger, moves: seq<Move>, end: Ledger)
    requires Linked(l.net, l.first) && ProperlyLeads(l, moves, end)
    ensures Linked(end.net, end.first)
    decreases |moves|
  {
    if moves != [] {
      MoveKeepsLinked(l, moves[0]);
      RunKeepsLinked(Next(l, moves[0]), moves[1..], end);
    }
  }

  lemma InitialLinked()
    ensures Linked(InitialNet(), map[])
  {
    InitialInv();
  }

  /** After every proper run, a segment's first reference is the first of one of its spans' references,
      names the segment's own trace, and if it names a segment of the net, that segment is in the same
      trace. */
  lemma FirstReferenceSharesTrace(moves: seq<Move>, end: Ledger, c: ContextId)
    requires ProperlyLeads(InitialLedger(), moves, end) && IsTraced(end.net.world, c)
    ensures c in end.first <==> Referenced(end.net.world, c)
    ensures c in end.first ==> !Primary(end.net.world, c).generated
    ensures c in end.first ==>
              && Heads(end.net.world, c, end.first[c])
              && end.first[c].traceId == Primary(end.net.world, c).value
              && forall d :: IsTraced(end.net.world, d) && end.net.world.contexts[d].segment.id == end.first[c].segmentId ==>
                   Primary(end.net.world, d).value == Primary(end.net.world, c).value
  {
    InitialLinked();
    RunKeepsLinked(InitialLedger(), moves, end);
    if c in end.first {
      assert Accounts(end.net, end.first[c]);
    }
  }

  /** The first reference of `c` names `d`. */
  ghost predicate Refers(l: Ledger, c: ContextId, d: ContextId) {
    && IsTraced(l.net.world, c) && IsTraced(l.net.world, d)
    && c in l.first && l.first[c].segmentId == l.net.world.contexts[d].segment.id
  }

  /** Each segment's first reference names the next segment. */
  ghost predicate RefChain(l: Ledger, path: seq<ContextId>)
    decreases |path|
  {
    path != [] && (|path| == 1 || (Refers(l, path[0], path[1]) && RefChain(l, path[1..])))
  }

  lemma RefersSharesTrace(l: Ledger, c: ContextId, d: ContextId)
    requires Anchored(l.net.world, l.first) && Names(l.net, l.first) && Refers(l, c, d)
    ensures Primary(l.net.world, c).value == Primary(l.net.world, d).value
  {
    assert Accounts(l.net, l.first[c]);
  }

  lemma {:induction false} RefChainSharesTrace(l: Ledger, path: seq<ContextId>)
    requires Anchored(l.net.world, l.first) && Names(l.net, l.first) && RefChain(l, path)
    ensures Primary(l.net.world, path[0]).value == Primary(l.net.world, path[|path| - 1]).value
    decreases |path|
  {
    if |path| > 1 {
      RefersSharesTrace(l, path[0], path[1]);
      RefChainSharesTrace(l, path[1..]);
    }
  }

  /** Segments joined by a chain of first references have one trace id, across processes, threads and
      segments split off finished parents. */
  lemma LinkedSegmentsShareTrace(moves: seq<Move>, end: Ledger, path: seq<ContextId>)
    requires ProperlyLeads(InitialLedger(), moves, end) && RefChain(end, path)
    ensures Primary(end.net.world, path[0]).value == Primary(end.net.world, path[|path| - 1]).value
  {
    InitialLinked();
    RunKeepsLinked(InitialLedger(), moves, end);
    RefChainSharesTrace(end, path);
  }
}
