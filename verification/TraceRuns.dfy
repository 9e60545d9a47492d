/** Every run of the trace engine: what its archive, its segments and its stacks hold. */
module TraceRuns {
  import opened Text
  import opened Carrier
  import opened TraceEngine
  import opened TraceInvariant

  // ----- what a creation does to the world -----

  lemma AddUnder(w: World, p: SpanId, r: Request, s: SpanId, c: ContextId)
    requires SpanKnown(w, p) && s !in w.spans && w.spans[p].depth != 0
    requires var home := w.contexts[w.spans[p].context];
             !home.noop && home.nspans > 0 && 0 <= w.spans[p].sid <= home.lastSid
    ensures Adds(w, AddSpan(w, Some(p), r, s, c), s)
  {
  }

  lemma AddFresh(w: World, parent: Option<SpanId>, r: Request, s: SpanId, c: ContextId)
    requires parent.Some? ==> SpanKnown(w, parent.value) && w.spans[parent.value].depth == 0
    requires s !in w.spans && c !in w.contexts
    ensures Adds(w, AddSpan(w, parent, r, s, c), s)
  {
  }

  lemma AddSpanAdds(w: World, parent: Option<SpanId>, r: Request, s: SpanId, c: ContextId)
    requires SpansOk(w, {}) && ContextsOk(w, {}) && s !in w.spans && c !in w.contexts
    requires parent.Some? ==> SpanKnown(w, parent.value) && !w.contexts[w.spans[parent.value].context].noop
    ensures Adds(w, AddSpan(w, parent, r, s, c), s)
  {
    if parent.Some? && w.spans[parent.value].depth != 0 {
      var p := parent.value;
      assert SpanOk(w, p, {}) && ContextOk(w, w.spans[p].context, {});
      assert p in Live(w, w.spans[p].context);
      AddUnder(w, p, r, s, c);
    } else {
      AddFresh(w, parent, r, s, c);
    }
  }

  lemma FinishKeepsShape(w: World, s: SpanId, r: Request)
    requires SpanKnown(w, s) && Related(w)
    ensures SameShape(w, Finish(w, s, r))
  {
    if r.kind.Entry? && r.carrier.Some? && IsValid(r.carrier.value.fields) {
      ExtractKeepsShape(w, s, r.carrier.value.fields, r.traceId);
    }
  }

  lemma ShapeRelated(w: World, v: World)
    requires SameShape(w, v)
    ensures Related(v)
  {
    forall c | c in v.contexts
      ensures v.contexts[c].segment.related != []
      ensures v.contexts[c].segment.related[0].generated ==> |v.contexts[c].segment.related| == 1
    {
      assert SameContext(w.contexts[c], v.contexts[c]);
    }
  }

  lemma ShapeTransitive(u: World, v: World, w: World)
    requires SameShape(u, v) && SameShape(v, w)
    ensures SameShape(u, w)
  {
    forall s | s in u.spans
      ensures SameSpan(u.spans[s], w.spans[s])
    {
      assert SameSpan(u.spans[s], v.spans[s]) && SameSpan(v.spans[s], w.spans[s]);
    }
    forall c | c in u.contexts
      ensures SameContext(u.contexts[c], w.contexts[c])
    {
      assert SameContext(u.contexts[c], v.contexts[c]) && SameContext(v.contexts[c], w.contexts[c]);
    }
  }

  lemma ReferKeepsShape(w: World, s: SpanId, parent: Span, pc: Context, r: Request)
    requires SpanKnown(w, s) && Related(w) && ReferToParent(w, s, parent, pc, r).Some?
    ensures SameShape(w, ReferToParent(w, s, parent, pc, r).value)
  {
    ExtractKeepsShape(w, s, ParentCarrier(parent, pc, r.config).value, r.traceId);
  }

  /** References and inheritance come on top of the bare span. */
  lemma NewSpanShape(w: World, parent: Option<SpanId>, r: Request, s: SpanId, c: ContextId)
    requires parent.Some? ==> SpanKnown(w, parent.value)
    requires Related(AddSpan(w, parent, r, s, c)) && NewSpan(w, parent, r, s, c).Created?
    ensures SameShape(AddSpan(w, parent, r, s, c), NewSpan(w, parent, r, s, c).world)
  {
    var bare := AddSpan(w, parent, r, s, c);
    if parent.Some? && w.spans[parent.value].depth == 0 {
      var p := w.spans[parent.value];
      var mid := ReferToParent(bare, s, p, w.contexts[p.context], r).value;
      ReferKeepsShape(bare, s, p, w.contexts[p.context], r);
      ShapeRelated(bare, mid);
      FinishKeepsShape(mid, s, r);
      ShapeTransitive(bare, mid, Finish(mid, s, r));
    } else {
      FinishKeepsShape(bare, s, r);
    }
  }

  lemma NoopAdds(w: World, s: SpanId, c: ContextId)
    requires s !in w.spans && (c in w.contexts ==> w.contexts[c].noop)
    ensures Adds(w, AddNoop(w, s, c), s)
  {
  }

  /** A span has been made and waits to be started; older spans are what they were. */
  ghost predicate Ready(w: World, v: World, s: SpanId) {
    && Inv(v, {s}) && Newest(v, s) && s !in w.spans
    && v.stacks == w.stacks
    && (forall x :: x in w.spans ==> x in v.spans && SameSpan(w.spans[x], v.spans[x]))
  }

  lemma AddsIsReady(w: World, v: World, s: SpanId)
    requires Inv(w, {}) && Adds(w, v, s)
    ensures Ready(w, v, s)
  {
    AddKeepsInv(w, v, s);
  }

  lemma ReadyKeepsShape(w: World, v: World, u: World, s: SpanId)
    requires Ready(w, v, s) && SameShape(v, u)
    ensures Ready(w, u, s) && u.spans[s].noop == v.spans[s].noop
  {
    ShapeKeepsInv(v, u, {s});
    assert SameSpan(v.spans[s], u.spans[s]);
    assert SameContext(v.contexts[v.spans[s].context], u.contexts[v.spans[s].context]);
    forall x | x in w.spans
      ensures x in u.spans && SameSpan(w.spans[x], u.spans[x])
    {
      assert SameSpan(w.spans[x], v.spans[x]) && SameSpan(v.spans[x], u.spans[x]);
    }
  }

  lemma NewSpanIsReady(w: World, parent: Option<SpanId>, r: Request, s: SpanId, c: ContextId)
    requires Inv(w, {}) && s !in w.spans && c !in w.contexts
    requires parent.Some? ==> SpanKnown(w, parent.value) && !w.contexts[w.spans[parent.value].context].noop
    requires NewSpan(w, parent, r, s, c).Created?
    ensures var v := NewSpan(w, parent, r, s, c).world; Ready(w, v, s) && !v.spans[s].noop
  {
    var bare := AddSpan(w, parent, r, s, c);
    AddSpanAdds(w, parent, r, s, c);
    AddsIsReady(w, bare, s);
    InvRelated(bare, {s});
    NewSpanShape(w, parent, r, s, c);
    ReadyKeepsShape(w, bare, NewSpan(w, parent, r, s, c).world, s);
  }

  /** A suppressed span, in the context at hand or in one of its own. */
  lemma CreateNoopShape(w: World, t: TaskId, r: Request, s: SpanId, c: ContextId)
    requires Inv(w, {}) && TaskKnown(w, t) && s !in w.spans && c !in w.contexts
    requires UnderNoop(w, t, r) || Suppresses(r)
    ensures var made := Create(w, t, r, s, c);
            made.Created? && made.span == s && Ready(w, made.world, s) && made.world.spans[s].noop
  {
    var top := Top(w, t);
    var home := if UnderNoop(w, t, r) && top.Some? then w.spans[top.value].context else c;
    NoopAdds(w, s, home);
    AddsIsReady(w, AddNoop(w, s, home), s);
  }

  lemma CreateNewShape(w: World, t: TaskId, r: Request, s: SpanId, c: ContextId)
    requires Inv(w, {}) && TaskKnown(w, t) && s !in w.spans && c !in w.contexts && Create(w, t, r, s, c).Created?
    requires !UnderNoop(w, t, r) && !Suppresses(r) && !TakesOver(w, t, r)
    ensures var made := Create(w, t, r, s, c); made.span == s && Ready(w, made.world, s) && !made.world.spans[s].noop
  {
    NewSpanIsReady(w, Top(w, t), r, s, c);
  }

  lemma ReuseShape(w: World, t: TaskId, r: Request, s: SpanId, c: ContextId)
    requires Related(w) && TaskKnown(w, t) && TakesOver(w, t, r)
    ensures var made := Create(w, t, r, s, c); made.Created? && SameShape(w, made.world) && made.span == Top(w, t).value
  {
  }

  /** A call makes a new span, ready to start, or takes over the topmost one. The new span is
      suppressed exactly when the context, the operation or the carrier says so. */
  lemma CreateShape(w: World, t: TaskId, r: Request, s: SpanId, c: ContextId)
    requires Inv(w, {}) && TaskKnown(w, t) && s !in w.spans && c !in w.contexts && Create(w, t, r, s, c).Created?
    ensures var made := Create(w, t, r, s, c);
            if TakesOver(w, t, r) then SameShape(w, made.world) && made.span == Top(w, t).value
            else made.span == s && Ready(w, made.world, s)
                 && (made.world.spans[s].noop <==> UnderNoop(w, t, r) || Suppresses(r))
  {
    if TakesOver(w, t, r) {
      InvRelated(w, {});
      ReuseShape(w, t, r, s, c);
    } else if UnderNoop(w, t, r) || Suppresses(r) {
      CreateNoopShape(w, t, r, s, c);
    } else {
      CreateNewShape(w, t, r, s, c);
    }
  }

  /** Restarting an open span only deepens it. */
  lemma RestartKeepsShape(w: World, t: TaskId, s: SpanId)
    requires t in w.stacks && SpanKnown(w, s) && w.spans[s].depth > 0 && Related(w)
    ensures SameShape(w, Start(w, t, s))
  {
  }

  lemma TopNoop(w: World, t: TaskId, r: Request)
    requires Inv(w, {}) && TaskKnown(w, t)
    ensures w.stacks[t] != [] && w.spans[w.stacks[t][|w.stacks[t]| - 1]].noop ==> UnderNoop(w, t, r)
  {
    if w.stacks[t] != [] {
      assert SpanOk(w, w.stacks[t][|w.stacks[t]| - 1], {});
    }
  }

  lemma EnterKeepsInv(w: World, t: TaskId, r: Request, s: SpanId, c: ContextId)
    requires Inv(w, {}) && Enabled(w, Enter(t, r, s, c)) && ReuseIsLive(w, Enter(t, r, s, c))
    ensures Inv(Apply(w, Enter(t, r, s, c)), {})
  {
    var made := Create(w, t, r, s, c);
    CreateShape(w, t, r, s, c);
    if TakesOver(w, t, r) {
      InvRelated(w, {});
      ShapeRelated(w, made.world);
      assert SameSpan(w.spans[made.span], made.world.spans[made.span]);
      RestartKeepsShape(made.world, t, made.span);
      ShapeTransitive(w, made.world, Start(made.world, t, made.span));
      ShapeKeepsInv(w, Start(made.world, t, made.span), {});
    } else {
      TopNoop(w, t, r);
      assert StackOk(w, t, {});
      if w.stacks[t] != [] {
        assert SameSpan(w.spans[Top(w, t).value], made.world.spans[Top(w, t).value]);
      }
      StartKeepsInv(made.world, t, s);
    }
  }

  lemma LeaveKeepsInv(w: World, t: TaskId, s: SpanId)
    requires Inv(w, {}) && Enabled(w, Leave(t, s))
    ensures Inv(Stop(w, t, s), {})
  {
    if w.spans[s].depth == 1 {
      StopKeepsInv(w, t, s);
    } else {
      InvRelated(w, {});
      ShapeKeepsInv(w, Stop(w, t, s), {});
    }
  }

  lemma NewStackKeepsStacks(w: World, t: TaskId, stack: seq<SpanId>)
    requires StacksOk(w, {}) && (stack == [] || exists u :: u in w.stacks && w.stacks[u] == stack)
    ensures StacksOk(w.(stacks := w.stacks[t := stack]), {})
  {
    var v := w.(stacks := w.stacks[t := stack]);
    forall u | u in v.stacks
      ensures StackOk(v, u, {})
    {
      if u != t {
        assert StackOk(w, u, {});
      } else if stack != [] {
        var x :| x in w.stacks && w.stacks[x] == stack;
        assert StackOk(w, x, {});
      }
    }
  }

  lemma RestIgnoresStacks(w: World, v: World)
    requires v.spans == w.spans && v.contexts == w.contexts && v.archived == w.archived
    requires SpansOk(w, {}) && ArchiveOk(w, {})
    ensures SpansOk(v, {}) && ArchiveOk(v, {})
  {
    forall s | s in v.spans
      ensures SpanOk(v, s, {})
    {
      assert SpanOk(w, s, {});
    }
    forall c
      ensures !Awaits(v, c, {}) && !Awaits(w, c, {})
      ensures IsArchived(v, c) <==> IsArchived(w, c)
    {
    }
  }

  lemma NewStackKeepsInv(w: World, t: TaskId, stack: seq<SpanId>)
    requires Inv(w, {}) && (stack == [] || exists u :: u in w.stacks && w.stacks[u] == stack)
    ensures Inv(w.(stacks := w.stacks[t := stack]), {})
  {
    var v := w.(stacks := w.stacks[t := stack]);
    NewStackKeepsStacks(w, t, stack);
    RestIgnoresStacks(w, v);
    forall c | c in v.contexts
      ensures ContextOk(v, c, {})
    {
      ContextIgnoresStacks(w, v, c);
    }
  }

  lemma ContextIgnoresStacks(w: World, v: World, c: ContextId)
    requires v.spans == w.spans && v.contexts == w.contexts && c in w.contexts && ContextOk(w, c, {})
    ensures ContextOk(v, c, {})
  {
    assert Live(v, c) == Live(w, c);
    assert forall s :: Belongs(v, s, c) <==> Belongs(w, s, c);
    if !w.contexts[c].noop {
      SameSids(w, v, c);
      assert SegmentOk(v, c, {}) && PrimaryOk(v, c, {});
    }
  }

  /** Every step keeps the invariant, provided no finished parent is reused. */
  lemma StepKeepsInv(w: World, step: Step)
    requires Inv(w, {}) && Enabled(w, step) && ReuseIsLive(w, step)
    ensures Inv(Apply(w, step), {})
  {
    InvRelated(w, {});
    match step
    case Begin(t) => NewStackKeepsInv(w, t, []);
    case Spawn(t, u) => NewStackKeepsInv(w, u, w.stacks[t]);
    case Enter(t, r, s, c) => EnterKeepsInv(w, t, r, s, c);
    case Leave(t, s) => LeaveKeepsInv(w, t, s);
    case Annotate(s, op, peer, component) => ShapeKeepsInv(w, Apply(w, step), {});
    case Extracts(s, f, fallback) =>
      ExtractKeepsShape(w, s, f, fallback);
      ShapeKeepsInv(w, Apply(w, step), {});
    case Continued(t, p, g, fallback) =>
      ContinueKeepsShape(w, t, p, g, fallback);
      ShapeKeepsInv(w, Apply(w, step), {});
  }

  lemma {:induction false} RunKeepsInv(w: World, steps: seq<Step>, end: World)
    requires Inv(w, {}) && Leads(w, steps, end)
    ensures Inv(end, {})
    decreases |steps|
  {
    if steps != [] {
      StepKeepsInv(w, steps[0]);
      RunKeepsInv(Apply(w, steps[0]), steps[1..], end);
    }
  }

  lemma InitialInv()
    ensures Inv(Initial(), {})
  {
    var w := Initial();
    assert forall c :: !Awaits(w, c, {});
  }

  // ----- archived segments -----

  /** `a` holds every span of its context once; the span ids are exactly 0 to n - 1, span 0 is the only
      root, and every other span's parent is an earlier span of the same segment. */
  ghost predicate Complete(w: World, a: Archive) {
    && NoDup(a.spans)
    && (forall s :: s in a.spans <==> Belongs(w, s, a.context))
    && (forall k :: 0 <= k < |a.spans| ==> HasSid(w, a.context, k))
    && (forall s :: s in a.spans ==>
          && 0 <= w.spans[s].sid < |a.spans|
          && (w.spans[s].pid == -1 <==> w.spans[s].sid == 0)
          && (w.spans[s].sid > 0 ==> 0 <= w.spans[s].pid < w.spans[s].sid))
    && (forall s, r :: s in a.spans && r in a.spans && w.spans[s].sid == w.spans[r].sid ==> s == r)
  }

  ghost predicate SomeHasSid(w: World, xs: set<SpanId>, k: int) {
    exists s :: s in xs && s in w.spans && w.spans[s].sid == k
  }

  /** Spans whose ids are distinct and fill 0 to n - 1 are n in number. */
  lemma {:induction false} CountBySid(w: World, xs: set<SpanId>, n: nat)
    requires xs <= w.spans.Keys
    requires forall s :: s in xs ==> 0 <= w.spans[s].sid < n
    requires forall k :: 0 <= k < n ==> SomeHasSid(w, xs, k)
    requires forall s, r :: s in xs && r in xs && w.spans[s].sid == w.spans[r].sid ==> s == r
    ensures |xs| == n
  {
    if n == 0 {
      assert xs == {};
    } else {
      assert SomeHasSid(w, xs, n - 1);
      var last :| last in xs && w.spans[last].sid == n - 1;
      var rest := xs - {last};
      forall k | 0 <= k < n - 1
        ensures SomeHasSid(w, rest, k)
      {
        assert SomeHasSid(w, xs, k);
        var s :| s in xs && w.spans[s].sid == k;
        assert s in rest;
      }
      CountBySid(w, rest, n - 1);
    }
  }

  ghost function Elements(xs: seq<SpanId>): (e: set<SpanId>)
    ensures forall s :: s in e <==> s in xs
  {
    if xs == [] then {} else
      assert xs == [xs[0]] + xs[1..];
      {xs[0]} + Elements(xs[1..])
  }

  lemma {:induction false} ElementCount(xs: seq<SpanId>)
    requires NoDup(xs)
    ensures |Elements(xs)| == |xs|
  {
    if xs != [] {
      ElementCount(xs[1..]);
      assert xs[0] !in xs[1..];
    }
  }

  /** Once no span of a context is open, its segment holds them all. */
  lemma FinishedContextHoldsAll(w: World, c: ContextId)
    requires c in w.contexts && ContextOk(w, c, {}) && !w.contexts[c].noop && w.contexts[c].nspans == 0
    requires forall s :: Belongs(w, s, c) ==> w.spans[s].depth >= 0
    ensures forall s :: s in w.contexts[c].segment.spans <==> Belongs(w, s, c)
  {
    assert Live(w, c) == {};
    forall s | Belongs(w, s, c)
      ensures w.spans[s].depth == 0
    {
      assert s !in Live(w, c);
    }
  }

  lemma HeldCount(w: World, c: ContextId, held: seq<SpanId>)
    requires c in w.contexts && SidsOk(w, c) && NoDup(held)
    requires forall s :: s in held <==> Belongs(w, s, c)
    requires forall s :: Belongs(w, s, c) ==> 0 <= w.spans[s].sid <= w.contexts[c].lastSid
    ensures |held| == w.contexts[c].lastSid + 1
  {
    var xs := Elements(held);
    forall k | 0 <= k < w.contexts[c].lastSid + 1
      ensures SomeHasSid(w, xs, k)
    {
      assert HasSid(w, c, k);
      var s :| Belongs(w, s, c) && w.spans[s].sid == k;
      assert s in xs;
    }
    CountBySid(w, xs, w.contexts[c].lastSid + 1);
    ElementCount(held);
  }

  lemma ArchiveIsComplete(w: World, i: nat)
    requires Inv(w, {}) && i < |w.archived|
    ensures Complete(w, w.archived[i])
  {
    var a := w.archived[i];
    assert ContextOk(w, a.context, {});
    forall s | Belongs(w, s, a.context)
      ensures SpanOk(w, s, {})
    {
    }
    FinishedContextHoldsAll(w, a.context);
    HeldCount(w, a.context, a.spans);
  }

  /** The live count of a context is the number of its open spans. */
  ghost predicate CountsLive(w: World) {
    forall c :: c in w.contexts ==> w.contexts[c].nspans == |Live(w, c)|
  }

  /** After any run: every archived segment is complete, no context is archived twice, a traced context
      is archived exactly when none of its spans is open, and the counters count open spans. */
  lemma EverySegmentArchivedOnce(steps: seq<Step>, end: World)
    requires Leads(Initial(), steps, end)
    ensures CountsLive(end)
    ensures forall i :: 0 <= i < |end.archived| ==> Complete(end, end.archived[i])
    ensures forall i, j :: 0 <= i < j < |end.archived| ==> end.archived[i].context != end.archived[j].context
    ensures forall c :: c in end.contexts && !end.contexts[c].noop ==> (IsArchived(end, c) <==> Live(end, c) == {})
    ensures forall c :: c in end.contexts && end.contexts[c].noop ==> !IsArchived(end, c)
  {
    InitialInv();
    RunKeepsInv(Initial(), steps, end);
    forall i | 0 <= i < |end.archived|
      ensures Complete(end, end.archived[i])
    {
      ArchiveIsComplete(end, i);
    }
    forall c | c in end.contexts
      ensures end.contexts[c].nspans == |Live(end, c)|
      ensures !end.contexts[c].noop ==> (IsArchived(end, c) <==> Live(end, c) == {})
    {
      assert ContextOk(end, c, {});
      assert !Awaits(end, c, {});
    }
  }

  lemma StepExtendsArchive(w: World, step: Step)
    requires Enabled(w, step)
    ensures w.archived <= Apply(w, step).archived
  {
  }

  /** Entries of the archive are never removed. */
  lemma {:induction false} RunExtendsArchive(w: World, steps: seq<Step>, end: World)
    requires Leads(w, steps, end)
    ensures w.archived <= end.archived
    decreases |steps|
  {
    if steps != [] {
      StepExtendsArchive(w, steps[0]);
      RunExtendsArchive(Apply(w, steps[0]), steps[1..], end);
    }
  }

  /** The primary endpoint of a traced context is its first entry span, or span 0 if it has none. */
  lemma PrimaryIsFirstEntry(steps: seq<Step>, end: World, c: ContextId)
    requires Leads(Initial(), steps, end) && c in end.contexts && !end.contexts[c].noop
    ensures end.contexts[c].primary.Some?
    ensures var p := end.contexts[c].primary.value;
            && Belongs(end, p, c)
            && (end.spans[p].kind.Entry? || end.spans[p].sid == 0)
            && (forall s :: Belongs(end, s, c) && end.spans[s].kind.Entry?
                  ==> end.spans[p].kind.Entry? && end.spans[p].sid <= end.spans[s].sid)
  {
    InitialInv();
    RunKeepsInv(Initial(), steps, end);
    assert ContextOk(end, c, {});
    assert HasSid(end, c, 0);
  }

  // ----- reuse of a parent -----

  /** The guard the engine does without: taking over a parent keeps the invariant exactly when the
      parent is open. */
  lemma ReuseNeedsLiveParent(w: World, t: TaskId, r: Request, s: SpanId, c: ContextId)
    requires Inv(w, {}) && Enabled(w, Enter(t, r, s, c)) && TakesOver(w, t, r)
    ensures Inv(Apply(w, Enter(t, r, s, c)), {}) <==> w.spans[Top(w, t).value].depth > 0
  {
    var p := Top(w, t).value;
    var v := Apply(w, Enter(t, r, s, c));
    assert SpanOk(w, p, {});
    if w.spans[p].depth > 0 {
      EnterKeepsInv(w, t, r, s, c);
    } else {
      var home := w.spans[p].context;
      assert ContextOk(w, home, {});
      assert Belongs(w, p, home);
      assert p in w.contexts[home].segment.spans;
      assert v.spans[p].depth == 1 && p in v.contexts[home].segment.spans;
      assert !SegmentOk(v, home, {});
      assert !ContextOk(v, home, {});
    }
  }

  /** Taking over a finished parent opens it again in the context it was archived with. */
  lemma ReopensFinished(w: World, t: TaskId, r: Request, s: SpanId, c: ContextId)
    requires Enabled(w, Enter(t, r, s, c)) && TakesOver(w, t, r) && w.spans[Top(w, t).value].depth == 0
    ensures var p := Top(w, t).value;
            var home := w.spans[p].context;
            var v := Apply(w, Enter(t, r, s, c));
            && Enabled(v, Leave(t, p)) && v.archived == w.archived
            && v.spans[p].depth == 1 && v.spans[p].context == home && !v.contexts[home].noop
            && v.contexts[home].nspans == w.contexts[home].nspans + 1
  {
  }

  /** The stop of the only open span hands its context over. */
  lemma LastStopArchives(v: World, t: TaskId, p: SpanId, home: ContextId)
    requires Enabled(v, Leave(t, p)) && v.spans[p].depth == 1 && v.spans[p].context == home
    requires !v.contexts[home].noop && v.contexts[home].nspans == 1
    ensures var end := Stop(v, t, p).archived;
            |end| == |v.archived| + 1 && end[..|v.archived|] == v.archived && end[|v.archived|].context == home
  {
  }

  lemma FinishedIsArchived(w: World, c: ContextId)
    requires Inv(w, {}) && c in w.contexts && !w.contexts[c].noop && Live(w, c) == {}
    ensures IsArchived(w, c) && w.contexts[c].nspans == 0
  {
    assert ContextOk(w, c, {});
    assert !Awaits(w, c, {});
  }

  ghost predicate ArchivedTwice(w: World, c: ContextId) {
    exists i, j :: 0 <= i < j < |w.archived| && w.archived[i].context == c == w.archived[j].context
  }

  lemma SecondArchive(w: World, v: World, c: ContextId)
    requires IsArchived(w, c) && |v.archived| == |w.archived| + 1 && v.archived[..|w.archived|] == w.archived
    requires v.archived[|w.archived|].context == c
    ensures ArchivedTwice(v, c)
  {
    var i :| 0 <= i < |w.archived| && w.archived[i].context == c;
    assert v.archived[..|w.archived|][i] == w.archived[i];
    assert v.archived[i].context == c;
  }

  /** When the finished parent's segment is already archived, the reuse archives it a second time. */
  lemma ReusedFinishedParentArchivesTwice(w: World, t: TaskId, r: Request, s: SpanId, c: ContextId)
    requires Inv(w, {}) && Enabled(w, Enter(t, r, s, c)) && TakesOver(w, t, r)
    requires var p := w.spans[Top(w, t).value]; p.depth == 0 && Live(w, p.context) == {}
    ensures var p := Top(w, t).value;
            var v := Apply(w, Enter(t, r, s, c));
            Enabled(v, Leave(t, p)) && ArchivedTwice(Stop(v, t, p), w.spans[p].context)
  {
    var p := Top(w, t).value;
    var home := w.spans[p].context;
    var v := Apply(w, Enter(t, r, s, c));
    FinishedIsArchived(w, home);
    ReopensFinished(w, t, r, s, c);
    LastStopArchives(v, t, p, home);
    SecondArchive(w, Stop(v, t, p), home);
  }

  // ----- stacks -----

  /** Whose stack a step works on. */
  predicate Touches(step: Step, t: TaskId) {
    match step
    case Begin(u) => u == t
    case Spawn(_, u) => u == t
    case Enter(u, _, _, _) => u == t
    case Leave(u, _) => u == t
    case Annotate(_, _, _, _) => false
    case Extracts(_, _, _) => false
    case Continued(_, _, _, _) => false
  }

  lemma OtherStacksUntouched(w: World, step: Step, t: TaskId)
    requires Enabled(w, step) && t in w.stacks && !Touches(step, t)
    ensures t in Apply(w, step).stacks && Apply(w, step).stacks[t] == w.stacks[t]
  {
  }

  /** A block of one task: steps of others, or an entered span, a body and the span's exit.
      `after` is the world in which the span is left. */
  datatype Block = Aside(step: Step) | Nest(request: Request, span: SpanId, context: ContextId, body: seq<Block>, after: World)

  /** The blocks run from `w` to `end`; a span is left at the depth its entry gave it. */
  ghost predicate Nested(t: TaskId, blocks: seq<Block>, w: World, end: World)
    decreases blocks
  {
    if blocks == [] then w == end
    else
      match blocks[0]
      case Aside(step) =>
        && Enabled(w, step) && ReuseIsLive(w, step) && !Touches(step, t)
        && Nested(t, blocks[1..], Apply(w, step), end)
      case Nest(r, s, c, body, after) =>
        var enter := Enter(t, r, s, c);
        && Enabled(w, enter) && ReuseIsLive(w, enter)
        && var x := Create(w, t, r, s, c).span;
        && Nested(t, body, Apply(w, enter), after)
        && Enabled(after, Leave(t, x))
        && x in Apply(w, enter).spans && after.spans[x].depth == Apply(w, enter).spans[x].depth
        && Nested(t, blocks[1..], Stop(after, t, x), end)
  }

  lemma {:induction false} RemoveLast(xs: seq<SpanId>, x: SpanId)
    requires x !in xs
    ensures Remove(xs + [x], x) == xs
  {
    if xs != [] {
      RemoveLast(xs[1..], x);
      assert (xs + [x])[1..] == xs[1..] + [x];
    }
  }

  /** Leaving a span that lies on top of the stack takes it off exactly when nobody else re-entered it. */
  lemma LeaveRestoresStack(w: World, t: TaskId, x: SpanId, below: seq<SpanId>)
    requires Enabled(w, Leave(t, x)) && w.stacks[t] == below + [x] && x !in below
    ensures Stop(w, t, x).stacks[t] == below <==> w.spans[x].depth == 1
  {
    RemoveLast(below, x);
    assert |below + [x]| == |below| + 1;
  }

  /** What entering does to the entering task's stack. */
  lemma EnterPushes(w: World, t: TaskId, r: Request, s: SpanId, c: ContextId)
    requires Inv(w, {}) && Enabled(w, Enter(t, r, s, c)) && ReuseIsLive(w, Enter(t, r, s, c))
    ensures var v := Apply(w, Enter(t, r, s, c));
            var x := Create(w, t, r, s, c).span;
            && t in v.stacks && x in v.spans
            && if TakesOver(w, t, r) then v.stacks[t] == w.stacks[t] && v.spans[x].depth > 1
               else x !in w.stacks[t] && v.stacks[t] == w.stacks[t] + [x] && v.spans[x].depth == 1
  {
    var made := Create(w, t, r, s, c);
    CreateShape(w, t, r, s, c);
    assert StackOk(w, t, {});
    if TakesOver(w, t, r) {
      assert SameSpan(w.spans[made.span], made.world.spans[made.span]);
      assert SpanOk(w, made.span, {});
    } else {
      assert SpanOk(made.world, s, {s});
    }
  }

  /** A properly nested block leaves its task's stack as it found it, whatever other tasks do. */
  lemma {:induction false} NestedBlocksRestoreStack(t: TaskId, blocks: seq<Block>, w: World, end: World)
    requires Inv(w, {}) && t in w.stacks && Nested(t, blocks, w, end)
    ensures Inv(end, {}) && t in end.stacks && end.stacks[t] == w.stacks[t]
    decreases blocks
  {
    if blocks != [] {
      match blocks[0]
      case Aside(step) =>
        StepKeepsInv(w, step);
        OtherStacksUntouched(w, step, t);
        NestedBlocksRestoreStack(t, blocks[1..], Apply(w, step), end);
      case Nest(r, s, c, body, after) =>
        var enter := Enter(t, r, s, c);
        var x := Create(w, t, r, s, c).span;
        StepKeepsInv(w, enter);
        EnterPushes(w, t, r, s, c);
        NestedBlocksRestoreStack(t, body, Apply(w, enter), after);
        LeaveKeepsInv(after, t, x);
        if !TakesOver(w, t, r) {
          LeaveRestoresStack(after, t, x, w.stacks[t]);
        }
        NestedBlocksRestoreStack(t, blocks[1..], Stop(after, t, x), end);
    }
  }
}
