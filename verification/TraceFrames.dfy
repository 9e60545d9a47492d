/** What creating and starting a span leave alone. */
module TraceFrames {
  import opened Text
  import opened Base64
  import opened Carrier
  import opened TraceEngine
  import opened TraceLineage

  /** Only span `s` and context `h` are new or changed. */
  ghost predicate Only(w: World, v: World, s: SpanId, h: ContextId) {
    && v.spans.Keys == w.spans.Keys + {s} && (forall x :: x in w.spans && x != s ==> v.spans[x] == w.spans[x])
    && v.contexts.Keys == w.contexts.Keys + {h} && (forall d :: d in w.contexts && d != h ==> v.contexts[d] == w.contexts[d])
    && v.archived == w.archived
  }

  lemma OnlyTwice(u: World, v: World, w: World, s: SpanId, h: ContextId)
    requires Only(u, v, s, h) && Only(v, w, s, h)
    ensures Only(u, w, s, h)
  {
  }

  lemma AddSpanFrame(w: World, parent: Option<SpanId>, r: Request, s: SpanId, c: ContextId)
    requires parent.Some? ==> SpanKnown(w, parent.value)
    ensures var v := AddSpan(w, parent, r, s, c); Only(w, v, s, v.spans[s].context) && v.stacks == w.stacks
  {
  }

  lemma ExtractFrame(w: World, s: SpanId, f: Fields, fallback: Bytes)
    requires SpanKnown(w, s)
    ensures var v := Extract(w, s, f, fallback);
            Only(w, v, s, w.spans[s].context) && v.stacks == w.stacks && v.spans[s].context == w.spans[s].context
  {
  }

  lemma FinishFrame(w: World, s: SpanId, r: Request)
    requires SpanKnown(w, s)
    ensures var v := Finish(w, s, r);
            Only(w, v, s, w.spans[s].context) && v.stacks == w.stacks && v.spans[s].context == w.spans[s].context
  {
    if BringsCarrier(r) {
      ExtractFrame(w, s, r.carrier.value.fields, r.traceId);
    }
  }

  lemma NewSpanFrame(w: World, parent: Option<SpanId>, r: Request, s: SpanId, c: ContextId)
    requires (parent.Some? ==> SpanKnown(w, parent.value)) && NewSpan(w, parent, r, s, c).Created?
    ensures var v := NewSpan(w, parent, r, s, c).world;
            && Only(w, v, s, v.spans[s].context) && v.stacks == w.stacks
            && v.spans[s].context == AddSpan(w, parent, r, s, c).spans[s].context
  {
    var bare := AddSpan(w, parent, r, s, c);
    var h := bare.spans[s].context;
    AddSpanFrame(w, parent, r, s, c);
    if parent.Some? && w.spans[parent.value].depth == 0 {
      var p := w.spans[parent.value];
      var f := ParentCarrier(p, w.contexts[p.context], r.config).value;
      var mid := Extract(bare, s, f, r.traceId);
      ExtractFrame(bare, s, f, r.traceId);
      FinishFrame(mid, s, r);
      OnlyTwice(w, bare, mid, s, h);
      OnlyTwice(w, mid, Finish(mid, s, r), s, h);
    } else {
      FinishFrame(bare, s, r);
      OnlyTwice(w, bare, Finish(bare, s, r), s, h);
    }
  }

  lemma AddNoopFrame(w: World, s: SpanId, c: ContextId)
    ensures Only(w, AddNoop(w, s, c), s, c) && AddNoop(w, s, c).stacks == w.stacks
  {
  }

  /** Creating a span changes that span and its context, and nothing else. */
  lemma CreateFrame(w: World, t: TaskId, r: Request, s: SpanId, c: ContextId)
    requires TaskKnown(w, t) && Create(w, t, r, s, c).Created?
    ensures var made := Create(w, t, r, s, c);
            Only(w, made.world, made.span, made.world.spans[made.span].context) && made.world.stacks == w.stacks
    ensures TakesOver(w, t, r) ==> Create(w, t, r, s, c).world.contexts == w.contexts
  {
    var top := Top(w, t);
    if UnderNoop(w, t, r) {
      AddNoopFrame(w, s, if top.Some? then w.spans[top.value].context else c);
    } else if Suppresses(r) {
      AddNoopFrame(w, s, c);
    } else if !TakesOver(w, t, r) {
      NewSpanFrame(w, top, r, s, c);
    }
  }

  lemma StartFrame(w: World, t: TaskId, s: SpanId)
    requires t in w.stacks && SpanKnown(w, s)
    ensures Only(w, Start(w, t, s), s, w.spans[s].context)
    ensures Start(w, t, s).stacks.Keys == w.stacks.Keys
    ensures forall u :: u in w.stacks && u != t ==> Start(w, t, s).stacks[u] == w.stacks[u]
  {
  }

  /** Stopping a span changes that span, its context and the task's stack. */
  lemma StopFrame(w: World, t: TaskId, s: SpanId)
    requires t in w.stacks && SpanKnown(w, s)
    ensures Only(w, Stop(w, t, s).(archived := w.archived), s, w.spans[s].context)
    ensures Stop(w, t, s).stacks.Keys == w.stacks.Keys
    ensures forall u :: u in w.stacks && u != t ==> Stop(w, t, s).stacks[u] == w.stacks[u]
  {
  }

  /** What starting makes of the span, its context and the task's stack. */
  ghost predicate Starts(w: World, v: World, t: TaskId, s: SpanId)
    requires t in w.stacks && SpanKnown(w, s)
  {
    var sp := w.spans[s];
    var c := w.contexts[sp.context];
    && t in v.stacks && s in v.spans && sp.context in v.contexts && v.spans[s] == StartedSpan(sp)
    && v.contexts[sp.context]
       == (if sp.depth != 0 then c
           else StartedContext(c, s, sp.kind.Entry?, PrimaryIsEntry(w, c), s !in w.stacks[t]))
    && v.stacks[t] == (if sp.depth != 0 then w.stacks[t] else Pushed(w.stacks[t], s))
  }

  lemma StartValues(w: World, t: TaskId, s: SpanId)
    requires t in w.stacks && SpanKnown(w, s)
    ensures Starts(w, Start(w, t, s), t, s)
  {
  }
}
