/** What a segment's first reference says: it names the very span that the request, the thread or the
    finished parent it continues came from. */
module TraceReferences {
  import opened Text
  import opened Base64
  import opened Carrier
  import opened TraceEngine
  import opened TraceInvariant
  import opened TraceLineage

  /** A reference to span `sp` of context `c`, as the process configured by `g` describes it. */
  function Naming(kind: RefType, sp: Span, c: Context, g: Config, endpoint: Bytes, peer: Bytes): SegmentRef
    requires c.segment.related != []
  {
    SegmentRef(kind, c.segment.related[0].value, c.segment.id, sp.sid, g.service, g.serviceInstance, Some(endpoint), peer)
  }

  /** A carrier is valid exactly when nothing in it is empty. */
  predicate Complete(sp: Span, c: Context, g: Config, peer: Bytes)
    requires c.segment.related != []
  {
    && c.segment.related[0].value != [] && c.segment.id != []
    && g.service != [] && g.serviceInstance != [] && sp.op != [] && peer != []
  }

  lemma CarrierNames(sp: Span, c: Context, g: Config, peer: Bytes)
    requires sp.sid >= 0 && c.segment.related != []
    ensures IsValid(CarrierOf(sp, c, peer, g)) <==> Complete(sp, c, g, peer)
    ensures IsValid(CarrierOf(sp, c, peer, g)) ==>
              RefTo(CarrierOf(sp, c, peer, g)) == Naming(CrossProcess, sp, c, g, sp.op, peer)
  {
    ParseOfDecimal(sp.sid);
  }

  /** An entry span made for a carrier on a task without spans. */
  lemma EntryOfCarrier(v: World, u: TaskId, r: Request, s: SpanId, c: ContextId)
    requires TaskKnown(v, u) && v.stacks[u] == [] && !r.ignored && !r.sampledOut && r.kind.Entry? && r.carrier.Some?
    ensures var f := r.carrier.value.fields;
            var made := Create(v, u, r, s, c);
            && made.Created? && made.span == s
            && (IsValid(f) ==>
                  && made.world.spans[s].refs == [RefTo(f)]
                  && made.world.spans[s].context == c && made.world.spans[s].sid == 0 && made.world.spans[s].pid == -1
                  && made.world.contexts[c].segment.related == [TraceId(f.traceId, false)])
            && (r.carrier.value.Suppressed() ==> made.world.spans[s].noop)
  {
  }

  /** Crossing processes: whatever happens to the sender in between, an entry span made for the header on
      a task without spans starts a segment whose only reference names the injecting span, and which
      belongs to the sender's trace. An incomplete sender suppresses the receiver instead. */
  lemma DeliveredRequestNamesSender(w: World, x: SpanId, g: Config, v: World, u: TaskId, r: Request, s: SpanId, c: ContextId)
    requires CanInject(w, x) && SpansOk(w, {}) && Related(w) && !w.spans[x].noop
    requires TaskKnown(v, u) && v.stacks[u] == [] && !r.ignored && !r.sampledOut && r.kind.Entry?
    requires Receive(InjectedHeader(w, x, g)).Ok? ==> r.carrier == Some(Receive(InjectedHeader(w, x, g)).value)
    ensures var sp := w.spans[x];
            var from := w.contexts[sp.context];
            var made := Create(v, u, r, s, c);
            && from.segment.related != [] && made.Created? && made.span == s
            && (Complete(sp, from, g, sp.peer.value) ==>
                  && made.world.spans[s].refs == [Naming(CrossProcess, sp, from, g, sp.op, sp.peer.value)]
                  && made.world.spans[s].context == c && made.world.spans[s].sid == 0 && made.world.spans[s].pid == -1
                  && made.world.contexts[c].segment.related == [TraceId(from.segment.related[0].value, false)])
            && (!Complete(sp, from, g, sp.peer.value) ==> made.world.spans[s].noop)
  {
    assert SpanOk(w, x, {});
    var sp := w.spans[x];
    var from := w.contexts[sp.context];
    var f := CarrierOf(sp, from, sp.peer.value, g);
    DecimalHasNoDash(sp.sid);
    HeaderRoundTrip(f);
    ValidityCrossesWire(f);
    CarrierNames(sp, from, g, sp.peer.value);
    EntryOfCarrier(v, u, r, s, c);
  }

  /** The references that an entry request adds behind `refs`. */
  function WithCarrier(refs: seq<SegmentRef>, r: Request): seq<SegmentRef> {
    if BringsCarrier(r) && RefTo(r.carrier.value.fields) !in refs then refs + [RefTo(r.carrier.value.fields)] else refs
  }

  /** A finished parent: its child starts a segment that refers to it first, is part of the parent's trace
      and holds the child as its root; a carrier brought along is referred to next. */
  lemma SplitNamesParent(w: World, p: SpanId, r: Request, s: SpanId, c: ContextId)
    requires SpanKnown(w, p) && w.spans[p].depth == 0 && w.spans[p].sid >= 0
    requires w.contexts[w.spans[p].context].segment.related != []
    ensures var parent := w.spans[p];
            var pc := w.contexts[parent.context];
            var made := NewSpan(w, Some(p), r, s, c);
            && (made.Failed? <==> parent.peer.None? && Complete(parent, pc, r.config, [0]))
            && (parent.peer.Some? && Complete(parent, pc, r.config, parent.peer.value) ==>
                  && made.world.spans[s].refs
                     == WithCarrier([Naming(CrossProcess, parent, pc, r.config, parent.op, parent.peer.value)], r)
                  && made.world.spans[s].context == c && made.world.spans[s].sid == 0 && made.world.spans[s].pid == -1
                  && made.world.contexts[c].segment.related
                     == [TraceId(pc.segment.related[0].value, false)]
                        + (if BringsCarrier(r) then [TraceId(r.carrier.value.fields.traceId, false)] else []))
  {
    var parent := w.spans[p];
    if parent.peer.Some? {
      CarrierNames(parent, w.contexts[parent.context], r.config, parent.peer.value);
    }
  }

  /** Crossing threads: a captured snapshot, resumed in another segment, adds a reference that names the
      captured span, with the operation of the capturing task's first span as its endpoint. */
  lemma ResumedNamesCaptured(w: World, t: TaskId, v: World, u: TaskId, g: Config, fallback: Bytes)
    requires TaskKnown(w, t) && w.stacks[t] != [] && w.stacks[t][0] in w.spans
    requires TaskKnown(v, u) && v.stacks[u] != []
    requires var sp := w.spans[Top(w, t).value];
             var c := w.contexts[sp.context];
             !c.noop && sp.sid >= 0 && c.segment.related != [] && c.segment.related[0].value != []
    requires var to := v.contexts[v.spans[Top(v, u).value].context];
             !to.noop && to.segment.id != w.contexts[w.spans[Top(w, t).value].context].segment.id
    ensures var sp := w.spans[Top(w, t).value];
            var c := w.contexts[sp.context];
            var x := Top(v, u).value;
            var v' := Continue(v, u, Capture(w, t), g, fallback);
            && v'.spans[x].refs == v.spans[x].refs + [Naming(CrossThread, sp, c, g, w.spans[w.stacks[t][0]].op, [])]
            && v'.contexts[v.spans[x].context].segment.related
               == Relate(v.contexts[v.spans[x].context].segment.related, TraceId(c.segment.related[0].value, false))
  {
  }

  /** A snapshot resumed in the segment it was captured in or in a suppressed context changes nothing, nor
      does an incomplete one; any other adds one reference to the topmost span and relates its segment. */
  lemma ContinuesForeignSnapshots(w: World, t: TaskId, p: Snapshot, g: Config, fallback: Bytes)
    requires TaskKnown(w, t) && w.stacks[t] != []
    ensures var x := Top(w, t).value;
            var c := w.contexts[w.spans[x].context];
            var v := Continue(w, t, p, g, fallback);
            if c.noop || p.segmentId.None? || p.segmentId == Some(c.segment.id) || p.traceId.None? || p.spanId < 0 then v == w
            else
              && v.spans[x].refs
                 == w.spans[x].refs + [SegmentRef(CrossThread, p.traceId.value, p.segmentId.value, p.spanId, g.service,
                                                  g.serviceInstance, p.endpoint, [])]
              && v.contexts[w.spans[x].context].segment.related
                 == Relate(c.segment.related, TraceId(if p.traceId.value == [] then fallback else p.traceId.value, false))
  {
  }

  /** `NewSpan` on values under an open parent or none, span and context apart. */
  lemma NewUnder(w: World, parent: Option<SpanId>, r: Request, s: SpanId, c: ContextId)
    requires parent.Some? ==> SpanKnown(w, parent.value) && w.spans[parent.value].depth != 0
    ensures var home := if parent.Some? then w.spans[parent.value].context else c;
            var was := if parent.Some? then w.contexts[home] else NewContext(r);
            var made := NewSpan(w, parent, r, s, c);
            && made.Created?
            && made.world.spans[s]
               == FinishedSpan(BareSpan(home, was.lastSid + 1, if parent.Some? then w.spans[parent.value].sid else -1, r), r)
            && home in made.world.contexts
            && made.world.contexts[home] == FinishedContext(was.(lastSid := was.lastSid + 1), r)
  {
  }

  /** `NewSpan` on values under a finished parent. */
  lemma NewSplit(w: World, p: SpanId, r: Request, s: SpanId, c: ContextId)
    requires SpanKnown(w, p) && w.spans[p].depth == 0
    ensures var f := ParentCarrier(w.spans[p], w.contexts[w.spans[p].context], r.config);
            var made := NewSpan(w, Some(p), r, s, c);
            && (made.Failed? <==> f.Raised?)
            && (made.Created? ==>
                  && made.world.spans[s] == FinishedSpan(ExtractedSpan(BareSpan(c, 0, -1, r), f.value), r)
                  && c in made.world.contexts
                  && made.world.contexts[c]
                     == FinishedContext(RelatedContext(NewContext(r).(lastSid := 0), CarriedId(f.value, r.traceId)), r))
  {
  }
}
