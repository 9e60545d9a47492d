/** The trace engine as steps on one value: spans, contexts and per-task span stacks of any number of
    tasks, over any processes. Numbers stand for the identities of span, context and task objects. */
module TraceEngine {
  import opened Text
  import opened Base64
  import opened Carrier

  type SpanId = nat
  type ContextId = nat
  type TaskId = nat

  datatype Kind = Local | Entry | Exit

  type Component = nat
  const UNKNOWN: Component := 0

  /** `generated` marks the id a segment makes up for itself (`_NewID`). */
  datatype TraceId = TraceId(value: Bytes, generated: bool)

  datatype RefType = CrossProcess | CrossThread

  datatype SegmentRef = SegmentRef(
    refType: RefType, traceId: Bytes, segmentId: Bytes, spanId: int,
    service: Bytes, serviceInstance: Bytes, endpoint: Option<Bytes>, clientAddress: Bytes)

  datatype Segment = Segment(id: Bytes, spans: seq<SpanId>, related: seq<TraceId>)

  datatype Span = Span(
    context: ContextId, noop: bool, sid: int, pid: int, op: Bytes, peer: Option<Bytes>, kind: Kind,
    component: Component, inherit: Component, depth: int, refs: seq<SegmentRef>)

  /** `lastSid` is the value of the span id counter, -1 at first. */
  datatype Context = Context(noop: bool, lastSid: int, nspans: int, segment: Segment, primary: Option<SpanId>)

  datatype Archive = Archive(context: ContextId, spans: seq<SpanId>)

  datatype World = World(
    spans: map<SpanId, Span>,
    contexts: map<ContextId, Context>,
    stacks: map<TaskId, seq<SpanId>>,
    archived: seq<Archive>)

  datatype Config = Config(service: Bytes, serviceInstance: Bytes)

  /** The arguments of `new_local_span`, `new_entry_span` or `new_exit_span`, and what the call finds
      out on its way: whether the operation is ignored or the queue full, whether sampling turned
      the request down, and the ids drawn for a new context. */
  datatype Request = Request(
    kind: Kind, op: Bytes, peer: Bytes, component: Option<Component>, inherit: Option<Component>,
    carrier: Option<State>, ignored: bool, sampledOut: bool,
    segmentId: Bytes, traceId: Bytes, config: Config)

  /** `Snapshot`: a suppressed context captures one without ids. */
  datatype Snapshot = Snapshot(segmentId: Option<Bytes>, spanId: int, traceId: Option<Bytes>, endpoint: Option<Bytes>)

  // ----- segments -----

  function Relate(related: seq<TraceId>, id: TraceId): seq<TraceId> {
    if related != [] && related[0].generated then related[..|related| - 1] + [id] else related + [id]
  }

  function IntText(i: int): string {
    if i >= 0 then Decimal(i) else "-" + Decimal(-i)
  }

  // ----- stacks -----

  function Top(w: World, t: TaskId): Option<SpanId>
    requires t in w.stacks
  {
    var stack := w.stacks[t];
    if stack == [] then None else Some(stack[|stack| - 1])
  }

  /** `list.remove`: the first occurrence goes, if there is one. */
  function Remove(xs: seq<SpanId>, x: SpanId): seq<SpanId> {
    if xs == [] then [] else if xs[0] == x then xs[1..] else [xs[0]] + Remove(xs[1..], x)
  }

  predicate SpanKnown(w: World, s: SpanId) {
    s in w.spans && w.spans[s].context in w.contexts
  }

  predicate TaskKnown(w: World, t: TaskId) {
    t in w.stacks && (w.stacks[t] != [] ==> SpanKnown(w, w.stacks[t][|w.stacks[t]| - 1]))
  }

  // ----- starting and stopping -----

  function StartedSpan(sp: Span): Span {
    sp.(depth := sp.depth + 1, component := if sp.kind.Entry? then UNKNOWN else sp.component)
  }

  function Pushed(stack: seq<SpanId>, s: SpanId): seq<SpanId> {
    if s in stack then stack else stack + [s]
  }

  /** `SpanContext.start`; the primary endpoint moves to the first entry span. */
  function StartedContext(c: Context, s: SpanId, isEntry: bool, primaryIsEntry: bool, pushed: bool): Context {
    var primary := if c.primary.None? || (!primaryIsEntry && isEntry) then Some(s) else c.primary;
    c.(nspans := c.nspans + 1, primary := if pushed then primary else c.primary)
  }

  predicate PrimaryIsEntry(w: World, c: Context) {
    c.primary.Some? && c.primary.value in w.spans && w.spans[c.primary.value].kind.Entry?
  }

  /** `Span.start` with the overriding `EntrySpan.start`, and `SpanContext.start`. */
  function Start(w: World, t: TaskId, s: SpanId): World
    requires t in w.stacks && SpanKnown(w, s)
  {
    var sp := w.spans[s];
    var spans := w.spans[s := StartedSpan(sp)];
    if sp.depth + 1 != 1 then w.(spans := spans)
    else
      var c := w.contexts[sp.context];
      var started := StartedContext(c, s, sp.kind.Entry?, PrimaryIsEntry(w, c), s !in w.stacks[t]);
      w.(spans := spans, contexts := w.contexts[sp.context := started], stacks := w.stacks[t := Pushed(w.stacks[t], s)])
  }

  /** `SpanContext.stop` or `NoopContext.stop`. */
  function StoppedContext(c: Context, s: SpanId): Context {
    c.(nspans := c.nspans - 1, segment := if c.noop then c.segment else c.segment.(spans := c.segment.spans + [s]))
  }

  /** A traced context is handed over when its last span has stopped. */
  function HandOver(archived: seq<Archive>, id: ContextId, stopped: Context): seq<Archive> {
    if !stopped.noop && stopped.nspans == 0 then archived + [Archive(id, stopped.segment.spans)] else archived
  }

  /** `Span.stop`. */
  function Stop(w: World, t: TaskId, s: SpanId): World
    requires t in w.stacks && SpanKnown(w, s)
  {
    var sp := w.spans[s];
    var spans := w.spans[s := sp.(depth := sp.depth - 1)];
    if sp.depth - 1 != 0 then w.(spans := spans)
    else
      var stopped := StoppedContext(w.contexts[sp.context], s);
      w.(spans := spans,
         contexts := w.contexts[sp.context := stopped],
         stacks := w.stacks[t := Remove(w.stacks[t], s)],
         archived := HandOver(w.archived, sp.context, stopped))
  }

  // ----- creating -----

  /** The span a call returns, in the world it leaves; or the call raises and leaves nothing behind. */
  datatype Created = Created(world: World, span: SpanId) | Failed

  const NOOP_SEGMENT_ID: Bytes := []

  function NoopContext(): Context {
    Context(true, -1, 0, Segment(NOOP_SEGMENT_ID, [], [TraceId([], false)]), None)
  }

  function NoopSpan(c: ContextId): Span {
    Span(c, true, -1, -1, [], None, Local, UNKNOWN, UNKNOWN, 0, [])
  }

  function AddNoop(w: World, s: SpanId, c: ContextId): World {
    w.(spans := w.spans[s := NoopSpan(c)],
       contexts := if c in w.contexts then w.contexts else w.contexts[c := NoopContext()])
  }

  /** A parent of the same kind takes over the request instead of getting a child. */
  predicate Reuses(parent: Span, r: Request) {
    match r.kind
    case Local => false
    case Entry => parent.kind.Entry? && r.inherit == Some(parent.component)
    case Exit => parent.kind.Exit? && r.component == Some(parent.inherit)
  }

  function Reused(parent: Span, r: Request): Span
    requires Reuses(parent, r)
  {
    if r.kind.Entry? then parent.(op := r.op)
    else parent.(op := r.op, peer := Some(r.peer), component := r.component.value,
                 inherit := if r.inherit.Some? then r.inherit.value else parent.inherit)
  }

  function RefTo(f: Fields): SegmentRef
    requires IsValid(f)
  {
    SegmentRef(CrossProcess, f.traceId, f.segmentId, ParseDecimal(f.spanId),
               f.service, f.serviceInstance, Some(f.endpoint), f.clientAddress)
  }

  function ExtractedSpan(sp: Span, f: Fields): Span {
    if IsValid(f) && RefTo(f) !in sp.refs then sp.(refs := sp.refs + [RefTo(f)]) else sp
  }

  function RelatedContext(c: Context, id: TraceId): Context {
    c.(segment := c.segment.(related := Relate(c.segment.related, id)))
  }

  /** The trace id of a carrier; `fallback` is drawn when it has none. */
  function CarriedId(f: Fields, fallback: Bytes): TraceId {
    TraceId(if f.traceId == [] then fallback else f.traceId, false)
  }

  /** `Span.extract`. */
  function Extract(w: World, s: SpanId, f: Fields, fallback: Bytes): World
    requires SpanKnown(w, s)
  {
    var sp := w.spans[s];
    if sp.noop then w
    else w.(contexts := w.contexts[sp.context := RelatedContext(w.contexts[sp.context], CarriedId(f, fallback))],
            spans := w.spans[s := ExtractedSpan(sp, f)])
  }

  /** The carrier that names a span of this process; the peer is given apart because it may be missing. */
  function CarrierOf(sp: Span, c: Context, peer: Bytes, g: Config): Fields {
    Fields(if c.segment.related == [] then [] else c.segment.related[0].value, c.segment.id, IntText(sp.sid),
           g.service, g.serviceInstance, sp.op, peer)
  }

  /** The carrier by which a finished parent is referred to. Without a peer the validity test raises,
      unless an earlier field is empty and the peer is not reached. */
  function ParentCarrier(parent: Span, pc: Context, g: Config): Result<Fields> {
    var f := CarrierOf(parent, pc, if parent.peer.Some? then parent.peer.value else [], g);
    if parent.peer.None? && f.traceId != [] && f.segmentId != [] && f.service != [] && f.serviceInstance != []
       && f.endpoint != [] then Raised
    else Ok(f)
  }

  function ReferToParent(w: World, s: SpanId, parent: Span, pc: Context, r: Request): Option<World>
    requires SpanKnown(w, s)
  {
    var f := ParentCarrier(parent, pc, r.config);
    if f.Raised? then None else Some(Extract(w, s, f.value, r.traceId))
  }

  function BareSpan(c: ContextId, sid: int, pid: int, r: Request): Span {
    Span(c, false, sid, pid, r.op, if r.kind.Exit? then Some(r.peer) else None, r.kind,
         if r.kind.Exit? && r.component.Some? then r.component.value else UNKNOWN, UNKNOWN, 0, [])
  }

  function NewContext(r: Request): Context {
    Context(false, -1, 0, Segment(r.segmentId, [], [TraceId(r.traceId, true)]), None)
  }

  /** The span and, if needed, the context that `new_span` makes, before any reference is added. */
  function AddSpan(w: World, parent: Option<SpanId>, r: Request, s: SpanId, c: ContextId): World
    requires parent.Some? ==> SpanKnown(w, parent.value)
  {
    var under := parent.Some? && w.spans[parent.value].depth != 0;
    var home := if under then w.spans[parent.value].context else c;
    var ctx := if under then w.contexts[home] else NewContext(r);
    w.(spans := w.spans[s := BareSpan(home, ctx.lastSid + 1, if under then w.spans[parent.value].sid else -1, r)],
       contexts := w.contexts[home := ctx.(lastSid := ctx.lastSid + 1)])
  }

  /** What `new_entry_span` and `new_exit_span` do to a span they have just made. */
  function Finish(w: World, s: SpanId, r: Request): World
    requires SpanKnown(w, s)
  {
    if r.kind.Entry? && r.carrier.Some? && IsValid(r.carrier.value.fields) then
      Extract(w, s, r.carrier.value.fields, r.traceId)
    else if r.kind.Exit? && r.inherit.Some? then
      w.(spans := w.spans[s := w.spans[s].(inherit := r.inherit.value)])
    else w
  }

  /** `Finish` on the span and on its context alone. */
  function FinishedSpan(sp: Span, r: Request): Span {
    if r.kind.Entry? && r.carrier.Some? && IsValid(r.carrier.value.fields) then ExtractedSpan(sp, r.carrier.value.fields)
    else if r.kind.Exit? && r.inherit.Some? then sp.(inherit := r.inherit.value)
    else sp
  }

  function FinishedContext(c: Context, r: Request): Context {
    if r.kind.Entry? && r.carrier.Some? && IsValid(r.carrier.value.fields) then
      RelatedContext(c, CarriedId(r.carrier.value.fields, r.traceId))
    else c
  }

  function NewSpan(w: World, parent: Option<SpanId>, r: Request, s: SpanId, c: ContextId): (res: Created)
    requires parent.Some? ==> SpanKnown(w, parent.value)
    ensures res.Created? ==> res.span == s && SpanKnown(res.world, s) && res.world.stacks == w.stacks
  {
    var w1 := AddSpan(w, parent, r, s, c);
    if parent.Some? && w.spans[parent.value].depth == 0 then
      var p := w.spans[parent.value];
      var referred := ReferToParent(w1, s, p, w.contexts[p.context], r);
      if referred.None? then Failed else Created(Finish(referred.value, s, r), s)
    else Created(Finish(w1, s, r), s)
  }

  predicate Suppresses(r: Request) {
    r.ignored || (r.kind.Entry? && r.carrier.Some? && r.carrier.value.Suppressed())
  }

  /** The context that `get_context` returns suppresses everything. */
  predicate UnderNoop(w: World, t: TaskId, r: Request)
    requires TaskKnown(w, t)
  {
    var top := Top(w, t);
    if top.Some? then w.contexts[w.spans[top.value].context].noop else r.sampledOut
  }

  predicate TakesOver(w: World, t: TaskId, r: Request)
    requires TaskKnown(w, t)
  {
    && !UnderNoop(w, t, r) && !Suppresses(r)
    && var top := Top(w, t); top.Some? && Reuses(w.spans[top.value], r)
  }

  /** `get_context()` and `new_*_span` on the context it returns. `s` and `c` are the objects made
      when a span or a context is needed. */
  function Create(w: World, t: TaskId, r: Request, s: SpanId, c: ContextId): (res: Created)
    requires TaskKnown(w, t)
    ensures res.Created? ==> SpanKnown(res.world, res.span) && res.world.stacks == w.stacks
  {
    var top := Top(w, t);
    if UnderNoop(w, t, r) then Created(AddNoop(w, s, if top.Some? then w.spans[top.value].context else c), s)
    else if Suppresses(r) then Created(AddNoop(w, s, c), s)
    else if top.Some? && Reuses(w.spans[top.value], r) then
      Created(w.(spans := w.spans[top.value := Reused(w.spans[top.value], r)]), top.value)
    else NewSpan(w, top, r, s, c)
  }

  // ----- snapshots -----

  function Capture(w: World, t: TaskId): Snapshot
    requires TaskKnown(w, t) && w.stacks[t] != [] && w.stacks[t][0] in w.spans
  {
    var top := w.spans[Top(w, t).value];
    var c := w.contexts[top.context];
    if c.noop || c.segment.related == [] then Snapshot(None, -1, None, None)
    else Snapshot(Some(c.segment.id), top.sid, Some(c.segment.related[0].value), Some(w.spans[w.stacks[t][0]].op))
  }

  predicate SnapshotValid(p: Snapshot) {
    p.segmentId.Some? && p.spanId > -1 && p.traceId.Some?
  }

  /** The snapshot comes from another segment and can be referred to. */
  predicate Continues(w: World, t: TaskId, p: Snapshot)
    requires TaskKnown(w, t) && w.stacks[t] != []
  {
    var c := w.contexts[w.spans[Top(w, t).value].context];
    !c.noop && SnapshotValid(p) && p.segmentId != Some(c.segment.id)
  }

  /** `SegmentRef.build_ref`. */
  function ThreadRef(p: Snapshot, g: Config): SegmentRef
    requires SnapshotValid(p)
  {
    SegmentRef(CrossThread, p.traceId.value, p.segmentId.value, p.spanId, g.service, g.serviceInstance,
               p.endpoint, [])
  }

  function SnapshotId(p: Snapshot, fallback: Bytes): TraceId
    requires SnapshotValid(p)
  {
    TraceId(if p.traceId.value == [] then fallback else p.traceId.value, false)
  }

  /** `SpanContext.continued` on the context of the task's topmost span. */
  function Continue(w: World, t: TaskId, p: Snapshot, g: Config, fallback: Bytes): World
    requires TaskKnown(w, t) && w.stacks[t] != []
  {
    var s := Top(w, t).value;
    var sp := w.spans[s];
    if !Continues(w, t, p) then w
    else
      w.(spans := w.spans[s := sp.(refs := sp.refs + [ThreadRef(p, g)])],
         contexts := w.contexts[sp.context := RelatedContext(w.contexts[sp.context], SnapshotId(p, fallback))])
  }

  // ----- steps -----

  datatype Step =
    | Begin(task: TaskId)                                     // a thread or task with no spans of its own
    | Spawn(task: TaskId, child: TaskId)                           // an asyncio task that inherits its parent's variables
    | Enter(task: TaskId, request: Request, span: SpanId, context: ContextId) // get_context, new_*_span and start
    | Leave(task: TaskId, span: SpanId)                            // stop
    | Annotate(span: SpanId, op: Bytes, peer: Bytes, component: Component)
    | Extracts(span: SpanId, fields: Fields, fallback: Bytes)
    | Continued(task: TaskId, snapshot: Snapshot, config: Config, fallback: Bytes)

  /** What callers owe the engine. A step that raises is not enabled: it changes nothing. */
  predicate Enabled(w: World, step: Step) {
    match step
    case Begin(t) => t !in w.stacks
    case Spawn(t, u) => t in w.stacks && u !in w.stacks
    case Enter(t, r, s, c) => TaskKnown(w, t) && s !in w.spans && c !in w.contexts && Create(w, t, r, s, c).Created?
    case Leave(t, s) => t in w.stacks && SpanKnown(w, s) && w.spans[s].depth > 0
    case Annotate(s, _, _, _) => s in w.spans
    case Extracts(s, _, _) => SpanKnown(w, s)
    case Continued(t, _, _, _) => TaskKnown(w, t) && w.stacks[t] != []
  }

  /** A parent that takes over a request is still open. The engine does not test this. */
  predicate ReuseIsLive(w: World, step: Step) {
    step.Enter? && TaskKnown(w, step.task) && TakesOver(w, step.task, step.request)
    ==> w.spans[Top(w, step.task).value].depth > 0
  }

  function Apply(w: World, step: Step): World
    requires Enabled(w, step)
  {
    match step
    case Begin(t) => w.(stacks := w.stacks[t := []])
    case Spawn(t, u) => w.(stacks := w.stacks[u := w.stacks[t]])
    case Enter(t, r, s, c) => var made := Create(w, t, r, s, c); Start(made.world, t, made.span)
    case Leave(t, s) => Stop(w, t, s)
    case Annotate(s, op, peer, component) =>
      w.(spans := w.spans[s := w.spans[s].(op := op, peer := Some(peer), component := component)])
    case Extracts(s, f, fallback) => Extract(w, s, f, fallback)
    case Continued(t, p, g, fallback) => Continue(w, t, p, g, fallback)
  }

  function Initial(): World {
    World(map[], map[], map[], [])
  }

  /** `steps` lead from `w` to `end`, each enabled where it is taken and no finished parent reused. */
  ghost predicate Leads(w: World, steps: seq<Step>, end: World)
    decreases |steps|
  {
    if steps == [] then w == end
    else Enabled(w, steps[0]) && ReuseIsLive(w, steps[0]) && Leads(Apply(w, steps[0]), steps[1..], end)
  }
}
