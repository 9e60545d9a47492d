/** Headers and snapshots travelling between tasks and processes: suppression follows every call, and what
    was read from a segment keeps naming its trace. */
module TraceLineage {
  import opened Text
  import opened Base64
  import opened Carrier
  import opened TraceEngine
  import opened TraceInvariant
  import opened TraceRuns

  /** A header on the wire and the span that injected it. */
  datatype Message = Message(header: string, sender: SpanId)

  /** A snapshot and the context it was captured from. */
  datatype Captured = Captured(snapshot: Snapshot, context: ContextId)

  /** `causes` names the spans a span was created under: the topmost span of its task and the sender
      of its header. `origin` names the segment a segment took its trace id from. */
  datatype Net = Net(
    world: World,
    wire: seq<Message>,
    captured: seq<Captured>,
    causes: map<SpanId, set<SpanId>>,
    origin: map<ContextId, ContextId>)

  datatype Move =
    | Plain(step: Step)                                             // any step; a carrier in it comes from outside
    | Inject(span: SpanId, config: Config)
    | Deliver(task: TaskId, message: nat, request: Request, span: SpanId, context: ContextId)
    | Consume(span: SpanId, message: nat, fallback: Bytes)          // an open span extracts a header
    | CaptureIn(task: TaskId)
    | Resume(task: TaskId, index: nat, config: Config, fallback: Bytes)

  /** The step of the engine that a move makes. */
  function StepOf(n: Net, m: Move): Option<Step> {
    match m
    case Plain(step) => Some(step)
    case Deliver(t, i, r, s, c) =>
      if i < |n.wire| && Receive(n.wire[i].header).Ok? then
        Some(Enter(t, r.(carrier := Some(Receive(n.wire[i].header).value)), s, c))
      else None
    case Consume(s, i, fallback) =>
      if i < |n.wire| && Receive(n.wire[i].header).Ok? then
        Some(Extracts(s, Receive(n.wire[i].header).value.fields, fallback))
      else None
    case Resume(t, k, g, fallback) =>
      if k < |n.captured| then Some(Continued(t, n.captured[k].snapshot, g, fallback)) else None
    case Inject(_, _) => None
    case CaptureIn(_) => None
  }

  /** Ids that a step draws are never empty. */
  predicate DrawsIds(step: Step) {
    match step
    case Enter(_, r, _, _) => r.traceId != []
    case Extracts(_, _, fallback) => fallback != []
    case Continued(_, _, _, fallback) => fallback != []
    case _ => true
  }

  /** Only exit spans inject; suppressed ones inject an empty carrier. */
  predicate CanInject(w: World, s: SpanId) {
    SpanKnown(w, s) && (w.spans[s].noop || (w.spans[s].kind.Exit? && w.spans[s].peer.Some?))
  }

  function InjectedHeader(w: World, s: SpanId, g: Config): string
    requires CanInject(w, s)
  {
    var sp := w.spans[s];
    if sp.noop then Header(EMPTY) else Header(CarrierOf(sp, w.contexts[sp.context], sp.peer.value, g))
  }

  predicate MoveEnabled(n: Net, m: Move) {
    match m
    case Inject(s, g) => CanInject(n.world, s)
    case CaptureIn(t) => TaskKnown(n.world, t) && n.world.stacks[t] != [] && n.world.stacks[t][0] in n.world.spans
    case _ =>
      && StepOf(n, m).Some?
      && var step := StepOf(n, m).value;
         Enabled(n.world, step) && ReuseIsLive(n.world, step) && DrawsIds(step) && (m.Deliver? ==> m.request.kind.Entry?)
  }

  // ----- trace ids -----

  function Primary(w: World, c: ContextId): TraceId {
    if c in w.contexts && w.contexts[c].segment.related != [] then w.contexts[c].segment.related[0]
    else TraceId([], false)
  }

  /** A new span appears under the open topmost span. */
  predicate EntersUnder(w: World, step: Step) {
    && step.Enter? && TaskKnown(w, step.task) && !TakesOver(w, step.task, step.request)
    && !UnderNoop(w, step.task, step.request) && !Suppresses(step.request)
    && Top(w, step.task).Some? && w.spans[Top(w, step.task).value].depth != 0
  }

  /** A new span opens a new segment; `split` if its parent has finished. */
  predicate OpensSegment(w: World, step: Step, split: bool) {
    && step.Enter? && TaskKnown(w, step.task) && !TakesOver(w, step.task, step.request)
    && !UnderNoop(w, step.task, step.request) && !Suppresses(step.request)
    && (if split then Top(w, step.task).Some? && w.spans[Top(w, step.task).value].depth == 0
        else Top(w, step.task).None?)
  }

  predicate BringsCarrier(r: Request) {
    r.kind.Entry? && r.carrier.Some? && IsValid(r.carrier.value.fields)
  }

  /** The existing context whose segment a step relates to a trace id, and that id. */
  function Relating(w: World, step: Step): Option<(ContextId, Bytes)> {
    match step
    case Enter(t, r, _, _) =>
      if EntersUnder(w, step) && BringsCarrier(r) then
        Some((w.spans[Top(w, t).value].context, r.carrier.value.fields.traceId))
      else None
    case Extracts(s, f, fallback) =>
      if SpanKnown(w, s) && !w.spans[s].noop then
        Some((w.spans[s].context, if f.traceId == [] then fallback else f.traceId))
      else None
    case Continued(t, p, _, fallback) =>
      if TaskKnown(w, t) && w.stacks[t] != [] && Continues(w, t, p) then
        Some((w.spans[Top(w, t).value].context, if p.traceId.value == [] then fallback else p.traceId.value))
      else None
    case _ => None
  }

  /** Where the first trace id of a segment comes from, when it comes from a known segment: the
      segment that gets it and the segment it is from. */
  function Adoption(n: Net, m: Move): Option<(ContextId, ContextId)>
    requires MoveEnabled(n, m)
  {
    var w := n.world;
    match m
    case Plain(step) =>
      if OpensSegment(w, step, true) then Some((step.context, w.spans[Top(w, step.task).value].context)) else None
    case Deliver(t, i, r, s, c) =>
      var step := StepOf(n, m).value;
      var from := n.wire[i].sender;
      if OpensSegment(w, step, true) then Some((c, w.spans[Top(w, t).value].context))
      else if from !in w.spans || w.spans[from].noop || !BringsCarrier(step.request) then None
      else if OpensSegment(w, step, false) then Some((c, w.spans[from].context))
      else if EntersUnder(w, step) && Primary(w, w.spans[Top(w, t).value].context).generated then
        Some((w.spans[Top(w, t).value].context, w.spans[from].context))
      else None
    case Consume(s, i, _) =>
      var from := n.wire[i].sender;
      if from in w.spans && !w.spans[from].noop && !w.spans[s].noop && Primary(w, w.spans[s].context).generated
         && IsValid(Receive(n.wire[i].header).value.fields) then Some((w.spans[s].context, w.spans[from].context))
      else None
    case Resume(t, k, _, _) =>
      if Continues(w, t, n.captured[k].snapshot) && Primary(w, w.spans[Top(w, t).value].context).generated then
        Some((w.spans[Top(w, t).value].context, n.captured[k].context))
      else None
    case _ => None
  }

  // ----- the network's steps -----

  /** The spans a new span is created under. */
  function Causes(n: Net, m: Move, step: Step): set<SpanId> {
    if !step.Enter? || step.task !in n.world.stacks then {}
    else
      var top := Top(n.world, step.task);
      (if top.Some? then {top.value} else {})
      + (if m.Deliver? && m.message < |n.wire| then {n.wire[m.message].sender} else {})
  }

  /** The step leads to the world `v`. */
  function Record(n: Net, step: Step, v: World, causes: set<SpanId>, a: Option<(ContextId, ContextId)>): Net {
    n.(world := v,
       causes := if step.Enter? && step.span in v.spans then n.causes[step.span := causes] else n.causes,
       origin := if a.Some? then n.origin[a.value.0 := a.value.1] else n.origin)
  }

  function After(n: Net, m: Move): Net
    requires MoveEnabled(n, m)
  {
    match m
    case Inject(s, g) => n.(wire := n.wire + [Message(InjectedHeader(n.world, s, g), s)])
    case CaptureIn(t) =>
      n.(captured := n.captured + [Captured(Capture(n.world, t), n.world.spans[Top(n.world, t).value].context)])
    case _ =>
      var step := StepOf(n, m).value;
      Record(n, step, Apply(n.world, step), Causes(n, m, step), Adoption(n, m))
  }

  ghost predicate NetLeads(n: Net, moves: seq<Move>, end: Net)
    decreases |moves|
  {
    if moves == [] then n == end
    else MoveEnabled(n, moves[0]) && NetLeads(After(n, moves[0]), moves[1..], end)
  }

  function InitialNet(): Net {
    Net(Initial(), [], [], map[], map[])
  }

  // ----- suppression -----

  ghost predicate Dark(w: World, s: SpanId) {
    s in w.spans && w.spans[s].noop
  }

  /** Suppression is inherited, and a suppressed sender's header says nothing. */
  ghost predicate Suppressing(n: Net) {
    && (forall s, p :: s in n.causes && p in n.causes[s] && Dark(n.world, p) ==> Dark(n.world, s))
    && (forall s :: s in n.causes ==> s in n.world.spans && forall p :: p in n.causes[s] ==> p in n.world.spans)
    && (forall i :: 0 <= i < |n.wire| ==>
          n.wire[i].sender in n.world.spans && (Dark(n.world, n.wire[i].sender) ==> n.wire[i].header == Header(EMPTY)))
  }

  /** Spans keep their context and whether they are suppressed. */
  ghost predicate KeepsSpans(w: World, v: World) {
    forall s :: s in w.spans ==> s in v.spans && v.spans[s].noop == w.spans[s].noop && v.spans[s].context == w.spans[s].context
  }

  lemma ShapeKeepsSpans(w: World, v: World)
    requires SameShape(w, v)
    ensures KeepsSpans(w, v) && v.spans.Keys == w.spans.Keys
  {
    forall s | s in w.spans
      ensures s in v.spans && v.spans[s].noop == w.spans[s].noop && v.spans[s].context == w.spans[s].context
    {
      assert SameSpan(w.spans[s], v.spans[s]);
    }
  }

  lemma StartKeepsSpanHomes(w: World, t: TaskId, s: SpanId)
    requires t in w.stacks && SpanKnown(w, s)
    ensures KeepsSpans(w, Start(w, t, s)) && Start(w, t, s).spans.Keys == w.spans.Keys
  {
  }

  lemma CreateAddsOne(w: World, t: TaskId, r: Request, s: SpanId, c: ContextId)
    requires TaskKnown(w, t) && Create(w, t, r, s, c).Created?
    ensures Create(w, t, r, s, c).world.spans.Keys <= w.spans.Keys + {s}
  {
  }

  lemma CreateKeepsSpanHomes(w: World, t: TaskId, r: Request, s: SpanId, c: ContextId)
    requires Inv(w, {}) && Enabled(w, Enter(t, r, s, c))
    ensures var v := Create(w, t, r, s, c).world;
            && KeepsSpans(w, v) && v.spans.Keys <= w.spans.Keys + {s}
            && (s in v.spans ==> (v.spans[s].noop <==> UnderNoop(w, t, r) || Suppresses(r)))
  {
    var made := Create(w, t, r, s, c);
    CreateShape(w, t, r, s, c);
    CreateAddsOne(w, t, r, s, c);
    if TakesOver(w, t, r) {
      ShapeKeepsSpans(w, made.world);
    } else {
      forall x | x in w.spans
        ensures x in made.world.spans && made.world.spans[x].noop == w.spans[x].noop
                && made.world.spans[x].context == w.spans[x].context
      {
        assert SameSpan(w.spans[x], made.world.spans[x]);
      }
    }
  }

  lemma OtherStepKeepsSpans(w: World, step: Step)
    requires Related(w) && Enabled(w, step) && !step.Enter?
    ensures KeepsSpans(w, Apply(w, step)) && Apply(w, step).spans.Keys == w.spans.Keys
  {
    match step
    case Extracts(s, f, fallback) =>
      ExtractKeepsShape(w, s, f, fallback);
      ShapeKeepsSpans(w, Apply(w, step));
    case Continued(t, p, g, fallback) =>
      ContinueKeepsShape(w, t, p, g, fallback);
      ShapeKeepsSpans(w, Apply(w, step));
    case _ =>
  }

  /** A step adds at most the span it names. */
  lemma StepKeepsSpans(w: World, step: Step)
    requires Inv(w, {}) && Enabled(w, step)
    ensures KeepsSpans(w, Apply(w, step))
    ensures Apply(w, step).spans.Keys <= w.spans.Keys + (if step.Enter? then {step.span} else {})
    ensures step.Enter? && step.span in Apply(w, step).spans ==>
              (Dark(Apply(w, step), step.span) <==> UnderNoop(w, step.task, step.request) || Suppresses(step.request))
  {
    if step.Enter? {
      var made := Create(w, step.task, step.request, step.span, step.context);
      CreateKeepsSpanHomes(w, step.task, step.request, step.span, step.context);
      StartKeepsSpanHomes(made.world, step.task, made.span);
    } else {
      InvRelated(w, {});
      OtherStepKeepsSpans(w, step);
    }
  }

  /** The empty carrier's header is received as a suppressing one. */
  lemma EmptyHeaderSuppresses()
    ensures Receive(Header(EMPTY)).Ok? && Receive(Header(EMPTY)).value.Suppressed()
  {
    ValidityCrossesWire(EMPTY);
  }

  /** A suppressed cause suppresses the request. */
  lemma CausesSuppress(n: Net, m: Move, step: Step, p: SpanId)
    requires SpansOk(n.world, {}) && Suppressing(n) && MoveEnabled(n, m) && StepOf(n, m) == Some(step) && step.Enter?
    requires p in Causes(n, m, step)
    ensures p in n.world.spans
    ensures Dark(n.world, p) ==> UnderNoop(n.world, step.task, step.request) || Suppresses(step.request)
  {
    var top := Top(n.world, step.task);
    if top.Some? && p == top.value {
      assert SpanOk(n.world, p, {});
    } else {
      SenderSuppresses(n, m, step);
    }
  }

  lemma SenderSuppresses(n: Net, m: Move, step: Step)
    requires Suppressing(n) && MoveEnabled(n, m) && StepOf(n, m) == Some(step) && m.Deliver?
    ensures n.wire[m.message].sender in n.world.spans
    ensures Dark(n.world, n.wire[m.message].sender) ==> Suppresses(step.request)
  {
    EmptyHeaderSuppresses();
  }

  /** Suppression survives when old spans keep it and a new span inherits it from its causes. */
  lemma RecordKeepsSuppressing(n: Net, step: Step, v: World, causes: set<SpanId>, a: Option<(ContextId, ContextId)>)
    requires Suppressing(n) && KeepsSpans(n.world, v)
    requires step.Enter? && step.span in v.spans ==>
               && step.span !in n.world.spans
               && forall p :: p in causes ==> p in n.world.spans && (Dark(n.world, p) ==> Dark(v, step.span))
    ensures Suppressing(Record(n, step, v, causes, a))
  {
    forall x | x in n.world.spans
      ensures x in v.spans && (Dark(v, x) <==> Dark(n.world, x))
    {
    }
  }

  lemma StepMoveKeepsSuppressing(n: Net, m: Move, step: Step)
    requires Inv(n.world, {}) && Suppressing(n) && MoveEnabled(n, m) && StepOf(n, m) == Some(step)
    ensures Suppressing(Record(n, step, Apply(n.world, step), Causes(n, m, step), Adoption(n, m)))
  {
    var v := Apply(n.world, step);
    StepKeepsSpans(n.world, step);
    if step.Enter? && step.span in v.spans {
      forall p | p in Causes(n, m, step)
        ensures p in n.world.spans && (Dark(n.world, p) ==> Dark(v, step.span))
      {
        CausesSuppress(n, m, step, p);
      }
    }
    RecordKeepsSuppressing(n, step, v, Causes(n, m, step), Adoption(n, m));
  }

  lemma SendKeepsSuppressing(n: Net, msg: Message)
    requires Suppressing(n) && msg.sender in n.world.spans
    requires Dark(n.world, msg.sender) ==> msg.header == Header(EMPTY)
    ensures Suppressing(n.(wire := n.wire + [msg]))
  {
  }

  lemma MoveKeepsSuppressing(n: Net, m: Move)
    requires Inv(n.world, {}) && Suppressing(n) && MoveEnabled(n, m)
    ensures Suppressing(After(n, m))
  {
    if m.Inject? {
      SendKeepsSuppressing(n, Message(InjectedHeader(n.world, m.span, m.config), m.span));
    } else if m.CaptureIn? {
      assert Suppressing(After(n, m));
    } else {
      StepMoveKeepsSuppressing(n, m, StepOf(n, m).value);
    }
  }

  lemma {:induction false} NetKeepsSuppressing(n: Net, moves: seq<Move>, end: Net)
    requires Inv(n.world, {}) && Suppressing(n) && NetLeads(n, moves, end)
    ensures Inv(end.world, {}) && Suppressing(end)
    decreases |moves|
  {
    if moves != [] {
      MoveKeepsSuppressing(n, moves[0]);
      if StepOf(n, moves[0]).Some? {
        StepKeepsInv(n.world, StepOf(n, moves[0]).value);
      }
      NetKeepsSuppressing(After(n, moves[0]), moves[1..], end);
    }
  }

  /** `path` leads from a span to one it was, step by step, created under. */
  ghost predicate Downstream(n: Net, path: seq<SpanId>) {
    && path != []
    && forall i :: 0 <= i < |path| - 1 ==> path[i] in n.causes && path[i + 1] in n.causes[path[i]]
  }

  lemma {:induction false} DarknessFlowsDown(n: Net, path: seq<SpanId>)
    requires Suppressing(n) && Downstream(n, path) && Dark(n.world, path[|path| - 1])
    ensures Dark(n.world, path[0])
    decreases |path|
  {
    if |path| > 1 {
      DarknessFlowsDown(n, path[1..]);
      assert path[1] in n.causes[path[0]];
    }
  }

  /** After any run of any number of tasks and processes: whatever is downstream of a suppressed span,
      through stacks and headers, is suppressed and in no archived segment. */
  lemma SuppressionReachesTheWholeCallTree(moves: seq<Move>, end: Net, path: seq<SpanId>)
    requires NetLeads(InitialNet(), moves, end) && Downstream(end, path) && Dark(end.world, path[|path| - 1])
    ensures Dark(end.world, path[0])
    ensures forall i :: 0 <= i < |end.world.archived| ==> path[0] !in end.world.archived[i].spans
  {
    InitialInv();
    NetKeepsSuppressing(InitialNet(), moves, end);
    DarknessFlowsDown(end, path);
    forall i | 0 <= i < |end.world.archived|
      ensures path[0] !in end.world.archived[i].spans
    {
      ArchiveIsComplete(end.world, i);
      assert SpanOk(end.world, path[0], {});
    }
  }

  // ----- one trace id -----

  /** A trace id read from `c` is on its way or has been adopted. */
  ghost predicate Exported(n: Net, c: ContextId) {
    || (exists i :: 0 <= i < |n.wire| && SentFrom(n, i, c))
    || (exists k :: 0 <= k < |n.captured| && CapturedFrom(n, k, c))
    || (exists d :: d in n.origin && n.origin[d] == c)
  }

  ghost predicate SentFrom(n: Net, i: nat, c: ContextId) {
    i < |n.wire| && n.wire[i].sender in n.world.spans && !n.world.spans[n.wire[i].sender].noop
    && n.world.spans[n.wire[i].sender].context == c
  }

  ghost predicate CapturedFrom(n: Net, k: nat, c: ContextId) {
    k < |n.captured| && n.captured[k].context == c && SnapshotValid(n.captured[k].snapshot)
  }

  ghost predicate MessageCarries(header: string, id: Bytes) {
    Receive(header).Ok? && Receive(header).value.fields.traceId == id
  }

  /** Whatever was read from a segment still names its trace, and a segment is in the trace of the
      segment it took its id from. */
  ghost predicate OneTrace(n: Net) {
    && (forall i, c :: 0 <= i < |n.wire| && SentFrom(n, i, c) ==>
          c in n.world.contexts && MessageCarries(n.wire[i].header, Primary(n.world, c).value))
    && (forall k, c :: 0 <= k < |n.captured| && CapturedFrom(n, k, c) ==>
          c in n.world.contexts && n.captured[k].snapshot.traceId == Some(Primary(n.world, c).value))
    && (forall d :: d in n.origin ==>
          && d in n.world.contexts && n.origin[d] in n.world.contexts
          && !Primary(n.world, d).generated
          && Primary(n.world, d).value == Primary(n.world, n.origin[d]).value)
    && (forall c :: c in n.world.contexts && !n.world.contexts[c].noop ==> Primary(n.world, c).value != [])
  }

  /** A step relates a segment whose made-up id was already read from it to another id. */
  ghost predicate Rewrites(n: Net, step: Step) {
    var rel := Relating(n.world, step);
    && rel.Some? && rel.value.0 in n.world.contexts
    && Primary(n.world, rel.value.0).generated && Exported(n, rel.value.0)
    && rel.value.1 != Primary(n.world, rel.value.0).value
  }

  /** What a step does to the first trace ids of existing contexts. */
  ghost predicate PrimariesFollow(w: World, v: World, rel: Option<(ContextId, Bytes)>) {
    forall c :: c in w.contexts ==>
      && c in v.contexts
      && Primary(v, c) == if rel.Some? && rel.value.0 == c && Primary(w, c).generated then TraceId(rel.value.1, false)
                          else Primary(w, c)
  }

  lemma RelatePrimary(related: seq<TraceId>, id: TraceId)
    requires related != [] && (related[0].generated ==> |related| == 1)
    ensures Relate(related, id) != []
    ensures Relate(related, id)[0] == if related[0].generated then id else related[0]
  {
  }

  lemma ExtractPrimary(w: World, s: SpanId, f: Fields, fallback: Bytes)
    requires SpanKnown(w, s) && Related(w)
    ensures PrimariesFollow(w, Extract(w, s, f, fallback), Relating(w, Extracts(s, f, fallback)))
    ensures Extract(w, s, f, fallback).contexts.Keys == w.contexts.Keys
    ensures Related(Extract(w, s, f, fallback)) && KeepsSpans(w, Extract(w, s, f, fallback))
  {
    var v := Extract(w, s, f, fallback);
    ExtractRelates(w, s, f, fallback);
    ExtractKeepsShape(w, s, f, fallback);
    ShapeRelated(w, v);
    ShapeKeepsSpans(w, v);
  }

  lemma ExtractRelates(w: World, s: SpanId, f: Fields, fallback: Bytes)
    requires SpanKnown(w, s) && Related(w)
    ensures PrimariesFollow(w, Extract(w, s, f, fallback), Relating(w, Extracts(s, f, fallback)))
    ensures Extract(w, s, f, fallback).contexts.Keys == w.contexts.Keys
  {
    RelatePrimary(w.contexts[w.spans[s].context].segment.related,
                  TraceId(if f.traceId == [] then fallback else f.traceId, false));
  }

  lemma ContinuePrimary(w: World, t: TaskId, p: Snapshot, g: Config, fallback: Bytes)
    requires TaskKnown(w, t) && w.stacks[t] != [] && Related(w)
    ensures PrimariesFollow(w, Continue(w, t, p, g, fallback), Relating(w, Continued(t, p, g, fallback)))
  {
    if Continues(w, t, p) {
      RelatePrimary(w.contexts[w.spans[Top(w, t).value].context].segment.related,
                    TraceId(if p.traceId.value == [] then fallback else p.traceId.value, false));
    }
  }

  lemma StartPrimary(w: World, t: TaskId, s: SpanId)
    requires t in w.stacks && SpanKnown(w, s)
    ensures PrimariesFollow(w, Start(w, t, s), None) && Start(w, t, s).contexts.Keys == w.contexts.Keys
  {
  }

  lemma StopPrimary(w: World, t: TaskId, s: SpanId)
    requires t in w.stacks && SpanKnown(w, s)
    ensures PrimariesFollow(w, Stop(w, t, s), None)
  {
  }

  lemma FinishPrimary(w: World, s: SpanId, r: Request)
    requires SpanKnown(w, s) && Related(w) && !w.spans[s].noop
    ensures PrimariesFollow(w, Finish(w, s, r),
                            if BringsCarrier(r) then Some((w.spans[s].context, r.carrier.value.fields.traceId)) else None)
    ensures Finish(w, s, r).contexts.Keys == w.contexts.Keys
  {
    if BringsCarrier(r) {
      ExtractPrimary(w, s, r.carrier.value.fields, r.traceId);
    }
  }

  /** A span under an open parent joins the parent's segment. */
  lemma UnderPrimary(w: World, p: SpanId, r: Request, s: SpanId, c: ContextId)
    requires SpanKnown(w, p) && w.spans[p].depth != 0 && Related(w)
    requires Related(AddSpan(w, Some(p), r, s, c))
    ensures var v := NewSpan(w, Some(p), r, s, c);
            && v.Created? && v.world.contexts.Keys == w.contexts.Keys
            && PrimariesFollow(w, v.world,
                 if BringsCarrier(r) then Some((w.spans[p].context, r.carrier.value.fields.traceId)) else None)
  {
    var bare := AddSpan(w, Some(p), r, s, c);
    FinishPrimary(bare, s, r);
    assert forall d :: d in w.contexts ==> Primary(bare, d) == Primary(w, d);
  }

  /** A span without a parent opens a segment in its own trace or the carrier's. */
  lemma FreshPrimary(w: World, r: Request, s: SpanId, c: ContextId)
    requires c !in w.contexts && Related(AddSpan(w, None, r, s, c))
    ensures var v := NewSpan(w, None, r, s, c);
            && v.Created? && v.world.contexts.Keys == w.contexts.Keys + {c}
            && PrimariesFollow(w, v.world, None)
            && Primary(v.world, c) == if BringsCarrier(r) then TraceId(r.carrier.value.fields.traceId, false)
                                      else TraceId(r.traceId, true)
  {
    var bare := AddSpan(w, None, r, s, c);
    FreshBare(w, r, s, c);
    FinishPrimary(bare, s, r);
  }

  lemma FreshBare(w: World, r: Request, s: SpanId, c: ContextId)
    requires c !in w.contexts
    ensures var bare := AddSpan(w, None, r, s, c);
            && SpanKnown(bare, s) && !bare.spans[s].noop && bare.spans[s].context == c
            && bare.contexts.Keys == w.contexts.Keys + {c} && Primary(bare, c) == TraceId(r.traceId, true)
            && forall d :: d in w.contexts ==> Primary(bare, d) == Primary(w, d)
  {
  }

  lemma ReferPrimary(w: World, s: SpanId, parent: Span, pc: Context, r: Request)
    requires SpanKnown(w, s) && Related(w) && !w.spans[s].noop && ReferToParent(w, s, parent, pc, r).Some?
    requires pc.segment.related != [] && pc.segment.related[0].value != []
    ensures var v := ReferToParent(w, s, parent, pc, r).value;
            && v.contexts.Keys == w.contexts.Keys && Related(v) && KeepsSpans(w, v)
            && PrimariesFollow(w, v, Some((w.spans[s].context, pc.segment.related[0].value)))
  {
    ExtractPrimary(w, s, ParentCarrier(parent, pc, r.config).value, r.traceId);
  }

  lemma BarePrimary(w: World, p: SpanId, r: Request, s: SpanId, c: ContextId)
    requires SpanKnown(w, p) && w.spans[p].depth == 0 && c !in w.contexts
    ensures var v := AddSpan(w, Some(p), r, s, c);
            && v.contexts.Keys == w.contexts.Keys + {c} && PrimariesFollow(w, v, None)
            && SpanKnown(v, s) && v.spans[s].context == c && !v.spans[s].noop
            && Primary(v, c) == TraceId(r.traceId, true)
  {
  }

  /** A span of a finished parent opens a segment in the parent's trace. */
  lemma SplitPrimary(w: World, p: SpanId, r: Request, s: SpanId, c: ContextId)
    requires SpanKnown(w, p) && w.spans[p].depth == 0 && c !in w.contexts
    requires Related(AddSpan(w, Some(p), r, s, c)) && NewSpan(w, Some(p), r, s, c).Created?
    requires Primary(w, w.spans[p].context).value != []
    ensures var v := NewSpan(w, Some(p), r, s, c);
            && v.world.contexts.Keys == w.contexts.Keys + {c}
            && PrimariesFollow(w, v.world, None)
            && Primary(v.world, c) == TraceId(Primary(w, w.spans[p].context).value, false)
  {
    var bare := AddSpan(w, Some(p), r, s, c);
    var parent := w.spans[p];
    BarePrimary(w, p, r, s, c);
    ReferPrimary(bare, s, parent, w.contexts[parent.context], r);
    var mid := ReferToParent(bare, s, parent, w.contexts[parent.context], r).value;
    FinishPrimary(mid, s, r);
  }

  lemma BareRelated(w: World, parent: Option<SpanId>, r: Request, s: SpanId, c: ContextId)
    requires Related(w) && (parent.Some? ==> SpanKnown(w, parent.value))
    ensures Related(AddSpan(w, parent, r, s, c))
  {
  }

  /** First trace ids after an entry. */
  ghost predicate EntryPrimaries(w: World, step: Step, v: World)
    requires step.Enter?
  {
    && PrimariesFollow(w, v, Relating(w, step))
    && v.contexts.Keys <= w.contexts.Keys + {step.context}
    && (step.context in v.contexts ==>
          || v.contexts[step.context].noop || OpensSegment(w, step, true) || OpensSegment(w, step, false))
    && (OpensSegment(w, step, true) ==>
          && step.context in v.contexts
          && var from := Primary(w, w.spans[Top(w, step.task).value].context).value;
             from != [] ==> Primary(v, step.context) == TraceId(from, false))
    && (OpensSegment(w, step, false) ==>
          && step.context in v.contexts
          && Primary(v, step.context)
             == if BringsCarrier(step.request) then TraceId(step.request.carrier.value.fields.traceId, false)
                else TraceId(step.request.traceId, true))
  }

  lemma CreatePrimaries(w: World, t: TaskId, r: Request, s: SpanId, c: ContextId)
    requires Related(w) && Enabled(w, Enter(t, r, s, c))
    requires Top(w, t).Some? ==> Primary(w, w.spans[Top(w, t).value].context).value != [] || UnderNoop(w, t, r)
    ensures EntryPrimaries(w, Enter(t, r, s, c), Create(w, t, r, s, c).world)
  {
    var top := Top(w, t);
    if !UnderNoop(w, t, r) && !Suppresses(r) && !TakesOver(w, t, r) {
      BareRelated(w, top, r, s, c);
      if top.None? {
        FreshPrimary(w, r, s, c);
      } else if w.spans[top.value].depth == 0 {
        SplitPrimary(w, top.value, r, s, c);
      } else {
        UnderPrimary(w, top.value, r, s, c);
      }
    }
  }

  lemma EnterPrimaries(w: World, t: TaskId, r: Request, s: SpanId, c: ContextId)
    requires Related(w) && Enabled(w, Enter(t, r, s, c))
    requires Top(w, t).Some? ==> Primary(w, w.spans[Top(w, t).value].context).value != [] || UnderNoop(w, t, r)
    ensures EntryPrimaries(w, Enter(t, r, s, c), Apply(w, Enter(t, r, s, c)))
  {
    var made := Create(w, t, r, s, c);
    CreatePrimaries(w, t, r, s, c);
    StartPrimary(made.world, t, made.span);
    StartKeepsNoop(made.world, t, made.span);
  }

  lemma StartKeepsNoop(w: World, t: TaskId, s: SpanId)
    requires t in w.stacks && SpanKnown(w, s)
    ensures forall c :: c in w.contexts ==> Start(w, t, s).contexts[c].noop == w.contexts[c].noop
  {
  }

  // ----- every run keeps one trace -----

  /** A step's first trace ids agree with what it adopts. */
  ghost predicate AdoptionHolds(w: World, v: World, a: Option<(ContextId, ContextId)>) {
    a.Some? ==>
      && a.value.0 in v.contexts && a.value.1 in w.contexts
      && !Primary(v, a.value.0).generated && Primary(v, a.value.0).value == Primary(v, a.value.1).value
  }

  ghost predicate NamesEveryTrace(w: World) {
    forall c :: c in w.contexts && !w.contexts[c].noop ==> Primary(w, c).value != []
  }

  lemma RecordKeepsOneTrace(n: Net, step: Step, v: World, causes: set<SpanId>, a: Option<(ContextId, ContextId)>)
    requires OneTrace(n) && KeepsSpans(n.world, v) && PrimariesFollow(n.world, v, Relating(n.world, step))
    requires !Rewrites(n, step) && AdoptionHolds(n.world, v, a) && NamesEveryTrace(v)
    requires forall i :: 0 <= i < |n.wire| ==> n.wire[i].sender in n.world.spans
    ensures OneTrace(Record(n, step, v, causes, a))
  {
    var u := Record(n, step, v, causes, a);
    forall c | Exported(n, c) && c in n.world.contexts
      ensures Primary(v, c).value == Primary(n.world, c).value
    {
    }
    forall i, c | 0 <= i < |u.wire| && SentFrom(u, i, c)
      ensures c in v.contexts && MessageCarries(u.wire[i].header, Primary(v, c).value)
    {
      assert SentFrom(n, i, c);
      assert Exported(n, c);
    }
    forall k, c | 0 <= k < |u.captured| && CapturedFrom(u, k, c)
      ensures c in v.contexts && u.captured[k].snapshot.traceId == Some(Primary(v, c).value)
    {
      assert CapturedFrom(n, k, c);
      assert Exported(n, c);
    }
    forall d | d in n.origin
      ensures Primary(v, d).value == Primary(v, n.origin[d]).value && !Primary(v, d).generated
    {
      assert Exported(n, n.origin[d]);
    }
  }

  /** A step that rewrites an exported id leaves something behind that names the old one. */
  lemma RewriteBreaksOneTrace(n: Net, step: Step, v: World, causes: set<SpanId>, a: Option<(ContextId, ContextId)>)
    requires OneTrace(n) && KeepsSpans(n.world, v) && PrimariesFollow(n.world, v, Relating(n.world, step))
    requires Rewrites(n, step)
    requires a.Some? ==> a.value.0 !in n.origin
    ensures !OneTrace(Record(n, step, v, causes, a))
  {
    var u := Record(n, step, v, causes, a);
    var c := Relating(n.world, step).value.0;
    assert Primary(v, c).value != Primary(n.world, c).value;
    if i :| 0 <= i < |n.wire| && SentFrom(n, i, c) {
      assert SentFrom(u, i, c);
      assert !MessageCarries(u.wire[i].header, Primary(v, c).value);
    } else if k :| 0 <= k < |n.captured| && CapturedFrom(n, k, c) {
      assert CapturedFrom(u, k, c);
    } else {
      var d :| d in n.origin && n.origin[d] == c;
      assert Primary(v, d) == Primary(n.world, d);
      assert u.origin[d] == c;
    }
  }

  ghost predicate KeepsNoop(w: World, v: World) {
    forall c :: c in w.contexts && c in v.contexts ==> v.contexts[c].noop == w.contexts[c].noop
  }

  lemma CreateKeepsNoop(w: World, t: TaskId, r: Request, s: SpanId, c: ContextId)
    requires TaskKnown(w, t) && c !in w.contexts && Create(w, t, r, s, c).Created?
    ensures KeepsNoop(w, Create(w, t, r, s, c).world)
  {
  }

  lemma StepKeepsNoop(w: World, step: Step)
    requires Enabled(w, step)
    ensures KeepsNoop(w, Apply(w, step))
  {
    if step.Enter? {
      var made := Create(w, step.task, step.request, step.span, step.context);
      CreateKeepsNoop(w, step.task, step.request, step.span, step.context);
      CreateKeepsContexts(w, step.task, step.request, step.span, step.context);
      StartKeepsNoop(made.world, step.task, made.span);
    }
  }

  lemma CreateKeepsContexts(w: World, t: TaskId, r: Request, s: SpanId, c: ContextId)
    requires TaskKnown(w, t) && Create(w, t, r, s, c).Created?
    ensures w.contexts.Keys <= Create(w, t, r, s, c).world.contexts.Keys
  {
  }

  /** A topmost span that is not suppressed has a trace. */
  lemma TopHasTrace(w: World, t: TaskId, r: Request)
    requires SpansOk(w, {}) && NamesEveryTrace(w) && TaskKnown(w, t)
    ensures Top(w, t).Some? ==> Primary(w, w.spans[Top(w, t).value].context).value != [] || UnderNoop(w, t, r)
  {
  }

  /** First trace ids follow the relation every step makes. */
  lemma StepPrimaries(w: World, step: Step)
    requires Related(w) && SpansOk(w, {}) && NamesEveryTrace(w) && Enabled(w, step)
    ensures PrimariesFollow(w, Apply(w, step), Relating(w, step))
    ensures step.Enter? ==> EntryPrimaries(w, step, Apply(w, step))
    ensures !step.Enter? ==> Apply(w, step).contexts.Keys == w.contexts.Keys
  {
    match step
    case Enter(t, r, s, c) =>
      TopHasTrace(w, t, r);
      EnterPrimaries(w, t, r, s, c);
    case Extracts(s, f, fallback) => ExtractPrimary(w, s, f, fallback);
    case Continued(t, p, g, fallback) => ContinuePrimary(w, t, p, g, fallback);
    case Leave(t, s) => StopPrimary(w, t, s);
    case _ =>
  }

  lemma RelatingNamesTrace(w: World, step: Step)
    requires DrawsIds(step)
    ensures Relating(w, step).Some? ==> Relating(w, step).value.1 != []
  {
  }

  lemma StepNamesEveryTrace(w: World, step: Step)
    requires Related(w) && SpansOk(w, {}) && NamesEveryTrace(w) && Enabled(w, step) && DrawsIds(step)
    ensures NamesEveryTrace(Apply(w, step))
  {
    var v := Apply(w, step);
    StepPrimaries(w, step);
    StepKeepsNoop(w, step);
    RelatingNamesTrace(w, step);
    forall c | c in v.contexts && !v.contexts[c].noop
      ensures Primary(v, c).value != []
    {
      if c !in w.contexts {
        assert EntryPrimaries(w, step, v) && c == step.context;
        if OpensSegment(w, step, true) {
          TopHasTrace(w, step.task, step.request);
        }
      }
    }
  }

  /** A header from an unsuppressed sender names the trace of the sender's segment. */
  lemma DeliveredTrace(n: Net, i: nat)
    requires OneTrace(n) && i < |n.wire| && n.wire[i].sender in n.world.spans && !n.world.spans[n.wire[i].sender].noop
    ensures var c := n.world.spans[n.wire[i].sender].context;
            c in n.world.contexts && MessageCarries(n.wire[i].header, Primary(n.world, c).value)
  {
    assert SentFrom(n, i, n.world.spans[n.wire[i].sender].context);
  }

  /** Under a finished parent. */
  lemma SplitAdopts(w: World, step: Step, v: World)
    requires SpansOk(w, {}) && NamesEveryTrace(w) && step.Enter? && EntryPrimaries(w, step, v)
    requires OpensSegment(w, step, true)
    ensures AdoptionHolds(w, v, Some((step.context, w.spans[Top(w, step.task).value].context)))
  {
    TopHasTrace(w, step.task, step.request);
  }

  /** Without a parent. */
  lemma FreshAdopts(n: Net, i: nat, step: Step, v: World)
    requires OneTrace(n) && i < |n.wire| && n.wire[i].sender in n.world.spans && !n.world.spans[n.wire[i].sender].noop
    requires step.Enter? && EntryPrimaries(n.world, step, v) && OpensSegment(n.world, step, false)
    requires BringsCarrier(step.request) && Receive(n.wire[i].header) == Ok(step.request.carrier.value)
    ensures AdoptionHolds(n.world, v, Some((step.context, n.world.spans[n.wire[i].sender].context)))
  {
    DeliveredTrace(n, i);
  }

  /** Under an open parent whose segment still has a made-up trace id. */
  lemma UnderAdopts(n: Net, i: nat, step: Step, v: World)
    requires OneTrace(n) && i < |n.wire| && n.wire[i].sender in n.world.spans && !n.world.spans[n.wire[i].sender].noop
    requires step.Enter? && EntryPrimaries(n.world, step, v) && EntersUnder(n.world, step)
    requires BringsCarrier(step.request) && Receive(n.wire[i].header) == Ok(step.request.carrier.value)
    requires Primary(n.world, n.world.spans[Top(n.world, step.task).value].context).generated
    ensures AdoptionHolds(n.world, v,
                          Some((n.world.spans[Top(n.world, step.task).value].context, n.world.spans[n.wire[i].sender].context)))
  {
    DeliveredTrace(n, i);
  }

  lemma DeliverAdopts(n: Net, m: Move, step: Step, v: World)
    requires OneTrace(n) && MoveEnabled(n, m) && m.Deliver? && StepOf(n, m) == Some(step) && SpansOk(n.world, {})
    requires EntryPrimaries(n.world, step, v)
    ensures AdoptionHolds(n.world, v, Adoption(n, m))
    ensures Adoption(n, m).Some? ==> Adoption(n, m).value.0 !in n.origin
  {
    var w := n.world;
    if Adoption(n, m).Some? {
      if OpensSegment(w, step, true) {
        SplitAdopts(w, step, v);
      } else if OpensSegment(w, step, false) {
        FreshAdopts(n, m.message, step, v);
      } else {
        UnderAdopts(n, m.message, step, v);
      }
    }
  }

  lemma PlainAdopts(n: Net, m: Move, step: Step)
    requires OneTrace(n) && MoveEnabled(n, m) && m.Plain? && StepOf(n, m) == Some(step) && SpansOk(n.world, {})
    requires step.Enter? ==> EntryPrimaries(n.world, step, Apply(n.world, step))
    ensures AdoptionHolds(n.world, Apply(n.world, step), Adoption(n, m))
    ensures Adoption(n, m).Some? ==> Adoption(n, m).value.0 !in n.origin
  {
    if OpensSegment(n.world, step, true) {
      TopHasTrace(n.world, step.task, step.request);
    }
  }

  lemma ConsumeAdopts(n: Net, m: Move, step: Step)
    requires OneTrace(n) && MoveEnabled(n, m) && m.Consume? && StepOf(n, m) == Some(step)
    requires PrimariesFollow(n.world, Apply(n.world, step), Relating(n.world, step))
    ensures AdoptionHolds(n.world, Apply(n.world, step), Adoption(n, m))
    ensures Adoption(n, m).Some? ==> Adoption(n, m).value.0 !in n.origin
  {
    if Adoption(n, m).Some? {
      DeliveredTrace(n, m.message);
    }
  }

  lemma ResumeAdopts(n: Net, m: Move, step: Step)
    requires OneTrace(n) && MoveEnabled(n, m) && m.Resume? && StepOf(n, m) == Some(step)
    requires PrimariesFollow(n.world, Apply(n.world, step), Relating(n.world, step))
    requires forall c :: CapturedFrom(n, m.index, c) ==> c in n.world.contexts && !n.world.contexts[c].noop
    ensures AdoptionHolds(n.world, Apply(n.world, step), Adoption(n, m))
    ensures Adoption(n, m).Some? ==> Adoption(n, m).value.0 !in n.origin
  {
    if Adoption(n, m).Some? {
      var c := n.captured[m.index].context;
      assert CapturedFrom(n, m.index, c);
    }
  }

  /** Snapshots that can be continued come from traced contexts. */
  ghost predicate SnapshotsTraced(n: Net) {
    forall k, c :: 0 <= k < |n.captured| && CapturedFrom(n, k, c) ==> c in n.world.contexts && !n.world.contexts[c].noop
  }

  lemma MoveAdopts(n: Net, m: Move, step: Step)
    requires OneTrace(n) && SnapshotsTraced(n) && SpansOk(n.world, {}) && Related(n.world)
    requires MoveEnabled(n, m) && StepOf(n, m) == Some(step)
    ensures AdoptionHolds(n.world, Apply(n.world, step), Adoption(n, m))
    ensures Adoption(n, m).Some? ==> Adoption(n, m).value.0 !in n.origin
  {
    StepPrimaries(n.world, step);
    match m
    case Plain(_) => PlainAdopts(n, m, step);
    case Deliver(_, _, _, _, _) => DeliverAdopts(n, m, step, Apply(n.world, step));
    case Consume(_, _, _) => ConsumeAdopts(n, m, step);
    case Resume(_, _, _, _) => ResumeAdopts(n, m, step);
  }

  lemma DecimalHasNoDash(i: nat)
    ensures '-' !in IntText(i)
  {
  }

  /** An injected header carries the trace of its sender's segment. */
  lemma InjectedCarries(w: World, s: SpanId, g: Config)
    requires SpansOk(w, {}) && Related(w) && CanInject(w, s) && !w.spans[s].noop
    ensures MessageCarries(InjectedHeader(w, s, g), Primary(w, w.spans[s].context).value)
  {
    assert SpanOk(w, s, {});
    var f := CarrierOf(w.spans[s], w.contexts[w.spans[s].context], w.spans[s].peer.value, g);
    DecimalHasNoDash(w.spans[s].sid);
    HeaderRoundTrip(f);
  }

  lemma SentKeepsOneTrace(n: Net, s: SpanId, header: string)
    requires OneTrace(n) && SpanKnown(n.world, s)
    requires !n.world.spans[s].noop ==> MessageCarries(header, Primary(n.world, n.world.spans[s].context).value)
    ensures OneTrace(n.(wire := n.wire + [Message(header, s)]))
  {
    var w := n.world;
    var u := n.(wire := n.wire + [Message(header, s)]);
    forall i, c | 0 <= i < |u.wire| && SentFrom(u, i, c)
      ensures c in w.contexts && MessageCarries(u.wire[i].header, Primary(w, c).value)
    {
      if i < |n.wire| {
        assert SentFrom(n, i, c);
      }
    }
    forall k, c | 0 <= k < |u.captured| && CapturedFrom(u, k, c)
      ensures CapturedFrom(n, k, c)
    {
    }
  }

  lemma InjectKeepsOneTrace(n: Net, s: SpanId, g: Config)
    requires OneTrace(n) && SpansOk(n.world, {}) && Related(n.world) && CanInject(n.world, s)
    ensures OneTrace(n.(wire := n.wire + [Message(InjectedHeader(n.world, s, g), s)]))
  {
    if !n.world.spans[s].noop {
      InjectedCarries(n.world, s, g);
    }
    SentKeepsOneTrace(n, s, InjectedHeader(n.world, s, g));
  }

  lemma CaptureKeepsOneTrace(n: Net, t: TaskId)
    requires OneTrace(n) && SnapshotsTraced(n) && MoveEnabled(n, CaptureIn(t))
    ensures OneTrace(After(n, CaptureIn(t))) && SnapshotsTraced(After(n, CaptureIn(t)))
  {
    var w := n.world;
    var u := After(n, CaptureIn(t));
    forall k, c | 0 <= k < |u.captured| && CapturedFrom(u, k, c)
      ensures c in w.contexts && !w.contexts[c].noop && u.captured[k].snapshot.traceId == Some(Primary(w, c).value)
    {
      if k < |n.captured| {
        assert CapturedFrom(n, k, c);
      }
    }
    forall i, c | 0 <= i < |u.wire| && SentFrom(u, i, c)
      ensures SentFrom(n, i, c)
    {
    }
  }

  ghost predicate Traced(n: Net) {
    Inv(n.world, {}) && Suppressing(n) && OneTrace(n) && SnapshotsTraced(n)
  }

  lemma StepKeepsSnapshots(n: Net, m: Move, step: Step)
    requires SnapshotsTraced(n) && Related(n.world) && SpansOk(n.world, {}) && NamesEveryTrace(n.world)
    requires MoveEnabled(n, m) && StepOf(n, m) == Some(step)
    ensures SnapshotsTraced(Record(n, step, Apply(n.world, step), Causes(n, m, step), Adoption(n, m)))
  {
    var v := Apply(n.world, step);
    var u := Record(n, step, v, Causes(n, m, step), Adoption(n, m));
    StepPrimaries(n.world, step);
    StepKeepsNoop(n.world, step);
    forall k, c | 0 <= k < |u.captured| && CapturedFrom(u, k, c)
      ensures c in v.contexts && !v.contexts[c].noop
    {
      assert CapturedFrom(n, k, c);
    }
  }

  /** A step keeps one trace exactly when it does not relate a segment whose made-up id has
      already been read to a different id. */
  lemma OneTraceUnlessRewritten(n: Net, m: Move, step: Step)
    requires Traced(n) && MoveEnabled(n, m) && StepOf(n, m) == Some(step)
    ensures OneTrace(After(n, m)) <==> !Rewrites(n, step)
    ensures SnapshotsTraced(After(n, m))
  {
    var v := Apply(n.world, step);
    InvRelated(n.world, {});
    StepKeepsSpans(n.world, step);
    StepPrimaries(n.world, step);
    MoveAdopts(n, m, step);
    StepNamesEveryTrace(n.world, step);
    StepKeepsSnapshots(n, m, step);
    if Rewrites(n, step) {
      RewriteBreaksOneTrace(n, step, v, Causes(n, m, step), Adoption(n, m));
    } else {
      RecordKeepsOneTrace(n, step, v, Causes(n, m, step), Adoption(n, m));
    }
  }

  /** Moves none of which rewrites an id that has been read. */
  ghost predicate CleanlyLeads(n: Net, moves: seq<Move>, end: Net)
    decreases |moves|
  {
    if moves == [] then n == end
    else
      && MoveEnabled(n, moves[0])
      && (StepOf(n, moves[0]).Some? ==> !Rewrites(n, StepOf(n, moves[0]).value))
      && CleanlyLeads(After(n, moves[0]), moves[1..], end)
  }

  lemma MoveKeepsTraced(n: Net, m: Move)
    requires Traced(n) && MoveEnabled(n, m)
    requires StepOf(n, m).Some? ==> !Rewrites(n, StepOf(n, m).value)
    ensures Traced(After(n, m))
  {
    MoveKeepsSuppressing(n, m);
    InvRelated(n.world, {});
    if m.Inject? {
      InjectKeepsOneTrace(n, m.span, m.config);
      var u := After(n, m);
      assert forall k, c :: CapturedFrom(u, k, c) ==> CapturedFrom(n, k, c);
    } else if m.CaptureIn? {
      CaptureKeepsOneTrace(n, m.task);
    } else {
      OneTraceUnlessRewritten(n, m, StepOf(n, m).value);
      StepKeepsInv(n.world, StepOf(n, m).value);
    }
  }

  lemma {:induction false} RunKeepsTraced(n: Net, moves: seq<Move>, end: Net)
    requires Traced(n) && CleanlyLeads(n, moves, end)
    ensures Traced(end)
    decreases |moves|
  {
    if moves != [] {
      MoveKeepsTraced(n, moves[0]);
      RunKeepsTraced(After(n, moves[0]), moves[1..], end);
    }
  }

  /** Each segment of the chain took its trace id from the next. */
  ghost predicate Chain(n: Net, path: seq<ContextId>) {
    && path != []
    && forall i :: 0 <= i < |path| - 1 ==> path[i] in n.origin && n.origin[path[i]] == path[i + 1]
  }

  lemma {:induction false} ChainSharesTrace(n: Net, path: seq<ContextId>)
    requires OneTrace(n) && Chain(n, path)
    ensures Primary(n.world, path[0]).value == Primary(n.world, path[|path| - 1]).value
    decreases |path|
  {
    if |path| > 1 {
      ChainSharesTrace(n, path[1..]);
      assert n.origin[path[0]] == path[1];
    }
  }

  /** After any such run, segments that took their trace ids from each other, in a chain, have one. */
  lemma AdoptedTracesAgree(moves: seq<Move>, end: Net, path: seq<ContextId>)
    requires CleanlyLeads(InitialNet(), moves, end) && Chain(end, path)
    ensures Primary(end.world, path[0]).value == Primary(end.world, path[|path| - 1]).value
  {
    InitialInv();
    RunKeepsTraced(InitialNet(), moves, end);
    ChainSharesTrace(end, path);
  }

  /** In any run, clean or not, a segment's first trace id changes at most once: from the one it
      made up to one it was given. */
  lemma {:induction false} TraceIdChangesAtMostOnce(n: Net, moves: seq<Move>, end: Net, c: ContextId)
    requires Inv(n.world, {}) && NamesEveryTrace(n.world) && NetLeads(n, moves, end) && c in n.world.contexts
    ensures c in end.world.contexts
    ensures !Primary(n.world, c).generated ==> Primary(end.world, c) == Primary(n.world, c)
    ensures Primary(end.world, c).generated ==> Primary(end.world, c) == Primary(n.world, c)
    decreases |moves|
  {
    if moves != [] {
      var u := After(n, moves[0]);
      if StepOf(n, moves[0]).Some? {
        var step := StepOf(n, moves[0]).value;
        InvRelated(n.world, {});
        StepKeepsInv(n.world, step);
        StepPrimaries(n.world, step);
        StepNamesEveryTrace(n.world, step);
      }
      TraceIdChangesAtMostOnce(u, moves[1..], end, c);
    }
  }

  /** A snapshot taken under suppression changes nothing where it is continued: unlike stacks and
      headers, snapshots do not pass suppression on. */
  lemma SuppressedSnapshotIsIgnored(w: World, t: TaskId, u: TaskId, g: Config, fallback: Bytes)
    requires TaskKnown(w, t) && w.stacks[t] != [] && w.stacks[t][0] in w.spans && TaskKnown(w, u) && w.stacks[u] != []
    requires w.contexts[w.spans[Top(w, t).value].context].noop
    ensures Continue(w, u, Capture(w, t), g, fallback) == w
  {
  }
}
