/** Runs from the initial state that reach the situations in which the engine does not do what one would
    expect. */
module TraceExamples {
  import opened Text
  import opened Base64
  import opened Carrier
  import opened TraceEngine
  import opened TraceInvariant
  import opened TraceRuns
  import opened TraceLineage
  import opened TraceReferences
  import opened TraceFirstRefs

  const CONFIG := Config([3], [4])

  /** A request whose ids are made from `n`. */
  function Ask(kind: Kind, component: Option<Component>, inherit: Option<Component>, n: Byte): Request {
    Request(kind, [1], [2], component, inherit, None, false, false, [n, 2], [n, 1], CONFIG)
  }

  lemma First(w: World, step: Step, steps: seq<Step>, end: World)
    requires Enabled(w, step) && ReuseIsLive(w, step) && Leads(Apply(w, step), steps, end)
    ensures Leads(w, [step] + steps, end)
  {
    assert ([step] + steps)[1..] == steps;
  }

  // ----- a finished parent is reused -----

  /** The first span of a task that starts with an exit request. */
  function ExitSpan(n: Byte, depth: int): Span {
    Span(0, false, 0, -1, [1], Some([2]), Exit, UNKNOWN, 5, depth, [])
  }

  function ExitWorld(n: Byte): World {
    World(map[0 := ExitSpan(n, 1)], map[0 := Context(false, 0, 1, Segment([n, 2], [], [TraceId([n, 1], true)]), Some(0))],
          map[0 := [0]], [])
  }

  lemma EntersExit(n: Byte)
    ensures var w := World(map[], map[], map[0 := []], []);
            var step := Enter(0, Ask(Exit, None, Some(5), n), 0, 0);
            Enabled(w, step) && ReuseIsLive(w, step) && Apply(w, step) == ExitWorld(n)
  {
    var w := World(map[], map[], map[0 := []], []);
    var r := Ask(Exit, None, Some(5), n);
    var bare := AddSpan(w, None, r, 0, 0);
    assert bare.spans == map[0 := BareSpan(0, 0, -1, r)];
    assert Create(w, 0, r, 0, 0) == Created(Finish(bare, 0, r), 0);
    var made := Finish(bare, 0, r);
    assert made.spans == map[0 := ExitSpan(n, 0)];
    assert Start(made, 0, 0).spans == map[0 := ExitSpan(n, 1)];
    assert Pushed([], 0) == [0];
    assert Start(made, 0, 0).stacks == map[0 := [0]];
  }

  /** Task 1 has the only span, finished, on top of its stack. */
  ghost predicate Inherited(w: World) {
    && TaskKnown(w, 1) && Top(w, 1) == Some(0) && w.spans == map[0 := ExitSpan(9, 0)]
    && w.contexts.Keys == {0} && !w.contexts[0].noop && w.contexts[0].nspans == 0
  }

  /** A task enters an exit span, another inherits its stack, and the first leaves the span: its segment
      is archived, and it is still on top of the second task's stack. */
  lemma FinishedParentIsInherited()
    ensures exists steps, w :: Leads(Initial(), steps, w) && Inherited(w)
  {
    var w1 := World(map[], map[], map[0 := []], []);
    var enter := Enter(0, Ask(Exit, None, Some(5), 9), 0, 0);
    var end := Stop(ExitWorld(9).(stacks := map[0 := [0], 1 := [0]]), 0, 0);
    EntersExit(9);
    SpawnsAndLeaves(9);
    assert Apply(Initial(), Begin(0)) == w1;
    First(w1, enter, [Spawn(0, 1), Leave(0, 0)], end);
    First(Initial(), Begin(0), [enter] + [Spawn(0, 1), Leave(0, 0)], end);
  }

  lemma SpawnsAndLeaves(n: Byte)
    ensures var end := Stop(ExitWorld(n).(stacks := map[0 := [0], 1 := [0]]), 0, 0);
            Leads(ExitWorld(n), [Spawn(0, 1), Leave(0, 0)], end) && (n == 9 ==> Inherited(end))
  {
    var w2 := ExitWorld(n);
    var w3 := w2.(stacks := map[0 := [0], 1 := [0]]);
    var w4 := Stop(w3, 0, 0);
    assert Apply(w2, Spawn(0, 1)) == w3;
    assert Leads(w4, [], w4);
    First(w3, Leave(0, 0), [], w4);
    First(w2, Spawn(0, 1), [Leave(0, 0)], w4);
    assert w4.spans == map[0 := ExitSpan(n, 0)];
    assert w4.stacks[1] == [0];
  }

  lemma InheritedIsReused(w: World, r: Request)
    requires Inv(w, {}) && Inherited(w) && r == Ask(Exit, Some(5), None, 8)
    ensures Enabled(w, Enter(1, r, 1, 1)) && TakesOver(w, 1, r) && !ReuseIsLive(w, Enter(1, r, 1, 1)) && Live(w, 0) == {}
  {
    assert ContextOk(w, 0, {});
  }

  /** Taking over a finished parent in `w` spoils the invariant and archives its segment twice. */
  ghost predicate Spoils(w: World, r: Request) {
    && Enabled(w, Enter(1, r, 1, 1)) && TakesOver(w, 1, r) && Top(w, 1) == Some(0)
    && var v := Apply(w, Enter(1, r, 1, 1));
       !Inv(v, {}) && Enabled(v, Leave(1, 0)) && ArchivedTwice(Stop(v, 1, 0), 0)
  }

  lemma ReuseSpoils(w: World, r: Request)
    requires Inv(w, {}) && Enabled(w, Enter(1, r, 1, 1)) && TakesOver(w, 1, r) && Top(w, 1) == Some(0)
    requires w.spans[0].depth == 0 && w.spans[0].context == 0 && Live(w, 0) == {}
    ensures Spoils(w, r)
  {
    ReuseNeedsLiveParent(w, 1, r, 1, 1);
    ReusedFinishedParentArchivesTwice(w, 1, r, 1, 1);
  }

  /** A run after which a request takes over a finished parent and its segment is archived twice. */
  lemma FinishedParentIsReused()
    ensures exists steps, w, r :: Leads(Initial(), steps, w) && Spoils(w, r)
  {
    FinishedParentIsInherited();
    var steps, w :| Leads(Initial(), steps, w) && Inherited(w);
    var r := Ask(Exit, Some(5), None, 8);
    InitialInv();
    RunKeepsInv(Initial(), steps, w);
    InheritedIsReused(w, r);
    ReuseSpoils(w, r);
  }

  // ----- a trace id that was sent is replaced -----

  lemma FirstMove(n: Net, m: Move, moves: seq<Move>, end: Net)
    requires MoveEnabled(n, m) && (StepOf(n, m).Some? ==> !Rewrites(n, StepOf(n, m).value))
    requires CleanlyLeads(After(n, m), moves, end)
    ensures CleanlyLeads(n, [m] + moves, end)
  {
    assert ([m] + moves)[1..] == moves;
  }

  /** An exit request without inheritance, for any names and ids. */
  predicate Sends(r: Request) {
    && r.kind.Exit? && r.component == None && r.inherit == None && r.carrier == None && !r.ignored && !r.sampledOut
    && r.op != [] && r.peer != [] && r.segmentId != [] && r.traceId != []
    && r.config.service != [] && r.config.serviceInstance != []
  }

  function Sender(r: Request): Span {
    Span(0, false, 0, -1, r.op, Some(r.peer), Exit, UNKNOWN, UNKNOWN, 1, [])
  }

  function Opened(r: Request, s: SpanId, related: seq<TraceId>): Context {
    Context(false, 0, 1, Segment(r.segmentId, [], related), Some(s))
  }

  function SenderWorld(r: Request): World {
    World(map[0 := Sender(r)], map[0 := Opened(r, 0, [TraceId(r.traceId, true)])], map[0 := [0]], [])
  }

  lemma EntersSender(r: Request)
    requires Sends(r)
    ensures var w := World(map[], map[], map[0 := []], []);
            Enabled(w, Enter(0, r, 0, 0)) && ReuseIsLive(w, Enter(0, r, 0, 0)) && Apply(w, Enter(0, r, 0, 0)) == SenderWorld(r)
  {
    var w := World(map[], map[], map[0 := []], []);
    var bare := AddSpan(w, None, r, 0, 0);
    assert bare.spans == map[0 := BareSpan(0, 0, -1, r)];
    assert Create(w, 0, r, 0, 0) == Created(bare, 0);
    assert Start(bare, 0, 0).spans == map[0 := Sender(r)];
    assert Pushed([], 0) == [0];
    assert Start(bare, 0, 0).stacks == map[0 := [0]];
  }

  /** The header is received as a valid carrier of the sender. */
  ghost predicate Carries(h: string, f: Fields, r: Request) {
    && Receive(h) == Ok(State(h, f)) && IsValid(f) && f.traceId == r.traceId && f.segmentId == r.segmentId
    && CanInject(SenderWorld(r), 0) && InjectedHeader(SenderWorld(r), 0, r.config) == h
  }

  lemma Injects(r: Request)
    requires Sends(r)
    ensures exists h, f :: Carries(h, f, r)
  {
    var w := SenderWorld(r);
    var f := CarrierOf(w.spans[0], w.contexts[0], r.peer, r.config);
    CarrierNames(w.spans[0], w.contexts[0], r.config, r.peer);
    DecimalHasNoDash(w.spans[0].sid);
    HeaderRoundTrip(f);
    assert Carries(Header(f), f, r);
  }

  /** A task with an open exit span that has injected its carrier. */
  function SentNet(r: Request, h: string): Net {
    Net(SenderWorld(r), [Message(h, 0)], [], map[0 := {}], map[])
  }

  function Sending(r: Request, rest: seq<Move>): seq<Move> {
    [Plain(Begin(0))] + ([Plain(Enter(0, r, 0, 0))] + ([Inject(0, r.config)] + rest))
  }

  lemma SenderIsReached(r: Request)
    requires Sends(r)
    ensures var n1 := InitialNet().(world := World(map[], map[], map[0 := []], []));
            && MoveEnabled(InitialNet(), Plain(Begin(0))) && After(InitialNet(), Plain(Begin(0))) == n1
            && MoveEnabled(n1, Plain(Enter(0, r, 0, 0))) && !Rewrites(n1, Enter(0, r, 0, 0))
            && After(n1, Plain(Enter(0, r, 0, 0))) == Net(SenderWorld(r), [], [], map[0 := {}], map[])
  {
    EntersSender(r);
    var n1 := InitialNet().(world := World(map[], map[], map[0 := []], []));
    var step := Enter(0, r, 0, 0);
    assert Causes(n1, Plain(step), step) == {};
    assert n1.causes[0 := {}] == map[0 := {}];
    assert !OpensSegment(n1.world, step, true);
  }

  lemma SentIsReached(r: Request, h: string, f: Fields, rest: seq<Move>, end: Net)
    requires Sends(r) && Carries(h, f, r) && CleanlyLeads(SentNet(r, h), rest, end)
    ensures CleanlyLeads(InitialNet(), Sending(r, rest), end)
  {
    var n1 := InitialNet().(world := World(map[], map[], map[0 := []], []));
    var n2 := Net(SenderWorld(r), [], [], map[0 := {}], map[]);
    SenderIsReached(r);
    assert After(n2, Inject(0, r.config)) == SentNet(r, h);
    FirstMove(n2, Inject(0, r.config), rest, end);
    FirstMove(n1, Plain(Enter(0, r, 0, 0)), [Inject(0, r.config)] + rest, end);
    FirstMove(InitialNet(), Plain(Begin(0)), [Plain(Enter(0, r, 0, 0))] + ([Inject(0, r.config)] + rest), end);
  }

  /** For any names and ids there is a clean run and one more step, which relates the segment to another
      trace, after which the header on the wire names the old one. */
  lemma SentTraceIsRewritten(r: Request, other: Fields)
    requires Sends(r) && other.traceId != [] && other.traceId != r.traceId
    ensures exists moves, n ::
              && CleanlyLeads(InitialNet(), moves, n)
              && var m := Plain(Extracts(0, other, [12])); MoveEnabled(n, m) && Rewrites(n, m.step) && !OneTrace(After(n, m))
  {
    Injects(r);
    var h, f :| Carries(h, f, r);
    var n := SentNet(r, h);
    var step := Extracts(0, other, [12]);
    assert CleanlyLeads(n, [], n);
    SentIsReached(r, h, f, [], n);
    SentIsTraced(r, n);
    RewritesSent(r, h, f, step);
    OneTraceUnlessRewritten(n, Plain(step), step);
  }

  lemma SentIsTraced(r: Request, n: Net)
    requires CleanlyLeads(InitialNet(), Sending(r, []), n)
    ensures Traced(n)
  {
    InitialInv();
    RunKeepsTraced(InitialNet(), Sending(r, []), n);
  }

  lemma RewritesSent(r: Request, h: string, f: Fields, step: Step)
    requires Sends(r) && Carries(h, f, r) && step.Extracts? && step.span == 0 && step.fallback != []
    requires step.fields.traceId != [] && step.fields.traceId != r.traceId
    ensures MoveEnabled(SentNet(r, h), Plain(step)) && Rewrites(SentNet(r, h), step)
  {
    assert SentFrom(SentNet(r, h), 0, 0);
  }

  // ----- a drawn trace id comes before the first reference -----

  /** An entry request without a carrier, and with ids of its own. */
  predicate Polls(q: Request, r: Request) {
    && q.kind.Entry? && q.carrier == None && !q.ignored && !q.sampledOut && q.traceId != []
    && q.segmentId != r.segmentId
  }

  function Consumer(q: Request, depth: int, refs: seq<SegmentRef>): Span {
    Span(1, false, 0, -1, q.op, None, Entry, UNKNOWN, UNKNOWN, depth, refs)
  }

  function BothWorld(r: Request, q: Request, related: seq<TraceId>, refs: seq<SegmentRef>): World {
    World(map[0 := Sender(r), 1 := Consumer(q, 1, refs)],
          map[0 := Opened(r, 0, [TraceId(r.traceId, true)]), 1 := Opened(q, 1, related)],
          map[0 := [0], 1 := [1]], [])
  }

  lemma EntersConsumer(r: Request, q: Request)
    requires Sends(r) && Polls(q, r)
    ensures var w := SenderWorld(r).(stacks := map[0 := [0], 1 := []]);
            var step := Enter(1, q, 1, 1);
            && Enabled(w, step) && ReuseIsLive(w, step) && Relating(w, step) == None && !OpensSegment(w, step, true)
            && Apply(w, step) == BothWorld(r, q, [TraceId(q.traceId, true)], [])
  {
    var w := SenderWorld(r).(stacks := map[0 := [0], 1 := []]);
    var bare := AddSpan(w, None, q, 1, 1);
    assert bare.spans == map[0 := Sender(r), 1 := Consumer(q, 0, [])];
    assert Create(w, 1, q, 1, 1) == Created(bare, 1);
    assert Pushed([], 1) == [1];
    var v := Start(bare, 1, 1);
    assert v.spans == map[0 := Sender(r), 1 := Consumer(q, 1, [])];
    assert v.stacks == map[0 := [0], 1 := [1]];
    assert v.contexts == BothWorld(r, q, [TraceId(q.traceId, true)], []).contexts;
  }

  lemma ExtractsNothing(r: Request, q: Request, id: Bytes)
    ensures Extract(BothWorld(r, q, [TraceId(q.traceId, true)], []), 1, EMPTY, id) == BothWorld(r, q, [TraceId(id, false)], [])
  {
    var related := [TraceId(q.traceId, true)];
    assert Relate(related, TraceId(id, false)) == [TraceId(id, false)];
    var w := BothWorld(r, q, related, []);
    assert !IsValid(EMPTY);
    assert Extract(w, 1, EMPTY, id).spans == w.spans;
  }

  lemma ExtractsSent(r: Request, q: Request, id: Bytes, f: Fields, fallback: Bytes)
    requires IsValid(f)
    ensures Extract(BothWorld(r, q, [TraceId(id, false)], []), 1, f, fallback)
            == BothWorld(r, q, [TraceId(id, false), TraceId(f.traceId, false)], [RefTo(f)])
  {
    var ref := RefTo(f);
    assert [] + [ref] == [ref];
    assert Relate([TraceId(id, false)], TraceId(f.traceId, false)) == [TraceId(id, false), TraceId(f.traceId, false)];
    var w := BothWorld(r, q, [TraceId(id, false)], []);
    var v := BothWorld(r, q, [TraceId(id, false), TraceId(f.traceId, false)], [ref]);
    assert Extract(w, 1, f, fallback).spans == v.spans;
    assert Extract(w, 1, f, fallback).contexts == v.contexts;
  }

  /** The net after the sender, with a world of both tasks. */
  function BothNet(r: Request, q: Request, h: string, related: seq<TraceId>, refs: seq<SegmentRef>): Net {
    SentNet(r, h).(world := BothWorld(r, q, related, refs), causes := map[0 := {}, 1 := {}])
  }

  lemma ConsumerIsReached(r: Request, q: Request, h: string)
    requires Sends(r) && Polls(q, r)
    ensures var n := SentNet(r, h);
            var n4 := n.(world := SenderWorld(r).(stacks := map[0 := [0], 1 := []]));
            && MoveEnabled(n, Plain(Begin(1))) && After(n, Plain(Begin(1))) == n4
            && MoveEnabled(n4, Plain(Enter(1, q, 1, 1))) && !Rewrites(n4, Enter(1, q, 1, 1))
            && After(n4, Plain(Enter(1, q, 1, 1))) == BothNet(r, q, h, [TraceId(q.traceId, true)], [])
  {
    EntersConsumer(r, q);
    var n := SentNet(r, h);
    var n4 := n.(world := SenderWorld(r).(stacks := map[0 := [0], 1 := []]));
    var step := Enter(1, q, 1, 1);
    assert Apply(n.world, Begin(1)) == n4.world;
    assert Causes(n4, Plain(step), step) == {};
    assert n4.causes[1 := {}] == map[0 := {}, 1 := {}];
  }

  lemma DrawsFirst(r: Request, q: Request, h: string, id: Bytes)
    requires id != []
    ensures var n := BothNet(r, q, h, [TraceId(q.traceId, true)], []);
            var step := Extracts(1, EMPTY, id);
            && MoveEnabled(n, Plain(step)) && !Rewrites(n, step)
            && After(n, Plain(step)) == BothNet(r, q, h, [TraceId(id, false)], [])
  {
    var n := BothNet(r, q, h, [TraceId(q.traceId, true)], []);
    ExtractsNothing(r, q, id);
    assert !Exported(n, 1);
  }

  lemma ConsumesNext(r: Request, q: Request, h: string, f: Fields, id: Bytes)
    requires Carries(h, f, r) && id != []
    ensures var n := BothNet(r, q, h, [TraceId(id, false)], []);
            var m := Consume(1, 0, id);
            && MoveEnabled(n, m) && StepOf(n, m) == Some(Extracts(1, f, id)) && !Rewrites(n, Extracts(1, f, id))
            && After(n, m) == BothNet(r, q, h, [TraceId(id, false), TraceId(f.traceId, false)], [RefTo(f)])
  {
    ExtractsSent(r, q, id, f, id);
  }

  /** The first extraction is harmless to first references; the second is if it names the drawn id. */
  lemma SecondMisnames(r: Request, q: Request, f: Fields, id: Bytes)
    requires IsValid(f)
    ensures Anchors(BothWorld(r, q, [TraceId(q.traceId, true)], []), Extracts(1, EMPTY, id))
    ensures Anchors(BothWorld(r, q, [TraceId(id, false)], []), Extracts(1, f, id)) <==> f.traceId == id
  {
    assert !IsValid(EMPTY);
    assert !Referenced(BothWorld(r, q, [TraceId(id, false)], []), 1);
  }

  /** For any names and ids: a consumer extracts a record without a header, for which an id is drawn, and
      then one with a header. The first reference of its segment names the sender's segment and trace, and
      the segment is in the drawn one. The run rewrites nothing; it is the second extraction that gives the
      segment a first reference to another trace. */
  lemma DrawnIdBeforeReference(r: Request, q: Request, id: Bytes)
    requires Sends(r) && Polls(q, r) && id != [] && id != r.traceId
    ensures exists moves, end ::
              && CleanlyLeads(InitialNet(), moves, end)
              && 1 in end.world.spans && end.world.spans[1].context == 1 && end.world.spans[1].sid == 0
              && {0, 1} <= end.world.contexts.Keys && |end.world.spans[1].refs| == 1
              && end.world.spans[1].refs[0].segmentId == end.world.contexts[0].segment.id
              && end.world.spans[1].refs[0].traceId == Primary(end.world, 0).value != Primary(end.world, 1).value
  {
    Injects(r);
    var h, f :| Carries(h, f, r);
    ConsumerRun(r, q, h, f, id);
    var moves := [Plain(Begin(1)), Plain(Enter(1, q, 1, 1)), Plain(Extracts(1, EMPTY, id)), Consume(1, 0, id)];
    var end := BothNet(r, q, h, [TraceId(id, false), TraceId(f.traceId, false)], [RefTo(f)]);
    SentIsReached(r, h, f, moves, end);
    assert CleanlyLeads(InitialNet(), Sending(r, moves), end);
  }

  lemma ConsumerRun(r: Request, q: Request, h: string, f: Fields, id: Bytes)
    requires Sends(r) && Polls(q, r) && Carries(h, f, r) && id != []
    ensures CleanlyLeads(SentNet(r, h),
                         [Plain(Begin(1)), Plain(Enter(1, q, 1, 1)), Plain(Extracts(1, EMPTY, id)), Consume(1, 0, id)],
                         BothNet(r, q, h, [TraceId(id, false), TraceId(f.traceId, false)], [RefTo(f)]))
  {
    var n3 := SentNet(r, h);
    var n4 := n3.(world := SenderWorld(r).(stacks := map[0 := [0], 1 := []]));
    var end := BothNet(r, q, h, [TraceId(id, false), TraceId(f.traceId, false)], [RefTo(f)]);
    var enter, draw, take := Plain(Enter(1, q, 1, 1)), Plain(Extracts(1, EMPTY, id)), Consume(1, 0, id);
    ConsumerIsReached(r, q, h);
    ConsumerTail(r, q, h, f, id);
    FirstMove(n4, enter, [draw, take], end);
    FirstMove(n3, Plain(Begin(1)), [enter, draw, take], end);
  }

  lemma ConsumerTail(r: Request, q: Request, h: string, f: Fields, id: Bytes)
    requires Carries(h, f, r) && id != []
    ensures CleanlyLeads(BothNet(r, q, h, [TraceId(q.traceId, true)], []), [Plain(Extracts(1, EMPTY, id)), Consume(1, 0, id)],
                         BothNet(r, q, h, [TraceId(id, false), TraceId(f.traceId, false)], [RefTo(f)]))
  {
    var n5 := BothNet(r, q, h, [TraceId(q.traceId, true)], []);
    var n6 := BothNet(r, q, h, [TraceId(id, false)], []);
    var end := BothNet(r, q, h, [TraceId(id, false), TraceId(f.traceId, false)], [RefTo(f)]);
    DrawsFirst(r, q, h, id);
    ConsumesNext(r, q, h, f, id);
    FirstMove(n6, Consume(1, 0, id), [], end);
    FirstMove(n5, Plain(Extracts(1, EMPTY, id)), [Consume(1, 0, id)], end);
  }
}
