/** All objects of the engine together. The world they show changes by each operation exactly as the
    engine's step changes it on values; in particular the list objects that tasks share show one
    sequence per task. */
module TraceRuntime {
  import opened Text
  import opened TraceObjects
  import E = TraceEngine
  import F = TraceFrames

  /** The objects of all processes, by their ids, and whose each segment is. */
  datatype Objects = Objects(
    tasks: map<E.TaskId, Task>, spans: map<E.SpanId, Span>, contexts: map<E.ContextId, SpanContext>,
    owner: map<Segment, E.ContextId>)

  ghost predicate HasTask(o: Objects, t: Task) {
    t.id in o.tasks && o.tasks[t.id] == t
  }

  ghost predicate HasSpan(o: Objects, s: Span) {
    s.id in o.spans && o.spans[s.id] == s
  }

  ghost predicate HasContext(o: Objects, c: SpanContext) {
    c.id in o.contexts && o.contexts[c.id] == c && c.segment in o.owner && o.owner[c.segment] == c.id
  }

  /** The context can be added. */
  ghost predicate NewContext(o: Objects, c: SpanContext) {
    c.id !in o.contexts && c.segment !in o.owner
  }

  /** Objects are filed under their ids, and a span's context is there. */
  ghost predicate Filed(o: Objects) {
    && (forall k :: k in o.tasks ==> o.tasks[k].id == k)
    && (forall k :: k in o.spans ==> o.spans[k].id == k)
    && (forall k :: k in o.contexts ==> o.contexts[k].id == k)
    && (forall k {:trigger HasContext(o, o.spans[k].context)} :: k in o.spans ==> HasContext(o, o.spans[k].context))
    && (forall k {:trigger HasContext(o, o.contexts[k])} :: k in o.contexts ==> HasContext(o, o.contexts[k]))
  }

  /** No other context writes to the segment of `c`. */
  ghost predicate OwnSegment(o: Objects, c: SpanContext) {
    forall k :: k in o.contexts && o.contexts[k] != c ==> o.contexts[k].segment != c.segment
  }

  lemma SegmentIsOwn(o: Objects, c: SpanContext)
    requires Filed(o) && (HasContext(o, c) || NewContext(o, c))
    ensures OwnSegment(o, c)
  {
    forall k | k in o.contexts && o.contexts[k] != c ensures o.contexts[k].segment != c.segment {
      assert HasContext(o, o.contexts[k]);
    }
  }

  ghost predicate ShowsTask(o: Objects, w: E.World, t: Task)
    reads t, t.list
  {
    t.id in w.stacks && w.stacks[t.id] == Ids(t.list.items) && forall x :: x in t.list.items ==> HasSpan(o, x)
  }

  ghost predicate ShowsSpan(w: E.World, s: Span)
    reads s
  {
    s.id in w.spans && w.spans[s.id] == SpanView(s)
  }

  ghost predicate ShowsContext(o: Objects, w: E.World, c: SpanContext)
    reads c, c.segment
  {
    c.id in w.contexts && w.contexts[c.id] == ContextView(c) && (c.primary != null ==> HasSpan(o, c.primary))
  }

  /** The world is about these objects and no others. */
  ghost predicate Covers(o: Objects, w: E.World) {
    w.stacks.Keys == o.tasks.Keys && w.spans.Keys == o.spans.Keys && w.contexts.Keys == o.contexts.Keys
  }

  /** All tasks but `t`, all spans but `s` and all contexts but `c` show the world. */
  ghost predicate OthersShow(o: Objects, w: E.World, t: Task?, s: Span?, c: SpanContext?)
    reads *
  {
    && (forall k {:trigger ShowsTask(o, w, o.tasks[k])} :: k in o.tasks && o.tasks[k] != t ==> ShowsTask(o, w, o.tasks[k]))
    && (forall k {:trigger ShowsSpan(w, o.spans[k])} :: k in o.spans && o.spans[k] != s ==> ShowsSpan(w, o.spans[k]))
    && (forall k {:trigger ShowsContext(o, w, o.contexts[k])} ::
          k in o.contexts && o.contexts[k] != c ==> ShowsContext(o, w, o.contexts[k]))
  }

  /** The objects show the world. */
  ghost predicate Shows(o: Objects, agent: Agent, w: E.World)
    reads *
  {
    Filed(o) && Covers(o, w) && w.archived == Handed(agent.archived) && OthersShow(o, w, null, null, null)
  }

  /** They show no other. */
  lemma ShowOne(o: Objects, agent: Agent, w: E.World, v: E.World)
    requires Shows(o, agent, w) && Shows(o, agent, v)
    ensures w == v
  {
    forall k | k in w.stacks ensures w.stacks[k] == v.stacks[k] {
      assert ShowsTask(o, w, o.tasks[k]) && ShowsTask(o, v, o.tasks[k]);
    }
    forall k | k in w.spans ensures w.spans[k] == v.spans[k] {
      assert ShowsSpan(w, o.spans[k]) && ShowsSpan(v, o.spans[k]);
    }
    forall k | k in w.contexts ensures w.contexts[k] == v.contexts[k] {
      assert ShowsContext(o, w, o.contexts[k]) && ShowsContext(o, v, o.contexts[k]);
    }
    assert w.stacks == v.stacks && w.spans == v.spans && w.contexts == v.contexts;
  }

  /** Spans and tasks are identified, which `Span.Start` and `Span.Stop` ask for. */
  lemma AllIdentified(o: Objects, agent: Agent, w: E.World, s: Span, t: Task)
    requires Shows(o, agent, w) && HasSpan(o, s) && HasTask(o, t)
    ensures Identifies(s, t)
  {
    assert HasContext(o, o.spans[s.id].context);
    assert ShowsTask(o, w, o.tasks[t.id]) && ShowsContext(o, w, o.contexts[s.context.id]);
  }

  /** Nothing exists at first. */
  method Initial() returns (agent: Agent)
    ensures fresh(agent) && Shows(Objects(map[], map[], map[], map[]), agent, E.Initial())
  {
    agent := new Agent();
  }

  // ----- tasks -----

  ghost function WithTask(o: Objects, t: Task): Objects {
    o.(tasks := o.tasks[t.id := t])
  }

  lemma OneMoreTask(o: Objects, agent: Agent, w: E.World, t: Task, stack: seq<E.SpanId>)
    requires Shows(o, agent, w) && t.id !in w.stacks && stack == Ids(t.list.items)
    requires forall x :: x in t.list.items ==> HasSpan(o, x)
    ensures Shows(WithTask(o, t), agent, w.(stacks := w.stacks[t.id := stack]))
  {
    var p, v := WithTask(o, t), w.(stacks := w.stacks[t.id := stack]);
    forall k | k in p.tasks ensures ShowsTask(p, v, p.tasks[k]) && p.tasks[k].id == k {
      assert k != t.id ==> ShowsTask(o, w, o.tasks[k]);
    }
    forall k | k in p.contexts ensures ShowsContext(p, v, p.contexts[k]) && HasContext(p, p.contexts[k]) {
      assert ShowsContext(o, w, o.contexts[k]) && HasContext(o, o.contexts[k]);
    }
    forall k | k in p.spans ensures ShowsSpan(v, p.spans[k]) && HasContext(p, p.spans[k].context) {
      assert ShowsSpan(w, o.spans[k]) && HasContext(o, o.spans[k].context);
    }
  }

  /** A thread with no spans of its own. */
  method Begin(ghost id: E.TaskId, agent: Agent, ghost o: Objects, ghost w: E.World) returns (t: Task)
    requires Shows(o, agent, w) && id !in w.stacks
    ensures fresh(t) && t.id == id && Shows(WithTask(o, t), agent, w.(stacks := w.stacks[id := []]))
  {
    var list := new SpanList([]);
    t := new Task(id, list);
    OneMoreTask(o, agent, w, t, []);
  }

  /** An asyncio task that starts with the very list of its parent. */
  method Spawn(t: Task, ghost id: E.TaskId, agent: Agent, ghost o: Objects, ghost w: E.World) returns (u: Task)
    requires Shows(o, agent, w) && HasTask(o, t) && id !in w.stacks
    ensures fresh(u) && u.id == id && u.list == t.list && t.id in w.stacks
    ensures Shows(WithTask(o, u), agent, w.(stacks := w.stacks[id := w.stacks[t.id]]))
  {
    assert ShowsTask(o, w, o.tasks[t.id]);
    u := t.Spawn(id);
    OneMoreTask(o, agent, w, u, w.stacks[t.id]);
  }

  // ----- starting and stopping -----

  /** One task, one span and its context show the world. */
  ghost predicate ThreeShow(o: Objects, w: E.World, t: Task, s: Span)
    reads *
  {
    ShowsTask(o, w, t) && ShowsSpan(w, s) && ShowsContext(o, w, s.context)
  }

  lemma TasksTogether(o: Objects, w: E.World, v: E.World, t: Task)
    requires forall k :: k in o.tasks ==> o.tasks[k].id == k
    requires forall k :: k in o.tasks && o.tasks[k] != t ==> ShowsTask(o, w, o.tasks[k])
    requires v.stacks.Keys == w.stacks.Keys && forall u :: u in w.stacks && u != t.id ==> v.stacks[u] == w.stacks[u]
    requires HasTask(o, t) && ShowsTask(o, v, t)
    ensures forall k :: k in o.tasks ==> ShowsTask(o, v, o.tasks[k])
  {
    forall k | k in o.tasks ensures ShowsTask(o, v, o.tasks[k]) {
      assert o.tasks[k] != t ==> ShowsTask(o, w, o.tasks[k]);
    }
  }

  lemma SpansTogether(o: Objects, w: E.World, v: E.World, s: Span)
    requires forall k :: k in o.spans ==> o.spans[k].id == k
    requires forall k :: k in o.spans && o.spans[k] != s ==> ShowsSpan(w, o.spans[k])
    requires v.spans.Keys == w.spans.Keys && forall x :: x in w.spans && x != s.id ==> v.spans[x] == w.spans[x]
    requires HasSpan(o, s) && ShowsSpan(v, s)
    ensures forall k :: k in o.spans ==> ShowsSpan(v, o.spans[k])
  {
    forall k | k in o.spans ensures ShowsSpan(v, o.spans[k]) {
      assert o.spans[k] != s ==> ShowsSpan(w, o.spans[k]);
    }
  }

  lemma ContextsTogether(o: Objects, w: E.World, v: E.World, c: SpanContext)
    requires forall k :: k in o.contexts ==> o.contexts[k].id == k
    requires forall k :: k in o.contexts && o.contexts[k] != c ==> ShowsContext(o, w, o.contexts[k])
    requires v.contexts.Keys == w.contexts.Keys && forall d :: d in w.contexts && d != c.id ==> v.contexts[d] == w.contexts[d]
    requires HasContext(o, c) && ShowsContext(o, v, c)
    ensures forall k :: k in o.contexts ==> ShowsContext(o, v, o.contexts[k])
  {
    forall k | k in o.contexts ensures ShowsContext(o, v, o.contexts[k]) {
      assert o.contexts[k] != c ==> ShowsContext(o, w, o.contexts[k]);
    }
  }

  /** These and the others show the next world, in which nothing else is different. */
  lemma TogetherShow(o: Objects, agent: Agent, w: E.World, v: E.World, t: Task, s: Span)
    requires Filed(o) && Covers(o, w) && OthersShow(o, w, t, s, s.context) && v.archived == Handed(agent.archived)
    requires HasTask(o, t) && HasSpan(o, s)
    requires F.Only(w, v.(archived := w.archived), s.id, s.context.id)
    requires v.stacks.Keys == w.stacks.Keys && forall u :: u in w.stacks && u != t.id ==> v.stacks[u] == w.stacks[u]
    requires ThreeShow(o, v, t, s)
    ensures Shows(o, agent, v)
  {
    assert HasContext(o, o.spans[s.id].context);
    TasksTogether(o, w, v, t);
    SpansTogether(o, w, v, s);
    ContextsTogether(o, w, v, s.context);
  }

  /** `stop` as these three see it. */
  method StopThree(t: Task, s: Span, agent: Agent, ghost o: Objects, ghost w: E.World)
    requires ThreeShow(o, w, t, s) && w.archived == Handed(agent.archived) && Identifies(s, t)
    modifies s`depth, s.context`nspans, s.context.segment`spans, t, agent
    ensures t.id in w.stacks && E.SpanKnown(w, s.id) && (t.list == old(t.list) || fresh(t.list))
    ensures ThreeShow(o, E.Stop(w, t.id, s.id), t, s) && E.Stop(w, t.id, s.id).archived == Handed(agent.archived)
  {
    RemoveFirstIn(t.list.items, s);
    var _ := s.Stop(t, agent);
  }

  /** `stop` touches no others. */
  method StopAmong(t: Task, s: Span, agent: Agent, ghost o: Objects, ghost w: E.World, ghost v: E.World)
    requires ThreeShow(o, w, t, s) && w.archived == Handed(agent.archived) && Identifies(s, t)
    requires t.id in w.stacks && E.SpanKnown(w, s.id) && v == E.Stop(w, t.id, s.id)
    requires OthersShow(o, w, t, s, s.context) && OwnSegment(o, s.context)
    modifies s`depth, s.context`nspans, s.context.segment`spans, t, agent
    ensures ThreeShow(o, v, t, s) && v.archived == Handed(agent.archived) && OthersShow(o, w, t, s, s.context)
  {
    StopThree(t, s, agent, o, w);
  }

  /** `stop`, for any number of tasks that share lists. */
  method Leave(t: Task, s: Span, agent: Agent, ghost o: Objects, ghost w: E.World)
    requires Shows(o, agent, w) && HasTask(o, t) && HasSpan(o, s)
    modifies s`depth, s.context`nspans, s.context.segment`spans, t, agent
    ensures t.id in w.stacks && E.SpanKnown(w, s.id)
    ensures Shows(o, agent, E.Stop(w, t.id, s.id))
  {
    AllIdentified(o, agent, w, s, t);
    Three(o, agent, w, s, t);
    F.StopFrame(w, t.id, s.id);
    ghost var v := E.Stop(w, t.id, s.id);
    StopAmong(t, s, agent, o, w, v);
    TogetherShow(o, agent, w, v, t, s);
  }

  lemma Three(o: Objects, agent: Agent, w: E.World, s: Span, t: Task)
    requires Shows(o, agent, w) && HasSpan(o, s) && HasTask(o, t)
    ensures ThreeShow(o, w, t, s) && OthersShow(o, w, t, s, s.context) && OwnSegment(o, s.context)
    ensures t.id in w.stacks && E.SpanKnown(w, s.id)
    ensures s.context.primary != null ==> ShowsSpan(w, s.context.primary)
  {
    assert HasContext(o, o.spans[s.id].context);
    SegmentIsOwn(o, s.context);
    assert ShowsTask(o, w, o.tasks[t.id]) && ShowsSpan(w, o.spans[s.id]) && ShowsContext(o, w, o.contexts[s.context.id]);
    if s.context.primary != null {
      assert ShowsSpan(w, o.spans[s.context.primary.id]);
    }
  }

  /** `start` as the three see it. */
  method StartThree(t: Task, s: Span, ghost o: Objects, ghost w: E.World, ghost v: E.World)
    requires ThreeShow(o, w, t, s) && Identifies(s, t) && HasSpan(o, s)
    requires s.context.primary != null ==> ShowsSpan(w, s.context.primary)
    requires t.id in w.stacks && E.SpanKnown(w, s.id) && F.Starts(w, v, t.id, s.id)
    modifies s`depth, s`component, s.context`nspans, s.context`primary, t
    ensures ThreeShow(o, v, t, s) && (t.list == old(t.list) || fresh(t.list))
  {
    s.Start(t);
  }

  /** `start` touches no others. */
  method StartAmong(t: Task, s: Span, ghost o: Objects, ghost w: E.World, ghost v: E.World)
    requires ThreeShow(o, w, t, s) && Identifies(s, t) && HasSpan(o, s)
    requires s.context.primary != null ==> ShowsSpan(w, s.context.primary)
    requires t.id in w.stacks && E.SpanKnown(w, s.id) && F.Starts(w, v, t.id, s.id)
    requires OthersShow(o, w, t, s, s.context)
    modifies s`depth, s`component, s.context`nspans, s.context`primary, t
    ensures ThreeShow(o, v, t, s) && OthersShow(o, w, t, s, s.context)
  {
    StartThree(t, s, o, w, v);
  }

  /** `start`, for any number of tasks that share lists. */
  method Start(t: Task, s: Span, agent: Agent, ghost o: Objects, ghost w: E.World)
    requires Shows(o, agent, w) && HasTask(o, t) && HasSpan(o, s)
    modifies s`depth, s`component, s.context`nspans, s.context`primary, t
    ensures t.id in w.stacks && E.SpanKnown(w, s.id)
    ensures Shows(o, agent, E.Start(w, t.id, s.id))
  {
    AllIdentified(o, agent, w, s, t);
    Three(o, agent, w, s, t);
    F.StartFrame(w, t.id, s.id);
    F.StartValues(w, t.id, s.id);
    ghost var v := E.Start(w, t.id, s.id);
    StartAmong(t, s, o, w, v);
    TogetherShow(o, agent, w, v, t, s);
  }

  // ----- creating -----

  ghost function TopContexts(t: Task): set<SpanContext>
    reads t, t.list
  {
    set x | x in Topmost(t) :: x.context
  }

  ghost function TopSegments(t: Task): set<Segment>
    reads t, t.list
  {
    set x | x in Topmost(t) :: x.context.segment
  }

  /** The context that `get_context` finds or makes, as a value. */
  ghost function Found(w: E.World, t: E.TaskId, r: E.Request): E.Context
    requires E.TaskKnown(w, t)
  {
    var x := E.Top(w, t);
    if x.Some? then w.contexts[w.spans[x.value].context] else if r.sampledOut then E.NoopContext() else E.NewContext(r)
  }

  ghost function TopSeen(w: E.World, t: E.TaskId): Option<E.Span>
    requires E.TaskKnown(w, t)
  {
    var x := E.Top(w, t);
    if x.Some? then Some(w.spans[x.value]) else None
  }

  /** `c` is what `get_context` returned when `top` was the topmost span. */
  ghost predicate Gotten(o: Objects, w: E.World, t: E.TaskId, r: E.Request, cid: E.ContextId, c: SpanContext, top: Span?) {
    && E.TaskKnown(w, t) && c.noop == Found(w, t, r).noop
    && (if top == null then E.Top(w, t) == None && c.id == cid && c.segment !in o.owner
        else && E.Top(w, t) == Some(top.id) && HasSpan(o, top) && top.context == c && HasContext(o, c)
             && w.spans[top.id].context == c.id)
  }

  /** `s` is the topmost span taken over or a new object, in context `c` or in a new one. */
  ghost predicate NewOrTop(o: Objects, s: Span, sid: E.SpanId, c: SpanContext, top: Span?, takes: bool) {
    && (if takes then s == top else s.id == sid)
    && (s.context == c || s.context.segment !in o.owner)
  }

  /** The task's topmost span is the topmost of the stack it shows. */
  lemma TopShows(o: Objects, agent: Agent, w: E.World, t: Task)
    requires Shows(o, agent, w) && HasTask(o, t)
    ensures E.TaskKnown(w, t.id) && Seen(Peek(t)) == TopSeen(w, t.id)
    ensures Peek(t) == null ==> E.Top(w, t.id) == None
    ensures Peek(t) != null ==>
              && HasSpan(o, Peek(t)) && E.Top(w, t.id) == Some(Peek(t).id)
              && HasContext(o, Peek(t).context)
              && w.spans[Peek(t).id].context == Peek(t).context.id
              && ShowsContext(o, w, Peek(t).context)
  {
    assert ShowsTask(o, w, o.tasks[t.id]);
    if Peek(t) != null {
      assert Peek(t) in t.list.items;
      assert HasContext(o, o.spans[Peek(t).id].context);
      assert ShowsSpan(w, o.spans[Peek(t).id]) && ShowsContext(o, w, o.contexts[Peek(t).context.id]);
    }
  }

  /** `get_context` among all objects. */
  method ContextAmong(t: Task, r: E.Request, ghost cid: E.ContextId, agent: Agent, ghost o: Objects, ghost w: E.World)
    returns (c: SpanContext)
    requires Shows(o, agent, w) && HasTask(o, t) && cid !in w.contexts
    ensures Peek(t) == null ==> fresh(c) && fresh(c.segment)
    ensures Gotten(o, w, t.id, r, cid, c, Peek(t)) && OthersShow(o, w, null, null, c) && OwnSegment(o, c)
    ensures ContextView(c) == Found(w, t.id, r) && Seen(Peek(t)) == TopSeen(w, t.id)
    ensures c.primary != null ==> HasSpan(o, c.primary)
  {
    TopShows(o, agent, w, t);
    c := GetContext(t, r.sampledOut, r, cid);
    SegmentIsOwn(o, c);
  }

  /** `new_local_span`, `new_entry_span` or `new_exit_span` on context `c`. */
  method NewByKind(t: Task, c: SpanContext, r: E.Request, ghost sid: E.SpanId, ghost cid: E.ContextId) returns (s: Span?)
    requires Peek(t) != null ==> Peek(t).context == c
    modifies c`lastSid, c.segment`related, Topmost(t)`op, Topmost(t)`peer, Topmost(t)`component, Topmost(t)`inherit
    ensures s != null ==> if old(TakesOver(c.noop, Seen(Peek(t)), r)) then s == Peek(t) else fresh(s) && s.id == sid
    ensures s != null ==> s.context == c || (fresh(s.context) && fresh(s.context.segment))
    ensures !old(TakesOver(c.noop, Seen(Peek(t)), r)) ==> Seen(Peek(t)) == old(Seen(Peek(t)))
    ensures Outcome(s, c, old(ContextView(c)), Peek(t), old(Seen(Peek(t))), r, cid)
  {
    match r.kind
    case Local => s := c.NewLocalSpan(t, r, sid, cid);
    case Entry => s := c.NewEntrySpan(t, r, sid, cid);
    case Exit => s := c.NewExitSpan(t, r, sid, cid);
  }

  /** The same; `was` and `seen` are what context and topmost span are before. */
  method NewFiled(t: Task, c: SpanContext, r: E.Request, ghost sid: E.SpanId, ghost cid: E.ContextId, ghost o: Objects,
                  ghost was: E.Context, ghost seen: Option<E.Span>) returns (s: Span?)
    requires (Peek(t) != null ==> Peek(t).context == c) && ContextView(c) == was && Seen(Peek(t)) == seen
    modifies c`lastSid, c.segment`related, Topmost(t)`op, Topmost(t)`peer, Topmost(t)`component, Topmost(t)`inherit
    ensures s != null ==> NewOrTop(o, s, sid, c, Peek(t), TakesOver(c.noop, seen, r))
    ensures Outcome(s, c, was, Peek(t), seen, r, cid)
    ensures !TakesOver(c.noop, seen, r) ==> Seen(Peek(t)) == seen
  {
    s := NewByKind(t, c, r, sid, cid);
  }

  /** The same, among all objects. */
  method NewAmong(t: Task, c: SpanContext, r: E.Request, ghost sid: E.SpanId, ghost cid: E.ContextId,
                  ghost o: Objects, ghost w: E.World, ghost was: E.Context, ghost seen: Option<E.Span>) returns (s: Span?)
    requires OthersShow(o, w, null, null, c) && OwnSegment(o, c) && (Peek(t) != null ==> Peek(t).context == c)
    requires ContextView(c) == was && Seen(Peek(t)) == seen
    modifies c`lastSid, c.segment`related, Topmost(t)`op, Topmost(t)`peer, Topmost(t)`component, Topmost(t)`inherit
    ensures OthersShow(o, w, null, if TakesOver(c.noop, seen, r) then Peek(t) else null, c)
    ensures s != null ==> NewOrTop(o, s, sid, c, Peek(t), TakesOver(c.noop, seen, r))
    ensures Outcome(s, c, was, Peek(t), seen, r, cid)
  {
    s := NewFiled(t, c, r, sid, cid, o, was, seen);
    forall k | k in o.contexts && o.contexts[k] != c ensures ShowsContext(o, w, o.contexts[k]) {
      assert old(ShowsContext(o, w, o.contexts[k]));
    }
    forall k | k in o.tasks ensures ShowsTask(o, w, o.tasks[k]) {
      assert old(ShowsTask(o, w, o.tasks[k]));
    }
  }

  /** The objects with a new span and its context. */
  ghost function With(o: Objects, s: Span): Objects {
    o.(spans := o.spans[s.id := s], contexts := o.contexts[s.context.id := s.context],
       owner := o.owner[s.context.segment := s.context.id])
  }

  lemma WithIsFiled(o: Objects, s: Span)
    requires Filed(o) && (HasSpan(o, s) || s.id !in o.spans)
    requires HasContext(o, s.context) || NewContext(o, s.context)
    ensures Filed(With(o, s))
  {
    var p := With(o, s);
    forall k | k in o.contexts ensures HasContext(p, o.contexts[k]) {
      assert HasContext(o, o.contexts[k]);
    }
    forall k | k in o.spans ensures HasContext(p, o.spans[k].context) {
      assert HasContext(o, o.spans[k].context);
    }
  }

  /** A span that is there stays there. */
  ghost predicate Extends(o: Objects, p: Objects) {
    forall k :: k in o.spans ==> k in p.spans && p.spans[k] == o.spans[k]
  }

  lemma RestTasks(o: Objects, p: Objects, w: E.World, v: E.World)
    requires Extends(o, p) && p.tasks == o.tasks && v.stacks == w.stacks
    requires forall k :: k in o.tasks ==> ShowsTask(o, w, o.tasks[k])
    ensures forall k :: k in p.tasks ==> ShowsTask(p, v, p.tasks[k])
  {
    forall k | k in p.tasks ensures ShowsTask(p, v, p.tasks[k]) {
      assert ShowsTask(o, w, o.tasks[k]);
    }
  }

  lemma RestSpans(o: Objects, w: E.World, v: E.World, s: Span)
    requires (forall k :: k in o.spans ==> o.spans[k].id == k) && (HasSpan(o, s) || s.id !in o.spans)
    requires forall k :: k in o.spans && o.spans[k] != s ==> ShowsSpan(w, o.spans[k])
    requires v.spans.Keys == w.spans.Keys + {s.id} && forall x :: x in w.spans && x != s.id ==> v.spans[x] == w.spans[x]
    requires ShowsSpan(v, s)
    ensures forall k :: k in With(o, s).spans ==> ShowsSpan(v, With(o, s).spans[k])
  {
    forall k | k in With(o, s).spans ensures ShowsSpan(v, With(o, s).spans[k]) {
      if k != s.id {
        assert ShowsSpan(w, o.spans[k]);
      }
    }
  }

  lemma RestContexts(o: Objects, p: Objects, w: E.World, v: E.World, c: SpanContext, h: SpanContext)
    requires Extends(o, p) && p.contexts == o.contexts[h.id := h]
    requires forall k :: k in o.contexts ==> o.contexts[k].id == k && HasContext(o, o.contexts[k])
    requires forall k :: k in o.contexts && o.contexts[k] != c ==> ShowsContext(o, w, o.contexts[k])
    requires HasContext(o, c) && c != h ==> ShowsContext(o, w, c)
    requires v.contexts.Keys == w.contexts.Keys + {h.id} && forall d :: d in w.contexts && d != h.id ==> v.contexts[d] == w.contexts[d]
    requires v.contexts[h.id] == ContextView(h) && (h.primary != null ==> HasSpan(o, h.primary))
    ensures forall k :: k in p.contexts ==> ShowsContext(p, v, p.contexts[k])
  {
    forall k | k in p.contexts ensures ShowsContext(p, v, p.contexts[k]) {
      if k != h.id {
        assert o.contexts[k] == c ==> HasContext(o, c) && c != h;
        assert ShowsContext(o, w, o.contexts[k]);
      }
    }
  }

  /** A span and a context that show the next world, and a rest that shows this one. */
  lemma RestThenShows(o: Objects, w: E.World, v: E.World, s: Span, c: SpanContext)
    requires Filed(o) && (HasSpan(o, s) || s.id !in o.spans)
    requires OthersShow(o, w, null, s, c) && (HasContext(o, c) && c != s.context ==> ShowsContext(o, w, c))
    requires F.Only(w, v, s.id, s.context.id) && v.stacks == w.stacks
    requires ShowsSpan(v, s) && v.contexts[s.context.id] == ContextView(s.context)
    requires s.context.primary != null ==> HasSpan(o, s.context.primary)
    ensures OthersShow(With(o, s), v, null, null, null)
  {
    var p := With(o, s);
    RestTasks(o, p, w, v);
    RestSpans(o, w, v, s);
    RestContexts(o, p, w, v, c, s.context);
  }

  lemma WithCovers(o: Objects, w: E.World, v: E.World, s: Span)
    requires Covers(o, w) && F.Only(w, v, s.id, s.context.id) && v.stacks == w.stacks
    ensures Covers(With(o, s), v)
  {
  }

  /** A context other than the new span's is as it was. */
  lemma OtherContextStays(s: Span, c: SpanContext, was: E.Context, top: Span?, topWas: Option<E.Span>, r: E.Request,
                          cid: E.ContextId)
    requires Outcome(s, c, was, top, topWas, r, cid) && s.context != c && (s == top ==> s.context == c)
    ensures ContextView(c) == was && s.context.id == cid && s.context.primary == null
  {
    assert SpanView(s).context == s.context.id;
    assert ContextView(s.context).primary.None? <==> s.context.primary == null;
  }

  /** The outcome of a call, together with what it leaves alone, shows what the engine's step makes. */
  lemma OutcomeShows(o: Objects, agent: Agent, w: E.World, v: E.World, sid: E.SpanId, cid: E.ContextId, s: Span, c: SpanContext)
    requires Filed(o) && Covers(o, w) && w.archived == Handed(agent.archived) && sid !in w.spans && cid !in w.contexts
    requires F.Only(w, v, s.id, s.context.id) && v.stacks == w.stacks
    requires v.spans[s.id] == SpanView(s) && v.contexts[s.context.id] == ContextView(s.context)
    requires OthersShow(o, w, null, s, c) && (HasContext(o, c) && c != s.context ==> ShowsContext(o, w, c))
    requires HasSpan(o, s) || s.id == sid
    requires HasContext(o, s.context) || (s.context.id == cid && s.context.segment !in o.owner)
    requires s.context.primary != null ==> HasSpan(o, s.context.primary)
    ensures Shows(With(o, s), agent, v)
  {
    WithIsFiled(o, s);
    WithCovers(o, w, v, s);
    RestThenShows(o, w, v, s, c);
  }

  /** The call has made what the engine's step makes, or has raised as it does. */
  ghost predicate Creates(o: Objects, agent: Agent, w: E.World, made: E.Created, s: Span?)
    reads *
  {
    && (s == null ==> made.Failed? && Shows(o, agent, w))
    && (s != null ==> made.Created? && made.span == s.id && Shows(With(o, s), agent, made.world))
  }

  /** The span that was made, and its context, are those of the engine's step. */
  ghost predicate Matches(made: E.Created, s: Span?, c: SpanContext, was: E.Context, cid: E.ContextId)
    reads Owned(s), c, c.segment
  {
    if s == null then made.Failed? && ContextView(c) == was
    else
      && made.Created? && made.span == s.id && s.id in made.world.spans && made.world.spans[s.id] == SpanView(s)
      && s.context.id in made.world.contexts && made.world.contexts[s.context.id] == ContextView(s.context)
      && (s.context != c ==> ContextView(c) == was && s.context.id == cid && s.context.primary == null)
  }

  lemma OutcomeMatches(o: Objects, w: E.World, t: E.TaskId, r: E.Request, sid: E.SpanId, cid: E.ContextId,
                       s: Span?, c: SpanContext, top: Span?)
    requires sid !in w.spans && cid !in w.contexts && Gotten(o, w, t, r, cid, c, top)
    requires Outcome(s, c, Found(w, t, r), top, TopSeen(w, t), r, cid)
    requires s != null ==> NewOrTop(o, s, sid, c, top, TakesOver(c.noop, TopSeen(w, t), r))
    ensures Matches(E.Create(w, t, r, sid, cid), s, c, Found(w, t, r), cid)
    ensures s == null ==> !TakesOver(c.noop, TopSeen(w, t), r)
  {
    OutcomeIsCreate(w, t, r, sid, cid, s, c, top);
    if s != null && s.context != c {
      OtherContextStays(s, c, Found(w, t, r), top, TopSeen(w, t), r, cid);
    }
  }

  /** The call on the context that was found, among all objects. */
  method NewMatched(t: Task, c: SpanContext, r: E.Request, ghost sid: E.SpanId, ghost cid: E.ContextId,
                    ghost o: Objects, ghost w: E.World, ghost top: Span?) returns (s: Span?)
    requires top == Peek(t) && sid !in w.spans && cid !in w.contexts && Gotten(o, w, t.id, r, cid, c, Peek(t))
    requires OthersShow(o, w, null, null, c) && OwnSegment(o, c)
    requires ContextView(c) == Found(w, t.id, r) && Seen(Peek(t)) == TopSeen(w, t.id)
    requires c.primary != null ==> HasSpan(o, c.primary)
    modifies c`lastSid, c.segment`related, Topmost(t)`op, Topmost(t)`peer, Topmost(t)`component, Topmost(t)`inherit
    ensures Matches(E.Create(w, t.id, r, sid, cid), s, c, Found(w, t.id, r), cid)
    ensures if s == null then !TakesOver(c.noop, TopSeen(w, t.id), r)
            else NewOrTop(o, s, sid, c, top, TakesOver(c.noop, TopSeen(w, t.id), r))
    ensures OthersShow(o, w, null, if TakesOver(c.noop, TopSeen(w, t.id), r) then top else null, c)
    ensures c.primary != null ==> HasSpan(o, c.primary)
  {
    s := NewAmong(t, c, r, sid, cid, o, w, Found(w, t.id, r), TopSeen(w, t.id));
    OutcomeMatches(o, w, t.id, r, sid, cid, s, c, Peek(t));
  }

  /** What matches the engine's step, together with what it leaves alone, shows what the step makes. */
  lemma MatchShows(o: Objects, agent: Agent, w: E.World, t: E.TaskId, r: E.Request, made: E.Created, sid: E.SpanId,
                   cid: E.ContextId, s: Span?, c: SpanContext, top: Span?, takes: bool)
    requires Filed(o) && Covers(o, w) && w.archived == Handed(agent.archived) && sid !in w.spans && cid !in w.contexts
    requires Gotten(o, w, t, r, cid, c, top) && Matches(made, s, c, Found(w, t, r), cid)
    requires if s == null then !takes else NewOrTop(o, s, sid, c, top, takes)
    requires OthersShow(o, w, null, if takes then top else null, c)
    requires c.primary != null ==> HasSpan(o, c.primary)
    requires made.Created? ==> F.Only(w, made.world, made.span, made.world.spans[made.span].context) && made.world.stacks == w.stacks
    ensures Creates(o, agent, w, made, s)
  {
    if s != null {
      assert SpanView(s).context == s.context.id;
      OutcomeShows(o, agent, w, made.world, sid, cid, s, c);
    } else {
      forall k | k in o.contexts ensures ShowsContext(o, w, o.contexts[k]) {
        assert o.contexts[k] == c ==> top != null;
      }
    }
  }

  /** `get_context` and `new_*_span`, for all objects: they show the world of the engine's step, or the
      call raises exactly when the step does and they show the old one. */
  method Create(t: Task, r: E.Request, ghost sid: E.SpanId, ghost cid: E.ContextId, agent: Agent, ghost o: Objects,
                ghost w: E.World) returns (s: Span?)
    requires Shows(o, agent, w) && HasTask(o, t) && sid !in w.spans && cid !in w.contexts
    modifies TopContexts(t)`lastSid, TopSegments(t)`related
    modifies Topmost(t)`op, Topmost(t)`peer, Topmost(t)`component, Topmost(t)`inherit
    ensures E.TaskKnown(w, t.id) && Creates(o, agent, w, E.Create(w, t.id, r, sid, cid), s)
  {
    var c := ContextAmong(t, r, cid, agent, o, w);
    s := FromContext(t, c, r, sid, cid, agent, o, w);
  }

  /** The same for the context that was found. */
  method FromContext(t: Task, c: SpanContext, r: E.Request, ghost sid: E.SpanId, ghost cid: E.ContextId, agent: Agent,
                     ghost o: Objects, ghost w: E.World) returns (s: Span?)
    requires Filed(o) && Covers(o, w) && w.archived == Handed(agent.archived) && sid !in w.spans && cid !in w.contexts
    requires Gotten(o, w, t.id, r, cid, c, Peek(t)) && OthersShow(o, w, null, null, c) && OwnSegment(o, c)
    requires ContextView(c) == Found(w, t.id, r) && Seen(Peek(t)) == TopSeen(w, t.id)
    requires c.primary != null ==> HasSpan(o, c.primary)
    modifies c`lastSid, c.segment`related, Topmost(t)`op, Topmost(t)`peer, Topmost(t)`component, Topmost(t)`inherit
    ensures Creates(o, agent, w, E.Create(w, t.id, r, sid, cid), s)
  {
    ghost var takes, top := TakesOver(c.noop, TopSeen(w, t.id), r), Peek(t);
    s := NewMatched(t, c, r, sid, cid, o, w, top);
    Frame(w, t.id, r, sid, cid);
    MatchShows(o, agent, w, t.id, r, E.Create(w, t.id, r, sid, cid), sid, cid, s, c, top, takes);
  }

  lemma Frame(w: E.World, t: E.TaskId, r: E.Request, sid: E.SpanId, cid: E.ContextId)
    requires E.TaskKnown(w, t)
    ensures var made := E.Create(w, t, r, sid, cid);
            made.Created? ==> F.Only(w, made.world, made.span, made.world.spans[made.span].context) && made.world.stacks == w.stacks
  {
    if E.Create(w, t, r, sid, cid).Created? {
      F.CreateFrame(w, t, r, sid, cid);
    }
  }
}
