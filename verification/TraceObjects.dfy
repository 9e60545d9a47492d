/** The trace engine as objects: spans, contexts, segments and the lists of spans that tasks share until
    they write to them. Every operation is proved to do what its step on values does. */
module TraceObjects {
  import opened Text
  import opened Base64
  import opened Carrier
  import E = TraceEngine
  import R = TraceReferences
  import P = TraceParents

  // ----- the values that objects stand for -----

  ghost function Ids(xs: seq<Span>): (r: seq<E.SpanId>)
    ensures |r| == |xs|
    ensures forall i :: 0 <= i < |xs| ==> r[i] == xs[i].id
  {
    seq(|xs|, i requires 0 <= i < |xs| => xs[i].id)
  }

  ghost function SpanView(s: Span): E.Span
    reads s
  {
    E.Span(s.context.id, s.noop, s.sid, s.pid, s.op, s.peer, s.kind, s.component, s.inherit, s.depth, s.refs)
  }

  ghost function ContextView(c: SpanContext): E.Context
    reads c, c.segment
  {
    E.Context(c.noop, c.lastSid, c.nspans, E.Segment(c.segment.id, Ids(c.segment.spans), c.segment.related),
              if c.primary == null then None else Some(c.primary.id))
  }

  ghost function Handed(archived: seq<(SpanContext, seq<Span>)>): (r: seq<E.Archive>)
    ensures |r| == |archived|
    ensures forall i :: 0 <= i < |r| ==> r[i] == E.Archive(archived[i].0.id, Ids(archived[i].1))
  {
    seq(|archived|, i requires 0 <= i < |archived| => E.Archive(archived[i].0.id, Ids(archived[i].1)))
  }

  ghost function Seen(s: Span?): Option<E.Span>
    reads s
  {
    if s == null then None else Some(SpanView(s))
  }

  /** The objects a new span brings with it. */
  ghost function Owned(s: Span?): set<object> {
    if s == null then {} else {s, s.context, s.context.segment}
  }

  /** What `new_span` makes under a parent seen as `parent`, on context `c`, which was `was` before;
      `finished` after the caller has added what its kind of span needs. */
  ghost predicate MadeSpan(s: Span?, c: SpanContext, was: E.Context, parent: Option<E.Span>, r: E.Request,
                           cid: E.ContextId, finished: bool)
    reads Owned(s), c, c.segment
  {
    if parent.Some? && parent.value.depth == 0 then
      var f := E.ParentCarrier(parent.value, was, r.config);
      && ContextView(c) == was
      && (s == null <==> f.Raised?)
      && (s != null ==>
            var sp := E.ExtractedSpan(E.BareSpan(cid, 0, -1, r), f.value);
            var made := E.RelatedContext(E.NewContext(r).(lastSid := 0), E.CarriedId(f.value, r.traceId));
            && SpanView(s) == (if finished then E.FinishedSpan(sp, r) else sp)
            && ContextView(s.context) == (if finished then E.FinishedContext(made, r) else made))
    else
      var sp := E.BareSpan(c.id, was.lastSid + 1, if parent.Some? then parent.value.sid else -1, r);
      var made := was.(lastSid := was.lastSid + 1);
      && s != null && s.context == c
      && SpanView(s) == (if finished then E.FinishedSpan(sp, r) else sp)
      && ContextView(c) == (if finished then E.FinishedContext(made, r) else made)
  }

  ghost predicate TakesOver(noop: bool, top: Option<E.Span>, r: E.Request) {
    !noop && !E.Suppresses(r) && top.Some? && E.Reuses(top.value, r)
  }

  /** What `new_*_span` on context `c` returns when `top` is the topmost span. */
  ghost predicate Outcome(s: Span?, c: SpanContext, was: E.Context, top: Span?, topWas: Option<E.Span>, r: E.Request,
                          cid: E.ContextId)
    reads Owned(s), c, c.segment
  {
    if c.noop then s != null && s.context == c && SpanView(s) == E.NoopSpan(c.id) && ContextView(c) == was
    else if E.Suppresses(r) then
      s != null && SpanView(s) == E.NoopSpan(cid) && ContextView(s.context) == E.NoopContext() && ContextView(c) == was
    else if topWas.Some? && E.Reuses(topWas.value, r) then
      s != null && s == top && SpanView(s) == E.Reused(topWas.value, r) && ContextView(c) == was
    else MadeSpan(s, c, was, topWas, r, cid, true)
  }

  /** Ids stand for the identity of objects. */
  ghost predicate Identifies(s: Span, t: Task)
    reads s.context, t, t.list
  {
    && (forall x :: x in t.list.items && x.id == s.id ==> x == s)
    && (s.context.primary != null && s.context.primary.id == s.id ==> s.context.primary == s)
  }

  // ----- the objects -----

  /** A list object, to which several tasks may refer. */
  class SpanList {
    var items: seq<Span>

    constructor (items: seq<Span>)
      ensures this.items == items
    {
      this.items := items;
    }
  }

  /** `peek`. */
  function Peek(t: Task): Span?
    reads t, t.list
  {
    if t.list.items == [] then null else t.list.items[|t.list.items| - 1]
  }

  /** The topmost span, if there is one. */
  function Topmost(t: Task): set<Span>
    reads t, t.list
  {
    if t.list.items == [] then {} else {t.list.items[|t.list.items| - 1]}
  }

  function RemoveFirst(xs: seq<Span>, x: Span): seq<Span> {
    if xs == [] then [] else if xs[0] == x then xs[1..] else [xs[0]] + RemoveFirst(xs[1..], x)
  }

  /** A thread or asyncio task: the value of its context variable. */
  class Task {
    ghost const id: E.TaskId
    var list: SpanList

    constructor (ghost id: E.TaskId, list: SpanList)
      ensures this.id == id && this.list == list
    {
      this.id := id;
      this.list := list;
    }

    /** An asyncio task starts with its parent's list, not a copy of it. */
    method Spawn(ghost child: E.TaskId) returns (u: Task)
      ensures fresh(u) && u.id == child && u.list == list
    {
      u := new Task(child, list);
    }

    /** `_spans_dup`: the task gets a list of its own. */
    method Dup()
      modifies this
      ensures fresh(list) && list.items == old(list.items)
    {
      list := new SpanList(list.items);
    }
  }

  class Segment {
    const id: Bytes
    var spans: seq<Span>
    var related: seq<E.TraceId>

    constructor (id: Bytes, first: E.TraceId)
      ensures this.id == id && spans == [] && related == [first]
    {
      this.id := id;
      spans := [];
      related := [first];
    }

    method Archive(s: Span)
      modifies this`spans
      ensures spans == old(spans) + [s]
    {
      spans := spans + [s];
    }

    method Relate(id: E.TraceId)
      modifies this`related
      ensures related == E.Relate(old(related), id)
    {
      if related != [] && related[0].generated {
        related := related[..|related| - 1];
      }
      related := related + [id];
    }
  }

  /** What the agent was handed for reporting: a segment's context and the spans it held. */
  class Agent {
    var archived: seq<(SpanContext, seq<Span>)>

    constructor ()
      ensures archived == []
    {
      archived := [];
    }

    method ArchiveSegment(c: SpanContext)
      modifies this
      ensures archived == old(archived) + [(c, c.segment.spans)]
    {
      archived := archived + [(c, c.segment.spans)];
    }
  }

  class SpanContext {
    ghost const id: E.ContextId
    const noop: bool
    const segment: Segment
    var lastSid: int
    var nspans: int
    var primary: Span?

    constructor (ghost id: E.ContextId, noop: bool, segment: Segment)
      ensures this.id == id && this.noop == noop && this.segment == segment
      ensures lastSid == -1 && nspans == 0 && primary == null
    {
      this.id := id;
      this.noop := noop;
      this.segment := segment;
      lastSid := -1;
      nspans := 0;
      primary := null;
    }

    method NextSid() returns (sid: int)
      modifies this`lastSid
      ensures sid == lastSid == old(lastSid) + 1
    {
      lastSid := lastSid + 1;
      sid := lastSid;
    }

    /** The carrier that names a finished span of this context, unless testing its validity raises. */
    method CarrierFor(parent: Span, g: E.Config) returns (f: Result<Fields>)
      requires parent.context == this
      ensures f == E.ParentCarrier(SpanView(parent), ContextView(this), g)
    {
      var carrier := Fields(if segment.related == [] then [] else segment.related[0].value, segment.id,
                            E.IntText(parent.sid), g.service, g.serviceInstance, parent.op,
                            if parent.peer.Some? then parent.peer.value else []);
      if parent.peer.None? && carrier.traceId != [] && carrier.segmentId != [] && carrier.service != []
         && carrier.serviceInstance != [] && carrier.endpoint != [] {
        return Raised;
      }
      return Ok(carrier);
    }

    /** `new_span` under a finished parent of this context: the child gets a context of its own that
        refers to the parent. The result is null when the reference raises. */
    method SplitOff(parent: Span, r: E.Request, ghost sid: E.SpanId, ghost cid: E.ContextId) returns (s: Span?)
      requires parent.context == this
      ensures var f := E.ParentCarrier(SpanView(parent), ContextView(this), r.config);
              && (s == null <==> f.Raised?)
              && (s != null ==>
                    && fresh(s) && s.id == sid
                    && fresh(s.context) && fresh(s.context.segment) && s.context.id == cid
                    && SpanView(s) == E.ExtractedSpan(E.BareSpan(cid, 0, -1, r), f.value)
                    && ContextView(s.context)
                       == E.RelatedContext(E.NewContext(r).(lastSid := 0), E.CarriedId(f.value, r.traceId)))
      ensures s != null ==> P.MadeFor(SpanView(s), cid, 0, -1, r)
    {
      var seg := new Segment(r.segmentId, E.TraceId(r.traceId, true));
      var context := new SpanContext(cid, false, seg);
      var number := context.NextSid();
      var made := new Span(sid, context, false, number, -1, r.op, if r.kind.Exit? then Some(r.peer) else None, r.kind,
                           if r.kind.Exit? && r.component.Some? then r.component.value else E.UNKNOWN);
      var f := CarrierFor(parent, r.config);
      if f.Raised? {
        return null;
      }
      made.Extract(f.value, r.traceId);
      return made;
    }

    /** `new_span` under an open parent of this context, or under none. */
    method NewChild(parent: Span?, r: E.Request, ghost sid: E.SpanId) returns (s: Span)
      requires parent != null ==> parent.context == this && parent.depth != 0
      modifies this`lastSid
      ensures fresh(s) && s.id == sid && s.context == this
      ensures ContextView(this) == old(ContextView(this)).(lastSid := old(lastSid) + 1)
      ensures SpanView(s) == E.BareSpan(id, old(lastSid) + 1, if parent == null then -1 else parent.sid, r)
      ensures P.MadeFor(SpanView(s), id, old(lastSid) + 1, if parent == null then -1 else parent.sid, r)
    {
      var number := NextSid();
      s := new Span(sid, this, false, number, if parent != null then parent.sid else -1, r.op,
                    if r.kind.Exit? then Some(r.peer) else None, r.kind,
                    if r.kind.Exit? && r.component.Some? then r.component.value else E.UNKNOWN);
    }

    /** `new_span`. The result is null when the reference to a finished parent raises. */
    method NewSpan(parent: Span?, r: E.Request, ghost sid: E.SpanId, ghost cid: E.ContextId) returns (s: Span?)
      requires parent != null ==> parent.context == this
      modifies this`lastSid
      ensures s != null ==>
                && fresh(s) && s.id == sid
                && if parent != null && parent.depth == 0 then fresh(s.context) && fresh(s.context.segment)
                   else s.context == this
      ensures MadeSpan(s, this, old(ContextView(this)), Seen(parent), r, cid, false)
      ensures s != null ==>
                if parent == null || parent.depth != 0 then
                  P.MadeFor(SpanView(s), id, old(lastSid) + 1, if parent == null then -1 else parent.sid, r)
                else P.MadeFor(SpanView(s), cid, 0, -1, r)
    {
      if parent != null && parent.depth == 0 {
        s := SplitOff(parent, r, sid, cid);
      } else {
        s := NewChild(parent, r, sid);
      }
    }

    /** `ignore_check`, for the reasons given in the request. */
    method IgnoreCheck(r: E.Request, ghost sid: E.SpanId, ghost cid: E.ContextId) returns (s: Span?)
      ensures s != null <==> E.Suppresses(r)
      ensures s != null ==>
                && fresh(s) && s.id == sid && fresh(s.context) && fresh(s.context.segment)
                && SpanView(s) == E.NoopSpan(cid) && ContextView(s.context) == E.NoopContext()
    {
      if r.ignored || (r.kind.Entry? && r.carrier.Some? && r.carrier.value.Suppressed()) {
        var seg := new Segment(E.NOOP_SEGMENT_ID, E.TraceId([], false));
        var context := new SpanContext(cid, true, seg);
        return new Span(sid, context, true, -1, -1, [], None, E.Local, E.UNKNOWN);
      }
      return null;
    }

    /** `new_local_span` of a traced and of a suppressed context. */
    method NewLocalSpan(t: Task, r: E.Request, ghost sid: E.SpanId, ghost cid: E.ContextId) returns (s: Span?)
      requires r.kind.Local? && (Peek(t) != null ==> Peek(t).context == this)
      modifies this`lastSid
      ensures s != null ==> fresh(s) && s.id == sid
      ensures s != null ==> s.context == this || (fresh(s.context) && fresh(s.context.segment))
      ensures Outcome(s, this, old(ContextView(this)), Peek(t), old(Seen(Peek(t))), r, cid)
    {
      if noop {
        return new Span(sid, this, true, -1, -1, [], None, E.Local, E.UNKNOWN);
      }
      s := IgnoreCheck(r, sid, cid);
      if s == null {
        s := NewSpan(Peek(t), r, sid, cid);
      }
    }

    /** A new entry span, with what a valid carrier adds. */
    method MakeEntrySpan(parent: Span?, r: E.Request, ghost sid: E.SpanId, ghost cid: E.ContextId) returns (s: Span?)
      requires r.kind.Entry? && (parent != null ==> parent.context == this)
      modifies this`lastSid, segment`related
      ensures s != null ==> fresh(s) && s.id == sid && (s.context == this || (fresh(s.context) && fresh(s.context.segment)))
      ensures MadeSpan(s, this, old(ContextView(this)), old(Seen(parent)), r, cid, true)
    {
      s := NewSpan(parent, r, sid, cid);
      if s != null && r.carrier.Some? && IsValid(r.carrier.value.fields) {
        s.Extract(r.carrier.value.fields, r.traceId);
      }
    }

    /** `new_entry_span` of a traced and of a suppressed context. */
    method NewEntrySpan(t: Task, r: E.Request, ghost sid: E.SpanId, ghost cid: E.ContextId) returns (s: Span?)
      requires r.kind.Entry? && (Peek(t) != null ==> Peek(t).context == this)
      modifies this`lastSid, segment`related, Topmost(t)`op
      ensures s != null ==> if old(TakesOver(noop, Seen(Peek(t)), r)) then s == Peek(t) else fresh(s) && s.id == sid
      ensures s != null ==> s.context == this || (fresh(s.context) && fresh(s.context.segment))
      ensures !old(TakesOver(noop, Seen(Peek(t)), r)) ==> Seen(Peek(t)) == old(Seen(Peek(t)))
      ensures Outcome(s, this, old(ContextView(this)), old(Peek(t)), old(Seen(Peek(t))), r, cid)
    {
      if noop {
        return new Span(sid, this, true, -1, -1, [], None, E.Local, E.UNKNOWN);
      }
      s := IgnoreCheck(r, sid, cid);
      if s != null {
        return;
      }
      var parent := Peek(t);
      if parent != null && parent.kind.Entry? && r.inherit == Some(parent.component) {
        s := parent;
        s.op := r.op;
      } else {
        s := MakeEntrySpan(parent, r, sid, cid);
      }
    }

    /** A new exit span, with what it inherits. */
    method MakeExitSpan(parent: Span?, r: E.Request, ghost sid: E.SpanId, ghost cid: E.ContextId) returns (s: Span?)
      requires r.kind.Exit? && (parent != null ==> parent.context == this)
      modifies this`lastSid
      ensures s != null ==> fresh(s) && s.id == sid && (s.context == this || (fresh(s.context) && fresh(s.context.segment)))
      ensures MadeSpan(s, this, old(ContextView(this)), old(Seen(parent)), r, cid, true)
    {
      s := NewSpan(parent, r, sid, cid);
      if s != null && r.inherit.Some? {
        s.inherit := r.inherit.value;
      }
    }

    /** `new_exit_span` of a traced and of a suppressed context. */
    method NewExitSpan(t: Task, r: E.Request, ghost sid: E.SpanId, ghost cid: E.ContextId) returns (s: Span?)
      requires r.kind.Exit? && (Peek(t) != null ==> Peek(t).context == this)
      modifies this`lastSid, Topmost(t)`op, Topmost(t)`peer, Topmost(t)`component, Topmost(t)`inherit
      ensures s != null ==> if old(TakesOver(noop, Seen(Peek(t)), r)) then s == Peek(t) else fresh(s) && s.id == sid
      ensures s != null ==> s.context == this || (fresh(s.context) && fresh(s.context.segment))
      ensures !old(TakesOver(noop, Seen(Peek(t)), r)) ==> Seen(Peek(t)) == old(Seen(Peek(t)))
      ensures Outcome(s, this, old(ContextView(this)), old(Peek(t)), old(Seen(Peek(t))), r, cid)
    {
      if noop {
        return new Span(sid, this, true, -1, -1, [], None, E.Local, E.UNKNOWN);
      }
      s := IgnoreCheck(r, sid, cid);
      if s != null {
        return;
      }
      var parent := Peek(t);
      if parent != null && parent.kind.Exit? && r.component == Some(parent.inherit) {
        s := parent;
        s.op := r.op;
        s.peer := Some(r.peer);
        s.component := r.component.value;
        if r.inherit.Some? {
          s.inherit := r.inherit.value;
        }
      } else {
        s := MakeExitSpan(parent, r, sid, cid);
      }
    }

    /** `capture` of a traced and of a suppressed context; nothing without an active span. */
    method Capture(t: Task) returns (p: Option<E.Snapshot>)
      ensures noop ==> p == Some(E.Snapshot(None, -1, None, None))
      ensures !noop ==> (p == None <==> Peek(t) == null)
      ensures !noop && Peek(t) != null && segment.related != [] ==>
                p == Some(E.Snapshot(Some(segment.id), Peek(t).sid, Some(segment.related[0].value),
                                     Some(t.list.items[0].op)))
    {
      if noop {
        return Some(E.Snapshot(None, -1, None, None));
      }
      if |t.list.items| == 0 {
        return None;
      }
      return Some(E.Snapshot(Some(segment.id), Peek(t).sid,
                             if segment.related == [] then None else Some(segment.related[0].value),
                             Some(t.list.items[0].op)));
    }

    /** `continued` of a traced and of a suppressed context. */
    method Continued(t: Task, p: E.Snapshot, g: E.Config, fallback: Bytes)
      requires Peek(t) != null && Peek(t).context == this
      modifies Peek(t)`refs, segment`related
      ensures var go := !noop && E.SnapshotValid(p) && p.segmentId != Some(segment.id);
              && ContextView(this)
                 == (if go then E.RelatedContext(old(ContextView(this)), E.SnapshotId(p, fallback)) else old(ContextView(this)))
              && Peek(t).refs == old(Peek(t).refs) + (if go then [E.ThreadRef(p, g)] else [])
    {
      if noop || p.segmentId == Some(segment.id) || !E.SnapshotValid(p) {
        return;
      }
      var span := Peek(t);
      span.refs := span.refs + [E.ThreadRef(p, g)];
      segment.Relate(E.SnapshotId(p, fallback));
    }

    method Start(t: Task, s: Span)
      modifies this`nspans, this`primary, t
      ensures nspans == old(nspans) + 1
      ensures fresh(t.list)
      ensures t.list.items == if s in old(t.list.items) then old(t.list.items) else old(t.list.items) + [s]
      ensures primary == if s in old(t.list.items) then old(primary)
                         else if old(primary) == null then s
                         else if !old(primary).kind.Entry? && s.kind.Entry? then s
                         else old(primary)
    {
      nspans := nspans + 1;
      t.Dup();
      if s !in t.list.items {
        t.list.items := t.list.items + [s];
        if primary == null {
          primary := s;
        } else if !primary.kind.Entry? && s.kind.Entry? {
          primary := s;
        }
      }
    }

    /** `stop` of a traced and of a suppressed context. */
    method Stop(t: Task, s: Span, agent: Agent) returns (last: bool)
      modifies this`nspans, segment`spans, t, agent
      ensures nspans == old(nspans) - 1 && last == (nspans == 0)
      ensures segment.spans == if noop then old(segment.spans) else old(segment.spans) + [s]
      ensures fresh(t.list) && t.list.items == RemoveFirst(old(t.list.items), s)
      ensures agent.archived == if last && !noop then old(agent.archived) + [(this, segment.spans)] else old(agent.archived)
    {
      t.Dup();
      if !noop {
        segment.Archive(s);
      }
      t.list.items := RemoveFirst(t.list.items, s);
      nspans := nspans - 1;
      last := nspans == 0;
      if last && !noop {
        agent.ArchiveSegment(this);
      }
    }
  }

  class Span {
    ghost const id: E.SpanId
    const context: SpanContext
    const noop: bool
    const sid: int
    const pid: int
    const kind: E.Kind
    var op: Bytes
    var peer: Option<Bytes>
    var component: E.Component
    var inherit: E.Component
    var depth: int
    var refs: seq<E.SegmentRef>

    constructor (ghost id: E.SpanId, context: SpanContext, noop: bool, sid: int, pid: int, op: Bytes,
                 peer: Option<Bytes>, kind: E.Kind, component: E.Component)
      ensures this.id == id && this.context == context
      ensures SpanView(this) == E.Span(context.id, noop, sid, pid, op, peer, kind, component, E.UNKNOWN, 0, [])
    {
      this.id := id;
      this.context := context;
      this.noop := noop;
      this.sid := sid;
      this.pid := pid;
      this.kind := kind;
      this.op := op;
      this.peer := peer;
      this.component := component;
      this.inherit := E.UNKNOWN;
      this.depth := 0;
      this.refs := [];
    }

    /** `start`, and its overriding in entry spans. The list the task had, which other tasks may
        share, stays as it is. */
    method Start(t: Task)
      requires Identifies(this, t)
      modifies this`depth, this`component, context`nspans, context`primary, t
      ensures SpanView(this) == E.StartedSpan(old(SpanView(this)))
      ensures depth != 1 ==> ContextView(context) == old(ContextView(context)) && t.list == old(t.list)
      ensures depth == 1 ==>
                && ContextView(context)
                   == E.StartedContext(old(ContextView(context)), id, kind.Entry?,
                                       old(context.primary != null && context.primary.kind.Entry?),
                                       id !in old(Ids(t.list.items)))
                && Ids(t.list.items) == E.Pushed(old(Ids(t.list.items)), id)
                && fresh(t.list)
      ensures t.list.items == if depth == 1 && this !in old(t.list.items) then old(t.list.items) + [this]
                              else old(t.list.items)
      ensures context.primary == old(context.primary) || context.primary == this
      ensures old(t.list).items == old(t.list.items)
    {
      MembersById(this, t.list.items);
      depth := depth + 1;
      if depth == 1 {
        context.Start(t, this);
      }
      if kind.Entry? {
        component := E.UNKNOWN;
      }
    }

    method Stop(t: Task, agent: Agent) returns (last: bool)
      requires Identifies(this, t)
      modifies this`depth, context`nspans, context.segment`spans, t, agent
      ensures SpanView(this) == old(SpanView(this)).(depth := old(depth) - 1)
      ensures depth != 0 ==> ContextView(context) == old(ContextView(context)) && t.list == old(t.list)
                             && agent.archived == old(agent.archived)
      ensures depth == 0 ==>
                && ContextView(context) == E.StoppedContext(old(ContextView(context)), id)
                && Ids(t.list.items) == E.Remove(old(Ids(t.list.items)), id)
                && Handed(agent.archived) == E.HandOver(Handed(old(agent.archived)), context.id, ContextView(context))
                && fresh(t.list)
      ensures t.list.items == if depth == 0 then RemoveFirst(old(t.list.items), this) else old(t.list.items)
      ensures old(t.list).items == old(t.list.items)
      ensures last <==> depth == 0 && context.nspans == 0
    {
      RemoveFirstIds(t.list.items, this);
      depth := depth - 1;
      if depth != 0 {
        return false;
      }
      last := context.Stop(t, this, agent);
      assert Ids(old(context.segment.spans) + [this]) == Ids(old(context.segment.spans)) + [id];
    }

    /** `Span.extract` of a traced span. */
    method Extract(f: Fields, fallback: Bytes)
      modifies this`refs, context.segment`related
      ensures ContextView(context) == E.RelatedContext(old(ContextView(context)), E.CarriedId(f, fallback))
      ensures SpanView(this) == E.ExtractedSpan(old(SpanView(this)), f)
    {
      context.segment.Relate(E.TraceId(if f.traceId == [] then fallback else f.traceId, false));
      if IsValid(f) {
        var ref := E.RefTo(f);
        if ref !in refs {
          refs := refs + [ref];
        }
      }
    }
  }

  /** `get_context`. */
  method GetContext(t: Task, sampledOut: bool, r: E.Request, ghost cid: E.ContextId) returns (c: SpanContext)
    ensures Peek(t) != null ==> c == Peek(t).context
    ensures Peek(t) == null ==>
              fresh(c) && fresh(c.segment) && c.id == cid
              && ContextView(c) == (if sampledOut then E.NoopContext() else E.NewContext(r))
  {
    if Peek(t) != null {
      return Peek(t).context;
    }
    if sampledOut {
      var none := new Segment(E.NOOP_SEGMENT_ID, E.TraceId([], false));
      return new SpanContext(cid, true, none);
    }
    var seg := new Segment(r.segmentId, E.TraceId(r.traceId, true));
    return new SpanContext(cid, false, seg);
  }

  /** The outcome of a call on the context that `get_context` returns is the engine's step on values:
      the same span and the same context, or both raise. */
  lemma OutcomeIsCreate(w: E.World, t: E.TaskId, r: E.Request, sid: E.SpanId, cid: E.ContextId,
                        s: Span?, c: SpanContext, top: Span?)
    requires E.TaskKnown(w, t) && cid !in w.contexts && sid !in w.spans
    requires var x := E.Top(w, t);
             && (x.Some? <==> top != null)
             && (x.Some? ==> c.id == w.spans[x.value].context && x.value == top.id && w.contexts[c.id].noop == c.noop)
             && (x.None? ==> c.id == cid && c.noop == r.sampledOut)
             && (top != null ==> top.context == c)
             && (s != null && !TakesOver(c.noop, if x.Some? then Some(w.spans[x.value]) else None, r) ==> s.id == sid)
    requires var x := E.Top(w, t);
             Outcome(s, c, if x.Some? then w.contexts[c.id] else if c.noop then E.NoopContext() else E.NewContext(r),
                     top, if x.Some? then Some(w.spans[x.value]) else None, r, cid)
    ensures var made := E.Create(w, t, r, sid, cid);
            && (s == null <==> made.Failed?)
            && (s != null ==>
                  && made.world.spans[made.span] == SpanView(s)
                  && made.span == s.id
                  && made.world.contexts[s.context.id] == ContextView(s.context))
  {
    var x := E.Top(w, t);
    if !c.noop && !E.Suppresses(r) && !(x.Some? && E.Reuses(w.spans[x.value], r)) {
      if x.Some? && w.spans[x.value].depth == 0 {
        R.NewSplit(w, x.value, r, sid, cid);
      } else {
        R.NewUnder(w, x, r, sid, cid);
      }
    }
  }

  lemma MembersById(s: Span, items: seq<Span>)
    requires forall x :: x in items && x.id == s.id ==> x == s
    ensures s in items <==> s.id in Ids(items)
    ensures Ids(items + [s]) == Ids(items) + [s.id]
  {
    if s in items {
      var i :| 0 <= i < |items| && items[i] == s;
      assert Ids(items)[i] == s.id;
    }
    if s.id in Ids(items) {
      var i :| 0 <= i < |items| && Ids(items)[i] == s.id;
      assert items[i] in items;
    }
  }

  lemma {:induction false} RemoveFirstIn(xs: seq<Span>, x: Span)
    ensures forall y :: y in RemoveFirst(xs, x) ==> y in xs
  {
    if xs != [] {
      RemoveFirstIn(xs[1..], x);
    }
  }

  lemma {:induction false} RemoveFirstIds(xs: seq<Span>, x: Span)
    requires forall y :: y in xs && y.id == x.id ==> y == x
    ensures Ids(RemoveFirst(xs, x)) == E.Remove(Ids(xs), x.id)
  {
    if xs != [] {
      assert xs[0] in xs;
      assert forall y :: y in xs[1..] ==> y in xs;
      RemoveFirstIds(xs[1..], x);
      assert Ids(xs)[1..] == Ids(xs[1..]);
    }
  }
}
