/** What every interleaving of the trace engine's steps keeps. */
module TraceInvariant {
  import opened Text
  import opened Base64
  import opened Carrier
  import opened TraceEngine

  ghost predicate NoDup<X>(xs: seq<X>) {
    forall i, j :: 0 <= i < j < |xs| ==> xs[i] != xs[j]
  }

  /** The open spans of a context. */
  ghost function Live(w: World, c: ContextId): set<SpanId> {
    set s | s in w.spans && w.spans[s].context == c && w.spans[s].depth > 0
  }

  ghost predicate Belongs(w: World, s: SpanId, c: ContextId) {
    s in w.spans && w.spans[s].context == c
  }

  ghost predicate HasSid(w: World, c: ContextId, k: int) {
    exists s :: Belongs(w, s, c) && w.spans[s].sid == k
  }

  /** `pending` are spans made and not yet started. */
  ghost predicate SpanOk(w: World, s: SpanId, pending: set<SpanId>)
    requires s in w.spans
  {
    var sp := w.spans[s];
    && sp.context in w.contexts
    && var c := w.contexts[sp.context];
    && sp.noop == c.noop
    && sp.depth >= 0
    && (s in pending ==> sp.depth == 0)
    && (sp.noop ==> sp.sid == -1 && sp.pid == -1 && sp.kind.Local?)
    && (!sp.noop ==> 0 <= sp.sid <= c.lastSid && -1 <= sp.pid < sp.sid && (sp.pid == -1 <==> sp.sid == 0))
  }

  /** A segment holds each finished span of its context once and nothing else. */
  ghost predicate SegmentOk(w: World, c: ContextId, pending: set<SpanId>)
    requires c in w.contexts
  {
    var held := w.contexts[c].segment.spans;
    && NoDup(held)
    && (forall s :: s in held ==> Belongs(w, s, c) && w.spans[s].depth == 0 && s !in pending)
    && (forall s :: Belongs(w, s, c) && w.spans[s].depth == 0 && s !in pending ==> s in held)
  }

  /** Span ids of a context are distinct and leave no gap. */
  ghost predicate SidsOk(w: World, c: ContextId)
    requires c in w.contexts
  {
    && w.contexts[c].lastSid >= 0
    && (forall k :: 0 <= k <= w.contexts[c].lastSid ==> HasSid(w, c, k))
    && (forall s, r :: Belongs(w, s, c) && Belongs(w, r, c) && w.spans[s].sid == w.spans[r].sid ==> s == r)
  }

  /** The primary endpoint is the first entry span, or the first span when there is none. */
  ghost predicate PrimaryOk(w: World, c: ContextId, pending: set<SpanId>)
    requires c in w.contexts
  {
    match w.contexts[c].primary
    case None => forall s :: Belongs(w, s, c) ==> s in pending
    case Some(p) =>
      && Belongs(w, p, c) && p !in pending
      && (if w.spans[p].kind.Entry? then
            forall s :: Belongs(w, s, c) && s !in pending && w.spans[s].kind.Entry? ==> w.spans[p].sid <= w.spans[s].sid
          else
            w.spans[p].sid == 0 && forall s :: Belongs(w, s, c) && s !in pending ==> !w.spans[s].kind.Entry?)
  }

  ghost predicate ContextOk(w: World, c: ContextId, pending: set<SpanId>)
    requires c in w.contexts
  {
    var x := w.contexts[c];
    && x.nspans == |Live(w, c)|
    && x.segment.related != []
    && (x.segment.related[0].generated ==> |x.segment.related| == 1)
    && (x.noop ==> x.segment.spans == [])
    && (!x.noop ==> SegmentOk(w, c, pending) && SidsOk(w, c) && PrimaryOk(w, c, pending))
  }

  ghost predicate StackOk(w: World, t: TaskId, pending: set<SpanId>)
    requires t in w.stacks
  {
    var stack := w.stacks[t];
    && NoDup(stack)
    && (forall i :: 0 <= i < |stack| ==> stack[i] in w.spans && stack[i] !in pending)
    && (forall i, j :: 0 <= i < j < |stack| && w.spans[stack[i]].noop ==> w.spans[stack[j]].noop)
  }

  ghost predicate Awaits(w: World, c: ContextId, pending: set<SpanId>) {
    exists s :: s in pending && Belongs(w, s, c)
  }

  ghost predicate IsArchived(w: World, c: ContextId) {
    exists i :: 0 <= i < |w.archived| && w.archived[i].context == c
  }

  /** The archive has one entry for each finished context, holding its whole segment. */
  ghost predicate ArchiveOk(w: World, pending: set<SpanId>) {
    && (forall i :: 0 <= i < |w.archived| ==>
          var a := w.archived[i];
          && a.context in w.contexts && !w.contexts[a.context].noop
          && w.contexts[a.context].nspans == 0 && !Awaits(w, a.context, pending)
          && a.spans == w.contexts[a.context].segment.spans)
    && (forall i, j :: 0 <= i < j < |w.archived| ==> w.archived[i].context != w.archived[j].context)
    && (forall c :: c in w.contexts && !w.contexts[c].noop && w.contexts[c].nspans == 0 && !Awaits(w, c, pending)
          ==> IsArchived(w, c))
  }

  ghost predicate SpansOk(w: World, pending: set<SpanId>) {
    && pending <= w.spans.Keys
    && forall s :: s in w.spans ==> SpanOk(w, s, pending)
  }

  ghost predicate ContextsOk(w: World, pending: set<SpanId>) {
    forall c :: c in w.contexts ==> ContextOk(w, c, pending)
  }

  ghost predicate StacksOk(w: World, pending: set<SpanId>) {
    forall t :: t in w.stacks ==> StackOk(w, t, pending)
  }

  ghost predicate Inv(w: World, pending: set<SpanId>) {
    SpansOk(w, pending) && ContextsOk(w, pending) && StacksOk(w, pending) && ArchiveOk(w, pending)
  }

  // ----- changes that the invariant does not look at -----

  ghost predicate SameSpan(a: Span, b: Span) {
    && a.context == b.context && a.noop == b.noop && a.sid == b.sid && a.pid == b.pid && a.kind == b.kind
    && (a.depth == b.depth || (a.depth > 0 && b.depth > 0))
  }

  ghost predicate SameContext(a: Context, b: Context) {
    && a.noop == b.noop && a.lastSid == b.lastSid && a.nspans == b.nspans && a.primary == b.primary
    && a.segment.spans == b.segment.spans
    && b.segment.related != [] && (b.segment.related[0].generated ==> |b.segment.related| == 1)
  }

  /** Only operation names, peers, components, references, trace ids and positive depths may differ. */
  ghost predicate SameShape(w: World, v: World) {
    && w.spans.Keys == v.spans.Keys && w.contexts.Keys == v.contexts.Keys
    && w.stacks == v.stacks && w.archived == v.archived
    && (forall s :: s in w.spans ==> SameSpan(w.spans[s], v.spans[s]))
    && (forall c :: c in w.contexts ==> SameContext(w.contexts[c], v.contexts[c]))
  }

  lemma ShapeKeepsContext(w: World, v: World, c: ContextId, pending: set<SpanId>)
    requires SameShape(w, v) && c in w.contexts && ContextOk(w, c, pending)
    ensures ContextOk(v, c, pending)
  {
    assert Live(v, c) == Live(w, c);
    forall s
      ensures Belongs(v, s, c) <==> Belongs(w, s, c)
    {
    }
    if !w.contexts[c].noop {
      forall k | 0 <= k <= v.contexts[c].lastSid
        ensures HasSid(v, c, k)
      {
        assert HasSid(w, c, k);
        var s :| Belongs(w, s, c) && w.spans[s].sid == k;
        assert Belongs(v, s, c) && v.spans[s].sid == k;
      }
      assert SegmentOk(v, c, pending);
      assert PrimaryOk(v, c, pending);
    }
  }

  lemma ShapeKeepsArchive(w: World, v: World, pending: set<SpanId>)
    requires SameShape(w, v) && ArchiveOk(w, pending)
    ensures ArchiveOk(v, pending)
  {
    forall c
      ensures Awaits(v, c, pending) <==> Awaits(w, c, pending)
      ensures IsArchived(v, c) <==> IsArchived(w, c)
    {
      assert forall s :: Belongs(v, s, c) <==> Belongs(w, s, c);
    }
  }

  lemma ShapeKeepsSpansOk(w: World, v: World, pending: set<SpanId>)
    requires SameShape(w, v) && SpansOk(w, pending)
    ensures SpansOk(v, pending)
  {
    forall s | s in v.spans
      ensures SpanOk(v, s, pending)
    {
      assert SpanOk(w, s, pending) && SameSpan(w.spans[s], v.spans[s]);
      assert SameContext(w.contexts[w.spans[s].context], v.contexts[v.spans[s].context]);
    }
  }

  lemma ShapeKeepsStacks(w: World, v: World, pending: set<SpanId>)
    requires SameShape(w, v) && StacksOk(w, pending)
    ensures StacksOk(v, pending)
  {
    forall t | t in v.stacks
      ensures StackOk(v, t, pending)
    {
      assert StackOk(w, t, pending);
      assert forall i :: 0 <= i < |v.stacks[t]| ==> SameSpan(w.spans[v.stacks[t][i]], v.spans[v.stacks[t][i]]);
    }
  }

  lemma ShapeKeepsInv(w: World, v: World, pending: set<SpanId>)
    requires SameShape(w, v) && Inv(w, pending)
    ensures Inv(v, pending)
  {
    ShapeKeepsSpansOk(w, v, pending);
    ShapeKeepsStacks(w, v, pending);
    ShapeKeepsArchive(w, v, pending);
    forall c | c in v.contexts
      ensures ContextOk(v, c, pending)
    {
      ShapeKeepsContext(w, v, c, pending);
    }
  }

  /** Every context has a trace id, and only that one while it is made up. */
  ghost predicate Related(w: World) {
    forall c :: c in w.contexts ==>
      var related := w.contexts[c].segment.related;
      related != [] && (related[0].generated ==> |related| == 1)
  }

  lemma InvRelated(w: World, pending: set<SpanId>)
    requires Inv(w, pending)
    ensures Related(w)
  {
    forall c | c in w.contexts
      ensures w.contexts[c].segment.related != []
      ensures w.contexts[c].segment.related[0].generated ==> |w.contexts[c].segment.related| == 1
    {
      assert ContextOk(w, c, pending);
    }
  }

  lemma ExtractKeepsShape(w: World, s: SpanId, f: Fields, fallback: Bytes)
    requires SpanKnown(w, s) && Related(w)
    ensures SameShape(w, Extract(w, s, f, fallback))
  {
  }

  lemma ContinueKeepsShape(w: World, t: TaskId, p: Snapshot, g: Config, fallback: Bytes)
    requires TaskKnown(w, t) && w.stacks[t] != [] && Related(w)
    ensures SameShape(w, Continue(w, t, p, g, fallback))
  {
  }

  // ----- making a span -----

  /** A bare span has been added to a context that is new or still open. */
  ghost predicate Adds(w: World, v: World, s: SpanId) {
    && s !in w.spans && v.spans.Keys == w.spans.Keys + {s}
    && v.stacks == w.stacks && v.archived == w.archived
    && (forall r :: r in w.spans ==> v.spans[r] == w.spans[r])
    && var sp := v.spans[s];
    && sp.depth == 0
    && v.contexts.Keys == w.contexts.Keys + {sp.context}
    && (forall c :: c in w.contexts && c != sp.context ==> v.contexts[c] == w.contexts[c])
    && var now := v.contexts[sp.context];
    && sp.noop == now.noop
    && (sp.noop ==> sp.sid == -1 && sp.pid == -1 && sp.kind.Local?)
    && (!sp.noop ==> sp.sid == now.lastSid && -1 <= sp.pid < sp.sid && (sp.pid == -1 <==> sp.sid == 0))
    && (if sp.context in w.contexts then
          var was := w.contexts[sp.context];
          && now == was.(lastSid := now.lastSid)
          && (if sp.noop then now.lastSid == was.lastSid else now.lastSid == was.lastSid + 1 && was.nspans > 0)
        else
          && now.nspans == 0 && now.primary == None && now.segment.spans == []
          && now.segment.related != [] && (now.segment.related[0].generated ==> |now.segment.related| == 1)
          && (!sp.noop ==> now.lastSid == 0))
  }

  /** No span belongs to a context that does not exist. */
  ghost predicate Homed(w: World) {
    forall s :: s in w.spans ==> w.spans[s].context in w.contexts
  }

  ghost predicate SidsBounded(w: World, c: ContextId)
    requires c in w.contexts
  {
    forall s :: Belongs(w, s, c) && !w.spans[s].noop ==> w.spans[s].sid <= w.contexts[c].lastSid
  }

  ghost predicate AllReal(w: World, c: ContextId) {
    forall s :: Belongs(w, s, c) ==> !w.spans[s].noop
  }

  lemma AddKeepsOther(w: World, v: World, s: SpanId, c: ContextId)
    requires Adds(w, v, s) && c in w.contexts && c != v.spans[s].context && ContextOk(w, c, {})
    ensures ContextOk(v, c, {s})
  {
    assert Live(v, c) == Live(w, c);
    assert forall r :: Belongs(v, r, c) <==> Belongs(w, r, c);
    if !w.contexts[c].noop {
      forall k | 0 <= k <= v.contexts[c].lastSid
        ensures HasSid(v, c, k)
      {
        assert HasSid(w, c, k);
        var r :| Belongs(w, r, c) && w.spans[r].sid == k;
        assert Belongs(v, r, c) && v.spans[r].sid == k;
      }
      assert SegmentOk(v, c, {s}) && PrimaryOk(v, c, {s});
    }
  }

  lemma AddKeepsSids(w: World, v: World, s: SpanId)
    requires Adds(w, v, s) && Homed(w)
    requires var c := v.spans[s].context;
             !v.contexts[c].noop && (c in w.contexts ==> SidsOk(w, c) && SidsBounded(w, c) && AllReal(w, c))
    ensures SidsOk(v, v.spans[s].context)
  {
    var c := v.spans[s].context;
    assert forall r :: Belongs(v, r, c) <==> Belongs(w, r, c) || r == s;
    forall k | 0 <= k <= v.contexts[c].lastSid
      ensures HasSid(v, c, k)
    {
      if k == v.contexts[c].lastSid {
        assert Belongs(v, s, c) && v.spans[s].sid == k;
      } else {
        assert HasSid(w, c, k);
        var r :| Belongs(w, r, c) && w.spans[r].sid == k;
        assert Belongs(v, r, c) && v.spans[r].sid == k;
      }
    }
  }

  lemma AddKeepsHome(w: World, v: World, s: SpanId)
    requires Adds(w, v, s) && Homed(w)
    requires var c := v.spans[s].context;
             c in w.contexts ==> ContextOk(w, c, {}) && SidsBounded(w, c) && (!w.contexts[c].noop ==> AllReal(w, c))
    ensures ContextOk(v, v.spans[s].context, {s})
  {
    var c := v.spans[s].context;
    assert forall r :: Belongs(v, r, c) <==> Belongs(w, r, c) || r == s;
    assert Live(v, c) == Live(w, c);
    if c !in w.contexts {
      assert Live(w, c) == {};
    }
    if !v.contexts[c].noop {
      AddKeepsSids(w, v, s);
      assert SegmentOk(v, c, {s});
      assert PrimaryOk(v, c, {s});
    }
  }

  lemma InvHomed(w: World, pending: set<SpanId>)
    requires SpansOk(w, pending)
    ensures Homed(w)
    ensures forall c :: c in w.contexts ==> SidsBounded(w, c)
    ensures forall c :: c in w.contexts && !w.contexts[c].noop ==> AllReal(w, c)
  {
    forall s | s in w.spans
      ensures w.spans[s].context in w.contexts
      ensures w.spans[s].noop == w.contexts[w.spans[s].context].noop
      ensures !w.spans[s].noop ==> w.spans[s].sid <= w.contexts[w.spans[s].context].lastSid
    {
      assert SpanOk(w, s, pending);
    }
  }

  lemma AddKeepsSpans(w: World, v: World, s: SpanId)
    requires Adds(w, v, s) && SpansOk(w, {})
    ensures SpansOk(v, {s})
  {
    forall r | r in v.spans
      ensures SpanOk(v, r, {s})
    {
      if r != s {
        assert SpanOk(w, r, {});
      }
    }
  }

  lemma AddKeepsContexts(w: World, v: World, s: SpanId)
    requires Adds(w, v, s) && SpansOk(w, {}) && ContextsOk(w, {})
    ensures ContextsOk(v, {s})
  {
    InvHomed(w, {});
    AddKeepsHome(w, v, s);
    forall c | c in v.contexts && c != v.spans[s].context
      ensures ContextOk(v, c, {s})
    {
      AddKeepsOther(w, v, s, c);
    }
  }

  lemma AddKeepsStacks(w: World, v: World, s: SpanId)
    requires Adds(w, v, s) && StacksOk(w, {})
    ensures StacksOk(v, {s})
  {
    forall t | t in v.stacks
      ensures StackOk(v, t, {s})
    {
      assert StackOk(w, t, {});
    }
  }

  lemma AddKeepsInv(w: World, v: World, s: SpanId)
    requires Inv(w, {}) && Adds(w, v, s)
    ensures Inv(v, {s})
  {
    AddKeepsSpans(w, v, s);
    AddKeepsContexts(w, v, s);
    AddKeepsStacks(w, v, s);
    AddKeepsArchive(w, v, s);
  }

  lemma AddKeepsArchive(w: World, v: World, s: SpanId)
    requires Adds(w, v, s) && ArchiveOk(w, {})
    ensures ArchiveOk(v, {s})
  {
    var home := v.spans[s].context;
    assert Belongs(v, s, home);
    forall c
      ensures Awaits(v, c, {s}) <==> c == home
      ensures !Awaits(w, c, {})
      ensures IsArchived(v, c) <==> IsArchived(w, c)
    {
    }
    if !v.contexts[home].noop && home in w.contexts {
      assert w.contexts[home].nspans > 0;
    }
  }

  // ----- starting a new span -----

  lemma StartKeepsOther(w: World, t: TaskId, s: SpanId, c: ContextId)
    requires t in w.stacks && SpanKnown(w, s) && w.spans[s].depth == 0
    requires c in w.contexts && c != w.spans[s].context && ContextOk(w, c, {s})
    ensures ContextOk(Start(w, t, s), c, {})
  {
    var v := Start(w, t, s);
    assert Live(v, c) == Live(w, c);
    assert forall r :: Belongs(v, r, c) <==> Belongs(w, r, c) && r != s;
    if !w.contexts[c].noop {
      SameSids(w, v, c);
      assert SegmentOk(v, c, {});
      assert PrimaryOk(v, c, {});
    }
  }

  /** Depths do not matter for span ids. */
  lemma SameSids(w: World, v: World, c: ContextId)
    requires c in w.contexts && c in v.contexts && v.contexts[c].lastSid == w.contexts[c].lastSid && SidsOk(w, c)
    requires forall s :: Belongs(v, s, c) <==> Belongs(w, s, c)
    requires forall s :: Belongs(w, s, c) && s in v.spans ==> v.spans[s].sid == w.spans[s].sid
    ensures SidsOk(v, c)
  {
    forall k | 0 <= k <= v.contexts[c].lastSid
      ensures HasSid(v, c, k)
    {
      assert HasSid(w, c, k);
      var r :| Belongs(w, r, c) && w.spans[r].sid == k;
      assert Belongs(v, r, c) && v.spans[r].sid == k;
    }
  }

  lemma StartKeepsPrimary(w: World, t: TaskId, s: SpanId)
    requires t in w.stacks && SpanKnown(w, s) && w.spans[s].depth == 0 && s !in w.stacks[t] && !w.spans[s].noop
    requires var c := w.spans[s].context;
             && PrimaryOk(w, c, {s}) && SidsOk(w, c)
             && (forall r :: Belongs(w, r, c) ==> 0 <= w.spans[r].sid <= w.spans[s].sid)
    ensures PrimaryOk(Start(w, t, s), w.spans[s].context, {})
  {
    var c := w.spans[s].context;
    var v := Start(w, t, s);
    assert Belongs(w, s, c);
    assert forall r :: Belongs(v, r, c) <==> Belongs(w, r, c);
    if w.contexts[c].primary.None? {
      assert HasSid(w, c, 0);
      var r :| Belongs(w, r, c) && w.spans[r].sid == 0;
      assert r == s;
    }
  }

  lemma StartKeepsHome(w: World, t: TaskId, s: SpanId)
    requires t in w.stacks && SpanKnown(w, s) && w.spans[s].depth == 0 && s !in w.stacks[t]
    requires var c := w.spans[s].context;
             && ContextOk(w, c, {s}) && w.spans[s].noop == w.contexts[c].noop
             && (!w.contexts[c].noop ==> forall r :: Belongs(w, r, c) ==> 0 <= w.spans[r].sid <= w.spans[s].sid)
    ensures ContextOk(Start(w, t, s), w.spans[s].context, {})
  {
    var c := w.spans[s].context;
    var v := Start(w, t, s);
    assert Live(v, c) == Live(w, c) + {s};
    assert forall r :: Belongs(v, r, c) <==> Belongs(w, r, c);
    if !w.contexts[c].noop {
      SameSids(w, v, c);
      assert Belongs(w, s, c);
      assert SegmentOk(v, c, {});
      StartKeepsPrimary(w, t, s);
    }
  }

  lemma StartKeepsArchive(w: World, t: TaskId, s: SpanId)
    requires t in w.stacks && SpanKnown(w, s) && w.spans[s].depth == 0 && ArchiveOk(w, {s})
    requires w.contexts[w.spans[s].context].nspans >= 0
    ensures ArchiveOk(Start(w, t, s), {})
  {
    var v := Start(w, t, s);
    assert Belongs(w, s, w.spans[s].context);
    forall c
      ensures Awaits(w, c, {s}) <==> c == w.spans[s].context
      ensures !Awaits(v, c, {})
      ensures IsArchived(v, c) <==> IsArchived(w, c)
    {
    }
  }

  lemma StartKeepsStack(w: World, t: TaskId, s: SpanId)
    requires t in w.stacks && SpanKnown(w, s) && w.spans[s].depth == 0 && StacksOk(w, {s})
    requires w.stacks[t] != [] && w.spans[w.stacks[t][|w.stacks[t]| - 1]].noop ==> w.spans[s].noop
    ensures StacksOk(Start(w, t, s), {})
  {
    var v := Start(w, t, s);
    assert StackOk(w, t, {s});
    forall u | u in v.stacks
      ensures StackOk(v, u, {})
    {
      assert StackOk(w, u, {s});
      if u == t {
        var stack := w.stacks[t];
        assert v.stacks[t] == stack + [s];
      }
    }
  }

  lemma StartKeepsSpans(w: World, t: TaskId, s: SpanId)
    requires t in w.stacks && SpanKnown(w, s) && w.spans[s].depth == 0 && SpansOk(w, {s})
    ensures SpansOk(Start(w, t, s), {})
  {
    var v := Start(w, t, s);
    forall r | r in v.spans
      ensures SpanOk(v, r, {})
    {
      assert SpanOk(w, r, {s});
    }
  }

  /** The newest span of a context has the largest id. */
  ghost predicate Newest(w: World, s: SpanId) {
    SpanKnown(w, s) && (!w.spans[s].noop ==> w.spans[s].sid == w.contexts[w.spans[s].context].lastSid)
  }

  lemma StartKeepsInv(w: World, t: TaskId, s: SpanId)
    requires Inv(w, {s}) && t in w.stacks && Newest(w, s)
    requires w.stacks[t] != [] ==> var top := w.stacks[t][|w.stacks[t]| - 1];
               top in w.spans && (w.spans[top].noop ==> w.spans[s].noop)
    ensures Inv(Start(w, t, s), {})
  {
    var home := w.spans[s].context;
    assert SpanOk(w, s, {s}) && StackOk(w, t, {s}) && ContextOk(w, home, {s});
    StartKeepsSpans(w, t, s);
    StartKeepsStack(w, t, s);
    StartKeepsArchive(w, t, s);
    forall r | Belongs(w, r, home)
      ensures !w.contexts[home].noop ==> 0 <= w.spans[r].sid <= w.spans[s].sid
    {
      assert SpanOk(w, r, {s});
    }
    StartKeepsHome(w, t, s);
    forall c | c in w.contexts && c != home
      ensures ContextOk(Start(w, t, s), c, {})
    {
      StartKeepsOther(w, t, s, c);
    }
  }

  // ----- stopping the last time -----

  lemma {:induction false} RemoveDropsOne(xs: seq<SpanId>, x: SpanId)
    requires NoDup(xs)
    ensures forall y :: y in Remove(xs, x) <==> y in xs && y != x
    ensures NoDup(Remove(xs, x))
    ensures x !in xs ==> Remove(xs, x) == xs
  {
    if xs != [] {
      RemoveDropsOne(xs[1..], x);
      assert xs == [xs[0]] + xs[1..];
      assert xs[0] !in xs[1..];
    }
  }

  /** What is left keeps its order. */
  lemma {:induction false} RemoveKeepsOrder(w: World, xs: seq<SpanId>, x: SpanId)
    requires forall i :: 0 <= i < |xs| ==> xs[i] in w.spans
    requires forall i, j :: 0 <= i < j < |xs| && w.spans[xs[i]].noop ==> w.spans[xs[j]].noop
    ensures forall i :: 0 <= i < |Remove(xs, x)| ==> Remove(xs, x)[i] in xs
    ensures forall i, j :: 0 <= i < j < |Remove(xs, x)| && w.spans[Remove(xs, x)[i]].noop
              ==> w.spans[Remove(xs, x)[j]].noop
  {
    if xs != [] {
      RemoveKeepsOrder(w, xs[1..], x);
      assert xs == [xs[0]] + xs[1..];
      if xs[0] != x {
        var rest := Remove(xs[1..], x);
        assert Remove(xs, x) == [xs[0]] + rest;
        forall j | 0 <= j < |rest|
          ensures w.spans[xs[0]].noop ==> w.spans[rest[j]].noop
        {
          assert rest[j] in xs[1..];
          var k :| 0 <= k < |xs[1..]| && xs[1..][k] == rest[j];
          assert xs[k + 1] == rest[j];
        }
      }
    }
  }

  lemma StopKeepsOther(w: World, t: TaskId, s: SpanId, c: ContextId)
    requires t in w.stacks && SpanKnown(w, s) && w.spans[s].depth == 1
    requires c in w.contexts && c != w.spans[s].context && ContextOk(w, c, {})
    ensures ContextOk(Stop(w, t, s), c, {})
  {
    var v := Stop(w, t, s);
    assert Live(v, c) == Live(w, c);
    assert forall r :: Belongs(v, r, c) <==> Belongs(w, r, c) && r != s;
    if !w.contexts[c].noop {
      SameSids(w, v, c);
      assert SegmentOk(v, c, {});
      assert PrimaryOk(v, c, {});
    }
  }

  lemma StopKeepsHome(w: World, t: TaskId, s: SpanId)
    requires t in w.stacks && SpanKnown(w, s) && w.spans[s].depth == 1 && ContextOk(w, w.spans[s].context, {})
    ensures ContextOk(Stop(w, t, s), w.spans[s].context, {})
  {
    var c := w.spans[s].context;
    var v := Stop(w, t, s);
    assert s in Live(w, c);
    assert Live(v, c) == Live(w, c) - {s};
    assert forall r :: Belongs(v, r, c) <==> Belongs(w, r, c);
    if !w.contexts[c].noop {
      SameSids(w, v, c);
      assert v.contexts[c].segment.spans == w.contexts[c].segment.spans + [s];
      assert SegmentOk(v, c, {});
      assert PrimaryOk(v, c, {});
    }
  }

  lemma StopKeepsArchive(w: World, t: TaskId, s: SpanId)
    requires t in w.stacks && SpanKnown(w, s) && w.spans[s].depth == 1 && ArchiveOk(w, {})
    requires w.contexts[w.spans[s].context].nspans > 0
    ensures ArchiveOk(Stop(w, t, s), {})
  {
    var v := Stop(w, t, s);
    var home := w.spans[s].context;
    assert w.archived <= v.archived;
    forall c
      ensures !Awaits(w, c, {}) && !Awaits(v, c, {})
      ensures IsArchived(w, c) ==> IsArchived(v, c)
    {
      if IsArchived(w, c) {
        var i :| 0 <= i < |w.archived| && w.archived[i].context == c;
        assert v.archived[i].context == c;
      }
    }
    if |v.archived| > |w.archived| {
      assert v.archived[|w.archived|].context == home;
    }
  }

  lemma StopKeepsStacks(w: World, t: TaskId, s: SpanId)
    requires t in w.stacks && SpanKnown(w, s) && w.spans[s].depth == 1 && StacksOk(w, {})
    ensures StacksOk(Stop(w, t, s), {})
  {
    var v := Stop(w, t, s);
    forall u | u in v.stacks
      ensures StackOk(v, u, {})
    {
      assert StackOk(w, u, {});
      if u == t {
        RemoveDropsOne(w.stacks[t], s);
        RemoveKeepsOrder(w, w.stacks[t], s);
      }
    }
  }

  lemma StopKeepsInv(w: World, t: TaskId, s: SpanId)
    requires Inv(w, {}) && t in w.stacks && SpanKnown(w, s) && w.spans[s].depth == 1
    ensures Inv(Stop(w, t, s), {})
  {
    var v := Stop(w, t, s);
    var home := w.spans[s].context;
    assert ContextOk(w, home, {});
    assert s in Live(w, home);
    StopKeepsHome(w, t, s);
    StopKeepsStacks(w, t, s);
    StopKeepsArchive(w, t, s);
    forall c | c in w.contexts && c != home
      ensures ContextOk(v, c, {})
    {
      StopKeepsOther(w, t, s, c);
    }
    StopKeepsSpans(w, t, s);
  }

  lemma StopKeepsSpans(w: World, t: TaskId, s: SpanId)
    requires SpansOk(w, {}) && t in w.stacks && SpanKnown(w, s) && w.spans[s].depth == 1
    ensures SpansOk(Stop(w, t, s), {})
  {
    var v := Stop(w, t, s);
    forall r | r in v.spans
      ensures SpanOk(v, r, {})
    {
      assert SpanOk(w, r, {});
    }
  }
}
