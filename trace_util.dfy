/** The span lifecycle helpers: each one starts a span, lets a piece of work
    run with that span in scope, records a failure where its catch clause
    sees one, and finishes the span on every exit path. The work is a pure
    function of the span (or of the carrier) that returns or throws; what it
    returns or throws is handed back unchanged. */
module TraceUtil {
  import opened Base
  import opened Tracing

  /** The catch clause of newTrace/newChildTrace: RuntimeException only. */
  predicate CaughtRuntime<R>(r: Outcome<R>) {
    r.Err? && r.thrown.IsRuntimeException()
  }

  /** The catch clause of extractTraceInfo: any Exception, but no Error. */
  predicate CaughtException<R>(r: Outcome<R>) {
    r.Err? && r.thrown.IsException()
  }

  /** The work a helper runs: it is given the helper's span and the span in
      scope while it runs (what `tracer.currentSpan()` returns to it). */
  type Work<R> = (TraceContext, Option<TraceContext>) -> Outcome<R>

  // ---------------------------------------------------------------------
  // What each helper appends to the log, and the span record it leaves.
  // Each event list is split where the work runs: the head is logged
  // before the work, the tail after it.
  // ---------------------------------------------------------------------

  /** newTrace / newChildTrace before the work: start, "<name>.start". */
  function LifecycleHead(s: TraceContext, name: string, parent: Parent): seq<Event> {
    [Event(s, Started(name, parent)), Event(s, Annotated(name + ".start"))]
  }

  /** newTrace / newChildTrace after the work: the error if caught, then in
      `finally` the thread tag, "<name>.finish" and finish. */
  function LifecycleTail<R>(s: TraceContext, name: string, thread: string, r: Outcome<R>): seq<Event> {
    (if CaughtRuntime(r) then [Event(s, ErrorRecorded(r.thrown))] else [])
    + [Event(s, Tagged("thread", thread)), Event(s, Annotated(name + ".finish")), Event(s, Finished)]
  }

  function LifecycleEvents<R>(s: TraceContext, name: string, parent: Parent, thread: string, r: Outcome<R>): seq<Event> {
    LifecycleHead(s, name, parent) + LifecycleTail(s, name, thread, r)
  }

  function LifecycleRecord<R>(name: string, parent: Parent, thread: string, r: Outcome<R>): SpanRecord {
    SpanRecord(
      Some(SpanStart(name, parent)), None, [("thread", thread)],
      [name + ".start", name + ".finish"],
      if CaughtRuntime(r) then Some(r.thrown) else None,
      1)
  }

  /** extractTraceInfo before the work: start, kind CONSUMER. */
  function ConsumerHead(s: TraceContext, name: string, parent: Parent): seq<Event> {
    [Event(s, Started(name, parent)), Event(s, KindSet(Consumer))]
  }

  /** extractTraceInfo after the work: the error if caught, finish. */
  function ConsumerTail<R>(s: TraceContext, r: Outcome<R>): seq<Event> {
    (if CaughtException(r) then [Event(s, ErrorRecorded(r.thrown))] else []) + [Event(s, Finished)]
  }

  function ConsumerEvents<R>(s: TraceContext, name: string, parent: Parent, r: Outcome<R>): seq<Event> {
    ConsumerHead(s, name, parent) + ConsumerTail(s, r)
  }

  function ConsumerRecord<R>(name: string, parent: Parent, r: Outcome<R>): SpanRecord {
    SpanRecord(
      Some(SpanStart(name, parent)), Some(Consumer), [], [],
      if CaughtException(r) then Some(r.thrown) else None,
      1)
  }

  /** injectTraceInfo before the work: start, kind PRODUCER. */
  function ProducerHead(s: TraceContext, name: string, parent: Parent): seq<Event> {
    [Event(s, Started(name, parent)), Event(s, KindSet(Producer))]
  }

  function TagEvents(s: TraceContext, tags: seq<(string, string)>): seq<Event>
    decreases |tags|
  {
    if tags == [] then [] else [Event(s, Tagged(tags[0].0, tags[0].1))] + TagEvents(s, tags[1..])
  }

  /** injectTraceInfo: start, kind PRODUCER, whatever tags the work adds to
      the span in scope, finish; no error is ever recorded. */
  function ProducerEvents(s: TraceContext, name: string, parent: Parent, tags: seq<(string, string)>): seq<Event> {
    ProducerHead(s, name, parent) + TagEvents(s, tags) + [Event(s, Finished)]
  }

  function ProducerRecord(name: string, parent: Parent, tags: seq<(string, string)>): SpanRecord {
    SpanRecord(Some(SpanStart(name, parent)), Some(Producer), tags, [], None, 1)
  }

  lemma {:induction false} ReplayTags(r: SpanRecord, s: TraceContext, tags: seq<(string, string)>)
    ensures Replay(r, TagEvents(s, tags), s.spanId) == r.(tags := r.tags + tags)
    decreases |tags|
  {
    if tags == [] {
      assert r.tags + tags == r.tags;
    } else {
      var r' := r.(tags := r.tags + [tags[0]]);
      ReplayCons(r, Event(s, Tagged(tags[0].0, tags[0].1)), TagEvents(s, tags[1..]), s.spanId);
      ReplayTags(r', s, tags[1..]);
      assert r.tags + [tags[0]] + tags[1..] == r.tags + tags;
    }
  }

  /** Two events of one span, replayed. */
  lemma ReplayPair(r0: SpanRecord, s: TraceContext, a: SpanEvent, b: SpanEvent)
    ensures Replay(r0, [Event(s, a), Event(s, b)], s.spanId) == Apply(Apply(r0, a), b)
  {
    var e := [Event(s, a), Event(s, b)];
    assert e == [e[0]] + [e[1]];
    ReplayCons(r0, e[0], [e[1]], s.spanId);
    assert [e[1]] == [e[1]] + [];
    ReplayCons(Apply(r0, a), e[1], [], s.spanId);
  }

  /** One event of a span, replayed. */
  lemma ReplayOne(r0: SpanRecord, s: TraceContext, a: SpanEvent)
    ensures Replay(r0, [Event(s, a)], s.spanId) == Apply(r0, a)
  {
    assert [Event(s, a)] == [Event(s, a)] + [];
    ReplayCons(r0, Event(s, a), [], s.spanId);
  }

  /** The `finally` block of newTrace / newChildTrace, on any record. */
  lemma ReplayFinally(r0: SpanRecord, s: TraceContext, name: string, thread: string)
    ensures Replay(r0, [Event(s, Tagged("thread", thread)), Event(s, Annotated(name + ".finish")), Event(s, Finished)], s.spanId)
         == r0.(tags := r0.tags + [("thread", thread)], annotations := r0.annotations + [name + ".finish"],
                finishes := r0.finishes + 1)
  {
    var tail := [Event(s, Tagged("thread", thread)), Event(s, Annotated(name + ".finish")), Event(s, Finished)];
    var tagged := r0.(tags := r0.tags + [("thread", thread)]);
    assert tail == [tail[0]] + [tail[1], tail[2]];
    ReplayCons(r0, tail[0], [tail[1], tail[2]], s.spanId);
    ReplayPair(tagged, s, Annotated(name + ".finish"), Finished);
  }

  /** A lifecycle span is started once with the chosen parent and name, is
      annotated start then finish, carries the thread tag, holds an error
      exactly when the work threw a RuntimeException, and is finished once. */
  lemma LifecycleRecordOf<R>(log: seq<Event>, s: TraceContext, name: string, parent: Parent, thread: string, r: Outcome<R>)
    requires !Mentions(log, s.spanId)
    ensures RecordOf(log + LifecycleEvents(s, name, parent, thread, r), s.spanId)
         == LifecycleRecord(name, parent, thread, r)
  {
    var id := s.spanId;
    var head := LifecycleHead(s, name, parent);
    var caught := if CaughtRuntime(r) then [Event(s, ErrorRecorded(r.thrown))] else [];
    var tail := [Event(s, Tagged("thread", thread)), Event(s, Annotated(name + ".finish")), Event(s, Finished)];
    assert LifecycleEvents(s, name, parent, thread, r) == head + caught + tail;
    FreshRecord(log, head + caught + tail, id);
    ReplayAppend(Unseen, head + caught, tail, id);
    ReplayAppend(Unseen, head, caught, id);
    ReplayPair(Unseen, s, Started(name, parent), Annotated(name + ".start"));
    var afterHead := Unseen.(start := Some(SpanStart(name, parent)), annotations := [name + ".start"]);
    var afterCaught := if CaughtRuntime(r) then afterHead.(error := Some(r.thrown)) else afterHead;
    if CaughtRuntime(r) {
      ReplayOne(afterHead, s, ErrorRecorded(r.thrown));
    }
    assert Replay(afterHead, caught, id) == afterCaught;
    assert Replay(Unseen, head, id) == afterHead;
    ReplayFinally(afterCaught, s, name, thread);
    assert [] + [("thread", thread)] == [("thread", thread)];
    assert [name + ".start"] + [name + ".finish"] == [name + ".start", name + ".finish"];
    assert Replay(afterCaught, tail, id) == LifecycleRecord(name, parent, thread, r);
  }

  /** A consumer span is started once with the chosen parent, has kind
      CONSUMER, holds an error exactly when the work threw an Exception (not
      an Error), carries no tags or annotations, and is finished once. */
  lemma ConsumerRecordOf<R>(log: seq<Event>, s: TraceContext, name: string, parent: Parent, r: Outcome<R>)
    requires !Mentions(log, s.spanId)
    ensures RecordOf(log + ConsumerEvents(s, name, parent, r), s.spanId) == ConsumerRecord(name, parent, r)
  {
    var id := s.spanId;
    var head := ConsumerHead(s, name, parent);
    var caught := if CaughtException(r) then [Event(s, ErrorRecorded(r.thrown))] else [];
    var tail := [Event(s, Finished)];
    assert ConsumerEvents(s, name, parent, r) == head + caught + tail;
    FreshRecord(log, head + caught + tail, id);
    ReplayAppend(Unseen, head + caught, tail, id);
    ReplayAppend(Unseen, head, caught, id);
    ReplayPair(Unseen, s, Started(name, parent), KindSet(Consumer));
    var afterHead := Unseen.(start := Some(SpanStart(name, parent)), kind := Some(Consumer));
    var afterCaught := if CaughtException(r) then afterHead.(error := Some(r.thrown)) else afterHead;
    if CaughtException(r) {
      ReplayOne(afterHead, s, ErrorRecorded(r.thrown));
    }
    assert Replay(afterHead, caught, id) == afterCaught;
    ReplayOne(afterCaught, s, Finished);
  }

  /** A producer span is started once with the chosen parent, has kind
      PRODUCER, carries exactly the tags added while it was in scope, never
      holds an error, and is finished once. */
  lemma ProducerRecordOf(log: seq<Event>, s: TraceContext, name: string, parent: Parent, tags: seq<(string, string)>)
    requires !Mentions(log, s.spanId)
    ensures RecordOf(log + ProducerEvents(s, name, parent, tags), s.spanId) == ProducerRecord(name, parent, tags)
  {
    var id := s.spanId;
    var head := [Event(s, Started(name, parent)), Event(s, KindSet(Producer))];
    var tail := [Event(s, Finished)];
    FreshRecord(log, head + TagEvents(s, tags) + tail, id);
    ReplayAppend(Unseen, head + TagEvents(s, tags), tail, id);
    ReplayAppend(Unseen, head, TagEvents(s, tags), id);
    var afterHead := Unseen.(start := Some(SpanStart(name, parent)), kind := Some(Producer));
    ReplayCons(Unseen, head[0], [head[1]], id);
    ReplayCons(Unseen.(start := Some(SpanStart(name, parent))), head[1], [], id);
    assert [head[0]] + [head[1]] == head;
    ReplayTags(afterHead, s, tags);
    assert [] + tags == tags;
    ReplayCons(afterHead.(tags := tags), tail[0], [], id);
    assert [tail[0]] + [] == tail;
  }

  // ---------------------------------------------------------------------
  // Choosing the parent of a consumer span
  // ---------------------------------------------------------------------

  /** extractTraceInfo's three-way choice: no properties (null or empty)
      give a root without asking the extractor; otherwise an extracted
      context becomes the parent, and anything less gives a root. */
  function ChooseParent(properties: Option<Carrier>, extractor: Extractor): (p: Parent)
    ensures properties.None? || properties.value == map[] ==> p == Root
    ensures p.ChildOfExtracted? <==>
      properties.Some? && properties.value != map[] && extractor(properties.value).WithContext?
    ensures p.ChildOfExtracted? ==> p.extracted == extractor(properties.value).context
    ensures !p.ChildOfCurrent?
  {
    if properties.None? || |properties.value| == 0 then Root
    else
      var extracted := extractor(properties.value);
      if extracted.WithContext? then ChildOfExtracted(extracted.context) else Root
  }

  // ---------------------------------------------------------------------
  // The helpers
  // ---------------------------------------------------------------------

  /** newTrace with a result: a root span whatever is in scope. The work runs
      with that span in scope, once its start is logged and before anything
      of its end is; `logAtWork` is the log at that moment. */
  method NewTrace<R>(tracer: Tracer, name: string, thread: string, work: Work<R>)
    returns (r: Outcome<R>, ghost logAtWork: seq<Event>)
    requires tracer.Valid()
    modifies tracer
    ensures tracer.Valid()
    ensures tracer.current == old(tracer.current) && tracer.nextId == old(tracer.nextId) + 1
    ensures var s := ContextFor(Root, old(tracer.nextId));
      && r == work(s, Some(s))
      && logAtWork == old(tracer.log) + LifecycleHead(s, name, Root)
      && tracer.log == logAtWork + LifecycleTail(s, name, thread, r)
      && RecordOf(tracer.log, s.spanId) == LifecycleRecord(name, Root, thread, r)
  {
    var span := tracer.NewTrace(name);
    r, logAtWork := RunTraced(tracer, span, name, thread, work);
    assert tracer.log == old(tracer.log) + LifecycleEvents(span, name, Root, thread, r);
    LifecycleRecordOf(old(tracer.log), span, name, Root, thread, r);
  }

  /** newTrace without a result (the `Consumer<Span>` overload). */
  method NewTraceNoResult(tracer: Tracer, name: string, thread: string, work: Work<()>)
    returns (r: Outcome<()>, ghost logAtWork: seq<Event>)
    requires tracer.Valid()
    modifies tracer
    ensures tracer.Valid()
    ensures tracer.current == old(tracer.current) && tracer.nextId == old(tracer.nextId) + 1
    ensures var s := ContextFor(Root, old(tracer.nextId));
      && r == work(s, Some(s))
      && logAtWork == old(tracer.log) + LifecycleHead(s, name, Root)
      && tracer.log == logAtWork + LifecycleTail(s, name, thread, r)
      && RecordOf(tracer.log, s.spanId) == LifecycleRecord(name, Root, thread, r)
  {
    r, logAtWork := NewTrace(tracer, name, thread, work);
  }

  /** newChildTrace with a result: a child of the span in scope, or a root;
      the work runs as in newTrace. */
  method NewChildTrace<R>(tracer: Tracer, name: string, thread: string, work: Work<R>)
    returns (r: Outcome<R>, ghost logAtWork: seq<Event>)
    requires tracer.Valid()
    modifies tracer
    ensures tracer.Valid()
    ensures tracer.current == old(tracer.current) && tracer.nextId == old(tracer.nextId) + 1
    ensures var parent := NextParent(old(tracer.current));
      var s := ContextFor(parent, old(tracer.nextId));
      && r == work(s, Some(s))
      && logAtWork == old(tracer.log) + LifecycleHead(s, name, parent)
      && tracer.log == logAtWork + LifecycleTail(s, name, thread, r)
      && RecordOf(tracer.log, s.spanId) == LifecycleRecord(name, parent, thread, r)
  {
    var span := tracer.NextSpan(name);
    r, logAtWork := RunTraced(tracer, span, name, thread, work);
    ghost var parent := NextParent(old(tracer.current));
    assert tracer.log == old(tracer.log) + LifecycleEvents(span, name, parent, thread, r);
    LifecycleRecordOf(old(tracer.log), span, name, parent, thread, r);
  }

  /** newChildTrace without a result (the `Consumer<Span>` overload). */
  method NewChildTraceNoResult(tracer: Tracer, name: string, thread: string, work: Work<()>)
    returns (r: Outcome<()>, ghost logAtWork: seq<Event>)
    requires tracer.Valid()
    modifies tracer
    ensures tracer.Valid()
    ensures tracer.current == old(tracer.current) && tracer.nextId == old(tracer.nextId) + 1
    ensures var parent := NextParent(old(tracer.current));
      var s := ContextFor(parent, old(tracer.nextId));
      && r == work(s, Some(s))
      && logAtWork == old(tracer.log) + LifecycleHead(s, name, parent)
      && tracer.log == logAtWork + LifecycleTail(s, name, thread, r)
      && RecordOf(tracer.log, s.spanId) == LifecycleRecord(name, parent, thread, r)
  {
    r, logAtWork := NewChildTrace(tracer, name, thread, work);
  }

  /** The part newTrace and newChildTrace share once the span is started:
      the start annotation, the work with the span in scope, then, after the
      scope is closed, the catch and the finally. */
  method RunTraced<R>(tracer: Tracer, span: TraceContext, name: string, thread: string, work: Work<R>)
    returns (r: Outcome<R>, ghost logAtWork: seq<Event>)
    requires tracer.Valid() && span.spanId < tracer.nextId
    modifies tracer
    ensures tracer.Valid()
    ensures tracer.current == old(tracer.current) && tracer.nextId == old(tracer.nextId)
    ensures r == work(span, Some(span))
    ensures logAtWork == old(tracer.log) + [Event(span, Annotated(name + ".start"))]
    ensures tracer.log == logAtWork + LifecycleTail(span, name, thread, r)
  {
    tracer.Record(span, Annotated(name + ".start"));
    r, logAtWork := RunScoped(tracer, span, work);
    if CaughtRuntime(r) {
      tracer.Record(span, ErrorRecorded(r.thrown));
    }
    tracer.Record(span, Tagged("thread", thread));
    tracer.Record(span, Annotated(name + ".finish"));
    tracer.Record(span, Finished);
  }

  /** The start of extractTraceInfo: the parent choice, made with the
      tracer's calls in the code's own order. */
  method StartConsumerSpan(tracer: Tracer, name: string, properties: Option<Carrier>)
    returns (span: TraceContext)
    requires tracer.Valid()
    modifies tracer
    ensures tracer.Valid()
    ensures span == ContextFor(ChooseParent(properties, tracer.extractor), old(tracer.nextId))
    ensures tracer.nextId == old(tracer.nextId) + 1 && tracer.current == old(tracer.current)
    ensures tracer.log == old(tracer.log) + [Event(span, Started(name, ChooseParent(properties, tracer.extractor)))]
  {
    if properties.None? || |properties.value| == 0 {
      span := tracer.NewTrace(name);
    } else {
      var traceInfo := tracer.extractor(properties.value);
      if traceInfo.WithContext? {
        span := tracer.NewChild(traceInfo.context, name);
      } else {
        span := tracer.NewTrace(name);
      }
    }
  }

  /** extractTraceInfo: a CONSUMER span whose parent comes from the
      properties; the work runs with it in scope once it is marked CONSUMER;
      Exceptions are recorded and rethrown, Errors only pass. */
  method ExtractTraceInfo<R>(tracer: Tracer, name: string, properties: Option<Carrier>, work: Work<R>)
    returns (r: Outcome<R>, ghost logAtWork: seq<Event>)
    requires tracer.Valid()
    modifies tracer
    ensures tracer.Valid()
    ensures tracer.current == old(tracer.current) && tracer.nextId == old(tracer.nextId) + 1
    ensures var parent := ChooseParent(properties, tracer.extractor);
      var s := ContextFor(parent, old(tracer.nextId));
      && r == work(s, Some(s))
      && logAtWork == old(tracer.log) + ConsumerHead(s, name, parent)
      && tracer.log == logAtWork + ConsumerTail(s, r)
      && RecordOf(tracer.log, s.spanId) == ConsumerRecord(name, parent, r)
  {
    var span := StartConsumerSpan(tracer, name, properties);
    tracer.Record(span, KindSet(Consumer));
    r, logAtWork := RunScoped(tracer, span, work);
    if CaughtException(r) {
      tracer.Record(span, ErrorRecorded(r.thrown));
    }
    tracer.Record(span, Finished);
    ghost var parent := ChooseParent(properties, tracer.extractor);
    assert tracer.log == old(tracer.log) + ConsumerEvents(span, name, parent, r);
    ConsumerRecordOf(old(tracer.log), span, name, parent, r);
  }

  /** `try (SpanInScope ws = tracer.withSpanInScope(span)) { work }`: the work
      runs with the span in scope, and the scope is closed after it. */
  method RunScoped<R>(tracer: Tracer, span: TraceContext, work: Work<R>)
    returns (r: Outcome<R>, ghost logAtWork: seq<Event>)
    modifies tracer
    ensures r == work(span, Some(span))
    ensures logAtWork == old(tracer.log)
    ensures tracer.log == old(tracer.log) && tracer.current == old(tracer.current)
    ensures tracer.nextId == old(tracer.nextId)
  {
    var scope := tracer.WithSpanInScope(span);
    logAtWork := tracer.log;
    r := work(span, tracer.current);
    tracer.CloseScope(scope);
  }

  /** The part of injectTraceInfo before its `try`: start a child of the
      span in scope, fill a fresh carrier from the new span's context, mark
      the span PRODUCER and put it in scope. */
  method OpenInjectedSpan(tracer: Tracer, name: string)
    returns (span: TraceContext, carrier: Carrier, scope: Option<TraceContext>)
    requires tracer.Valid()
    modifies tracer
    ensures tracer.Valid()
    ensures span == ContextFor(NextParent(old(tracer.current)), old(tracer.nextId))
    ensures tracer.nextId == old(tracer.nextId) + 1
    ensures carrier == tracer.injector(span)
    ensures tracer.log == old(tracer.log) + ProducerHead(span, name, NextParent(old(tracer.current)))
    ensures tracer.current == Some(span) && scope == old(tracer.current)
  {
    span := tracer.NextSpan(name);
    carrier := map[];
    carrier := carrier + tracer.injector(span);
    tracer.Record(span, KindSet(Producer));
    scope := tracer.WithSpanInScope(span);
  }

  /** The closing of injectTraceInfo's scope and its `finally`. */
  method CloseInjectedSpan(tracer: Tracer, span: TraceContext, scope: Option<TraceContext>)
    requires tracer.Valid() && span.spanId < tracer.nextId
    modifies tracer
    ensures tracer.Valid()
    ensures tracer.current == scope && tracer.nextId == old(tracer.nextId)
    ensures tracer.log == old(tracer.log) + [Event(span, Finished)]
  {
    tracer.CloseScope(scope);
    tracer.Record(span, Finished);
  }

  /** injectTraceInfo: the work receives exactly the carrier filled from a
      new PRODUCER span and runs with that span in scope, after its start
      and kind are logged; the span is finished however the work ends. */
  method InjectTraceInfo<R>(tracer: Tracer, name: string, work: (Carrier, Option<TraceContext>) -> Outcome<R>)
    returns (r: Outcome<R>, ghost logAtWork: seq<Event>)
    requires tracer.Valid()
    modifies tracer
    ensures tracer.Valid()
    ensures tracer.current == old(tracer.current) && tracer.nextId == old(tracer.nextId) + 1
    ensures var parent := NextParent(old(tracer.current));
      var s := ContextFor(parent, old(tracer.nextId));
      && r == work(tracer.injector(s), Some(s))
      && logAtWork == old(tracer.log) + ProducerHead(s, name, parent)
      && tracer.log == logAtWork + [Event(s, Finished)]
      && RecordOf(tracer.log, s.spanId) == ProducerRecord(name, parent, [])
  {
    var span, carrier, scope := OpenInjectedSpan(tracer, name);
    logAtWork := tracer.log;
    r := work(carrier, tracer.current);
    CloseInjectedSpan(tracer, span, scope);
    ghost var parent := NextParent(old(tracer.current));
    assert tracer.log == old(tracer.log) + ProducerEvents(span, name, parent, []);
    ProducerRecordOf(old(tracer.log), span, name, parent, []);
  }
}
