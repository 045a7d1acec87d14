/** The tracer the instrumentation talks to, kept abstract: it hands out span
    identifiers, keeps one ambient "current span" slot, and appends every
    operation on a span to an event log. The propagation codec is a pair of
    opaque functions. A span's visible state (its start, kind, tags,
    annotations, error and how often it was finished) is a fold of the log. */
module Tracing {
  import opened Base

  /** The identifiers a span carries across process boundaries. */
  datatype TraceContext = TraceContext(traceId: nat, spanId: nat)

  /** How a span's parent was chosen. */
  datatype Parent =
    | Root                                   // a new trace
    | ChildOfCurrent(current: TraceContext)  // child of the ambient span
    | ChildOfExtracted(extracted: TraceContext)  // child of a context read from a carrier

  datatype Kind = Producer | Consumer

  /** One operation on one span. */
  datatype SpanEvent =
    | Started(name: string, parent: Parent)
    | Annotated(annotation: string)
    | Tagged(key: string, value: string)
    | ErrorRecorded(thrown: Thrown)
    | KindSet(kind: Kind)
    | Finished

  datatype Event = Event(span: TraceContext, what: SpanEvent)

  /** The flat string map that carries a context alongside a message. */
  type Carrier = map<string, string>

  /** What the codec's extractor yields: nothing, sampling flags only, or a
      full context. Only the last one can parent a span. */
  datatype Extraction = NothingExtracted | FlagsOnly | WithContext(context: TraceContext)

  type Injector = TraceContext -> Carrier
  type Extractor = Carrier -> Extraction

  /** The context of a span started with the given parent and fresh id: a
      child stays in its parent's trace, a root opens a trace of its own. */
  function ContextFor(parent: Parent, id: nat): (s: TraceContext)
    ensures s.spanId == id
    ensures parent.Root? ==> s.traceId == id
    ensures parent.ChildOfCurrent? ==> s.traceId == parent.current.traceId
    ensures parent.ChildOfExtracted? ==> s.traceId == parent.extracted.traceId
  {
    match parent
    case Root => TraceContext(id, id)
    case ChildOfCurrent(c) => TraceContext(c.traceId, id)
    case ChildOfExtracted(c) => TraceContext(c.traceId, id)
  }

  /** The parent `nextSpan()` picks: the ambient span if there is one, else none. */
  function NextParent(current: Option<TraceContext>): (p: Parent)
    ensures p.Root? <==> current.None?
    ensures current.Some? ==> p == ChildOfCurrent(current.value)
  {
    match current
    case None => Root
    case Some(c) => ChildOfCurrent(c)
  }

  // ---------------------------------------------------------------------
  // The span as a record, folded from the log
  // ---------------------------------------------------------------------

  datatype SpanStart = SpanStart(name: string, parent: Parent)

  datatype SpanRecord = SpanRecord(
    start: Option<SpanStart>,
    kind: Option<Kind>,
    tags: seq<(string, string)>,
    annotations: seq<string>,
    error: Option<Thrown>,
    finishes: nat)

  /** The record of a span no event has mentioned yet. */
  const Unseen: SpanRecord := SpanRecord(None, None, [], [], None, 0)

  function Apply(r: SpanRecord, e: SpanEvent): SpanRecord {
    match e
    case Started(name, parent) => r.(start := Some(SpanStart(name, parent)))
    case Annotated(a) => r.(annotations := r.annotations + [a])
    case Tagged(k, v) => r.(tags := r.tags + [(k, v)])
    case ErrorRecorded(t) => r.(error := Some(t))
    case KindSet(k) => r.(kind := Some(k))
    case Finished => r.(finishes := r.finishes + 1)
  }

  /** Applies, in order, the events of `log` that concern span `id`. */
  function Replay(r: SpanRecord, log: seq<Event>, id: nat): SpanRecord
    decreases |log|
  {
    if log == [] then r
    else Replay(if log[0].span.spanId == id then Apply(r, log[0].what) else r, log[1..], id)
  }

  function RecordOf(log: seq<Event>, id: nat): SpanRecord {
    Replay(Unseen, log, id)
  }

  predicate Mentions(log: seq<Event>, id: nat) {
    exists i :: 0 <= i < |log| && log[i].span.spanId == id
  }

  /** Replaying a log in two pieces is replaying it whole. */
  lemma {:induction false} ReplayAppend(r: SpanRecord, a: seq<Event>, b: seq<Event>, id: nat)
    ensures Replay(r, a + b, id) == Replay(Replay(r, a, id), b, id)
    decreases |a|
  {
    if a == [] {
      assert a + b == b;
    } else {
      assert (a + b)[0] == a[0];
      assert (a + b)[1..] == a[1..] + b;
      ReplayAppend(if a[0].span.spanId == id then Apply(r, a[0].what) else r, a[1..], b, id);
    }
  }

  /** Events of other spans leave a span's record alone. */
  lemma {:induction false} ReplayIgnoresOthers(r: SpanRecord, log: seq<Event>, id: nat)
    requires !Mentions(log, id)
    ensures Replay(r, log, id) == r
    decreases |log|
  {
    if log != [] {
      assert log[0].span.spanId != id;
      assert !Mentions(log[1..], id) by {
        forall i | 0 <= i < |log[1..]| ensures log[1..][i].span.spanId != id {
          assert log[1..][i] == log[i + 1];
        }
      }
      ReplayIgnoresOthers(r, log[1..], id);
    }
  }

  /** Appending events of one span to a log that never mentioned it gives
      that span the record of those events alone. */
  lemma FreshRecord(log: seq<Event>, events: seq<Event>, id: nat)
    requires !Mentions(log, id)
    ensures RecordOf(log + events, id) == Replay(Unseen, events, id)
  {
    ReplayAppend(Unseen, log, events, id);
    ReplayIgnoresOthers(Unseen, log, id);
  }

  /** One step of the fold. */
  lemma ReplayCons(r: SpanRecord, e: Event, rest: seq<Event>, id: nat)
    ensures Replay(r, [e] + rest, id)
         == Replay(if e.span.spanId == id then Apply(r, e.what) else r, rest, id)
  {
    assert ([e] + rest)[0] == e;
    assert ([e] + rest)[1..] == rest;
  }

  // ---------------------------------------------------------------------
  // The tracer
  // ---------------------------------------------------------------------

  class Tracer {
    /** The propagation codec, as the tracing library is configured. */
    const injector: Injector
    const extractor: Extractor
    /** Every span operation, in the order it happened. */
    var log: seq<Event>
    /** The span in scope on the calling thread, if any. */
    var current: Option<TraceContext>
    /** Source of span identifiers: every id below it has been handed out. */
    var nextId: nat

    ghost predicate Valid()
      reads this
    {
      forall i :: 0 <= i < |log| ==> log[i].span.spanId < nextId
    }

    constructor (injector: Injector, extractor: Extractor)
      ensures Valid()
      ensures this.injector == injector && this.extractor == extractor
      ensures log == [] && current == None && nextId == 0
    {
      this.injector := injector;
      this.extractor := extractor;
      log := [];
      current := None;
      nextId := 0;
    }

    /** `name(name).start()` on a new span with the given parent. */
    method Start(name: string, parent: Parent) returns (span: TraceContext)
      requires Valid()
      modifies this
      ensures Valid()
      ensures span == ContextFor(parent, old(nextId)) && nextId == old(nextId) + 1
      ensures log == old(log) + [Event(span, Started(name, parent))]
      ensures current == old(current)
    {
      span := ContextFor(parent, nextId);
      log := log + [Event(span, Started(name, parent))];
      nextId := nextId + 1;
    }

    /** `newTrace().name(name).start()`: a root, whatever is in scope. */
    method NewTrace(name: string) returns (span: TraceContext)
      requires Valid()
      modifies this
      ensures Valid()
      ensures span == ContextFor(Root, old(nextId)) && nextId == old(nextId) + 1
      ensures log == old(log) + [Event(span, Started(name, Root))]
      ensures current == old(current)
    {
      span := Start(name, Root);
    }

    /** `nextSpan().name(name).start()`: a child of the span in scope, or a root. */
    method NextSpan(name: string) returns (span: TraceContext)
      requires Valid()
      modifies this
      ensures Valid()
      ensures span == ContextFor(NextParent(old(current)), old(nextId)) && nextId == old(nextId) + 1
      ensures log == old(log) + [Event(span, Started(name, NextParent(old(current))))]
      ensures current == old(current)
    {
      span := Start(name, NextParent(current));
    }

    /** `newChild(parent).name(name).start()` for a context read from a carrier. */
    method NewChild(parent: TraceContext, name: string) returns (span: TraceContext)
      requires Valid()
      modifies this
      ensures Valid()
      ensures span == ContextFor(ChildOfExtracted(parent), old(nextId)) && nextId == old(nextId) + 1
      ensures log == old(log) + [Event(span, Started(name, ChildOfExtracted(parent)))]
      ensures current == old(current)
    {
      span := Start(name, ChildOfExtracted(parent));
    }

    /** Appends one operation on a span that was handed out earlier. */
    method Record(span: TraceContext, what: SpanEvent)
      requires Valid() && span.spanId < nextId
      modifies this
      ensures Valid()
      ensures log == old(log) + [Event(span, what)]
      ensures current == old(current) && nextId == old(nextId)
    {
      log := log + [Event(span, what)];
    }

    /** `tracer.withSpanInScope(span)`: returns the scope's saved slot. */
    method WithSpanInScope(span: TraceContext) returns (previous: Option<TraceContext>)
      modifies this
      ensures previous == old(current) && current == Some(span)
      ensures log == old(log) && nextId == old(nextId)
    {
      previous := current;
      current := Some(span);
    }

    /** `SpanInScope.close()`: puts back what was in scope before. */
    method CloseScope(previous: Option<TraceContext>)
      modifies this
      ensures current == previous
      ensures log == old(log) && nextId == old(nextId)
    {
      current := previous;
    }
  }
}
