/** The two tracing listener wrappers the consumer registers. Each takes the
    first delivered message, continues the trace found in its properties
    inside a CONSUMER span named "MQ/CONSUME", and lets the wrapped listener
    consume a list holding that message alone, with the context it was
    given; the wrapped listener's status, or what it throws, comes back
    unchanged. The two differ only in their status and context types. */
module TracingListeners {
  import opened Base
  import opened Tracing
  import TraceUtil
  import ProducerProxy

  const ConsumeSpanName: string := "MQ/CONSUME"

  /** A delivered message: its topic and its property map (which may be
      null), where the producer side put the carrier. */
  datatype MessageExt = MessageExt(topic: string, properties: Option<map<string, string>>, id: nat)

  datatype ConsumeConcurrentlyStatus = ConsumeSuccess | ReconsumeLater
  datatype ConsumeConcurrentlyContext = ConsumeConcurrentlyContext(id: nat)

  datatype ConsumeOrderlyStatus = Success | Rollback | Commit | SuspendCurrentQueueAMoment
  datatype ConsumeOrderlyContext = ConsumeOrderlyContext(id: nat)

  /** TracingMessageListenerConcurrently, around the listener it delegates
      to. The delegate is given the messages, the context and the span in
      scope while it runs; `logAtDelegate` is the log at that moment. */
  datatype TracingMessageListenerConcurrently =
    TracingMessageListenerConcurrently(delegate: (seq<MessageExt>, ConsumeConcurrentlyContext, Option<TraceContext>) -> Outcome<ConsumeConcurrentlyStatus>)
  {
    method ConsumeMessage(tracer: Tracer, msgs: seq<MessageExt>, context: ConsumeConcurrentlyContext)
      returns (status: Outcome<ConsumeConcurrentlyStatus>, ghost logAtDelegate: seq<Event>)
      requires tracer.Valid()
      modifies tracer
      ensures tracer.Valid() && tracer.current == old(tracer.current)
      ensures msgs == [] ==> status == Err(IndexOutOfBounds) && unchanged(tracer)
      ensures msgs != [] ==>
        var parent := TraceUtil.ChooseParent(msgs[0].properties, tracer.extractor);
        var s := ContextFor(parent, old(tracer.nextId));
        && status == delegate([msgs[0]], context, Some(s))
        && logAtDelegate == old(tracer.log) + TraceUtil.ConsumerHead(s, ConsumeSpanName, parent)
        && tracer.log == logAtDelegate + TraceUtil.ConsumerTail(s, status)
        && RecordOf(tracer.log, s.spanId) == TraceUtil.ConsumerRecord(ConsumeSpanName, parent, status)
    {
      if msgs == [] {
        // msgs.get(0)
        status, logAtDelegate := Err(IndexOutOfBounds), tracer.log;
      } else {
        var messageExt := msgs[0];
        status, logAtDelegate := TraceUtil.ExtractTraceInfo(tracer, ConsumeSpanName, messageExt.properties,
          (span, inScope) => delegate([messageExt], context, inScope));
      }
    }
  }

  /** TracingMessageListenerOrderly, around the listener it delegates to,
      given what the concurrent one gives it. */
  datatype TracingMessageListenerOrderly =
    TracingMessageListenerOrderly(delegate: (seq<MessageExt>, ConsumeOrderlyContext, Option<TraceContext>) -> Outcome<ConsumeOrderlyStatus>)
  {
    method ConsumeMessage(tracer: Tracer, msgs: seq<MessageExt>, context: ConsumeOrderlyContext)
      returns (status: Outcome<ConsumeOrderlyStatus>, ghost logAtDelegate: seq<Event>)
      requires tracer.Valid()
      modifies tracer
      ensures tracer.Valid() && tracer.current == old(tracer.current)
      ensures msgs == [] ==> status == Err(IndexOutOfBounds) && unchanged(tracer)
      ensures msgs != [] ==>
        var parent := TraceUtil.ChooseParent(msgs[0].properties, tracer.extractor);
        var s := ContextFor(parent, old(tracer.nextId));
        && status == delegate([msgs[0]], context, Some(s))
        && logAtDelegate == old(tracer.log) + TraceUtil.ConsumerHead(s, ConsumeSpanName, parent)
        && tracer.log == logAtDelegate + TraceUtil.ConsumerTail(s, status)
        && RecordOf(tracer.log, s.spanId) == TraceUtil.ConsumerRecord(ConsumeSpanName, parent, status)
    {
      if msgs == [] {
        // msgs.get(0)
        status, logAtDelegate := Err(IndexOutOfBounds), tracer.log;
      } else {
        var messageExt := msgs[0];
        status, logAtDelegate := TraceUtil.ExtractTraceInfo(tracer, ConsumeSpanName, messageExt.properties,
          (span, inScope) => delegate([messageExt], context, inScope));
      }
    }
  }

  /** Producer to consumer: the consumer receives the properties a traced
      send left on the message, its own ones merged with the carrier of the
      producer span. If the codec's extractor gives back, from those
      properties, the context the injector wrote (an assumption about the
      codec, which this model does not contain), then the consumer span is a
      child of the producer span: it joins the producer's trace under a span
      id of its own. `nextId` is the consumer tracer's next id; requiring the
      producer span's id below it treats both sides as drawing ids from one
      counter, where Brave instead relies on random 64-bit ids. */
  lemma ConsumerJoinsProducerTrace(producerSpan: TraceContext, sent: map<string, string>,
                                   injector: Injector, extractor: Extractor, nextId: nat)
    requires injector(producerSpan) != map[]
    requires extractor(ProducerProxy.Merged(sent, injector(producerSpan))) == WithContext(producerSpan)
    requires producerSpan.spanId < nextId
    ensures var parent := TraceUtil.ChooseParent(Some(ProducerProxy.Merged(sent, injector(producerSpan))), extractor);
      && parent == ChildOfExtracted(producerSpan)
      && ContextFor(parent, nextId).traceId == producerSpan.traceId
      && ContextFor(parent, nextId).spanId != producerSpan.spanId
  {
    var carrier := injector(producerSpan);
    var k :| k in carrier;
    assert k in ProducerProxy.Merged(sent, carrier);
  }
}
