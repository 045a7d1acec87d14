/** The producer interceptor. Every call on the wrapped producer comes
    through Intercept, which classifies it by method name and first
    argument: a send of one message and a send of a collection of messages
    are traced, every other call is forwarded untouched. A traced send opens
    one PRODUCER span named "MQ/SEND", merges its carrier into the user
    properties of the message (or of every message of the collection),
    tags the span with the topic on the single path, and then forwards the
    original, now annotated, arguments to the real producer. */
module ProducerProxy {
  import opened Base
  import opened Tracing
  import TraceUtil

  const SendSpanName: string := "MQ/SEND"
  const TopicTag: string := "mq.topic"

  /** A message to send: its topic and its property map, which
      `putUserProperty` updates in place. */
  class Message {
    const topic: string
    var properties: map<string, string>

    constructor (topic: string, properties: map<string, string>)
      ensures this.topic == topic && this.properties == properties
    {
      this.topic := topic;
      this.properties := properties;
    }

    method PutUserProperty(name: string, value: string)
      modifies this
      ensures properties == old(properties)[name := value]
    {
      properties := properties[name := value];
    }
  }

  /** The shape of one argument of an intercepted call. */
  datatype Arg =
    | MessageArg(message: Message)
    | CollectionArg(messages: seq<Message>)
    | OtherArg(id: nat)   // null, or any object that is neither

  /** What the real producer sees of an argument when it is invoked. */
  datatype MessageView = MessageView(topic: string, properties: map<string, string>)
  datatype ArgView =
    | MessageArgView(message: MessageView)
    | CollectionArgView(messages: seq<MessageView>)
    | OtherArgView(id: nat)

  /** The real producer behind the proxy: a method name, the arguments as
      they are when it is invoked and the span in scope while it runs, to
      what it returns or throws. */
  type Invoke<R> = (string, seq<ArgView>, Option<TraceContext>) -> Outcome<R>

  function Footprint(a: Arg): set<Message> {
    match a
    case MessageArg(m) => {m}
    case CollectionArg(ms) => set m | m in ms
    case OtherArg(_) => {}
  }

  /** The messages the interceptor may update: those of the first argument. */
  function FirstFootprint(args: seq<Arg>): set<Message> {
    if args == [] then {} else Footprint(args[0])
  }

  function AllFootprint(args: seq<Arg>): set<Message> {
    set i, m | 0 <= i < |args| && m in Footprint(args[i]) :: m
  }

  function MessageViews(ms: seq<Message>): (vs: seq<MessageView>)
    reads set m | m in ms
    ensures |vs| == |ms|
    ensures forall i :: 0 <= i < |ms| ==> vs[i] == MessageView(ms[i].topic, ms[i].properties)
  {
    seq(|ms|, i reads set m | m in ms requires 0 <= i < |ms| => MessageView(ms[i].topic, ms[i].properties))
  }

  function View(a: Arg): ArgView
    reads Footprint(a)
  {
    match a
    case MessageArg(m) => MessageArgView(MessageView(m.topic, m.properties))
    case CollectionArg(ms) => CollectionArgView(MessageViews(ms))
    case OtherArg(id) => OtherArgView(id)
  }

  /** The arguments as the real producer receives them. */
  function Views(args: seq<Arg>): (vs: seq<ArgView>)
    reads AllFootprint(args)
    ensures |vs| == |args|
  {
    seq(|args|, i reads AllFootprint(args) requires 0 <= i < |args| => View(args[i]))
  }

  // ---------------------------------------------------------------------
  // Classification
  // ---------------------------------------------------------------------

  predicate HasSendPrefix(name: string) {
    StartsWith(name, "send") || StartsWith(name, "request")
  }

  /** isSendMessageMethod: a send/request method whose first argument is a
      message. It reads `args[0]` only once the name has matched. */
  predicate IsSendMessageMethod(name: string, args: seq<Arg>)
    requires HasSendPrefix(name) ==> |args| > 0
  {
    if HasSendPrefix(name) then args[0].MessageArg? else false
  }

  /** isSendBatchMessageMethod: a send/request method whose first argument
      is a collection. */
  predicate IsSendBatchMessageMethod(name: string, args: seq<Arg>)
    requires HasSendPrefix(name) ==> |args| > 0
  {
    if HasSendPrefix(name) then args[0].CollectionArg? else false
  }

  /** How Intercept handles a call. */
  datatype CallKind = SingleSend | BatchSend | PassThrough | MissingFirstArgument

  /** The dispatch table: the method name and the first argument's shape
      decide, and each call falls in exactly one class. */
  function Classify(name: string, args: seq<Arg>): (k: CallKind)
    ensures k == SingleSend <==> HasSendPrefix(name) && |args| > 0 && args[0].MessageArg?
    ensures k == BatchSend <==> HasSendPrefix(name) && |args| > 0 && args[0].CollectionArg?
    ensures k == MissingFirstArgument <==> HasSendPrefix(name) && |args| == 0
    ensures k == PassThrough <==> !HasSendPrefix(name) || (|args| > 0 && args[0].OtherArg?)
  {
    if HasSendPrefix(name) && |args| == 0 then MissingFirstArgument
    else if IsSendMessageMethod(name, args) then SingleSend
    else if IsSendBatchMessageMethod(name, args) then BatchSend
    else PassThrough
  }

  // ---------------------------------------------------------------------
  // Merging a carrier into message properties
  // ---------------------------------------------------------------------

  /** The property map after every carrier entry was put into it. */
  function Merged(properties: map<string, string>, carrier: Carrier): (r: map<string, string>)
    ensures forall k :: k in carrier ==> k in r && r[k] == carrier[k]
    ensures forall k :: k !in carrier ==> (k in r <==> k in properties)
    ensures forall k :: k !in carrier && k in properties ==> r[k] == properties[k]
  {
    properties + carrier
  }

  /** Merging the same carrier twice changes nothing more. */
  lemma MergedIdempotent(properties: map<string, string>, carrier: Carrier)
    ensures Merged(Merged(properties, carrier), carrier) == Merged(properties, carrier)
  {
  }

  /** `traceInfo.forEach(message::putUserProperty)`, in whatever order the
      carrier's keys come. */
  method MergeInto(carrier: Carrier, message: Message)
    modifies message
    ensures message.properties == Merged(old(message.properties), carrier)
  {
    var pending := carrier.Keys;
    while pending != {}
      invariant pending <= carrier.Keys
      invariant message.properties
        == old(message.properties) + map k | k in carrier.Keys - pending :: carrier[k]
      decreases pending
    {
      var k :| k in pending;
      message.PutUserProperty(k, carrier[k]);
      pending := pending - {k};
    }
    assert carrier == map k | k in carrier.Keys - {} :: carrier[k];
  }

  /** `messageCollection.forEach(...)`: the carrier goes into every message
      of the collection; a message listed twice is merged twice, to the
      same effect. */
  method MergeIntoEach(carrier: Carrier, messages: seq<Message>)
    modifies set m | m in messages
    ensures forall i :: 0 <= i < |messages| ==>
      messages[i].properties == Merged(old(messages[i].properties), carrier)
  {
    for n := 0 to |messages|
      invariant forall i :: 0 <= i < |messages| ==>
        messages[i].properties ==
          if messages[i] in messages[..n] then Merged(old(messages[i].properties), carrier)
          else old(messages[i].properties)
    {
      var m := messages[n];
      if m in messages[..n] {
        MergedIdempotent(old(m.properties), carrier);
      }
      MergeInto(carrier, m);
      assert m.properties == Merged(old(m.properties), carrier);
      assert messages[..n + 1] == messages[..n] + [m];
    }
    assert messages[..|messages|] == messages;
  }

  // ---------------------------------------------------------------------
  // The traced paths and the interceptor
  // ---------------------------------------------------------------------

  /** traceMessage for one message: open the producer span, merge the
      carrier, tag the span in scope with the topic, then invoke the real
      producer with the original arguments while the span is in scope;
      `logAtSend` is the log at that moment. */
  method TraceMessage<R>(tracer: Tracer, message: Message, name: string, args: seq<Arg>, invoke: Invoke<R>)
    returns (r: Outcome<R>, ghost logAtSend: seq<Event>)
    requires tracer.Valid()
    modifies tracer, message
    ensures tracer.Valid()
    ensures tracer.current == old(tracer.current) && tracer.nextId == old(tracer.nextId) + 1
    ensures var parent := NextParent(old(tracer.current));
      var s := ContextFor(parent, old(tracer.nextId));
      && message.properties == Merged(old(message.properties), tracer.injector(s))
      && r == invoke(name, Views(args), Some(s))
      && logAtSend == old(tracer.log) + TraceUtil.ProducerHead(s, SendSpanName, parent)
                      + [Event(s, Tagged(TopicTag, message.topic))]
      && tracer.log == logAtSend + [Event(s, Finished)]
      && RecordOf(tracer.log, s.spanId) == TraceUtil.ProducerRecord(SendSpanName, parent, [(TopicTag, message.topic)])
  {
    var span, carrier, scope := TraceUtil.OpenInjectedSpan(tracer, SendSpanName);
    var inScope := tracer.current.value;
    MergeInto(carrier, message);
    tracer.Record(inScope, Tagged(TopicTag, message.topic));
    logAtSend := tracer.log;
    r := invoke(name, Views(args), tracer.current);
    ghost var forwarded := Views(args);
    TraceUtil.CloseInjectedSpan(tracer, span, scope);
    assert Views(args) == forwarded;
    ghost var parent := NextParent(old(tracer.current));
    ghost var tags := [(TopicTag, message.topic)];
    assert TraceUtil.TagEvents(span, tags) == [Event(span, Tagged(TopicTag, message.topic))];
    assert tracer.log == old(tracer.log) + TraceUtil.ProducerEvents(span, SendSpanName, parent, tags);
    TraceUtil.ProducerRecordOf(old(tracer.log), span, SendSpanName, parent, tags);
  }

  /** traceMessage for a collection: one span and one carrier for the whole
      batch, merged into every message; no topic tag. The real producer runs
      with the span in scope. */
  method TraceMessageBatch<R>(tracer: Tracer, messages: seq<Message>, name: string, args: seq<Arg>, invoke: Invoke<R>)
    returns (r: Outcome<R>, ghost logAtSend: seq<Event>)
    requires tracer.Valid()
    modifies tracer, set m | m in messages
    ensures tracer.Valid()
    ensures tracer.current == old(tracer.current) && tracer.nextId == old(tracer.nextId) + 1
    ensures var parent := NextParent(old(tracer.current));
      var s := ContextFor(parent, old(tracer.nextId));
      && (forall i :: 0 <= i < |messages| ==>
            messages[i].properties == Merged(old(messages[i].properties), tracer.injector(s)))
      && r == invoke(name, Views(args), Some(s))
      && logAtSend == old(tracer.log) + TraceUtil.ProducerHead(s, SendSpanName, parent)
      && tracer.log == logAtSend + [Event(s, Finished)]
      && RecordOf(tracer.log, s.spanId) == TraceUtil.ProducerRecord(SendSpanName, parent, [])
  {
    var span, carrier, scope := TraceUtil.OpenInjectedSpan(tracer, SendSpanName);
    MergeIntoEach(carrier, messages);
    logAtSend := tracer.log;
    r := invoke(name, Views(args), tracer.current);
    ghost var forwarded := Views(args);
    TraceUtil.CloseInjectedSpan(tracer, span, scope);
    assert Views(args) == forwarded;
    ghost var parent := NextParent(old(tracer.current));
    assert tracer.log == old(tracer.log) + TraceUtil.ProducerEvents(span, SendSpanName, parent, []);
    TraceUtil.ProducerRecordOf(old(tracer.log), span, SendSpanName, parent, []);
  }

  /** The producer's own copy of injectTraceInfo, identical to TraceUtil's. */
  method InjectTraceInfo<R>(tracer: Tracer, name: string, work: (Carrier, Option<TraceContext>) -> Outcome<R>)
    returns (r: Outcome<R>, ghost logAtWork: seq<Event>)
    requires tracer.Valid()
    modifies tracer
    ensures tracer.Valid()
    ensures tracer.current == old(tracer.current) && tracer.nextId == old(tracer.nextId) + 1
    ensures var parent := NextParent(old(tracer.current));
      var s := ContextFor(parent, old(tracer.nextId));
      && r == work(tracer.injector(s), Some(s))
      && logAtWork == old(tracer.log) + TraceUtil.ProducerHead(s, name, parent)
      && tracer.log == logAtWork + [Event(s, Finished)]
      && RecordOf(tracer.log, s.spanId) == TraceUtil.ProducerRecord(name, parent, [])
  {
    r, logAtWork := TraceUtil.InjectTraceInfo(tracer, name, work);
  }

  /** intercept: trace single and batch sends, forward everything else.
      `logAtSend` is the log when the real producer is invoked on a traced
      path. */
  method Intercept<R>(tracer: Tracer, name: string, args: seq<Arg>, invoke: Invoke<R>)
    returns (r: Outcome<R>, ghost logAtSend: seq<Event>)
    requires tracer.Valid()
    modifies tracer, FirstFootprint(args)
    ensures tracer.Valid() && tracer.current == old(tracer.current)
    ensures Classify(name, args) == MissingFirstArgument ==>
      r == Err(ArrayIndexOutOfBounds) && unchanged(tracer)
    ensures Classify(name, args) == PassThrough ==>
      && r == invoke(name, Views(args), old(tracer.current))
      && unchanged(tracer)
      && forall m :: m in FirstFootprint(args) ==> m.properties == old(m.properties)
    ensures Classify(name, args) == SingleSend ==>
      var m := args[0].message;
      var parent := NextParent(old(tracer.current));
      var s := ContextFor(parent, old(tracer.nextId));
      && tracer.nextId == old(tracer.nextId) + 1
      && m.properties == Merged(old(m.properties), tracer.injector(s))
      && r == invoke(name, Views(args), Some(s))
      && logAtSend == old(tracer.log) + TraceUtil.ProducerHead(s, SendSpanName, parent)
                      + [Event(s, Tagged(TopicTag, m.topic))]
      && tracer.log == logAtSend + [Event(s, Finished)]
      && RecordOf(tracer.log, s.spanId) == TraceUtil.ProducerRecord(SendSpanName, parent, [(TopicTag, m.topic)])
    ensures Classify(name, args) == BatchSend ==>
      var ms := args[0].messages;
      var parent := NextParent(old(tracer.current));
      var s := ContextFor(parent, old(tracer.nextId));
      && tracer.nextId == old(tracer.nextId) + 1
      && (forall i :: 0 <= i < |ms| ==> ms[i].properties == Merged(old(ms[i].properties), tracer.injector(s)))
      && r == invoke(name, Views(args), Some(s))
      && logAtSend == old(tracer.log) + TraceUtil.ProducerHead(s, SendSpanName, parent)
      && tracer.log == logAtSend + [Event(s, Finished)]
      && RecordOf(tracer.log, s.spanId) == TraceUtil.ProducerRecord(SendSpanName, parent, [])
  {
    logAtSend := tracer.log;
    if HasSendPrefix(name) && |args| == 0 {
      // args[0] inside isSendMessageMethod
      r := Err(ArrayIndexOutOfBounds);
    } else if IsSendMessageMethod(name, args) {
      r, logAtSend := TraceMessage(tracer, args[0].message, name, args, invoke);
    } else if IsSendBatchMessageMethod(name, args) {
      r, logAtSend := TraceMessageBatch(tracer, args[0].messages, name, args, invoke);
    } else {
      r := invoke(name, Views(args), tracer.current);
    }
  }
}
