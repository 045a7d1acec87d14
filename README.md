# Zipkin tracing for RocketMQ, modelled in Dafny

This project models the tracing layer of `zipkin-spring-boot-starter`. That layer puts Brave spans around RocketMQ producers and consumers. The model has four parts:

- **Span lifecycle helpers** (`TraceUtil`), in `trace_util.dfy`:
  - `newTrace` and `newChildTrace`, each in its with-result and no-result overload;
  - `extractTraceInfo`, which opens a CONSUMER span whose parent is read from message properties;
  - `injectTraceInfo`, which opens a PRODUCER span and fills a fresh carrier map from it.
- **The producer interceptor**, in `producer_proxy.dfy`:
  - it sorts each call on the producer into a single send, a batch send or a pass-through;
  - it merges the carrier into the user properties of every message being sent, in place;
  - it tags the single-send span with the topic;
  - it forwards the original, now annotated, arguments.
- **The consumer interceptor**, in `consumer_proxy.dfy`. It replaces the listener given to `registerMessageListener` with a tracing wrapper. It does so only while the consumer takes at most one message per batch.
- **The two listener wrappers**, in `listeners.dfy`. Each continues the trace of the first delivered message and hands that message alone to the wrapped listener.

The Brave tracer is modelled abstractly, in `tracing.dfy`, as a class `Tracer` with three pieces of state:

- an append-only log of span events;
- one ambient "span in scope" slot;
- a counter that hands out span ids.

The propagation codec is a pair of functions fixed when the tracer is built. What a span looks like in the end is a fold of the log, `RecordOf`:

- its name and parent;
- its kind;
- its tags;
- its annotations;
- its error;
- how many times it was finished.

Work passed to a helper, the real producer, the real consumer and the delegate listeners are pure function parameters. Each returns `Ok(value)` or `Err(thrown)`. The work, the real producer and the delegate listeners are also given the span in scope while they run. Each helper returns, as a ghost value, the log at the moment its callee runs, so its contract states which events come before the callee and which after. A thrown value carries its family: RuntimeException, checked Exception or Error. The family decides which `catch` clause sees it. Each helper is proved against two specifications:

- the exact events it appends (`LifecycleEvents`, `ConsumerEvents`, `ProducerEvents`);
- the record those events give the new span (`LifecycleRecord`, `ConsumerRecord`, `ProducerRecord`).

### Where the behaviour is subtle

Everything below follows the code:

- `newTrace` and `newChildTrace` record an error only for a RuntimeException. A checked exception or an Error still passes through and the span is still finished, but no error is recorded.
- `extractTraceInfo` records any Exception, but no Error.
- `injectTraceInfo` records no error at all.
- In the `finally` block of `newTrace` and `newChildTrace`, the order is: the `thread` tag, then the `<name>.finish` annotation, then `finish`.
- The consumer gate skips tracing only when the batch size is greater than 1. Sizes of 1, 0 and negative sizes are all traced.
- A listener wrapper given an empty message list fails on `msgs.get(0)` and creates no span.
- On the producer side, a `send`/`request` call with no arguments fails on `args[0]` before anything is traced.

## Model

| member | source | states |
|---|---|---|
| Tracing.ContextFor | src/main/java/top/liumian/zipkin/util/TraceUtil.java:137 | a span started under a parent stays in that parent's trace; a root opens a trace whose id is its own span id |
| Tracing.NextParent | src/main/java/top/liumian/zipkin/util/TraceUtil.java:80 | `nextSpan` gives a child of the span in scope, and a root exactly when no span is in scope |
| Tracing.ReplayAppend | src/main/java/top/liumian/zipkin/util/TraceUtil.java:31-41 | folding a log in two pieces gives the same span record as folding it whole, so the span operations can be reasoned about one by one |
| Tracing.ReplayIgnoresOthers | src/main/java/top/liumian/zipkin/util/TraceUtil.java:31-41 | operations on other spans leave a span's record unchanged |
| Tracing.FreshRecord | src/main/java/top/liumian/zipkin/util/TraceUtil.java:31-41 | a span whose id the log never mentioned gets the record of its own events alone |
| Tracing.Tracer.Start | src/main/java/top/liumian/zipkin/util/TraceUtil.java:31 | starting a span hands out a fresh id, logs the start with its name and parent, and keeps every logged id below the counter |
| Tracing.Tracer.NewTrace | src/main/java/top/liumian/zipkin/util/TraceUtil.java:31 | `newTrace()` starts a root whatever is in scope |
| Tracing.Tracer.NextSpan | src/main/java/top/liumian/zipkin/util/TraceUtil.java:80 | `nextSpan()` starts a child of the span in scope, or a root |
| Tracing.Tracer.NewChild | src/main/java/top/liumian/zipkin/util/TraceUtil.java:137 | `newChild(context)` starts a child of an extracted context |
| Tracing.Tracer.Record | src/main/java/top/liumian/zipkin/util/TraceUtil.java:32 | one span operation is appended to the log; nothing else changes |
| Tracing.Tracer.WithSpanInScope | src/main/java/top/liumian/zipkin/util/TraceUtil.java:33 | the span becomes current and the previous one is saved |
| Tracing.Tracer.CloseScope | src/main/java/top/liumian/zipkin/util/TraceUtil.java:33 | closing the scope restores the saved span |
| TraceUtil.ReplayTags | src/main/java/top/liumian/zipkin/core/mq/producer/TracingProducerProxyFactory.java:93 | tags applied in order are appended to the span's tags in that order |
| TraceUtil.LifecycleRecordOf | src/main/java/top/liumian/zipkin/util/TraceUtil.java:31-41 | a lifecycle span has the name and parent it was started with and the annotations `<name>.start` then `<name>.finish`; it has only the `thread` tag and is finished exactly once; its error is set exactly when the work threw a RuntimeException, and is then that exception |
| TraceUtil.ConsumerRecordOf | src/main/java/top/liumian/zipkin/util/TraceUtil.java:133-149 | a consumer span has kind CONSUMER and no tags or annotations, and is finished exactly once; its error is set exactly when the work threw an Exception that is not an Error |
| TraceUtil.ProducerRecordOf | src/main/java/top/liumian/zipkin/util/TraceUtil.java:164-173 | a producer span has kind PRODUCER and exactly the tags added while it was in scope; it never has an error and is finished exactly once |
| TraceUtil.ChooseParent | src/main/java/top/liumian/zipkin/util/TraceUtil.java:132-141 | null or empty properties give a root; the span is a child of an extracted context if and only if the properties are non-empty and the extractor yields a context, and then of exactly that context; otherwise it is a root; the span in scope is never the parent |
| TraceUtil.NewTrace | src/main/java/top/liumian/zipkin/util/TraceUtil.java:29-43 | a root span is opened whatever is in scope; the work runs with that span in scope (it is given the span and sees it as the current span), when the log holds exactly the start and `<name>.start` and nothing of the end; its result or exception is returned unchanged; after it the log gains exactly the catch and finally events, the span gets the lifecycle record, and the span in scope is restored |
| TraceUtil.NewTraceNoResult | src/main/java/top/liumian/zipkin/util/TraceUtil.java:52-66 | the same as NewTrace, for work that returns nothing |
| TraceUtil.NewChildTrace | src/main/java/top/liumian/zipkin/util/TraceUtil.java:78-92 | the same as NewTrace, with a child of the span in scope (or a root when none is) as the new span |
| TraceUtil.NewChildTraceNoResult | src/main/java/top/liumian/zipkin/util/TraceUtil.java:102-116 | the same as NewChildTrace, for work that returns nothing |
| TraceUtil.RunTraced | src/main/java/top/liumian/zipkin/util/TraceUtil.java:32-42 | the start annotation is logged before the work; the work runs with the span in scope; only after it come the recorded RuntimeException, if any, then the `thread` tag, the finish annotation and the finish, in that order |
| TraceUtil.RunScoped | src/main/java/top/liumian/zipkin/util/TraceUtil.java:143-144 | the work runs with the span in scope and the scope is closed after it, leaving the log and the span in scope as they were |
| TraceUtil.StartConsumerSpan | src/main/java/top/liumian/zipkin/util/TraceUtil.java:132-141 | the span started is a root or a child exactly as ChooseParent decides, under a fresh id, and its start is logged with that parent |
| TraceUtil.ExtractTraceInfo | src/main/java/top/liumian/zipkin/util/TraceUtil.java:128-151 | the span's parent is ChooseParent of the properties; the work runs with that span in scope, once its start and kind CONSUMER are logged; its outcome is returned unchanged; after it the log gains exactly the error, if caught, and the finish; the span gets the consumer record, and the span in scope is restored |
| TraceUtil.OpenInjectedSpan | src/main/java/top/liumian/zipkin/util/TraceUtil.java:163-169 | a child of the span in scope is started; a fresh carrier is filled from exactly that span's context; the span is marked PRODUCER and put in scope |
| TraceUtil.CloseInjectedSpan | src/main/java/top/liumian/zipkin/util/TraceUtil.java:169-173 | the scope is closed and the span finished, whatever the work did |
| TraceUtil.InjectTraceInfo | src/main/java/top/liumian/zipkin/util/TraceUtil.java:162-174 | the work receives exactly the carrier injected from the new span and runs with that span in scope, once its start and kind PRODUCER are logged; its outcome is returned unchanged; after it only the finish is logged, and the span gets the producer record, with no error even when the work throws |
| ProducerProxy.Message.PutUserProperty | src/main/java/top/liumian/zipkin/core/mq/producer/TracingProducerProxyFactory.java:92 | one property is set and every other property is left alone |
| ProducerProxy.Classify | src/main/java/top/liumian/zipkin/core/mq/producer/TracingProducerProxyFactory.java:48-87 | a call is a single send if and only if its name starts with `send` or `request` and its first argument is a message; it is a batch send if and only if it has that prefix and a collection comes first; a prefixed call with no arguments fails; every other call passes through; each call falls in exactly one class |
| ProducerProxy.Merged | src/main/java/top/liumian/zipkin/core/mq/producer/TracingProducerProxyFactory.java:92 | after the merge, every carrier entry is present, overwriting a property with the same key; no other key is added, removed or changed |
| ProducerProxy.MergeInto | src/main/java/top/liumian/zipkin/core/mq/producer/TracingProducerProxyFactory.java:92 | putting the carrier's entries one by one, in any key order, leaves the message properties equal to Merged |
| ProducerProxy.MergeIntoEach | src/main/java/top/liumian/zipkin/core/mq/producer/TracingProducerProxyFactory.java:100 | every message of the collection ends up with its properties merged with the one carrier, including a message listed twice |
| ProducerProxy.TraceMessage | src/main/java/top/liumian/zipkin/core/mq/producer/TracingProducerProxyFactory.java:89-96 | one `MQ/SEND` PRODUCER span; the message properties become Merged with that span's carrier; the span in scope is tagged `mq.topic` with the message's topic before the real producer is invoked; the real producer runs with the span in scope, on the arguments as they are after the merge, and its outcome is returned; only the finish is logged after it |
| ProducerProxy.TraceMessageBatch | src/main/java/top/liumian/zipkin/core/mq/producer/TracingProducerProxyFactory.java:98-103 | one `MQ/SEND` PRODUCER span for the whole batch; its one carrier is merged into every message; there is no topic tag; the real producer runs with the span in scope on the annotated arguments, and its outcome is returned; only the finish is logged after it |
| ProducerProxy.InjectTraceInfo | src/main/java/top/liumian/zipkin/core/mq/producer/TracingProducerProxyFactory.java:115-127 | the producer's own injectTraceInfo behaves exactly as TraceUtil.InjectTraceInfo |
| ProducerProxy.Intercept | src/main/java/top/liumian/zipkin/core/mq/producer/TracingProducerProxyFactory.java:48-56 | pass-through calls reach the real producer with the original arguments and the caller's span in scope, and no span and no message changes; a single or batch send is traced as in TraceMessage and TraceMessageBatch (the same merge, log before and after the send, span record and id) and returns the real producer's outcome; a prefixed call with no arguments throws ArrayIndexOutOfBoundsException and traces nothing |
| ConsumerProxy.IsTargetMethod | src/main/java/top/liumian/zipkin/core/mq/consumer/TracingConsumerProxyFactory.java:64-76 | a call is a target if and only if it is `registerMessageListener` and the batch size is at most 1; the registration is skipped (and logged) if and only if the batch size is above 1 |
| ConsumerProxy.WrapListener | src/main/java/top/liumian/zipkin/core/mq/consumer/TracingConsumerProxyFactory.java:48-51 | a concurrent listener gets a concurrent tracing wrapper around itself; the cast succeeds exactly for null, a concurrent listener or an already wrapped orderly listener; when it succeeds, the wrapper's delegate is the original argument; otherwise it throws ClassCastException |
| ConsumerProxy.Intercept | src/main/java/top/liumian/zipkin/core/mq/consumer/TracingConsumerProxyFactory.java:46-56 | a call that is not a target reaches the real consumer with its original arguments; a target call reaches it with the wrapped listener, or throws what the cast threw |
| ConsumerProxy.BatchSizeGating | src/main/java/top/liumian/zipkin/core/mq/consumer/TracingConsumerProxyFactory.java:66-71 | above one message per batch a concurrent listener is registered unchanged; at one or below, including 0 and negative sizes, it is registered inside a tracing wrapper whose delegate is itself |
| ConsumerProxy.RegisteredListenerDelegatesToCaller | src/main/java/top/liumian/zipkin/core/mq/consumer/TracingConsumerProxyFactory.java:46-56 | the real consumer receives either the caller's own arguments, or a tracing wrapper around the caller's listener; otherwise the call fails with one of the two exceptions |
| ConsumerProxy.PlainOrderlyListenerRejected | src/main/java/top/liumian/zipkin/core/mq/consumer/TracingConsumerProxyFactory.java:51 | as written, registering a plain orderly listener throws ClassCastException and registers nothing |
| ConsumerProxy.WrapListenerIntended | src/main/java/top/liumian/zipkin/core/mq/consumer/TracingConsumerProxyFactory.java:48-51 | with a cast to MessageListenerOrderly, every listener of either mode, and null, is wrapped with itself as delegate |
| ConsumerProxy.InterceptIntended | src/main/java/top/liumian/zipkin/core/mq/consumer/TracingConsumerProxyFactory.java:46-56 | Intercept with the intended cast |
| ConsumerProxy.IntendedWrapsEveryListener | src/main/java/top/liumian/zipkin/core/mq/consumer/TracingConsumerProxyFactory.java:48-51 | with the intended cast, a concurrent listener gets a concurrent wrapper and an orderly listener an orderly wrapper, each around itself; the cast fails only for a listener of neither mode |
| TracingListeners.TracingMessageListenerConcurrently.ConsumeMessage | src/main/java/top/liumian/zipkin/core/mq/consumer/TracingMessageListenerConcurrently.java:28-31 | an empty list throws IndexOutOfBoundsException and touches no span; otherwise the delegate gets the first message alone with the unchanged context, and runs with the `MQ/CONSUME` CONSUMER span in scope, once its start and kind are logged; the span's parent is chosen from that message's properties; the delegate's status is returned verbatim |
| TracingListeners.TracingMessageListenerOrderly.ConsumeMessage | src/main/java/top/liumian/zipkin/core/mq/consumer/TracingMessageListenerOrderly.java:29-32 | the same, for orderly delivery and its status |
| TracingListeners.ConsumerJoinsProducerTrace | src/main/java/top/liumian/zipkin/util/TraceUtil.java:132-141 | assume the codec's extractor recovers the injected context from the properties the producer merged its non-empty carrier into; then the consumer span is a child of the producer span, in the same trace, with a span id of its own |

## Left out

- Proxy generation is not modelled: CGLIB's `Enhancer` and `getProxy` in both factories and in `TracingProxyFactory`. Only the `intercept` callbacks are modelled.
- Reflective `Method.invoke` is modelled as a plain call of the real client. Its wrapping of a thrown exception in `InvocationTargetException` is not modelled.
- Brave is not modelled:
  - the B3 codec, which is only a pair of opaque functions;
  - trace and span id generation, which here is a counter;
  - sampling;
  - span reporting;
  - timestamps.
- The consumer-to-producer round trip of the codec is an assumption of `TracingListeners.ConsumerJoinsProducerTrace`, not a property proved about Brave.
- The thread-local scope is one ambient slot. Threads are not modelled, and the `thread` tag's value is an opaque parameter.
- Logging is not modelled. The skipped registration is visible only as the `SkippedBatchTooLarge` gate.
- The work, the real producer and the delegate listeners cannot act on the tracer. They are given the span in scope, which is what their `currentSpan()` reads return, but spans they open themselves, or tags they add to the span in scope, are not modelled; the only tag added in scope is the topic tag of a single send.
- RocketMQ's own checks on user property names are not modelled; neither is anything of a message beyond its topic and properties.
- Null elements inside a batch collection are not modelled. A message listed twice is modelled.
- The test classes are not modelled. They need a live name server.
- `SendMessageFunction` and `TracingFunction` are not modelled apart from the work parameters: they are only function types.

## Findings

| source | as written | input that shows it | evidently intended | confidence | as-written member | corrected member |
|---|---|---|---|---|---|---|
| src/main/java/top/liumian/zipkin/core/mq/consumer/TracingConsumerProxyFactory.java:51 | any listener that is not concurrent is cast to `TracingMessageListenerOrderly` | `registerMessageListener(l)`, where `l` is a user's own `MessageListenerOrderly` and the batch size is 1: the call throws ClassCastException and nothing is registered | cast to `MessageListenerOrderly`, so that every orderly listener is wrapped | high, from reading the code; not executed | ConsumerProxy.PlainOrderlyListenerRejected | ConsumerProxy.IntendedWrapsEveryListener |
