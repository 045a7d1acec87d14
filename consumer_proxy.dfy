/** The consumer interceptor. Only `registerMessageListener` is ever a
    target, and only while the consumer delivers at most one message per
    batch; the listener handed in is then replaced by a tracing wrapper
    before the real consumer registers it. Every other call, and every
    registration on a consumer configured for larger batches, reaches the
    real consumer with its original arguments. */
module ConsumerProxy {
  import opened Base

  const RegisterMethod: string := "registerMessageListener"

  /** A listener object, by what it is: a user's concurrent, orderly or
      other listener, or one of the two tracing wrappers and its delegate.
      This module only decides which listener is registered; what a
      registered tracing wrapper does with each delivery is modelled by the
      datatypes of module TracingListeners, whose `delegate` is the listener
      named here. */
  datatype Listener =
    | UserConcurrently(id: nat)
    | UserOrderly(id: nat)
    | UserOther(id: nat)   // implements MessageListener but neither sub-interface
    | TracingConcurrently(delegate: Listener)
    | TracingOrderly(orderlyDelegate: Option<Listener>)   // the delegate may be null

  /** `instanceof MessageListenerConcurrently` */
  predicate IsConcurrently(l: Listener) {
    l.UserConcurrently? || l.TracingConcurrently?
  }

  /** `instanceof MessageListenerOrderly` */
  predicate IsOrderly(l: Listener) {
    l.UserOrderly? || l.TracingOrderly?
  }

  /** One argument of an intercepted call. */
  datatype Value = Null | ListenerValue(listener: Listener) | OtherValue(id: nat)

  /** The wrapped consumer: a method name and arguments to what it returns or throws. */
  type Invoke<R> = (string, seq<Value>) -> Outcome<R>

  /** isTargetMethod, with its diagnostic made visible: a registration on a
      consumer whose maximum batch size exceeds one is skipped (and logged). */
  datatype Gate = NotTarget | SkippedBatchTooLarge | Target

  function IsTargetMethod(name: string, consumeMessageBatchMaxSize: int): (g: Gate)
    ensures g == Target <==> name == RegisterMethod && consumeMessageBatchMaxSize <= 1
    ensures g == SkippedBatchTooLarge <==> name == RegisterMethod && consumeMessageBatchMaxSize > 1
    ensures g == NotTarget <==> name != RegisterMethod
  {
    if name == RegisterMethod then
      if consumeMessageBatchMaxSize > 1 then SkippedBatchTooLarge else Target
    else NotTarget
  }

  /** What a tracing wrapper wraps; anything else is its own original. */
  function Original(v: Value): Value {
    match v
    case ListenerValue(TracingConcurrently(d)) => ListenerValue(d)
    case ListenerValue(TracingOrderly(Some(d))) => ListenerValue(d)
    case ListenerValue(TracingOrderly(None)) => Null
    case _ => v
  }

  predicate IsTracingWrapper(v: Value) {
    v.ListenerValue? && (v.listener.TracingConcurrently? || v.listener.TracingOrderly?)
  }

  /** The listener substitution as written: a concurrent listener is wrapped
      for concurrent delivery; anything else is cast to the tracing orderly
      wrapper class, which only null and an already wrapped orderly listener
      survive. */
  function WrapListener(arg: Value): (r: Outcome<Value>)
    ensures r.Ok? <==>
      arg == Null || (arg.ListenerValue? && (IsConcurrently(arg.listener) || arg.listener.TracingOrderly?))
    ensures r.Ok? ==> IsTracingWrapper(r.value) && Original(r.value) == arg
    ensures r.Ok? ==> (r.value.listener.TracingConcurrently? <==> arg.ListenerValue? && IsConcurrently(arg.listener))
    ensures r.Err? ==> r.thrown == ClassCast
  {
    if arg.ListenerValue? && IsConcurrently(arg.listener) then
      Ok(ListenerValue(TracingConcurrently(arg.listener)))
    else if arg == Null then
      Ok(ListenerValue(TracingOrderly(None)))
    else if arg.ListenerValue? && arg.listener.TracingOrderly? then
      Ok(ListenerValue(TracingOrderly(Some(arg.listener))))
    else
      Err(ClassCast)
  }

  /** The substitution the code evidently means: a cast to
      MessageListenerOrderly, so that every orderly listener is wrapped. */
  function WrapListenerIntended(arg: Value): (r: Outcome<Value>)
    ensures r.Ok? <==>
      arg == Null || (arg.ListenerValue? && (IsConcurrently(arg.listener) || IsOrderly(arg.listener)))
    ensures r.Ok? ==> IsTracingWrapper(r.value) && Original(r.value) == arg
    ensures r.Err? ==> r.thrown == ClassCast
  {
    if arg.ListenerValue? && IsConcurrently(arg.listener) then
      Ok(ListenerValue(TracingConcurrently(arg.listener)))
    else if arg == Null then
      Ok(ListenerValue(TracingOrderly(None)))
    else if arg.ListenerValue? && IsOrderly(arg.listener) then
      Ok(ListenerValue(TracingOrderly(Some(arg.listener))))
    else
      Err(ClassCast)
  }

  /** intercept: what reaches the wrapped consumer, and what comes back. */
  function Intercept<R>(name: string, consumeMessageBatchMaxSize: int, args: seq<Value>, invoke: Invoke<R>): (r: Outcome<R>)
    ensures IsTargetMethod(name, consumeMessageBatchMaxSize) != Target ==> r == invoke(name, args)
    ensures IsTargetMethod(name, consumeMessageBatchMaxSize) == Target ==>
      if |args| == 0 then r == Err(ArrayIndexOutOfBounds)
      else if WrapListener(args[0]).Ok? then r == invoke(name, [WrapListener(args[0]).value])
      else r == Err(ClassCast)
  {
    if IsTargetMethod(name, consumeMessageBatchMaxSize) == Target then
      if |args| == 0 then Err(ArrayIndexOutOfBounds)
      else
        match WrapListener(args[0])
        case Ok(wrapper) => invoke(name, [wrapper])
        case Err(e) => Err(e)
    else invoke(name, args)
  }

  /** Intercept with the intended cast. */
  function InterceptIntended<R>(name: string, consumeMessageBatchMaxSize: int, args: seq<Value>, invoke: Invoke<R>): (r: Outcome<R>)
    ensures IsTargetMethod(name, consumeMessageBatchMaxSize) != Target ==> r == invoke(name, args)
    ensures IsTargetMethod(name, consumeMessageBatchMaxSize) == Target ==>
      if |args| == 0 then r == Err(ArrayIndexOutOfBounds)
      else if WrapListenerIntended(args[0]).Ok? then r == invoke(name, [WrapListenerIntended(args[0]).value])
      else r == Err(ClassCast)
  {
    if IsTargetMethod(name, consumeMessageBatchMaxSize) == Target then
      if |args| == 0 then Err(ArrayIndexOutOfBounds)
      else
        match WrapListenerIntended(args[0])
        case Ok(wrapper) => invoke(name, [wrapper])
        case Err(e) => Err(e)
    else invoke(name, args)
  }

  // ---------------------------------------------------------------------
  // Properties
  // ---------------------------------------------------------------------

  /** Batch-size gating for a concurrent listener: above one message per
      batch the listener is registered as it is; at or below one, the real
      consumer registers a tracing wrapper around that very listener. */
  lemma BatchSizeGating<R>(l: Listener, consumeMessageBatchMaxSize: int, invoke: Invoke<R>)
    requires IsConcurrently(l)
    ensures consumeMessageBatchMaxSize > 1 ==>
      && IsTargetMethod(RegisterMethod, consumeMessageBatchMaxSize) == SkippedBatchTooLarge
      && Intercept(RegisterMethod, consumeMessageBatchMaxSize, [ListenerValue(l)], invoke)
         == invoke(RegisterMethod, [ListenerValue(l)])
    ensures consumeMessageBatchMaxSize <= 1 ==>
      Intercept(RegisterMethod, consumeMessageBatchMaxSize, [ListenerValue(l)], invoke)
      == invoke(RegisterMethod, [ListenerValue(TracingConcurrently(l))])
  {
  }

  /** Whenever the real consumer is handed a substituted listener, it is a
      tracing wrapper whose delegate is the caller's own listener; otherwise
      it is handed the caller's arguments unchanged. */
  lemma RegisteredListenerDelegatesToCaller<R>(name: string, consumeMessageBatchMaxSize: int, args: seq<Value>, invoke: Invoke<R>)
    ensures
      || Intercept(name, consumeMessageBatchMaxSize, args, invoke) == invoke(name, args)
      || (exists w :: IsTracingWrapper(w) && |args| > 0 && Original(w) == args[0]
            && Intercept(name, consumeMessageBatchMaxSize, args, invoke) == invoke(name, [w]))
      || Intercept(name, consumeMessageBatchMaxSize, args, invoke) == Err(ArrayIndexOutOfBounds)
      || Intercept(name, consumeMessageBatchMaxSize, args, invoke) == Err(ClassCast)
  {
    if IsTargetMethod(name, consumeMessageBatchMaxSize) == Target && |args| > 0 && WrapListener(args[0]).Ok? {
      var w := WrapListener(args[0]).value;
      assert IsTracingWrapper(w) && Original(w) == args[0];
    }
  }

  /** As written, registering a plain orderly listener on a traced consumer
      throws ClassCastException and the consumer never registers anything. */
  lemma PlainOrderlyListenerRejected<R>(id: nat, consumeMessageBatchMaxSize: int, invoke: Invoke<R>)
    requires consumeMessageBatchMaxSize <= 1
    ensures WrapListener(ListenerValue(UserOrderly(id))) == Err(ClassCast)
    ensures Intercept(RegisterMethod, consumeMessageBatchMaxSize, [ListenerValue(UserOrderly(id))], invoke) == Err(ClassCast)
  {
  }

  /** With the intended cast, every listener of either delivery mode is
      registered inside a tracing wrapper of its own mode, with itself as
      delegate, and the cast can only fail for a listener of neither mode. */
  lemma IntendedWrapsEveryListener<R>(l: Listener, consumeMessageBatchMaxSize: int, invoke: Invoke<R>)
    requires consumeMessageBatchMaxSize <= 1
    ensures IsConcurrently(l) ==>
      InterceptIntended(RegisterMethod, consumeMessageBatchMaxSize, [ListenerValue(l)], invoke)
      == invoke(RegisterMethod, [ListenerValue(TracingConcurrently(l))])
    ensures IsOrderly(l) ==>
      InterceptIntended(RegisterMethod, consumeMessageBatchMaxSize, [ListenerValue(l)], invoke)
      == invoke(RegisterMethod, [ListenerValue(TracingOrderly(Some(l)))])
    ensures WrapListenerIntended(ListenerValue(l)).Err? <==> l.UserOther?
  {
  }
}
