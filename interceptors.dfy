/**
 * The interceptors a packet can be handed to. TestInterceptor is the test
 * project's global interceptor; Custom stands for an InterceptorAttribute
 * subclass placed on a method or a type. Each has a pure effect on the
 * packet's view and an imperative `Invoke` proved to have that effect.
 */
module Interceptors {
  import opened Reflection
  import opened Arguments
  import opened Fixtures

  /** A view that came from a packet built for its method: one argument per parameter. */
  predicate WellFormed(v: PacketView) {
    |v.arguments| == |v.target.params|
  }

  // ---- TestInterceptor ----

  /** The first branch: an ITestService target whose second parameter is a string. */
  predicate RewritesToTen(v: PacketView) {
    var types := ParameterTypes(v.target);
    InstanceOf(v.proxyObject, ITestServiceType) && |types| > 1 && types[1] == StringType
  }

  /** The second branch, tried only when the first does not apply. */
  predicate RewritesToTwenty(v: PacketView)
    requires WellFormed(v)
  {
    var types := ParameterTypes(v.target);
    InstanceOf(v.proxyObject, ITest1ServiceType) && |v.arguments| > 1 && types[1] == StringType
  }

  /** The result override: an ITestService target declared to return int. */
  predicate OverridesResult(v: PacketView) {
    InstanceOf(v.proxyObject, ITestServiceType) && v.target.returnType == IntType
  }

  function TestArguments(v: PacketView): seq<Value>
    requires WellFormed(v)
  {
    if RewritesToTen(v) then v.arguments[1 := Str("10")]
    else if RewritesToTwenty(v) then v.arguments[1 := Str("20")]
    else v.arguments
  }

  /** What TestInterceptor.Invoke does to a packet. */
  function TestEffect(v: PacketView): PacketView
    requires WellFormed(v)
  {
    var invoked := AfterInvoke(v.(arguments := TestArguments(v)));
    if OverridesResult(v) then invoked.(result := Int(55)) else invoked
  }

  /**
   * TestInterceptor: the second argument is rewritten to "10" (ITestService) or
   * "20" (ITest1Service) when it is a string, every other argument is kept, the
   * original runs exactly once with the rewritten arguments, and the result is
   * forced to 55 only for an ITestService method declared to return int.
   */
  lemma TestEffectContract(v: PacketView)
    requires WellFormed(v)
    ensures var w := TestEffect(v);
      && w.target == v.target && w.proxyObject == v.proxyObject
      && |w.arguments| == |v.arguments|
      && (forall k :: 0 <= k < |v.arguments| && k != 1 ==> w.arguments[k] == v.arguments[k])
      && (RewritesToTen(v) ==> w.arguments[1] == Str("10"))
      && (!RewritesToTen(v) && RewritesToTwenty(v) ==> w.arguments[1] == Str("20"))
      && (!RewritesToTen(v) && !RewritesToTwenty(v) ==> w.arguments == v.arguments)
      && w.calls == v.calls + [w.arguments]
      && w.result == (if OverridesResult(v) then Int(55) else Execute(v.target, w.arguments))
  {
  }

  /** Task<int> is not int: an async ITestService method keeps the original's result. */
  lemma TaskOfIntIsNotOverridden(v: PacketView)
    requires WellFormed(v) && v.target.returnType == TaskOf(IntType)
    ensures TestEffect(v).result == Execute(v.target, TestArguments(v))
  {
    assert TaskOf(IntType).generic != IntType.generic;
  }

  method TestInterceptorInvoke(args: Packet)
    requires args.Valid()
    modifies args.Frame(), args.ArgumentsArray()
    ensures args.ArgumentsArray() == old(args.ArgumentsArray())
    ensures args.View() == TestEffect(old(args.View()))
  {
    ghost var v := args.View();
    var types := args.ParameterTypes();
    if InstanceOf(args.ProxyObject(), ITestServiceType) && |types| > 1 && types[1] == StringType {
      args.SetArgument(1, Str("10"));
    } else if InstanceOf(args.ProxyObject(), ITest1ServiceType) && args.ArgumentsArray().Length > 1 && types[1] == StringType {
      args.SetArgument(1, Str("20"));
    }
    assert args.View() == v.(arguments := TestArguments(v));
    var result := args.Invoke();
    if InstanceOf(args.ProxyObject(), ITestServiceType) && args.Method().returnType == IntType {
      args.SetResult(Int(55));
    }
  }

  // ---- Custom interceptors ----

  /** Argument rewrites applied in order; an index past the end is skipped. */
  function ApplyRewrites(arguments: seq<Value>, rewrites: seq<Rewrite>): (r: seq<Value>)
    decreases |rewrites|
    ensures |r| == |arguments|
  {
    if |rewrites| == 0 then arguments
    else
      var before := ApplyRewrites(arguments, rewrites[..|rewrites| - 1]);
      var last := rewrites[|rewrites| - 1];
      if last.index < |before| then before[last.index := last.value] else before
  }

  /** `n` runs of the original with unchanged arguments. */
  function InvokeTimes(v: PacketView, n: nat): (w: PacketView)
    ensures w.target == v.target && w.proxyObject == v.proxyObject && w.arguments == v.arguments
  {
    if n == 0 then v else AfterInvoke(InvokeTimes(v, n - 1))
  }

  lemma {:induction false} InvokeTimesRunsOriginal(v: PacketView, n: nat)
    ensures |InvokeTimes(v, n).calls| == |v.calls| + n
    ensures InvokeTimes(v, n).calls[..|v.calls|] == v.calls
    ensures forall k :: |v.calls| <= k < |v.calls| + n ==> InvokeTimes(v, n).calls[k] == v.arguments
    ensures n > 0 ==> InvokeTimes(v, n).result == Execute(v.target, v.arguments)
    ensures n == 0 ==> InvokeTimes(v, n) == v
  {
    if n > 0 {
      InvokeTimesRunsOriginal(v, n - 1);
      var before := InvokeTimes(v, n - 1);
      assert InvokeTimes(v, n).calls == before.calls + [v.arguments];
    }
  }

  function CustomEffect(rewrites: seq<Rewrite>, invokes: nat, result: Option<Value>, v: PacketView): PacketView {
    var invoked := InvokeTimes(v.(arguments := ApplyRewrites(v.arguments, rewrites)), invokes);
    if result.Some? then invoked.(result := result.value) else invoked
  }

  method CustomInvoke(rewrites: seq<Rewrite>, invokes: nat, result: Option<Value>, args: Packet)
    modifies args.Frame(), args.ArgumentsArray()
    ensures args.ArgumentsArray() == old(args.ArgumentsArray())
    ensures args.View() == CustomEffect(rewrites, invokes, result, old(args.View()))
  {
    ghost var v := args.View();
    for j := 0 to |rewrites|
      invariant args.ArgumentsArray() == old(args.ArgumentsArray())
      invariant args.View() == v.(arguments := ApplyRewrites(v.arguments, rewrites[..j]))
    {
      assert rewrites[..j + 1][..j] == rewrites[..j];
      if rewrites[j].index < args.ArgumentsArray().Length {
        args.SetArgument(rewrites[j].index, rewrites[j].value);
      }
    }
    assert rewrites[..|rewrites|] == rewrites;
    ghost var rewritten := args.View();
    for n := 0 to invokes
      invariant args.ArgumentsArray() == old(args.ArgumentsArray())
      invariant args.View() == InvokeTimes(rewritten, n)
    {
      var _ := args.Invoke();
    }
    if result.Some? {
      args.SetResult(result.value);
    }
  }

  // ---- Dispatch to an interceptor ----

  /** What `interceptor.Invoke(arguments)` does to the packet. */
  function Effect(i: InterceptorRef, v: PacketView): PacketView
    requires WellFormed(v)
  {
    match i
    case TestInterceptor => TestEffect(v)
    case Custom(rewrites, invokes, result) => CustomEffect(rewrites, invokes, result, v)
  }

  /** No interceptor changes which method or object a packet is about, nor how many arguments it has. */
  lemma EffectKeepsTarget(i: InterceptorRef, v: PacketView)
    requires WellFormed(v)
    ensures Effect(i, v).target == v.target && Effect(i, v).proxyObject == v.proxyObject
    ensures WellFormed(Effect(i, v))
  {
  }

  method Run(i: InterceptorRef, args: Packet)
    requires args.Valid()
    modifies args.Frame(), args.ArgumentsArray()
    ensures args.ArgumentsArray() == old(args.ArgumentsArray())
    ensures args.View() == Effect(i, old(args.View()))
  {
    match i
    case TestInterceptor => TestInterceptorInvoke(args);
    case Custom(rewrites, invokes, result) => CustomInvoke(rewrites, invokes, result, args);
  }
}
