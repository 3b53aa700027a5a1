/**
 * The call packets an interceptor receives: InterceptorArguments (a call that
 * arrives through an interface proxy, carrying the target MethodInfo) and
 * ClassInterceptorArguments (a call that arrives through a subclass proxy,
 * carrying a delegate bound to the base implementation). Both expose the
 * IArguments contract; `Packet` is that contract over the two classes.
 */
module Arguments {
  import opened Reflection

  /** A packet's observable state: what an interceptor can read and change. */
  datatype PacketView = PacketView(
    target: MethodDesc,
    proxyObject: Instance,
    arguments: seq<Value>,
    result: Value,
    calls: seq<seq<Value>>)   // the argument lists the original method was run with, oldest first

  /** The view after one run of the original method with the packet's current arguments. */
  function AfterInvoke(v: PacketView): (w: PacketView)
    ensures w.result == Execute(v.target, v.arguments)
    ensures w.calls == v.calls + [v.arguments] && |w.calls| == |v.calls| + 1
    ensures w.target == v.target && w.proxyObject == v.proxyObject && w.arguments == v.arguments
  {
    v.(result := Execute(v.target, v.arguments), calls := v.calls + [v.arguments])
  }

  class InterceptorArguments {
    var Method: MethodDesc
    var Arguments: array<Value>
    var ProxyObject: Instance
    var Result: Value
    /** The argument lists `Method` has been invoked with, oldest first. */
    ghost var Calls: seq<seq<Value>>

    constructor (targetMethod: MethodDesc, proxyObject: Instance, arguments: array<Value>)
      ensures Method == targetMethod && ProxyObject == proxyObject && Arguments == arguments
      ensures Result == Null && Calls == []
    {
      Method := targetMethod;
      ProxyObject := proxyObject;
      Arguments := arguments;
      Result := Null;
      Calls := [];
    }

    /** TargetType: the type that declares the target method. */
    function TargetType(): Ty
      reads this
    {
      Method.declaringType
    }

    /** SetResult: only Result changes. */
    method SetResult(val: Value)
      modifies this
      ensures Result == val
      ensures Method == old(Method) && Arguments == old(Arguments) && ProxyObject == old(ProxyObject)
      ensures Calls == old(Calls) && TargetType() == old(TargetType())
    {
      Result := val;
    }

    /** Invoke: runs Method on ProxyObject with the current Arguments, stores the value in Result and returns it. */
    method Invoke() returns (r: Value)
      modifies this
      ensures r == Result && Result == Execute(Method, Arguments[..])
      ensures Calls == old(Calls) + [Arguments[..]]
      ensures Method == old(Method) && Arguments == old(Arguments) && ProxyObject == old(ProxyObject)
      ensures TargetType() == old(TargetType())
    {
      Result := Execute(Method, Arguments[..]);
      Calls := Calls + [Arguments[..]];
      r := Result;
    }
  }

  /** A delegate: the method it wraps (`target`) and the object it is bound to (`receiver`). */
  datatype DelegateValue = DelegateValue(target: MethodDesc, receiver: Instance)

  class ClassInterceptorArguments {
    var Delegate: DelegateValue
    var Arguments: array<Value>
    var ProxyObject: Instance
    var Result: Value
    ghost var Calls: seq<seq<Value>>

    constructor (delegate: DelegateValue, proxyObject: Instance, arguments: array<Value>)
      ensures Delegate == delegate && ProxyObject == proxyObject && Arguments == arguments
      ensures Result == Null && Calls == []
    {
      Delegate := delegate;
      ProxyObject := proxyObject;
      Arguments := arguments;
      Result := Null;
      Calls := [];
    }

    /** Method: always the delegate's method. */
    function Method(): MethodDesc
      reads this
    {
      Delegate.target
    }

    function TargetType(): Ty
      reads this
    {
      Method().declaringType
    }

    method SetResult(val: Value)
      modifies this
      ensures Result == val
      ensures Delegate == old(Delegate) && Arguments == old(Arguments) && ProxyObject == old(ProxyObject)
      ensures Calls == old(Calls) && Method() == old(Method()) && TargetType() == old(TargetType())
    {
      Result := val;
    }

    /** Invoke: Delegate.DynamicInvoke with the current (possibly rewritten) Arguments. */
    method Invoke() returns (r: Value)
      modifies this
      ensures r == Result && Result == Execute(Delegate.target, Arguments[..])
      ensures Calls == old(Calls) + [Arguments[..]]
      ensures Delegate == old(Delegate) && Arguments == old(Arguments) && ProxyObject == old(ProxyObject)
      ensures Method() == old(Method()) && TargetType() == old(TargetType())
    {
      Result := Execute(Delegate.target, Arguments[..]);
      Calls := Calls + [Arguments[..]];
      r := Result;
    }
  }

  /** IArguments (the contract with ParameterTypes and ReturnType) over the two packet classes. */
  datatype Packet = ByMethod(m: InterceptorArguments) | ByDelegate(d: ClassInterceptorArguments)
  {
    function Frame(): set<object> {
      if ByMethod? then {m} else {d}
    }

    function ArgumentsArray(): array<Value>
      reads Frame()
    {
      if ByMethod? then m.Arguments else d.Arguments
    }

    function Method(): MethodDesc
      reads Frame()
    {
      if ByMethod? then m.Method else d.Method()
    }

    function ProxyObject(): Instance
      reads Frame()
    {
      if ByMethod? then m.ProxyObject else d.ProxyObject
    }

    function Result(): Value
      reads Frame()
    {
      if ByMethod? then m.Result else d.Result
    }

    /** ParameterTypes: the declared parameter types of Method, in order. */
    function ParameterTypes(): (r: seq<Ty>)
      reads Frame()
      ensures |r| == |Method().params|
      ensures forall k :: 0 <= k < |r| ==> r[k] == Method().params[k].ty
    {
      Reflection.ParameterTypes(Method())
    }

    function ReturnType(): Ty
      reads Frame()
    {
      Method().returnType
    }

    /** The packet was built for its method: one argument per parameter. */
    predicate Valid()
      reads Frame()
    {
      ArgumentsArray().Length == |Method().params|
    }

    ghost function View(): PacketView
      reads Frame(), ArgumentsArray()
    {
      PacketView(Method(), ProxyObject(), ArgumentsArray()[..], Result(),
                 if ByMethod? then m.Calls else d.Calls)
    }

    method Invoke() returns (r: Value)
      modifies Frame()
      ensures r == Result()
      ensures ArgumentsArray() == old(ArgumentsArray())
      ensures View() == AfterInvoke(old(View()))
    {
      if ByMethod? {
        r := m.Invoke();
      } else {
        r := d.Invoke();
      }
    }

    method SetResult(val: Value)
      modifies Frame()
      ensures ArgumentsArray() == old(ArgumentsArray())
      ensures View() == old(View()).(result := val)
    {
      if ByMethod? {
        m.SetResult(val);
      } else {
        d.SetResult(val);
      }
    }

    /** `Arguments[k] = val`, the one way an interceptor rewrites an argument. */
    method SetArgument(k: nat, val: Value)
      requires k < ArgumentsArray().Length
      modifies ArgumentsArray()
      ensures View() == old(View()).(arguments := old(ArgumentsArray()[..])[k := val])
    {
      ArgumentsArray()[k] := val;
    }
  }

  /** Running the original twice executes it twice; Result holds the second value. */
  method InvokeTwice(a: InterceptorArguments) returns (first: Value, second: Value)
    modifies a
    ensures a.Calls == old(a.Calls) + [a.Arguments[..], a.Arguments[..]]
    ensures first == second == a.Result == Execute(a.Method, a.Arguments[..])
  {
    first := a.Invoke();
    second := a.Invoke();
  }
}
