/**
 * The test project's end-to-end expectations (PureProxyTests/PureProxyTests.cs):
 * registration of the three fixture services with TestInterceptor as the global
 * interceptor, then the calls the test makes on each proxy and the values it
 * expects back.
 */
module Scenarios {
  import opened Reflection
  import opened Fixtures
  import opened Arguments
  import opened Interceptors
  import opened ProxyGeneration
  import opened Options

  // ---- The fixture types ----

  /** The type of the subclass proxy built for Test2Service: a class deriving from it. */
  const Test2ProxyType: Ty := Class(TypeName(Test2ServiceType), 0x0200_0201, Test2ServiceType, [])

  /** Which of the two service interfaces each fixture type implements. */
  lemma FixtureInterfaces()
    ensures AssignableFrom(ITestServiceType, TestServiceType) && !AssignableFrom(ITest1ServiceType, TestServiceType)
    ensures AssignableFrom(ITest1ServiceType, Test1ServiceType) && !AssignableFrom(ITestServiceType, Test1ServiceType)
    ensures AssignableFrom(ITest1ServiceType, Test2ProxyType) && !AssignableFrom(ITestServiceType, Test2ProxyType)
  {
    assert TestServiceType.interfaces[0] == ITestServiceType;
    assert Test1ServiceType.interfaces[0] == ITest1ServiceType;
    assert ITestServiceType != ITest1ServiceType by { assert ITestServiceType.token != ITest1ServiceType.token; }
    assert !AssignableFrom(ITest1ServiceType, ObjectType);
    assert !AssignableFrom(ITestServiceType, ObjectType);
    assert !AssignableFrom(ITestServiceType, ITest1ServiceType);
    assert !AssignableFrom(ITest1ServiceType, ITestServiceType);
    assert !AssignableFrom(ITestServiceType, Test1ServiceType);
    assert !AssignableFrom(ITestServiceType, Test2ServiceType);
    assert AssignableFrom(ITest1ServiceType, Test2ServiceType);
  }

  // ---- Registration ----

  /** The three services get three different proxy type names (their full names differ in length). */
  lemma ProxyNamesDistinct()
    ensures TypeName(Test2ServiceType) != TypeName(ITestServiceType)
    ensures TypeName(Test2ServiceType) != TypeName(ITest1ServiceType)
    ensures TypeName(ITestServiceType) != TypeName(ITest1ServiceType)
  {
    assert |Test2ServiceType.fullName| == 41 && |ITestServiceType.fullName| == 36 && |ITest1ServiceType.fullName| == 37;
  }

  /** A pair that a `TService, TImplementation` overload accepts and whose registration passes Add's checks. */
  predicate Registrable(service: TypeInfo, impl: TypeInfo) {
    AddCheck(Some(service.ty), Some(impl.ty)) == Proceed && !IsValueType(impl.ty) && AssignableFrom(service.ty, impl.ty)
  }

  /** The fixtures meet what RegisterTestServices needs of them. */
  lemma FixturesRegistrable()
    ensures Registrable(Test2Service, Test2Service) && !IsInterface(Test2Service.ty)
    ensures Registrable(ITestService, TestService) && IsInterface(ITestService.ty)
    ensures Registrable(ITest1Service, Test1Service) && IsInterface(ITest1Service.ty)
    ensures TypeName(Test2Service.ty) != TypeName(ITestService.ty)
    ensures TypeName(Test2Service.ty) != TypeName(ITest1Service.ty)
    ensures TypeName(ITestService.ty) != TypeName(ITest1Service.ty)
  {
    FixtureInterfaces();
    ProxyNamesDistinct();
  }

  /** The test's global interceptor. */
  const Global: Option<InterceptorRef> := Some(TestInterceptor)

  /**
   * One AddScoped call of the test's configuration callback, for a service not
   * registered before and with the global interceptor set: it succeeds, stores the
   * service's proxy (returned in `proxy`) in the factory and replaces the service's
   * registration with it.
   */
  method RegisterScoped(options: ProxyOptions, factory: ProxyFactory, service: TypeInfo, impl: TypeInfo) returns (error: Option<Exception>, proxy: ProxyType)
    requires Registrable(service, impl) && factory.Interceptor.Some? && TypeName(service.ty) !in factory.moduleTypes
    modifies options, factory
    ensures error.None? && factory.Interceptor == old(factory.Interceptor)
    ensures proxy == Build(service, impl)
    ensures IsInterface(service.ty) ==>
      options.services
        == old(options.services) + [TryAdd(Describe(impl.ty, Unproxied(impl.ty), Scoped)), Replace(Describe(service.ty, Built(proxy), Scoped))]
    ensures !IsInterface(service.ty) ==> options.services == old(options.services) + [Replace(Describe(service.ty, Built(proxy), Scoped))]
    ensures factory.moduleTypes == old(factory.moduleTypes)[TypeName(service.ty) := proxy]
  {
    proxy := Build(service, impl);
    AddRegistersFresh(options.services, factory.moduleTypes, service, impl, Scoped);
    if service == impl {
      error := options.AddScopedSelf(factory, impl);
    } else {
      error := options.AddScoped(factory, service, impl);
    }
  }

  /**
   * The test's configuration: TestInterceptor as the global interceptor, then
   * AddScoped<Test2Service>(), AddScoped<ITestService, TestService>() and
   * AddScoped<ITest1Service, Test1Service>(), here over any types that pass the
   * checks as the fixtures do (FixturesRegistrable). All succeed; each interface
   * service's implementation is self-registered before the service is replaced by
   * its proxy, and the factory ends up with one proxy type per service.
   */
  method RegisterTestServices(test2: TypeInfo, iTest: TypeInfo, test: TypeInfo, iTest1: TypeInfo, test1: TypeInfo)
    returns (factory: ProxyFactory, options: ProxyOptions, errors: seq<Option<Exception>>, proxies: seq<ProxyType>)
    requires Registrable(test2, test2) && !IsInterface(test2.ty)
    requires Registrable(iTest, test) && IsInterface(iTest.ty)
    requires Registrable(iTest1, test1) && IsInterface(iTest1.ty)
    requires TypeName(test2.ty) != TypeName(iTest.ty) && TypeName(test2.ty) != TypeName(iTest1.ty)
    requires TypeName(iTest.ty) != TypeName(iTest1.ty)
    ensures errors == [None, None, None, None]
    ensures factory.Interceptor == Global
    ensures proxies == [Build(test2, test2), Build(iTest, test), Build(iTest1, test1)]
    ensures options.services
         == [Replace(Describe(test2.ty, Built(proxies[0]), Scoped))]
          + [TryAdd(Describe(test.ty, Unproxied(test.ty), Scoped)), Replace(Describe(iTest.ty, Built(proxies[1]), Scoped))]
          + [TryAdd(Describe(test1.ty, Unproxied(test1.ty), Scoped)), Replace(Describe(iTest1.ty, Built(proxies[2]), Scoped))]
    ensures factory.moduleTypes == map[TypeName(test2.ty) := proxies[0], TypeName(iTest.ty) := proxies[1], TypeName(iTest1.ty) := proxies[2]]
  {
    factory := new ProxyFactory();
    options := new ProxyOptions([]);
    var e0 := factory.SetInterceptor(Global);
    var e1, p1 := RegisterScoped(options, factory, test2, test2);
    var e2, p2 := RegisterScoped(options, factory, iTest, test);
    var e3, p3 := RegisterScoped(options, factory, iTest1, test1);
    errors := [e0, e1, e2, e3];
    proxies := [p1, p2, p3];
  }

  // ---- Calls through an interface proxy ----

  /** The interface methods of a service fixture. */
  function InterfaceMethods(iface: Ty, tokenBase: nat): seq<MethodDesc> {
    ServiceMethods(iface, tokenBase, InterfaceMethodAttributes, false)
  }

  /** The declared parameter count of the six service methods: each name is overloaded only by count. */
  lemma ServiceMethodShapes(owner: Ty, tokenBase: nat, attributes: set<MethodAttr>, ignoreAll: bool)
    ensures var ms := ServiceMethods(owner, tokenBase, attributes, ignoreAll);
      && |ms| == 6
      && ms[0].name == "Test" && ms[1].name == "Test" && ms[2].name == "Test" && ms[3].name == "Test"
      && ms[4].name == "TestAsync" && ms[5].name == "TestAsync"
      && |ms[0].params| == 0 && |ms[1].params| == 1 && |ms[2].params| == 2 && |ms[3].params| == 4
      && |ms[4].params| == 0 && |ms[5].params| == 1
  {
  }

  /** GetMethod on a type that lists the six service methods first finds the one at position `k`. */
  lemma ServiceMethodFound(iface: Ty, ifaceBase: nat, owner: Ty, implBase: nat, attributes: set<MethodAttr>,
                           rest: seq<MethodDesc>, k: nat)
    requires k < 6
    ensures var m := InterfaceMethods(iface, ifaceBase)[k];
      FindMethod(ServiceMethods(owner, implBase, attributes, false) + rest, m.name, ParameterTypes(m))
        == Some(ServiceMethods(owner, implBase, attributes, false)[k])
  {
    var m := InterfaceMethods(iface, ifaceBase)[k];
    var ms := ServiceMethods(owner, implBase, attributes, false);
    ServiceMethodShapes(iface, ifaceBase, InterfaceMethodAttributes, false);
    ServiceMethodShapes(owner, implBase, attributes, false);
    assert ms[k].params == m.params;
    FindMethodFirst(ms + rest, m.name, ParameterTypes(m), k);
  }

  /**
   * A call through an interface proxy, when Invoke finds `target` on the wrapped object and
   * neither it nor its type carries IgnoreProxy or an interceptor: TestInterceptor gets a
   * fresh packet for `target` and the call returns its Result, cast back.
   */
  lemma InterfaceCallReaches(m: MethodDesc, target: MethodDesc, proxy: Instance, wrapped: Instance, args: seq<Value>)
    requires |args| == |m.params|
    requires FindMethod(wrapped.info.methods, m.name, ParameterTypes(m)) == Some(target)
    requires !target.ignoreProxy && !target.declaringType.ignoreProxy
    requires target.interceptor.None? && target.declaringType.interceptor.None?
    ensures |target.params| == |args|
    ensures ProxyCall(m, true, proxy, wrapped, args, Global)
         == CastBack(m.returnType, TestEffect(PacketView(target, wrapped, args, Null, [])).result)
  {
    InterfaceCallFinds(m, proxy, wrapped, args, Global);
  }

  // TestInterceptor on a fresh packet for each of the six service methods, called with the
  // test's arguments: Test(int) answers 55 and the string argument becomes "10" when the
  // object is an ITestService; otherwise the string becomes "20" when it is an
  // ITest1Service; everything else returns what the original returns.

  /** Test(): the original runs and returns nothing. */
  lemma EffectOnTest(owner: Ty, tokenBase: nat, attributes: set<MethodAttr>, obj: Instance)
    ensures TestEffect(PacketView(ServiceMethods(owner, tokenBase, attributes, false)[0], obj, [], Null, [])).result == Null
  {
  }

  /** Test(1): 55 on an ITestService, otherwise the argument back. */
  lemma EffectOnTestInt(owner: Ty, tokenBase: nat, attributes: set<MethodAttr>, obj: Instance)
    ensures TestEffect(PacketView(ServiceMethods(owner, tokenBase, attributes, false)[1], obj, [Int(1)], Null, [])).result
         == if InstanceOf(obj, ITestServiceType) then Int(55) else Int(1)
  {
  }

  /** The string that Test(1, s) and Test(1, s, 2, null) return: s rewritten by TestInterceptor. */
  function RewrittenString(obj: Instance, s: string): Value {
    if InstanceOf(obj, ITestServiceType) then Str("10")
    else if InstanceOf(obj, ITest1ServiceType) then Str("20")
    else Str(s)
  }

  /** Test(1, "1"): the second argument as TestInterceptor rewrote it. */
  lemma EffectOnTestString(owner: Ty, tokenBase: nat, attributes: set<MethodAttr>, obj: Instance)
    ensures TestEffect(PacketView(ServiceMethods(owner, tokenBase, attributes, false)[2], obj, [Int(1), Str("1")], Null, [])).result
         == RewrittenString(obj, "1")
  {
    assert ParameterTypes(ServiceMethods(owner, tokenBase, attributes, false)[2])[1] == StringType;
  }

  /** Test(1, "2", 2, null): the second argument as TestInterceptor rewrote it. */
  lemma EffectOnTestFour(owner: Ty, tokenBase: nat, attributes: set<MethodAttr>, obj: Instance)
    ensures TestEffect(PacketView(ServiceMethods(owner, tokenBase, attributes, false)[3], obj, [Int(1), Str("2"), Int(2), Null], Null, [])).result
         == RewrittenString(obj, "2")
  {
    assert ParameterTypes(ServiceMethods(owner, tokenBase, attributes, false)[3])[1] == StringType;
  }

  /** TestAsync(): a completed task. */
  lemma EffectOnTestAsync(owner: Ty, tokenBase: nat, attributes: set<MethodAttr>, obj: Instance)
    ensures TestEffect(PacketView(ServiceMethods(owner, tokenBase, attributes, false)[4], obj, [], Null, [])).result == TaskValue(TaskType, Success(None))
  {
  }

  /** TestAsync(1): a task of the argument; Task<int> is not int, so no override. */
  lemma EffectOnTestAsyncInt(owner: Ty, tokenBase: nat, attributes: set<MethodAttr>, obj: Instance)
    ensures TestEffect(PacketView(ServiceMethods(owner, tokenBase, attributes, false)[5], obj, [Int(1)], Null, [])).result
         == TaskValue(TaskOf(IntType), Success(Some(Int(1))))
  {
  }

  // ---- The calls on the interface proxies ----

  /**
   * A wrapped type as both service implementations are: the six service methods first, in
   * interface order, and neither an interceptor nor IgnoreProxy on the type.
   */
  predicate ServiceImplementation(info: TypeInfo, tokenBase: nat, attributes: set<MethodAttr>, rest: seq<MethodDesc>) {
    && info.methods == ServiceMethods(info.ty, tokenBase, attributes, false) + rest
    && info.ty.interceptor.None? && !info.ty.ignoreProxy
  }

  /** proxy.Test(): nothing comes back. */
  lemma ProxyTest(iface: Ty, ifaceBase: nat, implBase: nat, attributes: set<MethodAttr>, rest: seq<MethodDesc>,
                  proxy: Instance, wrapped: Instance)
    requires ServiceImplementation(wrapped.info, implBase, attributes, rest)
    ensures ProxyCall(InterfaceMethods(iface, ifaceBase)[0], true, proxy, wrapped, [], Global) == Success(None)
  {
    ServiceMethodFound(iface, ifaceBase, wrapped.info.ty, implBase, attributes, rest, 0);
    InterfaceCallReaches(InterfaceMethods(iface, ifaceBase)[0], ServiceMethods(wrapped.info.ty, implBase, attributes, false)[0],
                         proxy, wrapped, []);
  }

  /** proxy.Test(1): 55 when the wrapped object is an ITestService, 1 otherwise. */
  lemma ProxyTestInt(iface: Ty, ifaceBase: nat, implBase: nat, attributes: set<MethodAttr>, rest: seq<MethodDesc>,
                     proxy: Instance, wrapped: Instance)
    requires ServiceImplementation(wrapped.info, implBase, attributes, rest)
    ensures ProxyCall(InterfaceMethods(iface, ifaceBase)[1], true, proxy, wrapped, [Int(1)], Global)
         == Success(Some(if InstanceOf(wrapped, ITestServiceType) then Int(55) else Int(1)))
  {
    ServiceMethodFound(iface, ifaceBase, wrapped.info.ty, implBase, attributes, rest, 1);
    InterfaceCallReaches(InterfaceMethods(iface, ifaceBase)[1], ServiceMethods(wrapped.info.ty, implBase, attributes, false)[1],
                         proxy, wrapped, [Int(1)]);
    EffectOnTestInt(wrapped.info.ty, implBase, attributes, wrapped);
  }

  /** proxy.Test(1, "1"): the rewritten string. */
  lemma ProxyTestString(iface: Ty, ifaceBase: nat, implBase: nat, attributes: set<MethodAttr>, rest: seq<MethodDesc>,
                        proxy: Instance, wrapped: Instance)
    requires ServiceImplementation(wrapped.info, implBase, attributes, rest)
    ensures ProxyCall(InterfaceMethods(iface, ifaceBase)[2], true, proxy, wrapped, [Int(1), Str("1")], Global)
         == Success(Some(RewrittenString(wrapped, "1")))
  {
    ServiceMethodFound(iface, ifaceBase, wrapped.info.ty, implBase, attributes, rest, 2);
    InterfaceCallReaches(InterfaceMethods(iface, ifaceBase)[2], ServiceMethods(wrapped.info.ty, implBase, attributes, false)[2],
                         proxy, wrapped, [Int(1), Str("1")]);
    EffectOnTestString(wrapped.info.ty, implBase, attributes, wrapped);
  }

  /** proxy.Test(1, "2", 2, null): the rewritten string. */
  lemma ProxyTestFour(iface: Ty, ifaceBase: nat, implBase: nat, attributes: set<MethodAttr>, rest: seq<MethodDesc>,
                      proxy: Instance, wrapped: Instance)
    requires ServiceImplementation(wrapped.info, implBase, attributes, rest)
    ensures ProxyCall(InterfaceMethods(iface, ifaceBase)[3], true, proxy, wrapped, [Int(1), Str("2"), Int(2), Null], Global)
         == Success(Some(RewrittenString(wrapped, "2")))
  {
    ServiceMethodFound(iface, ifaceBase, wrapped.info.ty, implBase, attributes, rest, 3);
    InterfaceCallReaches(InterfaceMethods(iface, ifaceBase)[3], ServiceMethods(wrapped.info.ty, implBase, attributes, false)[3],
                         proxy, wrapped, [Int(1), Str("2"), Int(2), Null]);
    EffectOnTestFour(wrapped.info.ty, implBase, attributes, wrapped);
  }

  /** proxy.TestAsync(): a completed task. */
  lemma ProxyTestAsync(iface: Ty, ifaceBase: nat, implBase: nat, attributes: set<MethodAttr>, rest: seq<MethodDesc>,
                       proxy: Instance, wrapped: Instance)
    requires ServiceImplementation(wrapped.info, implBase, attributes, rest)
    ensures ProxyCall(InterfaceMethods(iface, ifaceBase)[4], true, proxy, wrapped, [], Global) == Success(Some(TaskValue(TaskType, Success(None))))
  {
    ServiceMethodFound(iface, ifaceBase, wrapped.info.ty, implBase, attributes, rest, 4);
    InterfaceCallReaches(InterfaceMethods(iface, ifaceBase)[4], ServiceMethods(wrapped.info.ty, implBase, attributes, false)[4],
                         proxy, wrapped, []);
    EffectOnTestAsync(wrapped.info.ty, implBase, attributes, wrapped);
  }

  /** proxy.TestAsync(1): a task whose result is 1. */
  lemma ProxyTestAsyncInt(iface: Ty, ifaceBase: nat, implBase: nat, attributes: set<MethodAttr>, rest: seq<MethodDesc>,
                          proxy: Instance, wrapped: Instance)
    requires ServiceImplementation(wrapped.info, implBase, attributes, rest)
    ensures ProxyCall(InterfaceMethods(iface, ifaceBase)[5], true, proxy, wrapped, [Int(1)], Global)
         == Success(Some(TaskValue(TaskOf(IntType), Success(Some(Int(1))))))
  {
    ServiceMethodFound(iface, ifaceBase, wrapped.info.ty, implBase, attributes, rest, 5);
    InterfaceCallReaches(InterfaceMethods(iface, ifaceBase)[5], ServiceMethods(wrapped.info.ty, implBase, attributes, false)[5],
                         proxy, wrapped, [Int(1)]);
    EffectOnTestAsyncInt(wrapped.info.ty, implBase, attributes, wrapped);
  }

  /** The test's first two calls on the ITestService proxy, which wraps a TestService: nothing, then 55. */
  lemma ITestServiceCalls(proxy: Instance, wrapped: Instance)
    requires wrapped.info == TestService
    ensures ProxyCall(ITestService.methods[0], true, proxy, wrapped, [], Global) == Success(None)
    ensures ProxyCall(ITestService.methods[1], true, proxy, wrapped, [Int(1)], Global) == Success(Some(Int(55)))
  {
    FixtureInterfaces();
    var iface, ifaceBase, implBase, attributes, rest := ITestServiceType, 0x0600_0100, 0x0600_0120, SealedImplementation, ObjectMethods;
    assert ServiceImplementation(wrapped.info, implBase, attributes, rest);
    ProxyTest(iface, ifaceBase, implBase, attributes, rest, proxy, wrapped);
    ProxyTestInt(iface, ifaceBase, implBase, attributes, rest, proxy, wrapped);
  }

  /** The test's calls with a string argument on the ITestService proxy: both answer "10". */
  lemma ITestServiceStringCalls(proxy: Instance, wrapped: Instance)
    requires wrapped.info == TestService
    ensures ProxyCall(ITestService.methods[2], true, proxy, wrapped, [Int(1), Str("1")], Global) == Success(Some(Str("10")))
    ensures ProxyCall(ITestService.methods[3], true, proxy, wrapped, [Int(1), Str("2"), Int(2), Null], Global)
         == Success(Some(Str("10")))
  {
    FixtureInterfaces();
    var iface, ifaceBase, implBase, attributes, rest := ITestServiceType, 0x0600_0100, 0x0600_0120, SealedImplementation, ObjectMethods;
    assert ServiceImplementation(wrapped.info, implBase, attributes, rest);
    ProxyTestString(iface, ifaceBase, implBase, attributes, rest, proxy, wrapped);
    ProxyTestFour(iface, ifaceBase, implBase, attributes, rest, proxy, wrapped);
  }

  /** The test's asynchronous calls on the ITestService proxy: a completed task and a task of 1. */
  lemma ITestServiceAsyncCalls(proxy: Instance, wrapped: Instance)
    requires wrapped.info == TestService
    ensures ProxyCall(ITestService.methods[4], true, proxy, wrapped, [], Global) == Success(Some(TaskValue(TaskType, Success(None))))
    ensures ProxyCall(ITestService.methods[5], true, proxy, wrapped, [Int(1)], Global) == Success(Some(TaskValue(TaskOf(IntType), Success(Some(Int(1))))))
  {
    var iface, ifaceBase, implBase, attributes, rest := ITestServiceType, 0x0600_0100, 0x0600_0120, SealedImplementation, ObjectMethods;
    assert ServiceImplementation(wrapped.info, implBase, attributes, rest);
    ProxyTestAsync(iface, ifaceBase, implBase, attributes, rest, proxy, wrapped);
    ProxyTestAsyncInt(iface, ifaceBase, implBase, attributes, rest, proxy, wrapped);
  }

  /** The test's first two calls on the ITest1Service proxy, which wraps a Test1Service: nothing, then 1. */
  lemma ITest1ServiceCalls(proxy: Instance, wrapped: Instance)
    requires wrapped.info == Test1Service
    ensures ProxyCall(ITest1Service.methods[0], true, proxy, wrapped, [], Global) == Success(None)
    ensures ProxyCall(ITest1Service.methods[1], true, proxy, wrapped, [Int(1)], Global) == Success(Some(Int(1)))
  {
    FixtureInterfaces();
    var iface, ifaceBase, implBase, attributes, rest := ITest1ServiceType, 0x0600_0110, 0x0600_0130, IntroducedVirtual, ObjectMethods;
    assert ServiceImplementation(wrapped.info, implBase, attributes, rest);
    ProxyTest(iface, ifaceBase, implBase, attributes, rest, proxy, wrapped);
    ProxyTestInt(iface, ifaceBase, implBase, attributes, rest, proxy, wrapped);
  }

  /** The test's calls with a string argument on the ITest1Service proxy: both answer "20". */
  lemma ITest1ServiceStringCalls(proxy: Instance, wrapped: Instance)
    requires wrapped.info == Test1Service
    ensures ProxyCall(ITest1Service.methods[2], true, proxy, wrapped, [Int(1), Str("1")], Global) == Success(Some(Str("20")))
    ensures ProxyCall(ITest1Service.methods[3], true, proxy, wrapped, [Int(1), Str("2"), Int(2), Null], Global)
         == Success(Some(Str("20")))
  {
    FixtureInterfaces();
    var iface, ifaceBase, implBase, attributes, rest := ITest1ServiceType, 0x0600_0110, 0x0600_0130, IntroducedVirtual, ObjectMethods;
    assert ServiceImplementation(wrapped.info, implBase, attributes, rest);
    ProxyTestString(iface, ifaceBase, implBase, attributes, rest, proxy, wrapped);
    ProxyTestFour(iface, ifaceBase, implBase, attributes, rest, proxy, wrapped);
  }

  /** The test's asynchronous calls on the ITest1Service proxy: a completed task and a task of 1. */
  lemma ITest1ServiceAsyncCalls(proxy: Instance, wrapped: Instance)
    requires wrapped.info == Test1Service
    ensures ProxyCall(ITest1Service.methods[4], true, proxy, wrapped, [], Global) == Success(Some(TaskValue(TaskType, Success(None))))
    ensures ProxyCall(ITest1Service.methods[5], true, proxy, wrapped, [Int(1)], Global) == Success(Some(TaskValue(TaskOf(IntType), Success(Some(Int(1))))))
  {
    var iface, ifaceBase, implBase, attributes, rest := ITest1ServiceType, 0x0600_0110, 0x0600_0130, IntroducedVirtual, ObjectMethods;
    assert ServiceImplementation(wrapped.info, implBase, attributes, rest);
    ProxyTestAsync(iface, ifaceBase, implBase, attributes, rest, proxy, wrapped);
    ProxyTestAsyncInt(iface, ifaceBase, implBase, attributes, rest, proxy, wrapped);
  }

  // ---- The calls on the subclass proxy ----

  /**
   * A call through a subclass proxy to a forwarded method that carries neither IgnoreProxy nor
   * an interceptor, on a type with neither: TestInterceptor gets a fresh packet for the base
   * method with the proxy itself as the object, and the call returns its Result, cast back.
   */
  lemma SubclassCallReaches(m: MethodDesc, self: Instance, wrapped: Instance, args: seq<Value>)
    requires |args| == |m.params|
    requires !m.ignoreProxy && !m.declaringType.ignoreProxy
    requires m.interceptor.None? && m.declaringType.interceptor.None?
    ensures ProxyCall(m, false, self, wrapped, args, Global)
         == CastBack(m.returnType, TestEffect(PacketView(m, self, args, Null, [])).result)
  {
    SubclassCallRunsBase(m, self, wrapped, args, Global);
  }

  /** self.Test(1, "1") on a subclass proxy of a service class: the rewritten string. */
  lemma SubclassTestString(owner: Ty, tokenBase: nat, attributes: set<MethodAttr>, self: Instance, wrapped: Instance)
    requires owner.interceptor.None? && !owner.ignoreProxy
    ensures ProxyCall(ServiceMethods(owner, tokenBase, attributes, false)[2], false, self, wrapped, [Int(1), Str("1")], Global)
         == Success(Some(RewrittenString(self, "1")))
  {
    SubclassCallReaches(ServiceMethods(owner, tokenBase, attributes, false)[2], self, wrapped, [Int(1), Str("1")]);
    EffectOnTestString(owner, tokenBase, attributes, self);
  }

  /** self.Test(1, "2", 2, null) on a subclass proxy of a service class: the rewritten string. */
  lemma SubclassTestFour(owner: Ty, tokenBase: nat, attributes: set<MethodAttr>, self: Instance, wrapped: Instance)
    requires owner.interceptor.None? && !owner.ignoreProxy
    ensures ProxyCall(ServiceMethods(owner, tokenBase, attributes, false)[3], false, self, wrapped, [Int(1), Str("2"), Int(2), Null], Global)
         == Success(Some(RewrittenString(self, "2")))
  {
    SubclassCallReaches(ServiceMethods(owner, tokenBase, attributes, false)[3], self, wrapped, [Int(1), Str("2"), Int(2), Null]);
    EffectOnTestFour(owner, tokenBase, attributes, self);
  }

  /** self.TestAsync() on a subclass proxy of a service class: a completed task. */
  lemma SubclassTestAsync(owner: Ty, tokenBase: nat, attributes: set<MethodAttr>, self: Instance, wrapped: Instance)
    requires owner.interceptor.None? && !owner.ignoreProxy
    ensures ProxyCall(ServiceMethods(owner, tokenBase, attributes, false)[4], false, self, wrapped, [], Global)
         == Success(Some(TaskValue(TaskType, Success(None))))
  {
    SubclassCallReaches(ServiceMethods(owner, tokenBase, attributes, false)[4], self, wrapped, []);
    EffectOnTestAsync(owner, tokenBase, attributes, self);
  }

  /** self.TestAsync(1) on a subclass proxy of a service class: a task of 1. */
  lemma SubclassTestAsyncInt(owner: Ty, tokenBase: nat, attributes: set<MethodAttr>, self: Instance, wrapped: Instance)
    requires owner.interceptor.None? && !owner.ignoreProxy
    ensures ProxyCall(ServiceMethods(owner, tokenBase, attributes, false)[5], false, self, wrapped, [Int(1)], Global)
         == Success(Some(TaskValue(TaskOf(IntType), Success(Some(Int(1))))))
  {
    SubclassCallReaches(ServiceMethods(owner, tokenBase, attributes, false)[5], self, wrapped, [Int(1)]);
    EffectOnTestAsyncInt(owner, tokenBase, attributes, self);
  }

  /**
   * The Test2Service proxy: Test() and Test(int) override Test1Service's methods, so the
   * subclass filter gives them no forwarder and Test(1) runs Test2Service's own body, which
   * answers 1; Test(1, 2) is marked IgnoreProxy, so its forwarder runs the original and
   * answers 2 without TestInterceptor.
   */
  lemma Test2ServiceCalls(self: Instance, wrapped: Instance)
    ensures !Proxiable(Test2Service.methods[0]) && !Proxiable(Test2Service.methods[1])
    ensures Execute(Test2Service.methods[1], [Int(1)]) == Int(1)
    ensures Proxiable(Test2Ignored)
    ensures ProxyCall(Test2Ignored, false, self, wrapped, [Int(1), Int(2)], Global) == Success(Some(Int(2)))
  {
    IgnoredRunsOriginal(Test2Ignored, self, [Int(1), Int(2)], Global);
    SubclassCallRunsBase(Test2Ignored, self, wrapped, [Int(1), Int(2)], Global);
  }

  /** The test's calls with a string argument on the Test2Service proxy, an ITest1Service: both answer "20". */
  lemma Test2ServiceStringCalls(self: Instance, wrapped: Instance)
    requires self.info.ty == Test2ProxyType
    ensures ProxyCall(Test1ServiceMethods[2], false, self, wrapped, [Int(1), Str("1")], Global) == Success(Some(Str("20")))
    ensures ProxyCall(Test1ServiceMethods[3], false, self, wrapped, [Int(1), Str("2"), Int(2), Null], Global)
         == Success(Some(Str("20")))
  {
    FixtureInterfaces();
    SubclassTestString(Test1ServiceType, 0x0600_0130, IntroducedVirtual, self, wrapped);
    SubclassTestFour(Test1ServiceType, 0x0600_0130, IntroducedVirtual, self, wrapped);
  }

  /** The test's asynchronous calls on the Test2Service proxy: a completed task and a task of 1. */
  lemma Test2ServiceAsyncCalls(self: Instance, wrapped: Instance)
    ensures ProxyCall(Test1ServiceMethods[4], false, self, wrapped, [], Global) == Success(Some(TaskValue(TaskType, Success(None))))
    ensures ProxyCall(Test1ServiceMethods[5], false, self, wrapped, [Int(1)], Global) == Success(Some(TaskValue(TaskOf(IntType), Success(Some(Int(1))))))
  {
    SubclassTestAsync(Test1ServiceType, 0x0600_0130, IntroducedVirtual, self, wrapped);
    SubclassTestAsyncInt(Test1ServiceType, 0x0600_0130, IntroducedVirtual, self, wrapped);
  }
}
