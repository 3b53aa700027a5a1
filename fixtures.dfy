/**
 * The services of the test project as reflection metadata: the interfaces
 * ITestService and ITest1Service, TestService (non-virtual implementation of
 * ITestService), Test1Service (virtual implementation of ITest1Service) and
 * Test2Service (a subclass of Test1Service with two overrides and one
 * IgnoreProxy method).
 */
module Fixtures {
  import opened Reflection

  const InterfaceMethodAttributes: set<MethodAttr> := {Public, HideBySig, NewSlot, Abstract, Virtual}
  /** A public virtual method introduced by its class. */
  const IntroducedVirtual: set<MethodAttr> := {Public, Virtual, HideBySig, NewSlot}
  /** A public virtual method that overrides an inherited one. */
  const OverridingVirtual: set<MethodAttr> := {Public, Virtual, HideBySig}
  /** A non-virtual public method that implements an interface method. */
  const SealedImplementation: set<MethodAttr> := {Public, Final, Virtual, HideBySig, NewSlot}

  function Interface(fullName: string, token: nat): Ty {
    Ty(fullName, token, InterfaceKind, false, true, true, false, None, None, [], NonGeneric, false, None)
  }

  function Class(fullName: string, token: nat, baseType: Ty, interfaces: seq<Ty>): Ty {
    Ty(fullName, token, ClassKind, false, false, true, false, None, Some(baseType), interfaces, NonGeneric, false, None)
  }

  const ITestServiceType: Ty := Interface("PureProxyTests.Services.ITestService", 0x0200_0101)
  const ITest1ServiceType: Ty := Interface("PureProxyTests.Services.ITest1Service", 0x0200_0102)
  const TestServiceType: Ty := Class("PureProxyTests.Services.Impl.TestService", 0x0200_0103, ObjectType, [ITestServiceType])
  const Test1ServiceType: Ty := Class("PureProxyTests.Services.Impl.Test1Service", 0x0200_0104, ObjectType, [ITest1ServiceType])
  const Test2ServiceType: Ty := Class("PureProxyTests.Services.Impl.Test2Service", 0x0200_0105, Test1ServiceType, [])

  function P(name: string, ty: Ty): Param { Param(name, ty, false) }

  /** The six members both service interfaces declare, in declaration order, with the given owner and bodies. */
  function ServiceMethods(owner: Ty, tokenBase: nat, attributes: set<MethodAttr>, ignoreAll: bool): seq<MethodDesc> {
    [ MethodDesc("Test", tokenBase, owner, [], VoidType, attributes, ignoreAll, None, ReturnsNothing),
      MethodDesc("Test", tokenBase + 1, owner, [P("val", IntType)], IntType, attributes, ignoreAll, None, ReturnsArgument(0)),
      MethodDesc("Test", tokenBase + 2, owner, [P("val", IntType), P("str", StringType)], StringType,
                 attributes, ignoreAll, None, ReturnsArgument(1)),
      MethodDesc("Test", tokenBase + 3, owner,
                 [P("val", IntType), P("str", StringType), P("val1", IntType), P("type", SystemTypeType)], StringType,
                 attributes, ignoreAll, None, ReturnsArgument(1)),
      MethodDesc("TestAsync", tokenBase + 4, owner, [], TaskType, attributes, ignoreAll, None, ReturnsCompletedTask),
      MethodDesc("TestAsync", tokenBase + 5, owner, [P("val", IntType)], TaskOf(IntType), attributes, ignoreAll, None,
                 ReturnsTaskOfArgument(0)) ]
  }

  /** The public methods every class inherits from System.Object. */
  const ObjectMethods: seq<MethodDesc> := [
    MethodDesc("ToString", 0x0600_0001, ObjectType, [], StringType, IntroducedVirtual, false, None, ReturnsNothing),
    MethodDesc("Equals", 0x0600_0002, ObjectType, [P("obj", ObjectType)], PrimType(Bool), IntroducedVirtual, false, None, ReturnsNothing),
    MethodDesc("GetHashCode", 0x0600_0003, ObjectType, [], IntType, IntroducedVirtual, false, None, ReturnsNothing),
    MethodDesc("GetType", 0x0600_0004, ObjectType, [], SystemTypeType, {Public, HideBySig}, false, None, ReturnsNothing)
  ]

  const ITestService: TypeInfo := TypeInfo(ITestServiceType, [], ServiceMethods(ITestServiceType, 0x0600_0100, InterfaceMethodAttributes, false))
  const ITest1Service: TypeInfo := TypeInfo(ITest1ServiceType, [], ServiceMethods(ITest1ServiceType, 0x0600_0110, InterfaceMethodAttributes, false))

  const TestService: TypeInfo :=
    TypeInfo(TestServiceType, [[]], ServiceMethods(TestServiceType, 0x0600_0120, SealedImplementation, false) + ObjectMethods)

  const Test1ServiceMethods: seq<MethodDesc> := ServiceMethods(Test1ServiceType, 0x0600_0130, IntroducedVirtual, false)

  const Test1Service: TypeInfo :=
    TypeInfo(Test1ServiceType, [[P("test", ITestServiceType)]], Test1ServiceMethods + ObjectMethods)

  /** Test2Service.Test(int val, int val1), marked IgnoreProxy. */
  const Test2Ignored: MethodDesc :=
    MethodDesc("Test", 0x0600_0142, Test2ServiceType, [P("val", IntType), P("val1", IntType)], IntType,
               IntroducedVirtual, true, None, ReturnsArgument(1))

  const Test2Service: TypeInfo :=
    TypeInfo(Test2ServiceType, [[P("test", ITestServiceType)]],
      [ MethodDesc("Test", 0x0600_0140, Test2ServiceType, [], VoidType, OverridingVirtual, false, None, ReturnsNothing),
        MethodDesc("Test", 0x0600_0141, Test2ServiceType, [P("val", IntType)], IntType, OverridingVirtual, false, None,
                   ReturnsArgument(0)),
        Test2Ignored ]
      + Test1ServiceMethods[2..] + ObjectMethods)
}
