/**
 * PureProxy/ProxyFactory.cs: proxy type generation and the runtime dispatcher.
 *
 * ProxyGenerator validates a (service, implementation) pair in a fixed order,
 * answers a repeated request from the dynamic module's type table (keyed by the
 * service's full name), and otherwise builds a proxy type: an implementation of
 * the interface that forwards to a wrapped implementation object, or a subclass
 * of the implementation. Each proxied method gets a forwarder body that packs
 * the call into `object[] { method-or-delegate, proxyObject, args }` and calls
 * the private `Invoke`, which picks exactly one interceptor (method attribute >
 * type attribute > global) unless the target carries IgnoreProxy.
 */
module ProxyGeneration {
  import opened Reflection
  import opened TypeExtension
  import opened Arguments
  import opened Interceptors
  import opened Emit

  // ---- Validation ----

  datatype Verdict = Reject(error: Exception) | Bypass | Proceed

  /** The checks ProxyGenerator runs before it looks at the type table, in source order. */
  function Check(service: Option<Ty>, impl: Option<Ty>, interceptorSet: bool): Verdict {
    if service.None? then Reject(ArgumentNull("serviceType"))
    else if impl.None? then Reject(ArgumentNull("implementationType"))
    else if impl.value.isSealed then Reject(Argument(ImplementationSealed))
    else if impl.value.isAbstract then Reject(Argument(ImplementationAbstract))
    else if impl.value.ignoreProxy then Bypass
    else if !interceptorSet then Reject(ArgumentNull("Interceptor"))
    else if !AssignableFrom(service.value, impl.value) then Reject(Argument(NotAssignable))
    else if !IsInterface(service.value) && service.value == impl.value && service.value.isSealed then
      Reject(Argument(ServiceSealed))
    else if !IsInterface(service.value) && service.value == impl.value && service.value.isAbstract then
      Reject(Argument(ServiceAbstract))
    else Proceed
  }

  lemma ParamNamesDiffer()
    ensures "serviceType" != "implementationType" && "serviceType" != "Interceptor" && "implementationType" != "Interceptor"
  {
    assert "serviceType"[0] != "Interceptor"[0];
  }

  /** The null checks come first, then the sealed and abstract implementation checks, all before the IgnoreProxy bypass. */
  lemma CheckRejectsEarly(service: Option<Ty>, impl: Option<Ty>, interceptorSet: bool)
    ensures Check(service, impl, interceptorSet) == Reject(ArgumentNull("serviceType")) <==> service.None?
    ensures Check(service, impl, interceptorSet) == Reject(ArgumentNull("implementationType")) <==> service.Some? && impl.None?
    ensures Check(service, impl, interceptorSet) == Reject(Argument(ImplementationSealed))
      <==> service.Some? && impl.Some? && impl.value.isSealed
    ensures Check(service, impl, interceptorSet) == Reject(Argument(ImplementationAbstract))
      <==> service.Some? && impl.Some? && !impl.value.isSealed && impl.value.isAbstract
  {
    ParamNamesDiffer();
  }

  /**
   * An IgnoreProxy implementation that passes the first four checks is returned as is,
   * whether or not an interceptor is set and whether or not it is assignable to the service.
   */
  lemma BypassPrecedesInterceptorCheck(service: Ty, impl: Ty, interceptorSet: bool)
    requires !impl.isSealed && !impl.isAbstract && impl.ignoreProxy
    ensures Check(Some(service), Some(impl), interceptorSet) == Bypass
    ensures Check(Some(service), Some(impl), interceptorSet) == Check(Some(service), Some(impl), !interceptorSet)
  {
  }

  /** Without a global interceptor nothing but a bypass succeeds; a non-assignable pair is rejected once one is set. */
  lemma CheckNeedsInterceptor(service: Ty, impl: Ty)
    requires !impl.isSealed && !impl.isAbstract && !impl.ignoreProxy
    ensures Check(Some(service), Some(impl), false) == Reject(ArgumentNull("Interceptor"))
    ensures !AssignableFrom(service, impl) ==> Check(Some(service), Some(impl), true) == Reject(Argument(NotAssignable))
  {
  }

  /** Generation proceeds exactly for a non-null, concrete, unsealed, non-ignored, assignable pair with an interceptor set. */
  lemma ProceedIff(service: Option<Ty>, impl: Option<Ty>, interceptorSet: bool)
    ensures Check(service, impl, interceptorSet) == Proceed <==>
      && service.Some? && impl.Some?
      && !impl.value.isSealed && !impl.value.isAbstract && !impl.value.ignoreProxy
      && interceptorSet && AssignableFrom(service.value, impl.value)
  {
  }

  /**
   * The sealed and abstract service checks can never fire: they apply only when the
   * service is the implementation itself, which has already passed the same checks.
   */
  lemma ServiceChecksUnreachable(service: Option<Ty>, impl: Option<Ty>, interceptorSet: bool)
    ensures Check(service, impl, interceptorSet) != Reject(Argument(ServiceSealed))
    ensures Check(service, impl, interceptorSet) != Reject(Argument(ServiceAbstract))
  {
  }

  // ---- The generated type ----

  const ProxyObjectField: string := "_proxyObject"
  const InvokeMethodField: string := "<_invokeMethod>k__BackingField"
  const ProxyTypeField: string := "<ProxyType>k__BackingField"

  /** The dynamic module's type name for a service: the assembly name, the service's full name, "Proxy". */
  function TypeName(service: Ty): (name: string)
    ensures |name| == |"PureProxy.Proxy."| + |service.fullName| + |"Proxy"|
    ensures name[..16] == "PureProxy.Proxy." && name[16..|name| - 5] == service.fullName
  {
    "PureProxy.Proxy." + service.fullName + "Proxy"
  }

  /** Distinct service names give distinct proxy names; the implementation plays no part. */
  lemma TypeNameInjective(a: Ty, b: Ty)
    requires TypeName(a) == TypeName(b)
    ensures a.fullName == b.fullName
  {
    assert a.fullName == TypeName(a)[16..|TypeName(a)| - 5];
  }

  datatype Ctor = Ctor(params: seq<Ty>, code: seq<Instr>)

  datatype Forwarder = Forwarder(
    source: MethodDesc,                 // the service method it overrides or implements
    attributes: set<MethodAttr>,
    params: seq<Ty>,
    returnType: Ty,
    locals: seq<Ty>,
    code: seq<Instr>,
    marks: map<nat, nat>,
    delegateType: Option<string>)       // the nested delegate type of a subclass proxy

  datatype ProxyType = ProxyType(
    name: string,
    parent: Option<Ty>,                 // None: System.Object, for an interface proxy
    interfaces: seq<Ty>,
    proxyObjectType: Ty,                // the declared type of `_proxyObject`
    ctors: seq<Ctor>,
    proxyTypeGetter: seq<Instr>,
    forwarders: seq<Forwarder>)

  datatype Generated = Unproxied(t: Ty) | Built(proxy: ProxyType)

  /** The type the proxy is shaped after: the interface, or the implementation when the service is a class. */
  function ShapeOf(service: TypeInfo, impl: TypeInfo): TypeInfo {
    if !IsInterface(service.ty) && service.ty != impl.ty then impl else service
  }

  // Constructors.

  /** The body CtorGeneratorFunc emits before the base call: record the interceptor's runtime type. */
  const CtorPrologue: seq<Instr> := [
    Op(Ldarg_0),
    Instr(Call, MethodOperand(Library("PureProxy.ProxyFactory", "get_Interceptor"))),
    Instr(Callvirt, MethodOperand(Library("System.Object", "GetType"))),
    Instr(Stfld, FieldOperand(ProxyTypeField)),
    Op(Ldarg_0)
  ]

  /** After the base call: store the wrapped object, argument 1 of an interface proxy's constructor or `this`. */
  function ProxyObjectStore(isInterface: bool): seq<Instr> {
    [ Op(Nop), Op(Nop),
      Op(Ldarg_0),
      Instr(Ldarg, IntOperand(if isInterface then 1 else 0)),
      Instr(Stfld, FieldOperand(ProxyObjectField)) ]
  }

  /** Then look up ProxyFactory.Invoke (static, non-public) once per instance and return. */
  const InvokeMethodStore: seq<Instr> := [
    Op(Ldarg_0),
    Instr(Ldtoken, StringOperand("PureProxy.ProxyFactory")),
    Instr(Call, MethodOperand(Library("System.Type", "GetTypeFromHandle"))),
    Instr(Ldstr, StringOperand("Invoke")),
    Instr(Ldc_I4_S, IntOperand(40)),     // BindingFlags.Static | BindingFlags.NonPublic
    Instr(Call, MethodOperand(Library("System.Type", "GetMethod"))),
    Instr(Stfld, FieldOperand(InvokeMethodField)),
    Op(Ret) ]

  function CtorEpilogue(isInterface: bool): seq<Instr> {
    ProxyObjectStore(isInterface) + InvokeMethodStore
  }

  /** `Ldarg 1 … Ldarg n`: the constructor's own arguments, passed on to the base constructor. */
  function BaseArguments(n: nat): (r: seq<Instr>)
    ensures |r| == n
    ensures forall k :: 0 <= k < n ==> r[k] == Instr(Ldarg, IntOperand(k + 1))
  {
    if n == 0 then [] else BaseArguments(n - 1) + [Instr(Ldarg, IntOperand(n))]
  }

  function ParamTypes(params: seq<Param>): (r: seq<Ty>)
    ensures |r| == |params| && forall k :: 0 <= k < |params| ==> r[k] == params[k].ty
  {
    seq(|params|, k requires 0 <= k < |params| => params[k].ty)
  }

  /** The constructor of an interface proxy: takes the implementation, calls object(). */
  function InterfaceCtor(impl: Ty): Ctor {
    Ctor([impl], CtorPrologue + [Instr(Call, MethodOperand(Library("System.Object", ".ctor")))] + CtorEpilogue(true))
  }

  /** The constructor of a subclass proxy mirroring one public base constructor. */
  function SubclassCtor(params: seq<Param>): Ctor {
    var types := ParamTypes(params);
    Ctor(types, CtorPrologue + BaseArguments(|params|) + [Instr(Call, MethodOperand(BaseConstructor(types)))] + CtorEpilogue(false))
  }

  function SubclassCtors(constructors: seq<seq<Param>>): (r: seq<Ctor>)
    ensures |r| == |constructors|
    ensures forall k :: 0 <= k < |constructors| ==> r[k] == SubclassCtor(constructors[k])
  {
    if |constructors| == 0 then []
    else SubclassCtors(constructors[..|constructors| - 1]) + [SubclassCtor(constructors[|constructors| - 1])]
  }

  function CtorsOf(shape: TypeInfo, impl: Ty): seq<Ctor> {
    if IsInterface(shape.ty) then [InterfaceCtor(impl)] else SubclassCtors(shape.constructors)
  }

  // Method selection.

  /** The filter for a subclass proxy: not declared by object, and exactly Public | Virtual | HideBySig | NewSlot. */
  predicate Proxiable(m: MethodDesc) {
    m.declaringType != ObjectType && m.attributes == {Public, Virtual, HideBySig, NewSlot}
  }

  predicate Selected(m: MethodDesc, isInterface: bool) { isInterface || Proxiable(m) }

  // Forwarder bodies.

  const MethodBaseInvoke: MethodRef := Library("System.Reflection.MethodBase", "Invoke")
  const GetCurrentMethod: MethodRef := Library("System.Reflection.MethodBase", "GetCurrentMethod")

  /** Slot 0 of the outer array: the current method, or a delegate over the base method bound to `this`. */
  function MethodSlot(m: MethodDesc, isInterface: bool): seq<Instr> {
    if isInterface then [Instr(Call, MethodOperand(GetCurrentMethod)), Op(Stelem_Ref)]
    else [Op(Ldarg_0), Instr(Ldftn, MethodOperand(Target(m))), Instr(Newobj, MethodOperand(DelegateConstructor(m))), Op(Stelem_Ref)]
  }

  /** Load the Invoke MethodInfo and null (its receiver), build `object[3]` and start slot 0. */
  const ForwarderPrelude: seq<Instr> := [
    Op(Nop), Op(Ldarg_0), Instr(Ldfld, FieldOperand(InvokeMethodField)), Op(Ldnull),
    Op(Ldc_I4_3), Instr(Newarr, TypeOperand(ObjectType)), Op(Dup), Op(Ldc_I4_0) ]

  /** Slot 1 is the wrapped object; slot 2 starts as an `object[n]` for the arguments. */
  function ForwarderMiddle(n: nat): seq<Instr> {
    [ Op(Dup), Op(Ldc_I4_1), Op(Ldarg_0), Instr(Ldfld, FieldOperand(ProxyObjectField)), Op(Stelem_Ref),
      Op(Dup), Op(Ldc_I4_2), Instr(Ldc_I4_S, IntOperand(n)), Instr(Newarr, TypeOperand(ObjectType)) ]
  }

  function ForwarderHead(m: MethodDesc, isInterface: bool): seq<Instr> {
    ForwarderPrelude + MethodSlot(m, isInterface) + ForwarderMiddle(|m.params|)
  }

  /** Store argument `i + 1` (parameter `i`, boxed if a value type) at index `i` of the inner array. */
  function ArgStore(i: nat, p: Param): seq<Instr> {
    [Op(Dup), Instr(Ldc_I4_S, IntOperand(i)), Instr(Ldarg_S, IntOperand(i + 1))]
    + (if IsValueType(p.ty) then [Instr(Box, TypeOperand(p.ty))] else [])
    + [Op(Stelem_Ref)]
  }

  function ArgStores(params: seq<Param>): seq<Instr> {
    if |params| == 0 then []
    else ArgStores(params[..|params| - 1]) + ArgStore(|params| - 1, params[|params| - 1])
  }

  /** After the inner array: store it, call MethodBase.Invoke, then discard or cast back the result and return. */
  function ForwarderTail(returnType: Ty): seq<Instr> {
    [Op(Stelem_Ref), Instr(Callvirt, MethodOperand(MethodBaseInvoke))]
    + (if returnType != VoidType then
         [Instr(if IsValueType(returnType) then Unbox_Any else Castclass, TypeOperand(returnType)),
          Op(Stloc_0), Instr(Br_S, LabelOperand(0)), Op(Ldloc_0)]
       else [Op(Pop)])
    + [Op(Ret)]
  }

  function ForwarderCode(m: MethodDesc, isInterface: bool): seq<Instr> {
    ForwarderHead(m, isInterface) + ArgStores(m.params) + ForwarderTail(m.returnType)
  }

  function ForwarderAttributes(isInterface: bool): set<MethodAttr> {
    {Public, HideBySig, Virtual} + (if isInterface then {Final, NewSlot} else {})
  }

  /** The forwarder generated for `m`. */
  function ForwarderOf(m: MethodDesc, isInterface: bool): Forwarder {
    var code := ForwarderCode(m, isInterface);
    Forwarder(m, ForwarderAttributes(isInterface), ParamTypes(m.params), m.returnType,
              if m.returnType != VoidType then [m.returnType] else [],
              code,
              if m.returnType != VoidType then map[0 := |code| - 2] else map[],
              if isInterface then None else Some(m.name + DecimalString(m.token)))
  }

  function Forwarders(methods: seq<MethodDesc>, isInterface: bool): seq<Forwarder> {
    if |methods| == 0 then []
    else
      var m := methods[|methods| - 1];
      Forwarders(methods[..|methods| - 1], isInterface) + (if Selected(m, isInterface) then [ForwarderOf(m, isInterface)] else [])
  }

  /** The whole proxy type ProxyGenerator defines for a pair that passed the checks. */
  function Build(service: TypeInfo, impl: TypeInfo): ProxyType {
    var shape := ShapeOf(service, impl);
    var isInterface := IsInterface(shape.ty);
    ProxyType(TypeName(service.ty),
              if isInterface then None else Some(shape.ty),
              if isInterface then [shape.ty] else [],
              impl.ty,
              CtorsOf(shape, impl.ty),
              [Op(Ldarg_0), Instr(Ldfld, FieldOperand(ProxyTypeField)), Op(Ret)],
              Forwarders(shape.methods, isInterface))
  }

  function TyOf(info: Option<TypeInfo>): Option<Ty> {
    if info.Some? then Some(info.value.ty) else None
  }

  /** ProxyGenerator's answer and the module's type table afterwards. */
  function Generate(types: map<string, ProxyType>, interceptorSet: bool, service: Option<TypeInfo>, impl: Option<TypeInfo>)
    : (Result<Generated>, map<string, ProxyType>)
  {
    match Check(TyOf(service), TyOf(impl), interceptorSet)
    case Reject(e) => (Failure(e), types)
    case Bypass => (Success(Unproxied(impl.value.ty)), types)
    case Proceed =>
      var name := TypeName(service.value.ty);
      if name in types then (Success(Built(types[name])), types)
      else
        var p := Build(service.value, impl.value);
        (Success(Built(p)), types[name := p])
  }

  // ---- Properties of generation ----

  /** Only a successful build changes the type table, and it adds exactly one type under the service's name. */
  lemma GenerateTable(types: map<string, ProxyType>, interceptorSet: bool, service: Option<TypeInfo>, impl: Option<TypeInfo>)
    ensures var (r, after) := Generate(types, interceptorSet, service, impl);
      && (after != types ==>
            (r.Success? && r.value.Built? && service.Some?
             && TypeName(service.value.ty) !in types && after == types[TypeName(service.value.ty) := r.value.proxy]))
      && (r.Failure? ==> after == types)
      && (r.Success? && r.value.Built? ==>
            (service.Some? && TypeName(service.value.ty) in after && after[TypeName(service.value.ty)] == r.value.proxy))
  {
  }

  /**
   * The cache is keyed by the service's name alone: once a proxy for a service exists,
   * any implementation that passes the checks gets that same proxy and nothing is rebuilt.
   */
  lemma CacheIgnoresImplementation(types: map<string, ProxyType>, service: TypeInfo, impl1: TypeInfo, impl2: TypeInfo)
    requires TypeName(service.ty) in types
    requires Check(Some(service.ty), Some(impl1.ty), true) == Proceed
    requires Check(Some(service.ty), Some(impl2.ty), true) == Proceed
    ensures Generate(types, true, Some(service), Some(impl1)) == Generate(types, true, Some(service), Some(impl2))
    ensures Generate(types, true, Some(service), Some(impl1)) == (Success(Built(types[TypeName(service.ty)])), types)
  {
  }

  /** Asking twice gives the same answer, and the second request changes nothing. */
  lemma GenerateIdempotent(types: map<string, ProxyType>, interceptorSet: bool, service: Option<TypeInfo>, impl: Option<TypeInfo>)
    ensures var (r1, after1) := Generate(types, interceptorSet, service, impl);
      var (r2, after2) := Generate(after1, interceptorSet, service, impl);
      r2 == r1 && after2 == after1
  {
  }

  /**
   * An interface proxy derives from object, implements the interface and has exactly one
   * constructor, taking the implementation; it stores that argument as the wrapped object.
   */
  lemma InterfaceProxyShape(service: TypeInfo, impl: TypeInfo)
    requires IsInterface(service.ty)
    ensures Build(service, impl).parent.None?
    ensures Build(service, impl).interfaces == [service.ty]
    ensures |Build(service, impl).ctors| == 1 && Build(service, impl).ctors[0].params == [impl.ty]
    ensures Build(service, impl).proxyObjectType == impl.ty
  {
  }

  /**
   * A subclass proxy derives from the implementation (even when the service is a base class
   * of it), implements nothing itself, and mirrors each public constructor of the type it is
   * shaped after (the implementation's) with the same parameter types, in order.
   */
  lemma SubclassProxyShape(service: TypeInfo, impl: TypeInfo)
    requires !IsInterface(service.ty) && Check(Some(service.ty), Some(impl.ty), true) == Proceed
    requires IsInterface(impl.ty) ==> impl.ty.isAbstract
    ensures ShapeOf(service, impl).ty == impl.ty
    ensures Build(service, impl).parent == Some(impl.ty)
    ensures Build(service, impl).interfaces == []
    ensures |Build(service, impl).ctors| == |ShapeOf(service, impl).constructors|
    ensures forall k :: 0 <= k < |ShapeOf(service, impl).constructors| ==>
      Build(service, impl).ctors[k].params == ParamTypes(ShapeOf(service, impl).constructors[k])
  {
  }

  /**
   * Every selected method gets its forwarder, and every forwarder is the forwarder of a
   * selected method: all of an interface's methods, only the proxiable ones of a class.
   */
  lemma {:induction false} ForwardersSelect(methods: seq<MethodDesc>, isInterface: bool)
    decreases |methods|
    ensures forall k :: 0 <= k < |methods| && Selected(methods[k], isInterface) ==>
      ForwarderOf(methods[k], isInterface) in Forwarders(methods, isInterface)
    ensures forall f :: f in Forwarders(methods, isInterface) ==>
      f.source in methods && Selected(f.source, isInterface) && f == ForwarderOf(f.source, isInterface)
    ensures isInterface ==> |Forwarders(methods, isInterface)| == |methods|
  {
    if |methods| > 0 {
      var init := methods[..|methods| - 1];
      var m := methods[|methods| - 1];
      var added: seq<Forwarder> := if Selected(m, isInterface) then [ForwarderOf(m, isInterface)] else [];
      ForwardersSelect(init, isInterface);
      assert Forwarders(methods, isInterface) == Forwarders(init, isInterface) + added;
      assert methods == init + [m];
    }
  }


  /** A method the subclass filter skips gets no forwarder: calls to it on the proxy run the original. */
  lemma UnselectedNotForwarded(methods: seq<MethodDesc>, m: MethodDesc)
    requires !Proxiable(m)
    ensures forall f :: f in Forwarders(methods, false) ==> f.source != m
  {
    ForwardersSelect(methods, false);
  }

  /**
   * A void method discards Invoke's result; any other method casts it back to the declared
   * return type (unbox.any for a value type, castclass otherwise), keeps it in its one local
   * and returns it through a branch to the very next instruction.
   */
  lemma ForwarderReturns(m: MethodDesc, isInterface: bool)
    ensures var f := ForwarderOf(m, isInterface); var n := |f.code|;
      && n >= 2 && f.code[n - 1] == Op(Ret)
      && (m.returnType == VoidType ==> f.code[n - 2] == Op(Pop) && f.locals == [] && f.marks == map[])
      && (m.returnType != VoidType ==>
            && n >= 5 && f.locals == [m.returnType]
            && f.code[n - 5] == Instr(if IsValueType(m.returnType) then Unbox_Any else Castclass, TypeOperand(m.returnType))
            && f.code[n - 4] == Op(Stloc_0) && f.code[n - 3] == Instr(Br_S, LabelOperand(0))
            && f.code[n - 2] == Op(Ldloc_0) && f.marks == map[0 := n - 2])
  {
  }

  // ---- Emission (the imperative generator) ----

  /** CtorGeneratorFunc for an interface proxy: the generator action calls object's constructor. */
  method EmitInterfaceCtor(impl: Ty) returns (c: Ctor)
    ensures c == InterfaceCtor(impl)
  {
    var il := new ILGenerator();
    EmitCtorPrologue(il);
    il.Emit(Instr(Call, MethodOperand(Library("System.Object", ".ctor"))));
    EmitCtorEpilogue(il, true);
    c := Ctor([impl], il.code);
  }

  /** CtorGeneratorFunc for one mirrored base constructor: the action loads each argument, then calls the base. */
  method EmitSubclassCtor(params: seq<Param>) returns (c: Ctor)
    ensures c == SubclassCtor(params)
  {
    var il := new ILGenerator();
    EmitCtorPrologue(il);
    for i := 0 to |params|
      invariant il.code == CtorPrologue + BaseArguments(i)
    {
      il.Emit(Instr(Ldarg, IntOperand(i + 1)));
    }
    var types := ParamTypes(params);
    il.Emit(Instr(Call, MethodOperand(BaseConstructor(types))));
    EmitCtorEpilogue(il, false);
    c := Ctor(types, il.code);
  }

  method EmitCtorPrologue(il: ILGenerator)
    modifies il
    ensures il.code == old(il.code) + CtorPrologue
  {
    il.Emit(Op(Ldarg_0));
    il.Emit(Instr(Call, MethodOperand(Library("PureProxy.ProxyFactory", "get_Interceptor"))));
    il.Emit(Instr(Callvirt, MethodOperand(Library("System.Object", "GetType"))));
    il.Emit(Instr(Stfld, FieldOperand(ProxyTypeField)));
    il.Emit(Op(Ldarg_0));
  }

  method EmitCtorEpilogue(il: ILGenerator, isInterface: bool)
    modifies il
    ensures il.code == old(il.code) + CtorEpilogue(isInterface)
  {
    EmitProxyObjectStore(il, isInterface);
    EmitInvokeMethodStore(il);
  }

  method EmitProxyObjectStore(il: ILGenerator, isInterface: bool)
    modifies il
    ensures il.code == old(il.code) + ProxyObjectStore(isInterface)
  {
    il.Emit(Op(Nop));
    il.Emit(Op(Nop));
    il.Emit(Op(Ldarg_0));
    il.Emit(Instr(Ldarg, IntOperand(if isInterface then 1 else 0)));
    il.Emit(Instr(Stfld, FieldOperand(ProxyObjectField)));
  }

  method EmitInvokeMethodStore(il: ILGenerator)
    modifies il
    ensures il.code == old(il.code) + InvokeMethodStore
  {
    il.Emit(Op(Ldarg_0));
    il.Emit(Instr(Ldtoken, StringOperand("PureProxy.ProxyFactory")));
    il.Emit(Instr(Call, MethodOperand(Library("System.Type", "GetTypeFromHandle"))));
    il.Emit(Instr(Ldstr, StringOperand("Invoke")));
    il.Emit(Instr(Ldc_I4_S, IntOperand(40)));
    il.Emit(Instr(Call, MethodOperand(Library("System.Type", "GetMethod"))));
    il.Emit(Instr(Stfld, FieldOperand(InvokeMethodField)));
    il.Emit(Op(Ret));
  }

  method EmitForwarderPrelude(il: ILGenerator)
    modifies il
    ensures il.code == old(il.code) + ForwarderPrelude
    ensures il.locals == old(il.locals) && il.labels == old(il.labels) && il.marks == old(il.marks)
  {
    il.Emit(Op(Nop));
    il.Emit(Op(Ldarg_0));
    il.Emit(Instr(Ldfld, FieldOperand(InvokeMethodField)));
    il.Emit(Op(Ldnull));
    il.Emit(Op(Ldc_I4_3));
    il.Emit(Instr(Newarr, TypeOperand(ObjectType)));
    il.Emit(Op(Dup));
    il.Emit(Op(Ldc_I4_0));
  }

  method EmitMethodSlot(il: ILGenerator, m: MethodDesc, isInterface: bool)
    modifies il
    ensures il.code == old(il.code) + MethodSlot(m, isInterface)
    ensures il.locals == old(il.locals) && il.labels == old(il.labels) && il.marks == old(il.marks)
  {
    if isInterface {
      il.Emit(Instr(Call, MethodOperand(GetCurrentMethod)));
      il.Emit(Op(Stelem_Ref));
    } else {
      il.Emit(Op(Ldarg_0));
      il.Emit(Instr(Ldftn, MethodOperand(Target(m))));
      il.Emit(Instr(Newobj, MethodOperand(DelegateConstructor(m))));
      il.Emit(Op(Stelem_Ref));
    }
  }

  method EmitForwarderMiddle(il: ILGenerator, n: nat)
    modifies il
    ensures il.code == old(il.code) + ForwarderMiddle(n)
    ensures il.locals == old(il.locals) && il.labels == old(il.labels) && il.marks == old(il.marks)
  {
    il.Emit(Op(Dup));
    il.Emit(Op(Ldc_I4_1));
    il.Emit(Op(Ldarg_0));
    il.Emit(Instr(Ldfld, FieldOperand(ProxyObjectField)));
    il.Emit(Op(Stelem_Ref));
    il.Emit(Op(Dup));
    il.Emit(Op(Ldc_I4_2));
    il.Emit(Instr(Ldc_I4_S, IntOperand(n)));
    il.Emit(Instr(Newarr, TypeOperand(ObjectType)));
  }

  /** Store the inner array, call MethodBase.Invoke and return; a non-void result goes through the one local and label. */
  method EmitForwarderTail(il: ILGenerator, returnType: Ty)
    requires il.labels == 0 && il.marks == map[]
    modifies il
    ensures il.code == old(il.code) + ForwarderTail(returnType)
    ensures il.locals == old(il.locals)
    ensures il.marks == if returnType != VoidType then map[0 := |il.code| - 2] else map[]
  {
    il.Emit(Op(Stelem_Ref));
    il.Emit(Instr(Callvirt, MethodOperand(MethodBaseInvoke)));
    if returnType != VoidType {
      il.Emit(Instr(if IsValueType(returnType) then Unbox_Any else Castclass, TypeOperand(returnType)));
      il.Emit(Op(Stloc_0));
      var returnLabel := il.DefineLabel();
      il.Emit(Instr(Br_S, LabelOperand(returnLabel)));
      il.MarkLabel(returnLabel);
      il.Emit(Op(Ldloc_0));
    } else {
      il.Emit(Op(Pop));
    }
    il.Emit(Op(Ret));
  }

  /** Dup the inner array, load index `i` and argument `i + 1`, box it if needed, store it. */
  method EmitArgStore(il: ILGenerator, i: nat, p: Param)
    modifies il
    ensures il.code == old(il.code) + ArgStore(i, p)
    ensures il.locals == old(il.locals) && il.labels == old(il.labels) && il.marks == old(il.marks)
  {
    il.Emit(Op(Dup));
    il.Emit(Instr(Ldc_I4_S, IntOperand(i)));
    il.Emit(Instr(Ldarg_S, IntOperand(i + 1)));
    if IsValueType(p.ty) {
      il.Emit(Instr(Box, TypeOperand(p.ty)));
    }
    il.Emit(Op(Stelem_Ref));
  }

  method EmitForwarderHead(il: ILGenerator, m: MethodDesc, isInterface: bool)
    modifies il
    ensures il.code == old(il.code) + ForwarderHead(m, isInterface)
    ensures il.locals == old(il.locals) && il.labels == old(il.labels) && il.marks == old(il.marks)
  {
    EmitForwarderPrelude(il);
    EmitMethodSlot(il, m, isInterface);
    EmitForwarderMiddle(il, |m.params|);
  }

  method EmitArgStores(il: ILGenerator, params: seq<Param>)
    modifies il
    ensures il.code == old(il.code) + ArgStores(params)
    ensures il.locals == old(il.locals) && il.labels == old(il.labels) && il.marks == old(il.marks)
  {
    for i := 0 to |params|
      invariant il.code == old(il.code) + ArgStores(params[..i])
      invariant il.locals == old(il.locals) && il.labels == old(il.labels) && il.marks == old(il.marks)
    {
      assert params[..i + 1][..i] == params[..i];
      EmitArgStore(il, i, params[i]);
    }
    assert params[..|params|] == params;
  }

  /** The body of one proxied method, emitted into a fresh ILGenerator. */
  method EmitForwarder(m: MethodDesc, isInterface: bool) returns (f: Forwarder)
    ensures f == ForwarderOf(m, isInterface)
  {
    var il := new ILGenerator();
    if m.returnType != VoidType {
      var _ := il.DeclareLocal(m.returnType);
    }
    var delegateType: Option<string> := None;
    if !isInterface {
      delegateType := Some(m.name + DecimalString(m.token));
    }
    ghost var locals := il.locals;
    EmitForwarderHead(il, m, isInterface);
    ghost var head := il.code;
    assert head == ForwarderHead(m, isInterface);
    EmitArgStores(il, m.params);
    assert il.code == head + ArgStores(m.params);
    EmitForwarderTail(il, m.returnType);
    assert il.code == head + ArgStores(m.params) + ForwarderTail(m.returnType);
    assert il.locals == locals;
    f := Forwarder(m, ForwarderAttributes(isInterface), ParamTypes(m.params), m.returnType, il.locals, il.code, il.marks, delegateType);
  }



  method EmitCtors(shape: TypeInfo, impl: Ty) returns (ctors: seq<Ctor>)
    ensures ctors == CtorsOf(shape, impl)
  {
    if IsInterface(shape.ty) {
      var c := EmitInterfaceCtor(impl);
      return [c];
    }
    ctors := [];
    for i := 0 to |shape.constructors|
      invariant ctors == SubclassCtors(shape.constructors[..i])
    {
      assert shape.constructors[..i + 1][..i] == shape.constructors[..i];
      var c := EmitSubclassCtor(shape.constructors[i]);
      ctors := ctors + [c];
    }
    assert shape.constructors[..|shape.constructors|] == shape.constructors;
  }

  /** One forwarder per selected method, in GetMethods order. */
  method EmitForwarders(methods: seq<MethodDesc>, isInterface: bool) returns (forwarders: seq<Forwarder>)
    ensures forwarders == Forwarders(methods, isInterface)
  {
    forwarders := [];
    for i := 0 to |methods|
      invariant forwarders == Forwarders(methods[..i], isInterface)
    {
      assert methods[..i + 1][..i] == methods[..i];
      var m := methods[i];
      if isInterface || Proxiable(m) {
        var f := EmitForwarder(m, isInterface);
        forwarders := forwarders + [f];
      }
    }
    assert methods[..|methods|] == methods;
  }

  /** Everything ProxyGenerator does after a cache miss: define the type, its fields, constructors and forwarders. */
  method BuildProxyType(service: TypeInfo, impl: TypeInfo) returns (p: ProxyType)
    ensures p == Build(service, impl)
  {
    var typeName := TypeName(service.ty);
    var shape := service;
    if !IsInterface(shape.ty) && shape.ty != impl.ty {
      shape := impl;
    }
    assert shape == ShapeOf(service, impl);
    var isInterface := IsInterface(shape.ty);
    var parent := if isInterface then None else Some(shape.ty);
    var interfaces := if isInterface then [shape.ty] else [];
    var getter := new ILGenerator();
    getter.Emit(Op(Ldarg_0));
    getter.Emit(Instr(Ldfld, FieldOperand(ProxyTypeField)));
    getter.Emit(Op(Ret));
    assert getter.code == [Op(Ldarg_0), Instr(Ldfld, FieldOperand(ProxyTypeField)), Op(Ret)];
    var ctors := EmitCtors(shape, impl.ty);
    var forwarders := EmitForwarders(shape.methods, isInterface);
    p := ProxyType(typeName, parent, interfaces, impl.ty, ctors, getter.code, forwarders);
  }


  // ---- Runtime dispatch ----

  /** What slot 0 of the packed call holds. */
  datatype MethodObject =
    | CurrentMethod(m: MethodDesc)        // MethodBase.GetCurrentMethod() in an interface proxy (its name and parameter types)
    | DelegateObject(d: DelegateValue)    // the delegate over the base method, in a subclass proxy

  /** Which interceptor, if any, a call to `target` goes to. */
  datatype Route = Direct | Intercept(interceptor: InterceptorRef) | NoInterceptor

  function RouteFor(target: MethodDesc, global: Option<InterceptorRef>): Route {
    if target.ignoreProxy || target.declaringType.ignoreProxy then Direct
    else if target.interceptor.Some? then Intercept(target.interceptor.value)
    else if target.declaringType.interceptor.Some? then Intercept(target.declaringType.interceptor.value)
    else if global.Some? then Intercept(global.value)
    else NoInterceptor
  }

  /**
   * IgnoreProxy on the method or its type bypasses every interceptor; otherwise the method's
   * attribute wins over the type's, which wins over the global interceptor.
   */
  lemma RoutePriority(target: MethodDesc, global: Option<InterceptorRef>)
    ensures RouteFor(target, global) == Direct <==> target.ignoreProxy || target.declaringType.ignoreProxy
    ensures RouteFor(target, global).Intercept? && target.interceptor.Some? ==> RouteFor(target, global).interceptor == target.interceptor.value
    ensures RouteFor(target, global).Intercept? && target.interceptor.None? && target.declaringType.interceptor.Some? ==>
      RouteFor(target, global).interceptor == target.declaringType.interceptor.value
    ensures RouteFor(target, global).Intercept? && target.interceptor.None? && target.declaringType.interceptor.None? ==>
      global.Some? && RouteFor(target, global).interceptor == global.value
    ensures RouteFor(target, global) == NoInterceptor <==>
      !target.ignoreProxy && !target.declaringType.ignoreProxy && target.interceptor.None?
      && target.declaringType.interceptor.None? && global.None?
  {
  }

  /** The packed argument list has one entry per parameter of the method it was packed for. */
  predicate Packed(methodObj: MethodObject, args: seq<Value>) {
    match methodObj
    case CurrentMethod(m) => |args| == |m.params|
    case DelegateObject(d) => |args| == |d.target.params|
  }

  /** The outcome of `Invoke` once its target method is known. */
  function DispatchTo(target: MethodDesc, proxyObject: Instance, args: seq<Value>, global: Option<InterceptorRef>): Result<Value>
    requires |args| == |target.params|
  {
    match RouteFor(target, global)
    case Direct => Success(Execute(target, args))
    case Intercept(i) => Success(Effect(i, PacketView(target, proxyObject, args, Null, [])).result)
    case NoInterceptor => Failure(NullReference)
  }

  /** ProxyFactory.Invoke: look up the target (interface proxies) or take the delegate's method, then dispatch. */
  function Dispatch(methodObj: MethodObject, proxyObject: Instance, args: seq<Value>, global: Option<InterceptorRef>): Result<Value>
    requires Packed(methodObj, args)
  {
    match methodObj
    case CurrentMethod(m) =>
      var found := FindMethod(proxyObject.info.methods, m.name, ParameterTypes(m));
      if found.None? then Failure(NullReference)
      else DispatchTo(found.value, proxyObject, args, global)
    case DelegateObject(d) => DispatchTo(d.target, proxyObject, args, global)
  }

  /** The argument array once `Invoke` returned: only an interceptor rewrites it. */
  function ArgumentsAfter(target: MethodDesc, proxyObject: Instance, args: seq<Value>, global: Option<InterceptorRef>): seq<Value>
    requires |args| == |target.params|
  {
    match RouteFor(target, global)
    case Intercept(i) => Effect(i, PacketView(target, proxyObject, args, Null, [])).arguments
    case _ => args
  }

  function DispatchArguments(methodObj: MethodObject, proxyObject: Instance, args: seq<Value>, global: Option<InterceptorRef>): seq<Value>
    requires Packed(methodObj, args)
  {
    match methodObj
    case CurrentMethod(m) =>
      var found := FindMethod(proxyObject.info.methods, m.name, ParameterTypes(m));
      if found.None? then args else ArgumentsAfter(found.value, proxyObject, args, global)
    case DelegateObject(d) => ArgumentsAfter(d.target, proxyObject, args, global)
  }

  /** An interceptor keeps the array's length; the other routes leave every argument as it was. */
  lemma ArgumentsAfterKeep(target: MethodDesc, proxyObject: Instance, args: seq<Value>, global: Option<InterceptorRef>)
    requires |args| == |target.params|
    ensures |ArgumentsAfter(target, proxyObject, args, global)| == |args|
    ensures !RouteFor(target, global).Intercept? ==> ArgumentsAfter(target, proxyObject, args, global) == args
  {
    if RouteFor(target, global).Intercept? {
      EffectKeepsTarget(RouteFor(target, global).interceptor, PacketView(target, proxyObject, args, Null, []));
    }
  }

  /**
   * The array keeps its length whatever the route; a call that fails inside Invoke (no matching
   * method, no interceptor) leaves every argument as it was.
   */
  lemma DispatchArgumentsKeep(methodObj: MethodObject, proxyObject: Instance, args: seq<Value>, global: Option<InterceptorRef>)
    requires Packed(methodObj, args)
    ensures |DispatchArguments(methodObj, proxyObject, args, global)| == |args|
    ensures Dispatch(methodObj, proxyObject, args, global).Failure? ==> DispatchArguments(methodObj, proxyObject, args, global) == args
  {
    match methodObj
    case CurrentMethod(m) =>
      var found := FindMethod(proxyObject.info.methods, m.name, ParameterTypes(m));
      if found.Some? {
        ArgumentsAfterKeep(found.value, proxyObject, args, global);
      }
    case DelegateObject(d) =>
      ArgumentsAfterKeep(d.target, proxyObject, args, global);
  }

  /** A bypassed call runs the original once with the arguments as passed; it never depends on the interceptors. */
  lemma IgnoredRunsOriginal(target: MethodDesc, proxyObject: Instance, args: seq<Value>, global: Option<InterceptorRef>)
    requires |args| == |target.params|
    requires target.ignoreProxy || target.declaringType.ignoreProxy
    ensures DispatchTo(target, proxyObject, args, global) == Success(Execute(target, args))
    ensures DispatchTo(target, proxyObject, args, global) == DispatchTo(target, proxyObject, args, None)
  {
  }

  /**
   * An intercepted call returns the packet's Result after exactly the chosen interceptor ran
   * on a fresh packet; an interface proxy's target is the implementation's own method with the
   * same name and parameter types.
   */
  lemma DispatchResult(methodObj: MethodObject, proxyObject: Instance, args: seq<Value>, global: Option<InterceptorRef>)
    requires Packed(methodObj, args)
    ensures methodObj.CurrentMethod? ==>
      var found := FindMethod(proxyObject.info.methods, methodObj.m.name, ParameterTypes(methodObj.m));
      (found.None? ==> Dispatch(methodObj, proxyObject, args, global) == Failure(NullReference))
      && (found.Some? ==> found.value.name == methodObj.m.name && ParameterTypes(found.value) == ParameterTypes(methodObj.m))
    ensures methodObj.DelegateObject? && global.Some? ==> Dispatch(methodObj, proxyObject, args, global).Success?
  {
  }

  /**
   * The forwarder's cast-back of Invoke's result: nothing for void, otherwise Unbox_Any to a
   * value type or Castclass to any other type, which throw as Cast does.
   */
  function CastBack(returnType: Ty, v: Value): Result<Option<Value>> {
    if returnType == VoidType then Success(None)
    else match Cast(returnType, v)
      case Failure(e) => Failure(e)
      case Success(w) => Success(Some(w))
  }

  /**
   * A call at run time through the forwarder generated for `m` (ForwarderOf(m, isInterface)):
   * the forwarder packs the arguments (slot 0 is the current method or a delegate over the base
   * method bound to the proxy, slot 1 the wrapped object, which a subclass proxy sets to itself),
   * Invoke dispatches, and the result is cast back to m's return type.
   */
  function ProxyCall(m: MethodDesc, isInterface: bool, self: Instance, wrapped: Instance, args: seq<Value>, global: Option<InterceptorRef>)
    : Result<Option<Value>>
    requires |args| == |m.params|
  {
    var methodObj := if isInterface then CurrentMethod(m) else DelegateObject(DelegateValue(m, self));
    var proxyObject := if isInterface then wrapped else self;
    match Dispatch(methodObj, proxyObject, args, global)
    case Failure(e) => Failure(TargetInvocation(e))
    case Success(v) => CastBack(m.returnType, v)
  }

  /**
   * Through an interface proxy, a call goes to the wrapped object's first public method with
   * the same name and parameter types, and fails when the wrapped object's type has none.
   */
  lemma InterfaceCallFinds(m: MethodDesc, self: Instance, wrapped: Instance, args: seq<Value>, global: Option<InterceptorRef>)
    requires |args| == |m.params|
    ensures var found := FindMethod(wrapped.info.methods, m.name, ParameterTypes(m));
      && (found.None? ==> ProxyCall(m, true, self, wrapped, args, global) == Failure(TargetInvocation(NullReference)))
      && (found.Some? ==>
            && |found.value.params| == |args|
            && ProxyCall(m, true, self, wrapped, args, global)
               == match DispatchTo(found.value, wrapped, args, global)
                  case Failure(e) => Failure(TargetInvocation(e))
                  case Success(v) => CastBack(m.returnType, v))
  {
  }

  /** Through a subclass proxy, a call goes to the base method itself, with the proxy as the object. */
  lemma SubclassCallRunsBase(m: MethodDesc, self: Instance, wrapped: Instance, args: seq<Value>, global: Option<InterceptorRef>)
    requires |args| == |m.params|
    ensures ProxyCall(m, false, self, wrapped, args, global)
         == match DispatchTo(m, self, args, global)
            case Failure(e) => Failure(TargetInvocation(e))
            case Success(v) => CastBack(m.returnType, v)
  {
  }

  /**
   * A void method's call yields no value; otherwise the call returns Invoke's result when it
   * fits the return type, fails with NullReferenceException when a value type meets null and
   * with InvalidCastException on any other misfit.
   */
  lemma CastBackContract(returnType: Ty, v: Value)
    ensures returnType == VoidType ==> CastBack(returnType, v) == Success(None)
    ensures returnType != VoidType && Fits(returnType, v) ==> CastBack(returnType, v) == Success(Some(v))
    ensures CastBack(returnType, v).Failure? <==> returnType != VoidType && !Fits(returnType, v)
    ensures CastBack(returnType, v) == Failure(NullReference) <==> returnType != VoidType && IsValueType(returnType) && v == Null
    ensures CastBack(returnType, v) == Failure(InvalidCast) <==> returnType != VoidType && v != Null && !Fits(returnType, v)
  {
    CastContract(returnType, v);
  }

  /** A call's failure tells where it arose: inside Invoke (wrapped by MethodBase.Invoke) or in the forwarder's cast-back. */
  lemma ProxyCallFailures(m: MethodDesc, isInterface: bool, self: Instance, wrapped: Instance, args: seq<Value>, global: Option<InterceptorRef>)
    requires |args| == |m.params|
    ensures var methodObj := if isInterface then CurrentMethod(m) else DelegateObject(DelegateValue(m, self));
      var proxyObject := if isInterface then wrapped else self;
      var r := ProxyCall(m, isInterface, self, wrapped, args, global);
      && (r.Failure? && r.error.TargetInvocation? <==> Dispatch(methodObj, proxyObject, args, global).Failure?)
      && (Dispatch(methodObj, proxyObject, args, global).Failure? ==> r.error.inner == Dispatch(methodObj, proxyObject, args, global).error)
      && (r.Failure? && !r.error.TargetInvocation? <==>
            Dispatch(methodObj, proxyObject, args, global).Success?
            && m.returnType != VoidType && !Fits(m.returnType, Dispatch(methodObj, proxyObject, args, global).value))
  {
    var methodObj := if isInterface then CurrentMethod(m) else DelegateObject(DelegateValue(m, self));
    var proxyObject := if isInterface then wrapped else self;
    var d := Dispatch(methodObj, proxyObject, args, global);
    if d.Success? {
      CastBackContract(m.returnType, d.value);
    }
  }

  // ---- The factory's static state ----

  class ProxyFactory {
    /** The static `_interceptor` behind the Interceptor property. */
    var Interceptor: Option<InterceptorRef>
    /** The dynamic module's types, by name. */
    var moduleTypes: map<string, ProxyType>

    constructor ()
      ensures Interceptor.None? && moduleTypes == map[]
    {
      Interceptor := None;
      moduleTypes := map[];
    }

    /** The Interceptor setter: null is rejected and leaves the interceptor as it was. */
    method SetInterceptor(value: Option<InterceptorRef>) returns (error: Option<Exception>)
      modifies this
      ensures value.None? ==> error == Some(ArgumentNull("value")) && Interceptor == old(Interceptor)
      ensures value.Some? ==> error.None? && Interceptor == value
      ensures moduleTypes == old(moduleTypes)
    {
      if value.None? {
        return Some(ArgumentNull("value"));
      }
      Interceptor := value;
      error := None;
    }

    method ProxyGenerator(serviceType: Option<TypeInfo>, implementationType: Option<TypeInfo>) returns (r: Result<Generated>)
      modifies this
      ensures (r, moduleTypes) == Generate(old(moduleTypes), old(Interceptor).Some?, serviceType, implementationType)
      ensures Interceptor == old(Interceptor)
    {
      if serviceType.None? {
        return Failure(ArgumentNull("serviceType"));
      }
      if implementationType.None? {
        return Failure(ArgumentNull("implementationType"));
      }
      var service := serviceType.value;
      var impl := implementationType.value;
      if impl.ty.isSealed {
        return Failure(Argument(ImplementationSealed));
      }
      if impl.ty.isAbstract {
        return Failure(Argument(ImplementationAbstract));
      }
      if impl.ty.ignoreProxy {
        return Success(Unproxied(impl.ty));
      }
      if Interceptor.None? {
        return Failure(ArgumentNull("Interceptor"));
      }
      if !AssignableFrom(service.ty, impl.ty) {
        return Failure(Argument(NotAssignable));
      }
      if !IsInterface(service.ty) && service.ty == impl.ty {
        if service.ty.isSealed {
          return Failure(Argument(ServiceSealed));
        }
        if service.ty.isAbstract {
          return Failure(Argument(ServiceAbstract));
        }
      }
      var typeName := TypeName(service.ty);
      if typeName in moduleTypes {
        return Success(Built(moduleTypes[typeName]));
      }
      var p := BuildProxyType(service, impl);
      moduleTypes := moduleTypes[typeName := p];
      r := Success(Built(p));
    }

    /** ProxyFactory.Invoke: dispatch one packed call; the interceptor may rewrite `args` in place. */
    method Invoke(methodObj: MethodObject, proxyObject: Instance, args: array<Value>) returns (r: Result<Value>)
      requires Packed(methodObj, args[..])
      modifies args
      ensures r == Dispatch(methodObj, proxyObject, old(args[..]), Interceptor)
      ensures args[..] == DispatchArguments(methodObj, proxyObject, old(args[..]), Interceptor)
    {
      var target: MethodDesc;
      if methodObj.CurrentMethod? {
        var found := FindMethod(proxyObject.info.methods, methodObj.m.name, ParameterTypes(methodObj.m));
        if found.None? {
          return Failure(NullReference);
        }
        target := found.value;
      } else {
        target := methodObj.d.target;
      }
      if target.ignoreProxy || target.declaringType.ignoreProxy {
        return Success(Execute(target, args[..]));
      }
      var packet: Packet;
      if methodObj.CurrentMethod? {
        var arguments := new InterceptorArguments(target, proxyObject, args);
        packet := ByMethod(arguments);
      } else {
        var arguments := new ClassInterceptorArguments(methodObj.d, proxyObject, args);
        packet := ByDelegate(arguments);
      }
      var interceptor: InterceptorRef;
      if target.interceptor.Some? {
        interceptor := target.interceptor.value;
      } else if target.declaringType.interceptor.Some? {
        interceptor := target.declaringType.interceptor.value;
      } else if Interceptor.Some? {
        interceptor := Interceptor.value;
      } else {
        return Failure(NullReference);
      }
      Run(interceptor, packet);
      r := Success(packet.Result());
    }
  }
}
