# PureProxy in Dafny

PureProxy generates proxy types at run time with `System.Reflection.Emit` and
registers them with a dependency-injection service collection. Calls on a proxy go
through a static dispatcher. The dispatcher runs one interceptor, and that
interceptor may rewrite the arguments, run the original method and replace the
result. This project models the parts of PureProxy that make decisions, and proves
what those decisions guarantee.

## What the modules model

- `Reflection` (reflection.dfy) stands in for the .NET reflection objects.
  - `Ty` is a type with its flags and its enclosing, base and element chains.
  - `TypeInfo` is a type together with its constructor and method tables.
  - `MethodDesc` is a method with its attributes and its IgnoreProxy and interceptor markers.
  - `Instance` is an object of a known type.
  - `Type.GetMethod(name, types)` is `FindMethod`.
  - `MethodBase.Invoke` / `Delegate.DynamicInvoke` is `Execute`, driven by a small body descriptor.
  - `Cast` is what `Unbox_Any`, `Castclass` and a C# `(T)` cast do to a value: return it when it fits the type, or throw.
- `Emit` (emit.dfy) is the `ILGenerator` as a class. Its code stream, locals, labels and label marks are fields, updated in place.
- `ProxyGeneration` (proxy_factory.dfy) is `ProxyFactory`.
  - The validation order.
  - The name-keyed cache of generated types. The module's type table is a `map` field of the `ProxyFactory` class.
  - The choice of base shape.
  - Constructor mirroring and the method filter.
  - Every instruction of the generated constructors and forwarders, emitted through `ILGenerator` methods.
  - The runtime dispatcher `Invoke`, with its ignore bypass and its method > type > global interceptor priority.
  - `ProxyCall`: what a call through a forwarder returns once the packed arguments reach `Invoke` and the result is cast back.
- `ILSemantics` (il_semantics.dfy) runs the emitted constructors and forwarders.
  - It uses a symbolic evaluation stack machine for the opcodes they use, with stack transitions as section III of ECMA-335 describes them.
  - It shows the array every forwarder passes to `MethodBase.Invoke`: `[method or delegate, wrapped object, boxed arguments]`.
  - It shows how each forwarder casts the result back.
  - It shows which fields each constructor stores and which base constructor it calls.
- `ILExtension` (il_extension.dfy) holds the opcode selection tables of the IL helpers.
  - `LdcLong`, `LdArg`, `LdRef`, `StRef`, `Box`, `Unbox`, `LdDefault`, `Awaiter` and `AwaiterInterceptor`.
  - Each helper is a pure selection plus a method that appends the selection to an `ILGenerator`.
- `InterceptorExtension` (interceptor_extension.dfy) is the static constructor's loop.
  - The loop assigns the public static helpers to the eight slots, from AM to VAIRM.
  - It also models the interceptor-running awaiters: their task ends with `(T)Result`, completed or faulted.
- `TypeExtension` (type_extension.dfy) covers the type helpers:
  - `IsPublic`;
  - `HasRefArgs`;
  - `GetRefElementType`;
  - `IsAssignableFromType`;
  - the metadata-token keys;
  - `GetTaskGenericType`;
  - the field/property partition of `GetCustomAttributeBuilder`.
- `Arguments` (arguments.dfy) holds the two call packets.
  - `InterceptorArguments` and `ClassInterceptorArguments` are classes over an argument `array`.
  - `Packet` is the `IArguments` contract over both classes.
- `Interceptors` (interceptors.dfy) holds the interceptors.
  - The test project's `TestInterceptor`.
  - `Custom`, which stands for an `InterceptorAttribute` subclass.
  - Each has a pure effect on a packet, and an imperative `Invoke` proved to have that effect.
- `Options` (proxy_options.dfy) is `ProxyOptions.Add` with its validation order, plus its nine lifetime overloads. The static service collection is recorded as the sequence of `TryAdd`/`Replace` calls made on it.
- `Fixtures` (fixtures.dfy) and `Scenarios` (scenarios.dfy) cover the test project.
  - The fixture services.
  - The three `AddScoped` registrations.
  - Every assertion of `PureProxyTests`, as calls through the generated proxies.

The factory reports a sealed service registered as itself as a sealed implementation. Its sealed-service and abstract-service checks (PureProxy/ProxyFactory.cs:104-115) can never fire, because the implementation checks above them have already rejected the same type. `ProxyOptions.Add` does reach its own service checks, in a different order. `ServiceChecksUnreachable` and `SealedSelfRegistration` state this.

## Model

| member | source | states |
|---|---|---|
| Reflection.ParameterTypes | PureProxy/ProxyFactory.cs:321 | the parameter types of a method, one per parameter, in declaration order |
| Reflection.FindMethod | PureProxy/ProxyFactory.cs:321 | a found method is in the table with the requested name and exact parameter types; not found means no method of the table has both |
| Reflection.FindMethodFirst | PureProxy/ProxyFactory.cs:321 | the lookup returns the first matching method when no earlier method has the same name and parameter count |
| Emit.ILGenerator.constructor | PureProxy/ProxyFactory.cs:212 | a new generator has no code, no locals, no labels and no marks |
| Emit.ILGenerator.Emit | PureProxy/ProxyFactory.cs:240 | appends exactly one instruction; locals, labels and marks unchanged |
| Emit.ILGenerator.DeclareLocal | PureProxy/ProxyFactory.cs:215-218 | appends one local and returns its index, the previous number of locals |
| Emit.ILGenerator.DefineLabel | PureProxy/ProxyFactory.cs:294 | returns a fresh label number and counts it |
| Emit.ILGenerator.MarkLabel | PureProxy/ProxyFactory.cs:296 | marks the label at the current end of the code; nothing else changes |
| ProxyGeneration.ParamNamesDiffer | PureProxy/ProxyFactory.cs:69-97 | the three ArgumentNullException parameter names are distinct, so the null rejections can be told apart |
| ProxyGeneration.CheckRejectsEarly | PureProxy/ProxyFactory.cs:69-87 | null service, then null implementation, then sealed, then abstract implementation, each exactly when the earlier checks passed |
| ProxyGeneration.BypassPrecedesInterceptorCheck | PureProxy/ProxyFactory.cs:89-97 | a concrete unsealed IgnoreProxy implementation is returned as it is, whether or not a global interceptor is set |
| ProxyGeneration.CheckNeedsInterceptor | PureProxy/ProxyFactory.cs:94-102 | without a global interceptor the check fails with ArgumentNullException; with one, a non-assignable pair fails with ArgumentException |
| ProxyGeneration.ProceedIff | PureProxy/ProxyFactory.cs:69-115 | generation proceeds exactly for non-null, unsealed, non-abstract, non-ignored, assignable pairs with an interceptor set |
| ProxyGeneration.ServiceChecksUnreachable | PureProxy/ProxyFactory.cs:104-115 | the factory never reports a sealed or abstract service |
| ProxyGeneration.TypeName | PureProxy/ProxyFactory.cs:117 | the proxy's name is "PureProxy.Proxy." + the service's full name + "Proxy" |
| ProxyGeneration.TypeNameInjective | PureProxy/ProxyFactory.cs:117-122 | two services share a cache entry exactly when their full names are equal |
| ProxyGeneration.BaseArguments | PureProxy/ProxyFactory.cs:169-173 | a mirrored constructor loads arguments 1..n in order |
| ProxyGeneration.ParamTypes | PureProxy/ProxyFactory.cs:166 | the constructor's parameter types, in order |
| ProxyGeneration.SubclassCtors | PureProxy/ProxyFactory.cs:161-178 | one proxy constructor per public constructor of the implementation, in order |
| ProxyGeneration.GenerateTable | PureProxy/ProxyFactory.cs:117-135 | the type table changes only by adding the newly built proxy under its name; a failure leaves it unchanged; a built result is stored under the service's name |
| ProxyGeneration.CacheIgnoresImplementation | PureProxy/ProxyFactory.cs:117-122 | once a service's name is cached, any implementation returns the cached type and nothing is rebuilt |
| ProxyGeneration.GenerateIdempotent | PureProxy/ProxyFactory.cs:117-122 | asking twice gives the same result and leaves the table as after the first request |
| ProxyGeneration.InterfaceProxyShape | PureProxy/ProxyFactory.cs:124-160 | an interface proxy has no base class, implements the service and has one constructor taking the implementation |
| ProxyGeneration.SubclassProxyShape | PureProxy/ProxyFactory.cs:124-178 | a class proxy subclasses the implementation, implements nothing and mirrors each public constructor with identical parameter types |
| ProxyGeneration.ForwardersSelect | PureProxy/ProxyFactory.cs:203 | every interface method gets a forwarder; a class gets forwarders exactly for its methods not declared on object whose attributes are exactly Public, Virtual, HideBySig and NewSlot, in order |
| ProxyGeneration.UnselectedNotForwarded | PureProxy/ProxyFactory.cs:203 | a class method that fails the filter has no forwarder |
| ProxyGeneration.ForwarderReturns | PureProxy/ProxyFactory.cs:214-304 | a void forwarder pops Invoke's result and declares no local; otherwise it declares one local of the return type, unboxes a value type or casts a reference type, stores it, branches to the next instruction and returns the local |
| ProxyGeneration.EmitInterfaceCtor | PureProxy/ProxyFactory.cs:155-160 | the emitted interface constructor is the specified one |
| ProxyGeneration.EmitSubclassCtor | PureProxy/ProxyFactory.cs:163-176 | the emitted mirrored constructor is the specified one |
| ProxyGeneration.EmitCtorPrologue | PureProxy/ProxyFactory.cs:182-186 | appends the prologue that stores the interceptor's runtime type |
| ProxyGeneration.EmitCtorEpilogue | PureProxy/ProxyFactory.cs:188-200 | appends the epilogue that stores the wrapped object and the Invoke MethodInfo |
| ProxyGeneration.EmitProxyObjectStore | PureProxy/ProxyFactory.cs:190-192 | stores argument 1 (interface proxy) or `this` (class proxy) as the wrapped object |
| ProxyGeneration.EmitInvokeMethodStore | PureProxy/ProxyFactory.cs:193-199 | stores the result of the non-public static lookup of Invoke |
| ProxyGeneration.EmitForwarderPrelude | PureProxy/ProxyFactory.cs:240-247 | appends the prelude that loads the Invoke MethodInfo and a fresh three-slot object array |
| ProxyGeneration.EmitMethodSlot | PureProxy/ProxyFactory.cs:249-260 | slot 0 holds the current method (interface proxy) or a delegate over the base method bound to `this` (class proxy) |
| ProxyGeneration.EmitForwarderMiddle | PureProxy/ProxyFactory.cs:262-270 | slot 1 holds the wrapped object; an inner array sized by the parameter count is started for slot 2 |
| ProxyGeneration.EmitArgStore | PureProxy/ProxyFactory.cs:276-285 | argument i is stored at index i, boxed when its type is a value type |
| ProxyGeneration.EmitArgStores | PureProxy/ProxyFactory.cs:273-286 | every parameter's store, in order |
| ProxyGeneration.EmitForwarderTail | PureProxy/ProxyFactory.cs:287-304 | appends the Invoke call and the cast-back; for a non-void method the label sits two instructions before the end |
| ProxyGeneration.EmitForwarderHead | PureProxy/ProxyFactory.cs:240-270 | prelude, method slot and middle, in order |
| ProxyGeneration.EmitForwarder | PureProxy/ProxyFactory.cs:206-304 | the emitted forwarder is the specified one |
| ProxyGeneration.EmitCtors | PureProxy/ProxyFactory.cs:153-201 | the emitted constructors are the specified ones for the shape |
| ProxyGeneration.EmitForwarders | PureProxy/ProxyFactory.cs:203-305 | one forwarder per selected method, in order |
| ProxyGeneration.BuildProxyType | PureProxy/ProxyFactory.cs:124-307 | the built type is the specified proxy record: base, interfaces, fields, constructors and forwarders |
| ProxyGeneration.RoutePriority | PureProxy/ProxyFactory.cs:323-347 | ignored methods or types run directly; otherwise the method's interceptor wins, then the type's, then the global one; a missing global interceptor is reported only when neither marker is present |
| ProxyGeneration.IgnoredRunsOriginal | PureProxy/ProxyFactory.cs:323-358 | an ignored target runs the original with the given arguments, whatever the global interceptor |
| ProxyGeneration.DispatchResult | PureProxy/ProxyFactory.cs:319-381 | the interface branch fails with NullReferenceException when the wrapped object's type has no matching method, and otherwise targets a method of the same name and parameter types; the delegate branch succeeds when a global interceptor is set |
| ProxyGeneration.InterfaceCallFinds | PureProxy/ProxyFactory.cs:319-350 | a call through an interface proxy dispatches to the wrapped object's matching method and casts the result back; with no matching method the caller gets a TargetInvocationException around the NullReferenceException |
| ProxyGeneration.SubclassCallRunsBase | PureProxy/ProxyFactory.cs:351-381 | a call through a class proxy dispatches to the base method with the proxy as target object; a failure inside Invoke reaches the caller wrapped in TargetInvocationException |
| Reflection.CastContract | PureProxy/ProxyFactory.cs:292 | a cast succeeds exactly on a fitting value and returns it unchanged; it throws NullReferenceException for null to a value type, InvalidCastException for any other misfit, including a reference to a value type |
| ProxyGeneration.CastBackContract | PureProxy/ProxyFactory.cs:290-302 | void gives nothing; otherwise the call fails exactly when the result does not fit the return type: NullReferenceException for null to a value type, InvalidCastException for any other misfit; a fitting result is returned as it is |
| ProxyGeneration.ProxyCallFailures | PureProxy/ProxyFactory.cs:288-292 | a TargetInvocationException comes exactly from a failure inside Invoke and wraps that failure; any other failure is the cast-back's, on a non-void method whose result does not fit |
| ProxyGeneration.ArgumentsAfterKeep | PureProxy/ProxyFactory.cs:323-348 | once the target is known, the argument array keeps its length; only an interceptor's route can change its contents |
| ProxyGeneration.DispatchArgumentsKeep | PureProxy/ProxyFactory.cs:319-381 | Invoke keeps the argument array's length, and a call that fails inside Invoke leaves every argument unchanged |
| ProxyGeneration.ProxyFactory.constructor | PureProxy/ProxyFactory.cs:15-45 | no interceptor and an empty type table |
| ProxyGeneration.ProxyFactory.SetInterceptor | PureProxy/ProxyFactory.cs:21-33 | null is rejected and leaves the interceptor; otherwise the interceptor is replaced; the table never changes |
| ProxyGeneration.ProxyFactory.ProxyGenerator | PureProxy/ProxyFactory.cs:67-308 | the result and the new type table are those of the validated, cached generation |
| ProxyGeneration.ProxyFactory.Invoke | PureProxy/ProxyFactory.cs:317-382 | the dispatcher's result is that of the route, packet and interceptor effect, and the argument array afterwards holds the chosen interceptor's rewritten arguments (unchanged on the other routes) |
| ILSemantics.RunAppend | PureProxy/ProxyFactory.cs:180-201 | running two pieces of code one after the other is running their concatenation |
| ILSemantics.PreludeRuns | PureProxy/ProxyFactory.cs:240-247 | the prelude leaves the Invoke MethodInfo, null and the new three-slot array on the stack |
| ILSemantics.MethodSlotRuns | PureProxy/ProxyFactory.cs:249-260 | slot 0 receives the current method or the delegate |
| ILSemantics.CurrentMethodSlotRuns | PureProxy/ProxyFactory.cs:251-252 | an interface forwarder calls GetCurrentMethod and stores its result in slot 0 |
| ILSemantics.DelegateSlotRuns | PureProxy/ProxyFactory.cs:256-259 | a class forwarder stores in slot 0 a delegate over a pointer to the base method, bound to `this` |
| ILSemantics.MiddleRuns | PureProxy/ProxyFactory.cs:262-270 | slot 1 receives the wrapped object field, and an inner array of the parameter count is allocated |
| ILSemantics.ArgStoresRun | PureProxy/ProxyFactory.cs:273-286 | the inner array holds every argument in order, boxed when it is a value type |
| ILSemantics.PackedStoreRuns | PureProxy/ProxyFactory.cs:285 | Stelem_Ref stores the top of the stack at index i of the inner array and changes nothing else |
| ILSemantics.BoxedStoreRuns | PureProxy/ProxyFactory.cs:280-285 | a value-type argument is boxed with its own type before it is stored at index i |
| ILSemantics.InvokeRuns | PureProxy/ProxyFactory.cs:287-288 | slot 2 receives the inner array, then MethodBase.Invoke is called once and its result is on the stack |
| ILSemantics.VoidReturnRuns | PureProxy/ProxyFactory.cs:299-304 | a void forwarder discards Invoke's result and returns nothing |
| ILSemantics.ValueReturnRuns | PureProxy/ProxyFactory.cs:290-304 | any other forwarder returns Invoke's result unboxed (value type) or cast (reference type), through local 0 |
| ILSemantics.TailRuns | PureProxy/ProxyFactory.cs:287-304 | the tail makes the Invoke call and returns its cast result, or nothing for void |
| ILSemantics.HeadRuns | PureProxy/ProxyFactory.cs:240-270 | the head leaves the outer array with slots 0 and 1 filled and the inner array started |
| ILSemantics.BodyRuns | PureProxy/ProxyFactory.cs:273-304 | the argument stores followed by the tail finish with the packed arguments |
| ILSemantics.CodeRuns | PureProxy/ProxyFactory.cs:238-304 | running a forwarder's code from the start ends in its specified final state |
| ILSemantics.ForwarderRuns | PureProxy/ProxyFactory.cs:206-304 | every forwarder calls MethodBase.Invoke on the Invoke MethodInfo with null and `[method or delegate, wrapped object, packed arguments]`, and returns the cast result |
| ILSemantics.CtorPrologueRuns | PureProxy/ProxyFactory.cs:182-186 | the prologue stores the interceptor's runtime type in the proxy-type field |
| ILSemantics.InterceptorTypeRuns | PureProxy/ProxyFactory.cs:182-184 | the prologue calls the Interceptor getter, then GetType on its result |
| ILSemantics.BaseCallRuns | PureProxy/ProxyFactory.cs:175 | the base constructor call consumes `this` and the arguments pushed for it, and is logged once |
| ILSemantics.ProxyObjectStoreRuns | PureProxy/ProxyFactory.cs:190-192 | the wrapped-object field receives argument 1 in an interface proxy and `this` in a class proxy |
| ILSemantics.InvokeStoreRuns | PureProxy/ProxyFactory.cs:196-200 | GetMethod("Invoke", Static or NonPublic, the value 40) is called on the looked-up type, its result is stored and the constructor returns |
| ILSemantics.CtorEpilogueRuns | PureProxy/ProxyFactory.cs:188-200 | the epilogue stores the wrapped object and the Invoke MethodInfo, then returns |
| ILSemantics.InterfaceCtorRuns | PureProxy/ProxyFactory.cs:155-201 | the interface constructor stores the interceptor type, calls object(), stores its argument as the wrapped object and stores the Invoke MethodInfo |
| ILSemantics.SubclassCtorRuns | PureProxy/ProxyFactory.cs:161-201 | a mirrored constructor calls the base constructor with `this` and its arguments in order, and stores `this` as the wrapped object |
| ILExtension.LdcLongIsShortest | PureProxy/Extensions/ILExtension.cs:40-100 | the chosen instruction loads exactly `i`, and no opcode able to load `i` is shorter |
| ILExtension.LdcLongTiers | PureProxy/Extensions/ILExtension.cs:40-100 | -1..8 take a one-byte opcode, other sbyte values Ldc_I4_S, other int values Ldc_I4, the rest Ldc_I8 |
| ILExtension.LdcLong | PureProxy/Extensions/ILExtension.cs:40-100 | appends exactly the selected instruction |
| ILExtension.LdArgIsShortest | PureProxy/Extensions/ILExtension.cs:107-139 | for positions 0..65535 the chosen instruction names that position with the shortest able opcode |
| ILExtension.LdArgTiers | PureProxy/Extensions/ILExtension.cs:107-139 | 0..3 take Ldarg_0..3, other positions up to 255 Ldarg_S, larger ones Ldarg |
| ILExtension.LdArgNegativeWraps | PureProxy/Extensions/ILExtension.cs:127-135 | a negative position is not rejected: the byte cast keeps its low eight bits |
| ILExtension.LdArg | PureProxy/Extensions/ILExtension.cs:107-139 | appends exactly the selected instruction |
| ILExtension.CanonicalPrim | PureProxy/Extensions/ILExtension.cs:156-203 | a type is recognised as a primitive exactly when it is that primitive type |
| ILExtension.RefTablesEmitIffByRef | PureProxy/Extensions/ILExtension.cs:146-257 | LdRef and StRef emit an instruction exactly for by-ref types |
| ILExtension.PrimOpsWidth | PureProxy/Extensions/ILExtension.cs:156-256 | each primitive's load and store opcodes access its width and kind |
| ILExtension.LdRefStRefAgree | PureProxy/Extensions/ILExtension.cs:146-257 | for every by-ref type, the load and the store access the same width and kind |
| ILExtension.PrimAccessWidth | PureProxy/Extensions/ILExtension.cs:156-256 | a by-ref primitive is loaded and stored at the primitive's width |
| ILExtension.PrimLoadSignedness | PureProxy/Extensions/ILExtension.cs:156-203 | narrow integer loads sign-extend exactly for signed types |
| ILExtension.EnumAccessAsUnderlying | PureProxy/Extensions/ILExtension.cs:146-219 | a by-ref enum is accessed as its underlying type |
| ILExtension.LdRef | PureProxy/Extensions/ILExtension.cs:146-204 | appends the selected load, or nothing for a non-by-ref type |
| ILExtension.StRef | PureProxy/Extensions/ILExtension.cs:211-257 | appends the selected store, or nothing for a non-by-ref type |
| ILExtension.BoxUnboxAgree | PureProxy/Extensions/ILExtension.cs:264-280 | Box emits exactly when Unbox uses Unbox_Any, on the same type, and never for a class that is not a generic parameter |
| ILExtension.EmitBox | PureProxy/Extensions/ILExtension.cs:264-270 | appends the Box selection, if any |
| ILExtension.EmitUnbox | PureProxy/Extensions/ILExtension.cs:277-280 | appends exactly one Unbox_Any or Castclass |
| ILExtension.DefaultCodeShape | PureProxy/Extensions/ILExtension.cs:18-33 | classes get Ldnull alone; other types get three instructions around an Initobj on a fresh local |
| ILExtension.LdDefault | PureProxy/Extensions/ILExtension.cs:18-33 | appends the default code and, for a non-class, declares one local of the ref-element type |
| ILExtension.Awaiter | PureProxy/Extensions/ILExtension.cs:288-294 | nothing without a task type, else one call to the selected awaiter |
| ILExtension.AwaiterInterceptor | PureProxy/Extensions/ILExtension.cs:303-309 | always one call, to the selected helper, which is also returned |
| ILExtension.InstantiateHelperTypes | PureProxy/Extensions/ILExtension.cs:288-309 | instantiating a helper's generic parameter gives the expected task shapes |
| ILExtension.TaskFormsDiffer | PureProxy/Extensions/TypeExtension.cs:121-144 | the four task forms are distinct types |
| ILExtension.AwaiterFitsTask | PureProxy/Extensions/ILExtension.cs:288-294 | for every task form, the selected awaiter takes that task and returns its awaited type |
| ILExtension.AwaiterInterceptorFitsTask | PureProxy/Extensions/ILExtension.cs:303-309 | for every task form, the selected helper takes (interceptor, arguments) and returns that task type |
| InterceptorExtension.SlotFilledIffClaimed | PureProxy/Extensions/InterceptorExtension.cs:53-100 | a slot is filled exactly when some method's name and return shape claim it |
| InterceptorExtension.SlotHoldsLastMatch | PureProxy/Extensions/InterceptorExtension.cs:53-100 | a filled slot holds the last method that claims it |
| InterceptorExtension.Classify | PureProxy/Extensions/InterceptorExtension.cs:53-100 | the loop's slot assignments equal the specified classification |
| InterceptorExtension.IntendedSlot | PureProxy/Extensions/InterceptorExtension.cs:59-97 | each helper signature lands in its own slot: void, a generic parameter, Task and another generic type for Awaiter, and the same four with ValueTask for ValueTaskAwaiter |
| InterceptorExtension.GettersHaveNoSlot | PureProxy/Extensions/InterceptorExtension.cs:16-51 | the eight property getters are not classified |
| InterceptorExtension.HelpersAreIntended | PureProxy/Extensions/InterceptorExtension.cs:107-202 | the declared helpers are exactly the eight intended signatures |
| InterceptorExtension.DeclaredSlotsAreUnique | PureProxy/Extensions/InterceptorExtension.cs:107-202 | every slot is claimed by exactly one declared method |
| InterceptorExtension.SlotIgnoresOrder | PureProxy/Extensions/InterceptorExtension.cs:55 | in whatever order reflection lists the methods, a slot gets its intended helper |
| InterceptorExtension.SlotsIgnoreOrder | PureProxy/Extensions/InterceptorExtension.cs:53-100 | all eight slots get their intended helpers in any order |
| InterceptorExtension.OtherNamesIgnored | PureProxy/Extensions/InterceptorExtension.cs:57-98 | a method with any other name changes no slot |
| InterceptorExtension.AwaiterRunningInterceptor | PureProxy/Extensions/InterceptorExtension.cs:151-154 | runs the interceptor on the packet; the Task, or ValueTask, completes with no value |
| InterceptorExtension.AwaiterRunningInterceptorOfT | PureProxy/Extensions/InterceptorExtension.cs:164-172 | runs the interceptor on the packet; the Task<T>, or ValueTask<T>, ends with `(T)Result` as read afterwards |
| InterceptorExtension.AwaitedOutcomeContract | PureProxy/Extensions/InterceptorExtension.cs:166-171 | the task completes with Result exactly when Result fits T; otherwise it faults with NullReferenceException (null to a value type) or InvalidCastException |
| TypeExtension.EnclosingChain | PureProxy/Extensions/TypeExtension.cs:34-37 | the chain starts at the type itself |
| TypeExtension.IsPublicIffChainVisible | PureProxy/Extensions/TypeExtension.cs:34-37 | a type is public exactly when it and every enclosing type is public or nested-public |
| TypeExtension.RefElementOfMakeByRef | PureProxy/Extensions/TypeExtension.cs:76-79 | GetRefElementType strips exactly one by-ref level and is the identity elsewhere |
| TypeExtension.HasRefArgs | PureProxy/Extensions/TypeExtension.cs:45-69 | refArgs has one entry per parameter, each its ref-element type; the flag holds exactly when some parameter is by-ref and not `in` |
| TypeExtension.OpenGenericAssignability | PureProxy/Extensions/TypeExtension.cs:87-93 | an open generic interface is not assignable from its open implementation, but IsAssignableFromType accepts it |
| TypeExtension.HasOpenInstanceIff | PureProxy/Extensions/TypeExtension.cs:92 | walking the interfaces and base types finds an open instance of the service exactly when FindInterfaces with the source's filter reports one |
| TypeExtension.IsAssignableFromTypeIff | PureProxy/Extensions/TypeExtension.cs:87-93 | unless the service is an open generic interface and the type an open generic, the check is plain IsAssignableFrom; otherwise it also accepts a type with an open instance of the service among its interfaces |
| TypeExtension.DecimalString | PureProxy/Extensions/TypeExtension.cs:110-113 | a token prints as a non-empty string of digits |
| TypeExtension.GenericTokenIsTypeTokenOfArguments | PureProxy/Extensions/TypeExtension.cs:100-103 | the generic-arguments key is the type key of the arguments, and is non-empty exactly for closed generic types |
| TypeExtension.Prefixed | PureProxy/Extensions/TypeExtension.cs:110-113 | the key is empty exactly for no parts and otherwise starts with "_" |
| TypeExtension.JoinIsPrefixed | PureProxy/Extensions/TypeExtension.cs:110-113 | "_" + string.Join("_", parts) is the prefixed form |
| TypeExtension.PrefixedInjective | PureProxy/Extensions/TypeExtension.cs:110-113 | different lists of numerals give different keys |
| TypeExtension.DecimalStringInjective | PureProxy/Extensions/TypeExtension.cs:110-113 | different tokens print differently |
| TypeExtension.TypeTokenInjective | PureProxy/Extensions/TypeExtension.cs:110-113 | equal keys mean equal token lists |
| TypeExtension.TaskShapeIsFirstTaskLike | PureProxy/Extensions/TypeExtension.cs:121-144 | the walk up the base chain stops at the first task-like type; without one both results are null |
| TypeExtension.TaskShapesOfTasks | PureProxy/Extensions/TypeExtension.cs:121-144 | Task and ValueTask give (null, the type); Task<T> and ValueTask<T> give (T, the generic definition) |
| TypeExtension.GetTaskGenericType | PureProxy/Extensions/TypeExtension.cs:121-144 | the loop's results are the specified task shape |
| TypeExtension.SelectAppend | PureProxy/Extensions/TypeExtension.cs:153-172 | the partition distributes over concatenation, so it keeps order |
| TypeExtension.SelectPartitions | PureProxy/Extensions/TypeExtension.cs:153-172 | fields and properties together are exactly the named arguments |
| TypeExtension.GetCustomAttributeBuilder | PureProxy/Extensions/TypeExtension.cs:151-173 | the builder keeps the constructor and its arguments; fields and properties come in order with each value aligned to its member |
| Arguments.AfterInvoke | PureProxy/Arguments/IArguments.cs:41-45 | running the original records one call with the current arguments and sets the result to its value |
| Arguments.InterceptorArguments.constructor | PureProxy/ProxyFactory.cs:328-333 | the packet holds the target method, the wrapped object and the argument array |
| Arguments.InterceptorArguments.SetResult | PureProxy/Arguments/InterceptorArguments.cs:22-25 | Result becomes the value; method, arguments, proxy object, calls and TargetType unchanged |
| Arguments.InterceptorArguments.Invoke | PureProxy/Arguments/InterceptorArguments.cs:27-30 | Result is the method run with the current arguments, and it is returned; one more call is recorded |
| Arguments.ClassInterceptorArguments.constructor | PureProxy/ProxyFactory.cs:360-365 | the packet holds the delegate, the proxy and the argument array |
| Arguments.ClassInterceptorArguments.SetResult | PureProxy/Arguments/ClassInterceptorArguments.cs:23-26 | Result becomes the value; delegate, Method, TargetType and arguments unchanged |
| Arguments.ClassInterceptorArguments.Invoke | PureProxy/Arguments/ClassInterceptorArguments.cs:28-31 | Result is the delegate's method run with the current, possibly rewritten, arguments, and it is returned |
| Arguments.Packet.ParameterTypes | PureProxy/Arguments/IArguments.cs:19 | one type per parameter of Method, in order |
| Arguments.Packet.Invoke | PureProxy/Arguments/IArguments.cs:41-45 | either packet's Invoke is AfterInvoke on its view |
| Arguments.Packet.SetResult | PureProxy/Arguments/IArguments.cs:31-34 | either packet's SetResult changes only the result |
| Arguments.Packet.SetArgument | PureProxy/Arguments/IArguments.cs:26-29 | writing Arguments[k] changes only that argument |
| Arguments.InvokeTwice | PureProxy/Arguments/InterceptorArguments.cs:27-30 | invoking twice runs the original twice and Result holds the last value |
| Interceptors.TestEffectContract | PureProxyTests/Interceptor/TestInterceptor.cs:10-36 | argument 1 becomes "10" for an ITestService target with a string second parameter, else "20" for ITest1Service, else nothing changes; the original runs once with the rewritten arguments; an ITestService int method then returns 55 |
| Interceptors.TaskOfIntIsNotOverridden | PureProxyTests/Interceptor/TestInterceptor.cs:30-33 | a Task<int> method keeps the original's result |
| Interceptors.TestInterceptorInvoke | PureProxyTests/Interceptor/TestInterceptor.cs:10-36 | the in-place run on a packet has exactly the test interceptor's effect |
| Interceptors.ApplyRewrites | PureProxy/Arguments/IArguments.cs:26-29 | rewriting arguments keeps their number |
| Interceptors.InvokeTimes | PureProxy/Arguments/IArguments.cs:41-45 | running the original leaves the target, proxy object and arguments |
| Interceptors.InvokeTimesRunsOriginal | PureProxy/Arguments/IArguments.cs:41-45 | n runs record n calls with the current arguments, and the result is the original's value |
| Interceptors.CustomInvoke | PureProxy/Attributes/InterceptorAttribute.cs:9-15 | the in-place run of an attribute interceptor has its specified effect |
| Interceptors.EffectKeepsTarget | PureProxy/ProxyFactory.cs:336-349 | no interceptor changes the packet's method or proxy object, or the argument count |
| Interceptors.Run | PureProxy/ProxyFactory.cs:336-347 | running the chosen interceptor on a packet has its effect |
| Options.AddRejectsNullsFirst | PureProxy/Options/ProxyOptions.cs:118-126 | a null service, then a null implementation, raise ArgumentNullException before anything else |
| Options.AddBypass | PureProxy/Options/ProxyOptions.cs:128-133 | an IgnoreProxy implementation gets one TryAdd(service, implementation) and nothing else happens |
| Options.AddArgumentOrder | PureProxy/Options/ProxyOptions.cs:135-161 | not assignable, then sealed or abstract class service, then sealed or abstract implementation, each exactly when the earlier checks passed |
| Options.AddProceedIff | PureProxy/Options/ProxyOptions.cs:116-161 | Add calls the factory exactly for a non-ignored assignable pair of unsealed, non-abstract types, where the service may be an interface |
| Options.AddLeavesOnlyInterceptorCheck | PureProxy/Options/ProxyOptions.cs:168 | after Add's checks, the factory can object only to a missing interceptor |
| Options.SealedSelfRegistration | PureProxy/Options/ProxyOptions.cs:140-151 | a sealed class registered as itself is reported against the service by Add, but against the implementation by the factory |
| Options.SelfRegistration | PureProxy/Options/ProxyOptions.cs:23-108 | the single-type forms proceed exactly for non-ignored, unsealed, non-abstract types; an interface is rejected as the implementation |
| Options.AddRegisters | PureProxy/Options/ProxyOptions.cs:163-168 | an interface service first gets TryAdd(impl, impl), which stays even if the factory fails; with an interceptor set, the last call is Replace with the cached proxy |
| Options.AddRegistersFresh | PureProxy/Options/ProxyOptions.cs:163-168 | a first registration builds the proxy, stores it under its name and registers it with Replace |
| Options.ProxyOptions.constructor | PureProxy/Options/ProxyOptions.cs:16 | the options start from the given collection |
| Options.ProxyOptions.Add | PureProxy/Options/ProxyOptions.cs:116-169 | the error, the collection's calls and the type table are those specified for Add; the interceptor is untouched |
| Options.ProxyOptions.AddSingleton | PureProxy/Options/ProxyOptions.cs:23-27 | Add(service, implementation, Singleton) |
| Options.ProxyOptions.AddSingletonSelf | PureProxy/Options/ProxyOptions.cs:33-37 | Add(T, T, Singleton) |
| Options.ProxyOptions.AddSingletonType | PureProxy/Options/ProxyOptions.cs:44-47 | Add(type, type, Singleton) |
| Options.ProxyOptions.AddScoped | PureProxy/Options/ProxyOptions.cs:54-58 | Add(service, implementation, Scoped) |
| Options.ProxyOptions.AddScopedSelf | PureProxy/Options/ProxyOptions.cs:64-68 | Add(T, T, Scoped) |
| Options.ProxyOptions.AddScopedType | PureProxy/Options/ProxyOptions.cs:74-77 | Add(type, type, Scoped) |
| Options.ProxyOptions.AddTransient | PureProxy/Options/ProxyOptions.cs:84-88 | Add(service, implementation, Transient) |
| Options.ProxyOptions.AddTransientSelf | PureProxy/Options/ProxyOptions.cs:94-98 | Add(T, T, Transient) |
| Options.ProxyOptions.AddTransientType | PureProxy/Options/ProxyOptions.cs:105-108 | Add(type, type, Transient) |
| Scenarios.FixtureInterfaces | PureProxyTests/Services/Impl/TestService.cs:9 | TestService implements ITestService only, and Test1Service and Test2Service implement ITest1Service only |
| Scenarios.ProxyNamesDistinct | PureProxyTests/PureProxyTests.cs:22-24 | the three registrations use three different cache names |
| Scenarios.FixturesRegistrable | PureProxyTests/PureProxyTests.cs:22-24 | all three registrations pass both Add's checks and the factory's |
| Scenarios.RegisterScoped | PureProxy/Options/ProxyOptions.cs:54-58 | an acceptable first AddScoped adds TryAdd(impl) for an interface, then Replace with the freshly built proxy, and stores that proxy under its name |
| Scenarios.RegisterTestServices | PureProxyTests/PureProxyTests.cs:20-25 | the three registrations succeed with these exact collection calls, proxies and type table |
| Scenarios.ServiceMethodShapes | PureProxyTests/Services/ITest1Service.cs:8-22 | the fixtures' six methods: Test() to Test(4 args), TestAsync(), TestAsync(int) |
| Scenarios.ServiceMethodFound | PureProxy/ProxyFactory.cs:321 | each interface method finds the implementation's method of the same position |
| Scenarios.InterfaceCallReaches | PureProxy/ProxyFactory.cs:319-350 | a call through an interface proxy returns the cast test-interceptor result of the found method |
| Scenarios.EffectOnTest | PureProxyTests/Interceptor/TestInterceptor.cs:10-36 | Test() leaves a null result |
| Scenarios.EffectOnTestInt | PureProxyTests/Interceptor/TestInterceptor.cs:30-33 | Test(1) gives 55 on an ITestService and 1 otherwise |
| Scenarios.EffectOnTestString | PureProxyTests/Interceptor/TestInterceptor.cs:14-21 | Test(1, "1") gives "10", "20" or "1" by the object's interface |
| Scenarios.EffectOnTestFour | PureProxyTests/Interceptor/TestInterceptor.cs:14-21 | Test(1, "2", 2, null) gives "10", "20" or "2" by the object's interface |
| Scenarios.EffectOnTestAsync | PureProxyTests/Interceptor/TestInterceptor.cs:23 | TestAsync() gives a completed task without value |
| Scenarios.EffectOnTestAsyncInt | PureProxyTests/Interceptor/TestInterceptor.cs:30-33 | TestAsync(1) gives a task of 1 even on an ITestService |
| Scenarios.ProxyTest | PureProxyTests/PureProxyTests.cs:32 | Test() through any such interface proxy returns nothing |
| Scenarios.ProxyTestInt | PureProxyTests/PureProxyTests.cs:33 | Test(1) returns 55 when the wrapped object is an ITestService, else 1 |
| Scenarios.ProxyTestString | PureProxyTests/PureProxyTests.cs:34 | Test(1, "1") returns the rewritten string |
| Scenarios.ProxyTestFour | PureProxyTests/PureProxyTests.cs:35 | Test(1, "2", 2, null) returns the rewritten string |
| Scenarios.ProxyTestAsync | PureProxyTests/PureProxyTests.cs:36 | TestAsync() returns a completed task |
| Scenarios.ProxyTestAsyncInt | PureProxyTests/PureProxyTests.cs:37 | TestAsync(1) returns a task of 1 |
| Scenarios.ITestServiceCalls | PureProxyTests/PureProxyTests.cs:32-33 | Test() returns nothing and Test(1) returns 55 |
| Scenarios.ITestServiceStringCalls | PureProxyTests/PureProxyTests.cs:34-35 | both string overloads return "10" |
| Scenarios.ITestServiceAsyncCalls | PureProxyTests/PureProxyTests.cs:36-37 | TestAsync() completes and TestAsync(1) yields 1 |
| Scenarios.ITest1ServiceCalls | PureProxyTests/PureProxyTests.cs:43-44 | Test() returns nothing and Test(1) returns 1 |
| Scenarios.ITest1ServiceStringCalls | PureProxyTests/PureProxyTests.cs:45-46 | both string overloads return "20" |
| Scenarios.ITest1ServiceAsyncCalls | PureProxyTests/PureProxyTests.cs:47-48 | TestAsync() completes and TestAsync(1) yields 1 |
| Scenarios.SubclassCallReaches | PureProxy/ProxyFactory.cs:351-381 | a call through a class proxy returns the cast test-interceptor result of the base method, with the proxy as the packet's object |
| Scenarios.SubclassTestString | PureProxyTests/PureProxyTests.cs:57 | Test(1, "1") on a class proxy returns the rewritten string |
| Scenarios.SubclassTestFour | PureProxyTests/PureProxyTests.cs:58 | Test(1, "2", 2, null) on a class proxy returns the rewritten string |
| Scenarios.SubclassTestAsync | PureProxyTests/PureProxyTests.cs:59 | TestAsync() on a class proxy completes |
| Scenarios.SubclassTestAsyncInt | PureProxyTests/PureProxyTests.cs:60 | TestAsync(1) on a class proxy yields 1 |
| Scenarios.Test2ServiceCalls | PureProxyTests/PureProxyTests.cs:54-56 | Test() and Test(int) are not overridden, so Test(1) runs the original and gives 1; Test(int, int) is overridden, and its IgnoreProxy marker makes it return 2 |
| Scenarios.Test2ServiceStringCalls | PureProxyTests/PureProxyTests.cs:57-58 | both string overloads return "20" through the Test2Service proxy |
| Scenarios.Test2ServiceAsyncCalls | PureProxyTests/PureProxyTests.cs:59-60 | TestAsync() completes and TestAsync(1) yields 1 |

## Left out

- The byte encoding of instructions, `DefineType`, `DefineMethod`, `DefineParameter` and `CreateTypeInfo`. A generated type is a record of its base, interfaces, fields, constructors and forwarders; its code is a list of instructions.
- Whether the emitted IL is valid. Operand widths are recorded as the `Emit` overload the source uses, and nothing claims they are right. `Ldc_I4` receives a `long` operand, and `LdDefault` emits `Localloc` where a load is expected.
- The nested delegate type's `BeginInvoke`/`EndInvoke` (PureProxy/ProxyFactory.cs:221-235). Only its constructor, which the forwarder calls, is modelled.
- Copying custom attributes onto the generated type. Only the field/property partition in `GetCustomAttributeBuilder` is modelled.
- `ILSemantics`: it evaluates only the opcodes the generator emits. Branches are followed only to the next instruction. It runs code symbolically and does not run `MethodBase.Invoke`; `ProxyCall` gives that call's meaning.
- `MethodBase.Invoke`, `Delegate.DynamicInvoke`, `IsDefined` and `GetCustomAttribute` are foreign. A method carries a small body descriptor that `Execute` evaluates. The IgnoreProxy and interceptor markers stand for `IsDefined`'s answer.
- `IsAssignableFrom`, `FindInterfaces` and the base-type chain are given as data on `Ty`.
- Reflection.Fits: casts ignore `Nullable<T>`, variance and interfaces the runtime adds to primitives, and every `Int` is a boxed `Int32`, so a cast that the runtime accepts through one of these is a misfit here.
- Awaiting and `Task.Factory.StartNew` scheduling. The interceptor-running awaiters keep only their result: the task completes with `Result` read after the interceptor ran.
- Thread safety of the static module builder, interceptor and type cache.
- The static `Services` collection is a field of `ProxyOptions`. What the dependency-injection container does with `TryAdd`/`Replace` is left out; only the calls made are recorded.
- `AddPureProxy` (PureProxy/Extensions/PureProxyExtension.cs:19-32) is not part of this model. It calls `PureProxyFactory.AddInterceptor` and a `ProxyOptions(services)` constructor, which are not among the repository's files here. As written it never sets `ProxyFactory.Interceptor`.
- Scenarios.RegisterTestServices: sets the global interceptor itself, since `AddPureProxy` is left out.
- Scenarios.RegisterTestServices: is stated over any five types with the fixtures' registration facts, which `FixturesRegistrable` and `ProxyNamesDistinct` prove for the fixtures, rather than over the fixture constants.
- Scenarios.Test2ServiceCalls: shows `Test()` and `Test(int)` of Test2Service as not overridden plus the original's value, not as a call through the proxy, because the proxy does not override them.
- Exception message texts. Only the kind of exception, its parameter name and a TargetInvocationException's inner exception are kept.
- Exceptions thrown by an original method or an interceptor's own code: `Execute` never fails, so the double wrapping such an exception gets on its way out of `MethodBase.Invoke` is not modelled.
- `Debug.WriteLine` logging in the test interceptor.
- The interceptor attributes used only by other fixtures: `AttrInterceptorAttribute`, `PropAttrInterceptorAttribute` and `Test3Service`. An attribute interceptor is modelled generically as `Custom`.
- The older `IArguments` contract in PureProxy/IArguments.cs. The packets follow the larger contract in PureProxy/Arguments/IArguments.cs.
- The generic `ProxyGenerator<TService, TImplementation>` overload (PureProxy/ProxyFactory.cs:53-57). It only forwards to the `Type` form.
