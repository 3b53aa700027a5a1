/**
 * The reflection metadata and runtime values the proxy core works on.
 *
 * `Ty` stands for a `System.Type`, `MethodDesc` for a `MethodInfo` with its
 * `ParameterInfo`s, `TypeInfo` for what `GetConstructors()` and `GetMethods()`
 * report about a type, and `Value` for the objects that travel through a call
 * packet. Attribute lookups (`IsDefined`, `GetCustomAttribute`) are answered by
 * the flags carried on types and methods: `ignoreProxy` is the answer of
 * `IsDefined(typeof(IgnoreProxyAttribute))` (inherited attributes included) and
 * `interceptor` the `InterceptorAttribute` that `GetCustomAttribute` returns.
 */
module Reflection {

  datatype Option<+T> = None | Some(value: T)

  /** Exceptions the core raises; message texts are not modelled. */
  datatype Exception =
    | ArgumentNull(paramName: string)
    | Argument(reason: Reason)
    | NullReference
    | InvalidCast
    | TargetInvocation(inner: Exception)   // an exception thrown inside a reflective call, wrapped by MethodBase.Invoke

  datatype Reason =
    | ImplementationSealed
    | ImplementationAbstract
    | NotAssignable
    | ServiceSealed
    | ServiceAbstract

  datatype Result<+T> = Success(value: T) | Failure(error: Exception)

  /** The primitive types the opcode tables compare against by identity. */
  datatype Prim =
    | Bool | Char | SByte | Byte | Int16 | UInt16 | Int32 | UInt32 | Int64 | UInt64 | Single | Double

  datatype Kind =
    | ClassKind                    // a reference type that is not an interface
    | InterfaceKind
    | PrimKind(prim: Prim)
    | StructKind                   // any other value type (System.Void, ValueTask, user structs)
    | EnumKind(underlying: Prim)
    | PointerKind
    | GenericParamKind
    | ByRefKind(element: Ty)

  /** Generic shape: an open definition lists its parameters, a constructed type its arguments. */
  datatype Generic =
    | NonGeneric
    | Definition(param0: Ty, moreParams: seq<Ty>)
    | Constructed(definition: Ty, arg0: Ty, moreArgs: seq<Ty>)

  datatype Ty = Ty(
    fullName: string,
    token: nat,                    // MetadataToken
    kind: Kind,
    isSealed: bool,
    isAbstract: bool,
    isPublic: bool,                // Type.IsPublic: a public top-level type
    isNestedPublic: bool,
    declaringType: Option<Ty>,     // the enclosing type of a nested type
    baseType: Option<Ty>,
    interfaces: seq<Ty>,           // directly implemented interfaces
    generic: Generic,
    ignoreProxy: bool,
    interceptor: Option<InterceptorRef>)

  datatype MethodAttr = Public | Private | Static | Final | Virtual | HideBySig | NewSlot | Abstract | SpecialName

  datatype Param = Param(name: string, ty: Ty, isIn: bool)

  /** What the original method computes from its arguments, so that reflective calls can be evaluated. */
  datatype Body =
    | ReturnsNothing
    | ReturnsArgument(index: nat)
    | ReturnsCompletedTask
    | ReturnsTaskOfArgument(index: nat)

  datatype MethodDesc = MethodDesc(
    name: string,
    token: nat,
    declaringType: Ty,
    params: seq<Param>,
    returnType: Ty,
    attributes: set<MethodAttr>,
    ignoreProxy: bool,
    interceptor: Option<InterceptorRef>,
    body: Body)

  /** A type together with its public constructors' parameter lists and the methods `GetMethods()` returns. */
  datatype TypeInfo = TypeInfo(ty: Ty, constructors: seq<seq<Param>>, methods: seq<MethodDesc>)

  datatype Instance = Instance(info: TypeInfo, id: nat)

  datatype Value =
    | Null
    | Int(i: int)
    | Str(s: string)
    | TypeValue(t: Ty)
    | TaskValue(ty: Ty, outcome: Result<Option<Value>>)   // a task of runtime type `ty`: completed (with a result for Task<T>) or faulted
    | Object(instance: Instance)

  datatype Rewrite = Rewrite(index: nat, value: Value)

  /**
   * The interceptors a call can be routed to: the test project's TestInterceptor, and
   * Custom, which stands for an InterceptorAttribute subclass that overwrites some
   * arguments, runs the original a number of times and may then set the result.
   */
  datatype InterceptorRef =
    | TestInterceptor
    | Custom(rewrites: seq<Rewrite>, invokes: nat, result: Option<Value>)

  // ---- Type classification, as System.Type reports it ----

  predicate IsInterface(t: Ty) { t.kind.InterfaceKind? }
  predicate IsValueType(t: Ty) { t.kind.PrimKind? || t.kind.StructKind? || t.kind.EnumKind? }
  /** Type.IsClass: neither an interface nor a value type. */
  predicate IsClass(t: Ty) { !IsInterface(t) && !IsValueType(t) }
  predicate IsByRef(t: Ty) { t.kind.ByRefKind? }
  predicate IsEnum(t: Ty) { t.kind.EnumKind? }
  predicate IsPointer(t: Ty) { t.kind.PointerKind? }
  predicate IsGenericParameter(t: Ty) { t.kind.GenericParamKind? }
  predicate IsGenericType(t: Ty) { !t.generic.NonGeneric? }
  predicate IsGenericTypeDefinition(t: Ty) { t.generic.Definition? }

  /** Type.GetGenericArguments(): the parameters of a definition, the arguments of a constructed type. */
  function GenericArguments(t: Ty): seq<Ty> {
    match t.generic
    case NonGeneric => []
    case Definition(p, ps) => [p] + ps
    case Constructed(_, a, as_) => [a] + as_
  }

  /** Type.GenericTypeArguments: empty unless the type is a constructed generic type. */
  function GenericTypeArguments(t: Ty): seq<Ty> {
    if t.generic.Constructed? then [t.generic.arg0] + t.generic.moreArgs else []
  }

  /** Type.GetGenericTypeDefinition(). */
  function GenericTypeDefinition(t: Ty): Ty
    requires IsGenericType(t)
  {
    if t.generic.Definition? then t else t.generic.definition
  }

  /** Type.ContainsGenericParameters. */
  predicate ContainsGenericParameters(t: Ty) {
    match t.kind
    case GenericParamKind => true
    case ByRefKind(e) => ContainsGenericParameters(e)
    case _ =>
      match t.generic
      case NonGeneric => false
      case Definition(_, _) => true
      case Constructed(_, a, as_) =>
        ContainsGenericParameters(a) || exists k :: 0 <= k < |as_| && ContainsGenericParameters(as_[k])
  }

  /** Type.IsAssignableFrom without variance: `t` is `s`, derives from it, or implements it. */
  predicate AssignableFrom(s: Ty, t: Ty)
    decreases t
  {
    s == t
    || (t.baseType.Some? && AssignableFrom(s, t.baseType.value))
    || exists k :: 0 <= k < |t.interfaces| && AssignableFrom(s, t.interfaces[k])
  }

  /** `obj is T`. */
  predicate InstanceOf(obj: Instance, t: Ty) { AssignableFrom(t, obj.info.ty) }

  function ParameterTypes(m: MethodDesc): (r: seq<Ty>)
    ensures |r| == |m.params|
    ensures forall k :: 0 <= k < |r| ==> r[k] == m.params[k].ty
  {
    seq(|m.params|, k requires 0 <= k < |m.params| => m.params[k].ty)
  }

  /** Type.GetMethod(name, types): the first public method with that name and exactly those parameter types. */
  function FindMethod(methods: seq<MethodDesc>, name: string, types: seq<Ty>): (r: Option<MethodDesc>)
    ensures r.Some? ==> r.value in methods && r.value.name == name && ParameterTypes(r.value) == types
    ensures r.None? ==> forall m :: m in methods ==> m.name != name || ParameterTypes(m) != types
  {
    if methods == [] then None
    else if methods[0].name == name && ParameterTypes(methods[0]) == types then Some(methods[0])
    else FindMethod(methods[1..], name, types)
  }

  /** GetMethod answers with the first method that matches: the one at index `k` when none before it does. */
  lemma {:induction false} FindMethodFirst(methods: seq<MethodDesc>, name: string, types: seq<Ty>, k: nat)
    requires k < |methods| && methods[k].name == name && ParameterTypes(methods[k]) == types
    requires forall j :: 0 <= j < k ==> methods[j].name != name || |methods[j].params| != |types|
    ensures FindMethod(methods, name, types) == Some(methods[k])
    decreases k
  {
    if k > 0 {
      assert methods[0].name != name || |ParameterTypes(methods[0])| != |types|;
      FindMethodFirst(methods[1..], name, types, k - 1);
    }
  }

  /** MethodBase.Invoke / Delegate.DynamicInvoke: the value the original method returns (null for void). */
  function Execute(m: MethodDesc, args: seq<Value>): Value {
    match m.body
    case ReturnsNothing => Null
    case ReturnsArgument(k) => if k < |args| then args[k] else Null
    case ReturnsCompletedTask => TaskValue(m.returnType, Success(None))
    case ReturnsTaskOfArgument(k) => TaskValue(m.returnType, Success(Some(if k < |args| then args[k] else Null)))
  }

  // ---- Casts ----

  /** GetType() of a non-null value: a boxed int is an Int32, a task has the type it was created with. */
  function RuntimeType(v: Value): Ty
    requires v != Null
  {
    match v
    case Int(_) => IntType
    case Str(_) => StringType
    case TypeValue(_) => SystemTypeType
    case TaskValue(ty, _) => ty
    case Object(instance) => instance.info.ty
  }

  /** The primitive a boxed value of type `t` holds: its own for a primitive, the underlying one for an enum. */
  function BoxedPrim(t: Ty): Option<Prim> {
    match t.kind
    case PrimKind(p) => Some(p)
    case EnumKind(u) => Some(u)
    case _ => None
  }

  /**
   * Whether `v` survives a cast to `t` (Unbox_Any or `(T)` for a value type, Castclass for any
   * other type): null only to a type that is not a value type, a boxed value only to its own type
   * or one with the same underlying primitive, a reference to any type it is assignable to.
   */
  predicate Fits(t: Ty, v: Value) {
    if v == Null then !IsValueType(t)
    else if IsValueType(t) then RuntimeType(v) == t || (BoxedPrim(t).Some? && BoxedPrim(t) == BoxedPrim(RuntimeType(v)))
    else AssignableFrom(t, RuntimeType(v))
  }

  /** The cast itself: unboxing null throws NullReferenceException, any other misfit InvalidCastException. */
  function Cast(t: Ty, v: Value): Result<Value> {
    if v == Null && IsValueType(t) then Failure(NullReference)
    else if !Fits(t, v) then Failure(InvalidCast)
    else Success(v)
  }

  /** A cast succeeds exactly on a fitting value and returns it unchanged; the two failures are told apart by null. */
  lemma CastContract(t: Ty, v: Value)
    ensures Cast(t, v).Success? <==> Fits(t, v)
    ensures Cast(t, v).Success? ==> Cast(t, v).value == v
    ensures Cast(t, v) == Failure(NullReference) <==> v == Null && IsValueType(t)
    ensures Cast(t, v) == Failure(InvalidCast) <==> v != Null && !Fits(t, v)
    ensures v != Null && IsValueType(t) && !IsValueType(RuntimeType(v)) ==> Cast(t, v) == Failure(InvalidCast)
  {
  }

  // ---- Well-known types ----

  function SystemType(fullName: string, token: nat, kind: Kind, isSealed: bool, baseType: Option<Ty>): Ty {
    Ty(fullName, token, kind, isSealed, false, true, false, None, baseType, [], NonGeneric, false, None)
  }

  const ObjectType: Ty := SystemType("System.Object", 0x0200_0002, ClassKind, false, None)
  const ValueTypeBase: Ty := SystemType("System.ValueType", 0x0200_0003, ClassKind, false, Some(ObjectType))
  const VoidType: Ty := SystemType("System.Void", 0x0200_0004, StructKind, true, Some(ValueTypeBase))
  const StringType: Ty := SystemType("System.String", 0x0200_0005, ClassKind, true, Some(ObjectType))
  const SystemTypeType: Ty := SystemType("System.Type", 0x0200_0006, ClassKind, false, Some(ObjectType))

  function PrimName(p: Prim): string {
    match p
    case Bool => "System.Boolean"
    case Char => "System.Char"
    case SByte => "System.SByte"
    case Byte => "System.Byte"
    case Int16 => "System.Int16"
    case UInt16 => "System.UInt16"
    case Int32 => "System.Int32"
    case UInt32 => "System.UInt32"
    case Int64 => "System.Int64"
    case UInt64 => "System.UInt64"
    case Single => "System.Single"
    case Double => "System.Double"
  }

  /** typeof(int), typeof(char), ... */
  function PrimType(p: Prim): Ty {
    SystemType(PrimName(p), 0x0200_0010, PrimKind(p), true, Some(ValueTypeBase))
  }

  const IntType: Ty := PrimType(Int32)

  const TaskType: Ty := SystemType("System.Threading.Tasks.Task", 0x0200_0020, ClassKind, false, Some(ObjectType))
  const ValueTaskType: Ty := SystemType("System.Threading.Tasks.ValueTask", 0x0200_0021, StructKind, true, Some(ValueTypeBase))

  const TaskResultParam: Ty := SystemType("TResult", 0x2A00_0001, GenericParamKind, false, None)

  /** typeof(Task<>) and typeof(ValueTask<>). */
  const TaskDefinition: Ty :=
    Ty("System.Threading.Tasks.Task`1", 0x0200_0022, ClassKind, false, false, true, false, None,
       Some(TaskType), [], Definition(TaskResultParam, []), false, None)
  const ValueTaskDefinition: Ty :=
    Ty("System.Threading.Tasks.ValueTask`1", 0x0200_0023, StructKind, true, false, true, false, None,
       Some(ValueTypeBase), [], Definition(TaskResultParam, []), false, None)

  /** typeof(Task<T>) and typeof(ValueTask<T>) for a given T. */
  function TaskOf(t: Ty): Ty {
    Ty("System.Threading.Tasks.Task`1[" + t.fullName + "]", 0x0200_0022, ClassKind, false, false, true, false, None,
       Some(TaskType), [], Constructed(TaskDefinition, t, []), false, None)
  }

  function ValueTaskOf(t: Ty): Ty {
    Ty("System.Threading.Tasks.ValueTask`1[" + t.fullName + "]", 0x0200_0023, StructKind, true, false, true, false, None,
       Some(ValueTypeBase), [], Constructed(ValueTaskDefinition, t, []), false, None)
  }

  /** A generic method parameter such as the T of Awaiter<T>. */
  function GenericParameter(name: string, token: nat): Ty {
    SystemType(name, token, GenericParamKind, false, None)
  }

  /** Type.MakeByRefType(). */
  function MakeByRef(t: Ty): Ty {
    Ty(t.fullName + "&", 0, ByRefKind(t), true, false, t.isPublic, t.isNestedPublic, None, None, [], NonGeneric, false, None)
  }
}
