/**
 * PureProxy/Extensions/ILExtension.cs: the opcode selection tables behind the
 * IL helpers. Each helper is a pure selection function (which instruction, if
 * any) and a method that appends that choice to an ILGenerator. The lemmas
 * relate each table to an independent description of what the chosen
 * instruction does: which constant or argument it names, how wide an access
 * it makes, which awaiter helper signature it calls.
 */
module ILExtension {
  import opened Reflection
  import opened TypeExtension
  import opened InterceptorExtension
  import opened Emit

  /** A C# `long`. */
  type Long = i: int | -0x8000_0000_0000_0000 <= i <= 0x7FFF_FFFF_FFFF_FFFF
  /** A C# `int`. */
  type Int = i: int | -0x8000_0000 <= i <= 0x7FFF_FFFF

  /** The instructions an `IL.Emit…` call sequence appends, absent when nothing is emitted. */
  function Emitted(i: Option<Instr>): (r: seq<Instr>)
    ensures |r| <= 1
  {
    if i.Some? then [i.value] else []
  }

  // ---- LdcLong ----

  function LdcLongInstr(i: Long): Instr {
    if i == -1 then Op(Ldc_I4_M1)
    else if i == 0 then Op(Ldc_I4_0)
    else if i == 1 then Op(Ldc_I4_1)
    else if i == 2 then Op(Ldc_I4_2)
    else if i == 3 then Op(Ldc_I4_3)
    else if i == 4 then Op(Ldc_I4_4)
    else if i == 5 then Op(Ldc_I4_5)
    else if i == 6 then Op(Ldc_I4_6)
    else if i == 7 then Op(Ldc_I4_7)
    else if i == 8 then Op(Ldc_I4_8)
    else if -128 <= i <= 127 then Instr(Ldc_I4_S, SByteOperand(i))
    else if -0x8000_0000 <= i <= 0x7FFF_FFFF then Instr(Ldc_I4, LongOperand(i))
    else Instr(Ldc_I8, LongOperand(i))
  }

  /** The constant a constant-load instruction names: the opcode's own value for the short forms, else its operand. */
  function NamedConstant(instr: Instr): Option<int> {
    match instr.op
    case Ldc_I4_M1 => Some(-1)
    case Ldc_I4_0 => Some(0)
    case Ldc_I4_1 => Some(1)
    case Ldc_I4_2 => Some(2)
    case Ldc_I4_3 => Some(3)
    case Ldc_I4_4 => Some(4)
    case Ldc_I4_5 => Some(5)
    case Ldc_I4_6 => Some(6)
    case Ldc_I4_7 => Some(7)
    case Ldc_I4_8 => Some(8)
    case Ldc_I4_S => if instr.operand.SByteOperand? then Some(instr.operand.i) else None
    case Ldc_I4 => if instr.operand.IntOperand? then Some(instr.operand.n)
                   else if instr.operand.LongOperand? then Some(instr.operand.l) else None
    case Ldc_I8 => if instr.operand.LongOperand? then Some(instr.operand.l) else None
    case _ => None
  }

  /** Whether opcode `op` can load constant `v` (ECMA-335 partition III, 3.40). */
  predicate CanLoadConstant(op: OpCode, v: int) {
    match op
    case Ldc_I4_M1 => v == -1
    case Ldc_I4_0 => v == 0
    case Ldc_I4_1 => v == 1
    case Ldc_I4_2 => v == 2
    case Ldc_I4_3 => v == 3
    case Ldc_I4_4 => v == 4
    case Ldc_I4_5 => v == 5
    case Ldc_I4_6 => v == 6
    case Ldc_I4_7 => v == 7
    case Ldc_I4_8 => v == 8
    case Ldc_I4_S => -128 <= v <= 127
    case Ldc_I4 => -0x8000_0000 <= v <= 0x7FFF_FFFF
    case Ldc_I8 => -0x8000_0000_0000_0000 <= v <= 0x7FFF_FFFF_FFFF_FFFF
    case _ => false
  }

  /** Encoded size in bytes of a constant load with this opcode: opcode plus inline operand. */
  function ConstantLoadSize(op: OpCode): nat {
    match op
    case Ldc_I4_S => 2
    case Ldc_I4 => 5
    case Ldc_I8 => 9
    case _ => 1
  }

  /** LdcLong names `i` with an opcode able to load it, and no opcode able to load `i` is shorter. */
  lemma LdcLongIsShortest(i: Long)
    ensures NamedConstant(LdcLongInstr(i)) == Some(i)
    ensures CanLoadConstant(LdcLongInstr(i).op, i)
    ensures forall op :: CanLoadConstant(op, i) ==> ConstantLoadSize(LdcLongInstr(i).op) <= ConstantLoadSize(op)
  {
  }

  /** The four tiers of LdcLong, by range. */
  lemma LdcLongTiers(i: Long)
    ensures -1 <= i <= 8 <==> ConstantLoadSize(LdcLongInstr(i).op) == 1
    ensures (i < -1 || 8 < i) && -128 <= i <= 127 <==> LdcLongInstr(i).op == Ldc_I4_S
    ensures (i < -128 || 127 < i) && -0x8000_0000 <= i <= 0x7FFF_FFFF <==> LdcLongInstr(i).op == Ldc_I4
    ensures (i < -0x8000_0000 || 0x7FFF_FFFF < i) <==> LdcLongInstr(i).op == Ldc_I8
  {
  }

  method LdcLong(il: ILGenerator, i: Long)
    modifies il
    ensures il.code == old(il.code) + [LdcLongInstr(i)]
    ensures il.locals == old(il.locals) && il.labels == old(il.labels) && il.marks == old(il.marks)
  {
    il.Emit(LdcLongInstr(i));
  }

  // ---- LdArg ----

  function LdArgInstr(position: Int): Instr {
    if position == 0 then Op(Ldarg_0)
    else if position == 1 then Op(Ldarg_1)
    else if position == 2 then Op(Ldarg_2)
    else if position == 3 then Op(Ldarg_3)
    else if position > 255 then Instr(Ldarg, IntOperand(position))
    else Instr(Ldarg_S, ByteOperand(position % 256))   // the unchecked (byte) cast
  }

  /** The argument position an argument-load instruction names. */
  function NamedArgument(instr: Instr): Option<int> {
    match instr.op
    case Ldarg_0 => Some(0)
    case Ldarg_1 => Some(1)
    case Ldarg_2 => Some(2)
    case Ldarg_3 => Some(3)
    case Ldarg_S => if instr.operand.ByteOperand? then Some(instr.operand.u) else None
    case Ldarg => if instr.operand.IntOperand? then Some(instr.operand.n) else None
    case _ => None
  }

  /** Whether opcode `op` can load argument `p` (ECMA-335 partition III, 3.38: `ldarg` takes an unsigned 16-bit index). */
  predicate CanLoadArgument(op: OpCode, p: int) {
    match op
    case Ldarg_0 => p == 0
    case Ldarg_1 => p == 1
    case Ldarg_2 => p == 2
    case Ldarg_3 => p == 3
    case Ldarg_S => 0 <= p <= 255
    case Ldarg => 0 <= p <= 65535
    case _ => false
  }

  function ArgumentLoadSize(op: OpCode): nat {
    match op
    case Ldarg_S => 2
    case Ldarg => 4
    case _ => 1
  }

  /** For every valid position LdArg names that position with the shortest opcode able to load it. */
  lemma LdArgIsShortest(position: Int)
    requires 0 <= position <= 65535
    ensures NamedArgument(LdArgInstr(position)) == Some(position)
    ensures CanLoadArgument(LdArgInstr(position).op, position)
    ensures forall op :: CanLoadArgument(op, position) ==> ArgumentLoadSize(LdArgInstr(position).op) <= ArgumentLoadSize(op)
  {
  }

  /** The three tiers: a dedicated opcode for 0-3, the byte form up to 255, the long form above. */
  lemma LdArgTiers(position: Int)
    ensures 0 <= position <= 3 <==> LdArgInstr(position).op in {Ldarg_0, Ldarg_1, Ldarg_2, Ldarg_3}
    ensures (position < 0 || 3 < position) && position <= 255 <==> LdArgInstr(position).op == Ldarg_S
    ensures 255 < position <==> LdArgInstr(position).op == Ldarg
  {
  }

  /** A negative position is not rejected: the byte cast keeps its low eight bits. */
  lemma LdArgNegativeWraps(position: Int)
    requires position < 0
    ensures var named := NamedArgument(LdArgInstr(position));
      named.Some? && 0 <= named.value <= 255 && (named.value - position) % 256 == 0
  {
  }

  method LdArg(il: ILGenerator, position: Int)
    modifies il
    ensures il.code == old(il.code) + [LdArgInstr(position)]
    ensures il.locals == old(il.locals) && il.labels == old(il.labels) && il.marks == old(il.marks)
  {
    il.Emit(LdArgInstr(position));
  }

  // ---- LdRef / StRef ----

  /** The element type of a by-ref type, replaced by its underlying type when it is an enum. */
  function AccessedType(t: Ty): Ty
    requires IsByRef(t)
  {
    var e := t.kind.element;
    if IsEnum(e) then PrimType(e.kind.underlying) else e
  }

  /** `Some(p)` exactly when `e` is typeof(p) itself: the tables compare types by identity. */
  function CanonicalPrim(e: Ty): (r: Option<Prim>)
    ensures r.Some? <==> exists p :: e == PrimType(p)
    ensures r.Some? ==> e == PrimType(r.value)
  {
    if e.kind.PrimKind? && e == PrimType(e.kind.prim) then Some(e.kind.prim) else None
  }

  /** The `typeof(…) == type` comparisons of LdRef, grouped by primitive. */
  function LoadOpFor(p: Prim): OpCode {
    match p
    case Int32 => Ldind_I4
    case UInt32 => Ldind_U4
    case Int16 => Ldind_I2
    case UInt16 => Ldind_U2
    case Char => Ldind_U2
    case Byte => Ldind_U1
    case SByte => Ldind_I1
    case Bool => Ldind_I1
    case Int64 => Ldind_I8
    case UInt64 => Ldind_I8
    case Single => Ldind_R4
    case Double => Ldind_R8
  }

  /** The `typeof(…) == type` comparisons of StRef, grouped by primitive. */
  function StoreOpFor(p: Prim): OpCode {
    match p
    case Int32 => Stind_I4
    case UInt32 => Stind_I4
    case Int64 => Stind_I8
    case UInt64 => Stind_I8
    case Char => Stind_I2
    case Int16 => Stind_I2
    case UInt16 => Stind_I2
    case Single => Stind_R4
    case Double => Stind_R8
    case Byte => Stind_I1
    case SByte => Stind_I1
    case Bool => Stind_I1
  }

  function LdRefInstr(t: Ty): Option<Instr> {
    if !IsByRef(t) then None
    else
      var e := AccessedType(t);
      var p := CanonicalPrim(e);
      Some(
        if p.Some? then Op(LoadOpFor(p.value))
        else if IsPointer(e) then Op(Ldind_I)
        else if IsGenericParameter(e) || IsValueType(e) then Instr(Ldobj, TypeOperand(e))
        else Op(Ldind_Ref))
  }

  function StRefInstr(t: Ty): Option<Instr> {
    if !IsByRef(t) then None
    else
      var e := AccessedType(t);
      var p := CanonicalPrim(e);
      Some(
        if p.Some? then Op(StoreOpFor(p.value))
        else if IsPointer(e) then Op(Stind_I)
        else if IsGenericParameter(e) || IsValueType(e) then Instr(Stobj, TypeOperand(e))
        else Op(Stind_Ref))
  }

  /** How an indirect load or store touches memory. */
  datatype Access =
    | Scalar(width: nat, isFloat: bool)
    | NativeInt
    | ObjectReference
    | Whole(t: Ty)

  function LoadAccess(instr: Instr): Option<Access> {
    match instr.op
    case Ldind_I1 => Some(Scalar(1, false))
    case Ldind_U1 => Some(Scalar(1, false))
    case Ldind_I2 => Some(Scalar(2, false))
    case Ldind_U2 => Some(Scalar(2, false))
    case Ldind_I4 => Some(Scalar(4, false))
    case Ldind_U4 => Some(Scalar(4, false))
    case Ldind_I8 => Some(Scalar(8, false))
    case Ldind_R4 => Some(Scalar(4, true))
    case Ldind_R8 => Some(Scalar(8, true))
    case Ldind_I => Some(NativeInt)
    case Ldind_Ref => Some(ObjectReference)
    case Ldobj => if instr.operand.TypeOperand? then Some(Whole(instr.operand.t)) else None
    case _ => None
  }

  function StoreAccess(instr: Instr): Option<Access> {
    match instr.op
    case Stind_I1 => Some(Scalar(1, false))
    case Stind_I2 => Some(Scalar(2, false))
    case Stind_I4 => Some(Scalar(4, false))
    case Stind_I8 => Some(Scalar(8, false))
    case Stind_R4 => Some(Scalar(4, true))
    case Stind_R8 => Some(Scalar(8, true))
    case Stind_I => Some(NativeInt)
    case Stind_Ref => Some(ObjectReference)
    case Stobj => if instr.operand.TypeOperand? then Some(Whole(instr.operand.t)) else None
    case _ => None
  }

  /** Loads that sign-extend to the evaluation stack's int32. */
  predicate SignExtends(op: OpCode) { op == Ldind_I1 || op == Ldind_I2 || op == Ldind_I4 }

  /** The storage size of each primitive, in bytes. */
  function PrimWidth(p: Prim): nat {
    match p
    case Bool => 1
    case SByte => 1
    case Byte => 1
    case Char => 2
    case Int16 => 2
    case UInt16 => 2
    case Int32 => 4
    case UInt32 => 4
    case Single => 4
    case Int64 => 8
    case UInt64 => 8
    case Double => 8
  }

  predicate IsFloatingPoint(p: Prim) { p == Single || p == Double }
  predicate IsSignedInteger(p: Prim) { p == SByte || p == Int16 || p == Int32 || p == Int64 }

  /** Both tables emit nothing exactly for a type that is not by-ref. */
  lemma RefTablesEmitIffByRef(t: Ty)
    ensures LdRefInstr(t).Some? <==> IsByRef(t)
    ensures StRefInstr(t).Some? <==> IsByRef(t)
  {
  }

  /** A primitive is read and written with its own width, as a float exactly when it is one. */
  lemma PrimOpsWidth(p: Prim)
    ensures LoadAccess(Op(LoadOpFor(p))) == Some(Scalar(PrimWidth(p), IsFloatingPoint(p)))
    ensures StoreAccess(Op(StoreOpFor(p))) == Some(Scalar(PrimWidth(p), IsFloatingPoint(p)))
  {
  }

  /** Loading and storing through the same by-ref type touch memory the same way. */
  lemma LdRefStRefAgree(t: Ty)
    requires IsByRef(t)
    ensures LoadAccess(LdRefInstr(t).value).Some?
    ensures LoadAccess(LdRefInstr(t).value) == StoreAccess(StRefInstr(t).value)
  {
    var p := CanonicalPrim(AccessedType(t));
    if p.Some? {
      PrimOpsWidth(p.value);
    }
  }

  /** Through a by-ref primitive, LdRef and StRef access the primitive's own width. */
  lemma PrimAccessWidth(p: Prim)
    ensures LoadAccess(LdRefInstr(MakeByRef(PrimType(p))).value) == Some(Scalar(PrimWidth(p), IsFloatingPoint(p)))
    ensures StoreAccess(StRefInstr(MakeByRef(PrimType(p))).value) == Some(Scalar(PrimWidth(p), IsFloatingPoint(p)))
  {
    assert AccessedType(MakeByRef(PrimType(p))) == PrimType(p);
    PrimOpsWidth(p);
  }

  /** A narrow integer is sign-extended on load exactly when it is signed (bool loads as a signed byte). */
  lemma PrimLoadSignedness(p: Prim)
    requires !IsFloatingPoint(p) && PrimWidth(p) < 8 && p != Bool
    ensures SignExtends(LdRefInstr(MakeByRef(PrimType(p))).value.op) <==> IsSignedInteger(p)
  {
    assert AccessedType(MakeByRef(PrimType(p))) == PrimType(p);
  }

  /** An enum is accessed exactly as its underlying primitive. */
  lemma EnumAccessAsUnderlying(e: Ty)
    requires IsEnum(e)
    ensures LdRefInstr(MakeByRef(e)) == LdRefInstr(MakeByRef(PrimType(e.kind.underlying)))
    ensures StRefInstr(MakeByRef(e)) == StRefInstr(MakeByRef(PrimType(e.kind.underlying)))
  {
  }

  method LdRef(il: ILGenerator, t: Ty)
    modifies il
    ensures il.code == old(il.code) + Emitted(LdRefInstr(t))
    ensures il.locals == old(il.locals) && il.labels == old(il.labels) && il.marks == old(il.marks)
  {
    var instr := LdRefInstr(t);
    if instr.Some? {
      il.Emit(instr.value);
    }
  }

  method StRef(il: ILGenerator, t: Ty)
    modifies il
    ensures il.code == old(il.code) + Emitted(StRefInstr(t))
    ensures il.locals == old(il.locals) && il.labels == old(il.labels) && il.marks == old(il.marks)
  {
    var instr := StRefInstr(t);
    if instr.Some? {
      il.Emit(instr.value);
    }
  }

  // ---- Box / Unbox ----

  predicate NeedsBox(t: Ty) { IsValueType(t) || IsGenericParameter(t) }

  function BoxInstr(t: Ty): Option<Instr> {
    if NeedsBox(t) then Some(Instr(Box, TypeOperand(t))) else None
  }

  function UnboxInstr(t: Ty): Instr {
    Instr(if NeedsBox(t) then Unbox_Any else Castclass, TypeOperand(t))
  }

  /** Box emits exactly when Unbox picks unbox.any, and both name the same type; reference types are cast back. */
  lemma BoxUnboxAgree(t: Ty)
    ensures BoxInstr(t).Some? <==> UnboxInstr(t).op == Unbox_Any
    ensures BoxInstr(t).None? <==> UnboxInstr(t).op == Castclass
    ensures BoxInstr(t).Some? ==> BoxInstr(t).value.operand == UnboxInstr(t).operand == TypeOperand(t)
    ensures IsClass(t) && !IsGenericParameter(t) ==> BoxInstr(t).None?
  {
  }

  method EmitBox(il: ILGenerator, t: Ty)
    modifies il
    ensures il.code == old(il.code) + Emitted(BoxInstr(t))
    ensures il.locals == old(il.locals) && il.labels == old(il.labels) && il.marks == old(il.marks)
  {
    if NeedsBox(t) {
      il.Emit(Instr(Box, TypeOperand(t)));
    }
  }

  method EmitUnbox(il: ILGenerator, t: Ty)
    modifies il
    ensures il.code == old(il.code) + [UnboxInstr(t)]
    ensures il.locals == old(il.locals) && il.labels == old(il.labels) && il.marks == old(il.marks)
  {
    il.Emit(UnboxInstr(t));
  }

  // ---- LdDefault ----

  /** The instructions LdDefault emits when the next free local index is `local`. */
  function DefaultCode(t: Ty, local: nat): seq<Instr> {
    if IsClass(t) then [Op(Ldnull)]
    else
      [Instr(Ldloca, LocalOperand(local)),
       Instr(Initobj, TypeOperand(GetRefElementType(t))),
       Instr(Localloc, LocalOperand(local))]
  }

  /**
   * A class (by-ref and pointer types included) loads null; an interface or value type
   * gets three instructions around the new local, initialised as the type itself, since
   * such a type is never by-ref and GetRefElementType leaves it unchanged.
   */
  lemma DefaultCodeShape(t: Ty, local: nat)
    ensures IsClass(t) <==> DefaultCode(t, local) == [Op(Ldnull)]
    ensures IsByRef(t) ==> DefaultCode(t, local) == [Op(Ldnull)]
    ensures !IsClass(t) ==> (
      && |DefaultCode(t, local)| == 3
      && DefaultCode(t, local)[0].operand == DefaultCode(t, local)[2].operand == LocalOperand(local)
      && DefaultCode(t, local)[1] == Instr(Initobj, TypeOperand(t)))
  {
  }

  method LdDefault(il: ILGenerator, t: Ty)
    modifies il
    ensures il.code == old(il.code) + DefaultCode(t, |old(il.locals)|)
    ensures il.locals == old(il.locals) + (if IsClass(t) then [] else [GetRefElementType(t)])
    ensures il.labels == old(il.labels) && il.marks == old(il.marks)
  {
    if IsClass(t) {
      il.Emit(Op(Ldnull));
    } else {
      var elementType := GetRefElementType(t);
      var local := il.DeclareLocal(elementType);
      il.Emit(Instr(Ldloca, LocalOperand(local)));
      il.Emit(Instr(Initobj, TypeOperand(elementType)));
      il.Emit(Instr(Localloc, LocalOperand(local)));
    }
  }

  // ---- Awaiter / AwaiterInterceptor ----

  /** The awaiting helper called for a task of shape (`taskType`, `taskGenericType`), none when there is no task. */
  function AwaiterRef(taskType: Option<Ty>, taskGenericType: Option<Ty>): Option<MethodRef> {
    if taskType.None? then None
    else if taskGenericType.Some? then
      Some(Helper(if taskType.value == TaskDefinition then ARM else VARM, taskGenericType))
    else Some(Helper(if taskType.value == TaskType then AM else VAM, None))
  }

  /** The interceptor-running helper: AIRM/VAIRM instantiated when there is a result type, else AIM/VAIM. */
  function AwaiterInterceptorRef(taskType: Option<Ty>, taskGenericType: Option<Ty>): MethodRef {
    if taskGenericType.Some? then
      Helper(if taskType == Some(TaskDefinition) then AIRM else VAIRM, taskGenericType)
    else Helper(if taskType == Some(TaskType) then AIM else VAIM, None)
  }

  method Awaiter(il: ILGenerator, taskType: Option<Ty>, taskGenericType: Option<Ty>)
    modifies il
    ensures il.code == old(il.code) +
      (if taskType.None? then [] else [Instr(Call, MethodOperand(AwaiterRef(taskType, taskGenericType).value))])
    ensures il.locals == old(il.locals) && il.labels == old(il.labels) && il.marks == old(il.marks)
  {
    var r := AwaiterRef(taskType, taskGenericType);
    if r.Some? {
      il.Emit(Instr(Call, MethodOperand(r.value)));
    }
  }

  method AwaiterInterceptor(il: ILGenerator, taskType: Option<Ty>, taskGenericType: Option<Ty>) returns (r: MethodRef)
    modifies il
    ensures r == AwaiterInterceptorRef(taskType, taskGenericType)
    ensures il.code == old(il.code) + [Instr(Call, MethodOperand(r))]
    ensures il.locals == old(il.locals) && il.labels == old(il.labels) && il.marks == old(il.marks)
  {
    r := AwaiterInterceptorRef(taskType, taskGenericType);
    il.Emit(Instr(Call, MethodOperand(r)));
  }

  /** A helper reference's signature after T is bound to its type argument. */
  function HelperParameter(r: MethodRef, k: nat): Ty
    requires r.Helper? && k < |Intended(r.slot).parameterTypes|
  {
    Instantiate(Intended(r.slot).parameterTypes[k], if r.typeArgument.Some? then r.typeArgument.value else HelperT)
  }

  function HelperReturn(r: MethodRef): Ty
    requires r.Helper?
  {
    Instantiate(Intended(r.slot).returnType, if r.typeArgument.Some? then r.typeArgument.value else HelperT)
  }

  /** The four task forms a proxied method can return. */
  predicate IsTaskForm(t: Ty, x: Ty) {
    t == TaskType || t == ValueTaskType || t == TaskOf(x) || t == ValueTaskOf(x)
  }

  /** Binding T rewrites exactly the T-shaped helper signatures. */
  lemma InstantiateHelperTypes(x: Ty)
    ensures Instantiate(HelperT, x) == x
    ensures Instantiate(TaskOf(HelperT), x) == TaskOf(x)
    ensures Instantiate(ValueTaskOf(HelperT), x) == ValueTaskOf(x)
    ensures Instantiate(VoidType, HelperT) == VoidType
    ensures Instantiate(TaskType, HelperT) == TaskType
    ensures Instantiate(ValueTaskType, HelperT) == ValueTaskType
  {
    assert TaskOf(HelperT).generic != HelperT.generic && ValueTaskOf(HelperT).generic != HelperT.generic;
    assert TaskOf(HelperT) != ValueTaskOf(HelperT) by { assert TaskOf(HelperT).kind != ValueTaskOf(HelperT).kind; }
    assert VoidType.kind != HelperT.kind && VoidType.generic != TaskOf(HelperT).generic && VoidType.generic != ValueTaskOf(HelperT).generic;
    assert TaskType.kind != HelperT.kind && TaskType.generic != TaskOf(HelperT).generic && TaskType.generic != ValueTaskOf(HelperT).generic;
    assert ValueTaskType.kind != HelperT.kind && ValueTaskType.generic != TaskOf(HelperT).generic;
    assert ValueTaskType.generic != ValueTaskOf(HelperT).generic;
  }

  /** TaskType, ValueTaskType, Task<x> and ValueTask<x> are four different types. */
  lemma TaskFormsDiffer(x: Ty)
    ensures TaskType != ValueTaskType && TaskDefinition != ValueTaskDefinition
    ensures TaskOf(x) != TaskType && TaskOf(x) != ValueTaskType && TaskOf(x) != ValueTaskOf(x)
    ensures ValueTaskOf(x) != TaskType && ValueTaskOf(x) != ValueTaskType
  {
    assert TaskType.kind != ValueTaskType.kind && TaskDefinition.kind != ValueTaskDefinition.kind;
    assert TaskOf(x).generic != TaskType.generic && TaskOf(x).kind != ValueTaskType.kind && TaskOf(x).kind != ValueTaskOf(x).kind;
    assert ValueTaskOf(x).kind != TaskType.kind && ValueTaskOf(x).generic != ValueTaskType.generic;
  }

  /** The awaiting helper chosen for a method returning `t`, from the shape GetTaskGenericType finds. */
  function AwaiterFor(t: Ty): Option<MethodRef> {
    var shape := TaskShapeOf(Some(t));
    AwaiterRef(shape.taskType, shape.resultType)
  }

  /** The interceptor-running helper chosen for a method returning `t`. */
  function AwaiterInterceptorFor(t: Ty): MethodRef {
    var shape := TaskShapeOf(Some(t));
    AwaiterInterceptorRef(shape.taskType, shape.resultType)
  }

  /** What awaiting a task of type `t` produces: its result type, or void. */
  function AwaitedType(t: Ty): Ty {
    match TaskShapeOf(Some(t)).resultType
    case Some(r) => r
    case None => VoidType
  }

  /**
   * For each task form, the shape GetTaskGenericType finds selects an awaiting helper that
   * takes exactly that task and returns what awaiting it produces.
   */
  lemma AwaiterFitsTask(t: Ty, x: Ty)
    requires IsTaskForm(t, x)
    ensures AwaiterFor(t).Some? && AwaiterFor(t).value.Helper?
    ensures |Intended(AwaiterFor(t).value.slot).parameterTypes| == 1
    ensures HelperParameter(AwaiterFor(t).value, 0) == t
    ensures HelperReturn(AwaiterFor(t).value) == AwaitedType(t)
  {
    TaskShapesOfTasks(x);
    TaskFormsDiffer(x);
    InstantiateHelperTypes(x);
  }

  /**
   * For each task form, the interceptor-running helper takes (IInterceptor, IArguments)
   * and returns exactly the task type the proxied method declares.
   */
  lemma AwaiterInterceptorFitsTask(t: Ty, x: Ty)
    requires IsTaskForm(t, x)
    ensures AwaiterInterceptorFor(t).Helper?
    ensures Intended(AwaiterInterceptorFor(t).slot).parameterTypes == [IInterceptorType, IArgumentsType]
    ensures HelperReturn(AwaiterInterceptorFor(t)) == t
  {
    TaskShapesOfTasks(x);
    TaskFormsDiffer(x);
    InstantiateHelperTypes(x);
  }
}
