/**
 * An abstract System.Reflection.Emit.ILGenerator: the instruction stream a
 * method body is emitted into, its declared locals and its labels. Opcodes are
 * the ones the proxy core emits; an operand records the value passed to `Emit`
 * and the overload used for it (an `int` operand is `Int32` even where the
 * opcode's encoding is one byte). Byte encoding is not modelled.
 */
module Emit {
  import opened Reflection
  import opened InterceptorExtension

  datatype OpCode =
    | Nop | Ret | Pop | Dup | Ldnull
    | Ldarg_0 | Ldarg_1 | Ldarg_2 | Ldarg_3 | Ldarg_S | Ldarg
    | Ldc_I4_M1 | Ldc_I4_0 | Ldc_I4_1 | Ldc_I4_2 | Ldc_I4_3 | Ldc_I4_4
    | Ldc_I4_5 | Ldc_I4_6 | Ldc_I4_7 | Ldc_I4_8 | Ldc_I4_S | Ldc_I4 | Ldc_I8
    | Ldloca | Ldloc_0 | Stloc_0 | Initobj | Localloc
    | Ldind_I1 | Ldind_U1 | Ldind_I2 | Ldind_U2 | Ldind_I4 | Ldind_U4 | Ldind_I8
    | Ldind_R4 | Ldind_R8 | Ldind_I | Ldind_Ref | Ldobj
    | Stind_I1 | Stind_I2 | Stind_I4 | Stind_I8 | Stind_R4 | Stind_R8 | Stind_I | Stind_Ref | Stobj
    | Box | Unbox_Any | Castclass | Newarr | Stelem_Ref
    | Ldfld | Stfld | Ldftn | Newobj | Call | Callvirt | Br_S | Ldtoken | Ldstr

  /** The methods and constructors a `call`, `callvirt`, `ldftn` or `newobj` names. */
  datatype MethodRef =
    | Library(owner: string, name: string)                 // a fixed framework or library member
    | Helper(slot: Slot, typeArgument: Option<Ty>)          // an InterceptorExtension slot, instantiated when generic
    | Target(m: MethodDesc)                                 // a method of the service type
    | BaseConstructor(params: seq<Ty>)                      // a constructor of the proxy's base type
    | DelegateConstructor(m: MethodDesc)                    // the constructor of the delegate type nested for `m`

  datatype Operand =
    | NoOperand
    | SByteOperand(i: int)
    | ByteOperand(u: int)
    | IntOperand(n: int)
    | LongOperand(l: int)
    | TypeOperand(t: Ty)
    | LocalOperand(index: nat)
    | FieldOperand(field: string)
    | MethodOperand(r: MethodRef)
    | LabelOperand(labelId: nat)
    | StringOperand(s: string)

  datatype Instr = Instr(op: OpCode, operand: Operand)

  function Op(op: OpCode): Instr { Instr(op, NoOperand) }

  class ILGenerator {
    var code: seq<Instr>
    var locals: seq<Ty>
    var labels: nat
    /** Where each marked label points: the index of the next instruction when it was marked. */
    var marks: map<nat, nat>

    constructor ()
      ensures code == [] && locals == [] && labels == 0 && marks == map[]
    {
      code := [];
      locals := [];
      labels := 0;
      marks := map[];
    }

    /** ILGenerator.Emit: appends one instruction. */
    method Emit(i: Instr)
      modifies this
      ensures code == old(code) + [i]
      ensures locals == old(locals) && labels == old(labels) && marks == old(marks)
    {
      code := code + [i];
    }

    /** ILGenerator.DeclareLocal: a new local of type `t`, at the next index. */
    method DeclareLocal(t: Ty) returns (index: nat)
      modifies this
      ensures index == |old(locals)| && locals == old(locals) + [t]
      ensures code == old(code) && labels == old(labels) && marks == old(marks)
    {
      index := |locals|;
      locals := locals + [t];
    }

    /** ILGenerator.DefineLabel: a fresh, not yet marked label. */
    method DefineLabel() returns (labelId: nat)
      modifies this
      ensures labelId == old(labels) && labels == old(labels) + 1
      ensures code == old(code) && locals == old(locals) && marks == old(marks)
    {
      labelId := labels;
      labels := labels + 1;
    }

    /** ILGenerator.MarkLabel: the label now designates the next instruction to be emitted. */
    method MarkLabel(labelId: nat)
      requires labelId < labels
      modifies this
      ensures marks == old(marks)[labelId := |old(code)|]
      ensures code == old(code) && locals == old(locals) && labels == old(labels)
    {
      marks := marks[labelId := |code|];
    }
  }
}
