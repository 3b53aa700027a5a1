/**
 * What the generated method bodies do when the runtime executes them: a symbolic,
 * straight-line evaluation stack machine for the opcodes the proxy generator emits
 * (section III of ECMA-335 gives each opcode's stack transition). Values are symbolic:
 * an argument, a field load, a boxed value, a call's result, an array in the machine's
 * heap. A branch is followed only when its target is the next instruction, which is
 * the only branch the generator emits. Running a forwarder from the empty machine shows
 * the call it makes (`MethodBase.Invoke(null, new object[] { method, proxyObject, args })`)
 * and what it returns; running a constructor shows the fields it stores and the base
 * constructor it calls.
 */
module ILSemantics {
  import opened Reflection
  import opened Emit
  import opened ProxyGeneration

  datatype Sym =
    | SNull
    | SInt(i: int)
    | SArg(position: int)                      // ldarg: argument 0 is `this`
    | SString(s: string)
    | SToken(name: string)                     // a type handle loaded by ldtoken
    | SLoad(owner: Sym, field: string)         // ldfld
    | SBoxed(value: Sym, t: Ty)
    | SArray(id: nat)                          // an array allocated by newarr, by heap index
    | SFunctionPointer(m: MethodDesc)          // ldftn
    | SDelegate(receiver: Sym, fn: Sym)        // newobj of a delegate type
    | SResult(call: nat)                       // the value returned by the call logged at this index
    | SCast(value: Sym, t: Ty, unboxed: bool)  // unbox.any (unboxed) or castclass

  /** A call made by the body, with its receiver (if any) first. */
  datatype Invocation = Invocation(callee: MethodRef, arguments: seq<Sym>)

  datatype FieldStore = FieldStore(owner: Sym, field: string, value: Sym)

  datatype Machine = Machine(
    stack: seq<Sym>,
    heap: seq<seq<Sym>>,
    stores: seq<FieldStore>,
    local0: Sym,
    calls: seq<Invocation>,
    returned: Option<Option<Sym>>)             // Some(None): returned nothing; Some(Some(v)): returned v

  /** Stuck: a stack underflow, a bad operand, an unknown callee, or an instruction after `ret`. */
  datatype State = Running(m: Machine) | Stuck

  const Start: Machine := Machine([], [], [], SNull, [], None)

  datatype Signature = Signature(arity: nat, returnsValue: bool)

  /** The callees the generator emits, with how many stack values they take (receiver included). */
  function SignatureOf(r: MethodRef): Option<Signature> {
    match r
    case Library(owner, name) =>
      if r == GetCurrentMethod then Some(Signature(0, true))
      else if r == MethodBaseInvoke then Some(Signature(3, true))
      else if r == Library("PureProxy.ProxyFactory", "get_Interceptor") then Some(Signature(0, true))
      else if r == Library("System.Object", "GetType") then Some(Signature(1, true))
      else if r == Library("System.Object", ".ctor") then Some(Signature(1, false))
      else if r == Library("System.Type", "GetTypeFromHandle") then Some(Signature(1, true))
      else if r == Library("System.Type", "GetMethod") then Some(Signature(3, true))
      else None
    case BaseConstructor(params) => Some(Signature(1 + |params|, false))
    case _ => None
  }

  function Push(m: Machine, v: Sym): State {
    Running(m.(stack := m.stack + [v]))
  }

  /** Replace the top `k` stack values by `v`. */
  function Replace(m: Machine, k: nat, v: Sym): State
    requires k <= |m.stack|
  {
    Running(m.(stack := m.stack[..|m.stack| - k] + [v]))
  }

  function CallStep(m: Machine, r: MethodRef): State {
    var n := |m.stack|;
    match SignatureOf(r)
    case None => Stuck
    case Some(sig) =>
      if n < sig.arity then Stuck
      else
        var called := m.(stack := m.stack[..n - sig.arity],
                         calls := m.calls + [Invocation(r, m.stack[n - sig.arity..])]);
        if sig.returnsValue then Push(called, SResult(|m.calls|)) else Running(called)
  }

  /** The effect of one instruction at index `pc`, given where each label is marked. */
  function Step(i: Instr, pc: nat, marks: map<nat, nat>, s: State): State {
    if s.Stuck? || s.m.returned.Some? then Stuck
    else
      var m := s.m;
      var st := m.stack;
      var n := |st|;
      match i.op
      case Nop => s
      case Ldarg_0 => Push(m, SArg(0))
      case Ldnull => Push(m, SNull)
      case Ldc_I4_0 => Push(m, SInt(0))
      case Ldc_I4_1 => Push(m, SInt(1))
      case Ldc_I4_2 => Push(m, SInt(2))
      case Ldc_I4_3 => Push(m, SInt(3))
      case Ldc_I4_S => if i.operand.IntOperand? then Push(m, SInt(i.operand.n)) else Stuck
      case Ldarg_S => if i.operand.IntOperand? then Push(m, SArg(i.operand.n)) else Stuck
      case Ldarg => if i.operand.IntOperand? then Push(m, SArg(i.operand.n)) else Stuck
      case Ldstr => if i.operand.StringOperand? then Push(m, SString(i.operand.s)) else Stuck
      case Ldtoken => if i.operand.StringOperand? then Push(m, SToken(i.operand.s)) else Stuck
      case Ldftn => if i.operand.MethodOperand? && i.operand.r.Target? then Push(m, SFunctionPointer(i.operand.r.m)) else Stuck
      case Ldloc_0 => Push(m, m.local0)
      case Dup => if n >= 1 then Push(m, st[n - 1]) else Stuck
      case Pop => if n >= 1 then Running(m.(stack := st[..n - 1])) else Stuck
      case Stloc_0 => if n >= 1 then Running(m.(stack := st[..n - 1], local0 := st[n - 1])) else Stuck
      case Ldfld => if n >= 1 && i.operand.FieldOperand? then Replace(m, 1, SLoad(st[n - 1], i.operand.field)) else Stuck
      case Stfld =>
        if n >= 2 && i.operand.FieldOperand? then
          Running(m.(stack := st[..n - 2], stores := m.stores + [FieldStore(st[n - 2], i.operand.field, st[n - 1])]))
        else Stuck
      case Box => if n >= 1 && i.operand.TypeOperand? then Replace(m, 1, SBoxed(st[n - 1], i.operand.t)) else Stuck
      case Unbox_Any => if n >= 1 && i.operand.TypeOperand? then Replace(m, 1, SCast(st[n - 1], i.operand.t, true)) else Stuck
      case Castclass => if n >= 1 && i.operand.TypeOperand? then Replace(m, 1, SCast(st[n - 1], i.operand.t, false)) else Stuck
      case Newobj =>
        if n >= 2 && i.operand.MethodOperand? && i.operand.r.DelegateConstructor? then Replace(m, 2, SDelegate(st[n - 2], st[n - 1]))
        else Stuck
      case Newarr =>
        if n >= 1 && st[n - 1].SInt? && st[n - 1].i >= 0 then
          Running(m.(stack := st[..n - 1] + [SArray(|m.heap|)], heap := m.heap + [Nulls(st[n - 1].i)]))
        else Stuck
      case Stelem_Ref =>
        if n >= 3 && st[n - 3].SArray? && st[n - 3].id < |m.heap| && st[n - 2].SInt?
           && 0 <= st[n - 2].i < |m.heap[st[n - 3].id]| then
          var a := st[n - 3].id;
          Running(m.(stack := st[..n - 3], heap := m.heap[a := m.heap[a][st[n - 2].i := st[n - 1]]]))
        else Stuck
      case Call => if i.operand.MethodOperand? then CallStep(m, i.operand.r) else Stuck
      case Callvirt => if i.operand.MethodOperand? then CallStep(m, i.operand.r) else Stuck
      case Br_S =>
        if i.operand.LabelOperand? && i.operand.labelId in marks && marks[i.operand.labelId] == pc + 1 then s else Stuck
      case Ret =>
        if n == 0 then Running(m.(returned := Some(None)))
        else if n == 1 then Running(m.(stack := [], returned := Some(Some(st[0]))))
        else Stuck
      case _ => Stuck
  }

  function Nulls(n: nat): (r: seq<Sym>)
    ensures |r| == n && forall k :: 0 <= k < n ==> r[k] == SNull
  {
    seq(n, _ => SNull)
  }

  type Stepper = (Instr, nat, State) -> State

  /** One instruction at a time, with the labels marked as in `marks`. */
  function StepAt(marks: map<nat, nat>): Stepper {
    (i, pc: nat, s) => Step(i, pc, marks, s)
  }

  /** Run `code` from state `s` with `step`, its first instruction sitting at index `pc` of the body. */
  function RunWith(step: Stepper, code: seq<Instr>, pc: nat, s: State): State
    decreases |code|
  {
    if |code| == 0 then s
    else RunWith(step, code[1..], pc + 1, step(code[0], pc, s))
  }

  function RunFrom(code: seq<Instr>, pc: nat, marks: map<nat, nat>, s: State): State {
    RunWith(StepAt(marks), code, pc, s)
  }

  /** Running two pieces one after the other is running their concatenation. */
  lemma {:induction false} RunAppend(step: Stepper, a: seq<Instr>, b: seq<Instr>, pc: nat, s: State)
    decreases |a|
    ensures RunWith(step, a + b, pc, s) == RunWith(step, b, pc + |a|, RunWith(step, a, pc, s))
  {
    if |a| == 0 {
      assert a + b == b;
    } else {
      assert (a + b)[0] == a[0];
      assert (a + b)[1..] == a[1..] + b;
      RunAppend(step, a[1..], b, pc + 1, step(a[0], pc, s));
    }
  }

  /** Once stuck, always stuck. */
  lemma {:induction false} StuckStays(code: seq<Instr>, pc: nat, marks: map<nat, nat>)
    decreases |code|
    ensures RunFrom(code, pc, marks, Stuck) == Stuck
  {
    if |code| > 0 {
      StuckStays(code[1..], pc + 1, marks);
    }
  }

  lemma Run1(step: Stepper, a: Instr, pc: nat, s: State)
    ensures RunWith(step, [a], pc, s) == step(a, pc, s)
  {
    assert [a][1..] == [];
  }

  // Chaining known steps: each lemma runs a short piece whose every step is known.

  lemma Chunk1(step: Stepper, a: Instr, pc: nat, s0: State, s1: State)
    requires step(a, pc, s0) == s1
    ensures RunWith(step, [a], pc, s0) == s1
  {
    Run1(step, a, pc, s0);
  }

  lemma Chunk2(step: Stepper, a: Instr, b: Instr, pc: nat, s0: State, s1: State, s2: State)
    requires step(a, pc, s0) == s1 && step(b, pc + 1, s1) == s2
    ensures RunWith(step, [a, b], pc, s0) == s2
  {
    assert [a, b][1..] == [b];
    Run1(step, b, pc + 1, s1);
  }

  lemma Chunk3(step: Stepper, a: Instr, b: Instr, c: Instr, pc: nat, s0: State, s1: State, s2: State, s3: State)
    requires step(a, pc, s0) == s1 && step(b, pc + 1, s1) == s2 && step(c, pc + 2, s2) == s3
    ensures RunWith(step, [a, b, c], pc, s0) == s3
  {
    assert [a, b, c][1..] == [b, c];
    Chunk2(step, b, c, pc + 1, s1, s2, s3);
  }

  lemma Chunk4(step: Stepper, a: Instr, b: Instr, c: Instr, d: Instr, pc: nat, s0: State, s1: State, s2: State, s3: State, s4: State)
    requires step(a, pc, s0) == s1 && step(b, pc + 1, s1) == s2 && step(c, pc + 2, s2) == s3 && step(d, pc + 3, s3) == s4
    ensures RunWith(step, [a, b, c, d], pc, s0) == s4
  {
    assert [a, b, c, d][1..] == [b, c, d];
    Chunk3(step, b, c, d, pc + 1, s1, s2, s3, s4);
  }

  lemma Chunk5(step: Stepper, a: Instr, b: Instr, c: Instr, d: Instr, e: Instr, pc: nat,
               s0: State, s1: State, s2: State, s3: State, s4: State, s5: State)
    requires step(a, pc, s0) == s1 && step(b, pc + 1, s1) == s2 && step(c, pc + 2, s2) == s3
    requires step(d, pc + 3, s3) == s4 && step(e, pc + 4, s4) == s5
    ensures RunWith(step, [a, b, c, d, e], pc, s0) == s5
  {
    assert [a, b, c, d, e][1..] == [b, c, d, e];
    Chunk4(step, b, c, d, e, pc + 1, s1, s2, s3, s4, s5);
  }

  /** Two runs that meet make one run of the concatenated code. */
  lemma Join(step: Stepper, a: seq<Instr>, b: seq<Instr>, pc: nat, s0: State, s1: State, s2: State)
    requires RunWith(step, a, pc, s0) == s1 && RunWith(step, b, pc + |a|, s1) == s2
    ensures RunWith(step, a + b, pc, s0) == s2
  {
    RunAppend(step, a, b, pc, s0);
  }


  // The step of each emitted opcode, on any machine that has not returned.

  /** The loads: `ldarg.0`, `ldnull`, `ldc.i4.0` to `ldc.i4.3`, `ldc.i4.s`, `ldarg.s`, `ldarg`, `ldstr`, `ldtoken`, `ldftn`, `ldloc.0`. */
  predicate Loads(i: Instr, v: Sym, m: Machine) {
    || (i == Op(Ldarg_0) && v == SArg(0))
    || (i == Op(Ldnull) && v == SNull)
    || (i == Op(Ldc_I4_0) && v == SInt(0))
    || (i == Op(Ldc_I4_1) && v == SInt(1))
    || (i == Op(Ldc_I4_2) && v == SInt(2))
    || (i == Op(Ldc_I4_3) && v == SInt(3))
    || (i.op == Ldc_I4_S && i.operand.IntOperand? && v == SInt(i.operand.n))
    || ((i.op == Ldarg_S || i.op == Ldarg) && i.operand.IntOperand? && v == SArg(i.operand.n))
    || (i.op == Ldstr && i.operand.StringOperand? && v == SString(i.operand.s))
    || (i.op == Ldtoken && i.operand.StringOperand? && v == SToken(i.operand.s))
    || (i.op == Ldftn && i.operand.MethodOperand? && i.operand.r.Target? && v == SFunctionPointer(i.operand.r.m))
    || (i == Op(Ldloc_0) && v == m.local0)
  }

  /** The instructions that replace the top of the stack `x` by `v`: `ldfld`, `box`, `unbox.any`, `castclass`. */
  predicate Wraps(i: Instr, x: Sym, v: Sym) {
    || (i.op == Ldfld && i.operand.FieldOperand? && v == SLoad(x, i.operand.field))
    || (i.op == Box && i.operand.TypeOperand? && v == SBoxed(x, i.operand.t))
    || (i.op == Unbox_Any && i.operand.TypeOperand? && v == SCast(x, i.operand.t, true))
    || (i.op == Castclass && i.operand.TypeOperand? && v == SCast(x, i.operand.t, false))
  }

  lemma StepNop(pc: nat, marks: map<nat, nat>, m: Machine)
    requires m.returned.None?
    ensures Step(Op(Nop), pc, marks, Running(m)) == Running(m)
  {
  }

  lemma StepLoad(i: Instr, v: Sym, pc: nat, marks: map<nat, nat>, m: Machine)
    requires m.returned.None? && Loads(i, v, m)
    ensures Step(i, pc, marks, Running(m)) == Running(m.(stack := m.stack + [v]))
  {
  }

  lemma StepDup(pc: nat, marks: map<nat, nat>, m: Machine)
    requires m.returned.None? && |m.stack| >= 1
    ensures Step(Op(Dup), pc, marks, Running(m)) == Running(m.(stack := m.stack + [m.stack[|m.stack| - 1]]))
  {
  }

  lemma StepPop(pc: nat, marks: map<nat, nat>, m: Machine)
    requires m.returned.None? && |m.stack| >= 1
    ensures Step(Op(Pop), pc, marks, Running(m)) == Running(m.(stack := m.stack[..|m.stack| - 1]))
  {
  }

  lemma StepStloc(pc: nat, marks: map<nat, nat>, m: Machine)
    requires m.returned.None? && |m.stack| >= 1
    ensures Step(Op(Stloc_0), pc, marks, Running(m))
         == Running(m.(stack := m.stack[..|m.stack| - 1], local0 := m.stack[|m.stack| - 1]))
  {
  }

  lemma StepWrap(i: Instr, v: Sym, pc: nat, marks: map<nat, nat>, m: Machine)
    requires m.returned.None? && |m.stack| >= 1 && Wraps(i, m.stack[|m.stack| - 1], v)
    ensures Step(i, pc, marks, Running(m)) == Running(m.(stack := m.stack[..|m.stack| - 1] + [v]))
  {
  }

  lemma StepNewobj(d: MethodDesc, pc: nat, marks: map<nat, nat>, m: Machine)
    requires m.returned.None? && |m.stack| >= 2
    ensures Step(Instr(Newobj, MethodOperand(DelegateConstructor(d))), pc, marks, Running(m))
         == Running(m.(stack := m.stack[..|m.stack| - 2] + [SDelegate(m.stack[|m.stack| - 2], m.stack[|m.stack| - 1])]))
  {
  }

  lemma StepNewarr(k: nat, pc: nat, marks: map<nat, nat>, m: Machine)
    requires m.returned.None? && |m.stack| >= 1 && m.stack[|m.stack| - 1] == SInt(k)
    ensures Step(Instr(Newarr, TypeOperand(ObjectType)), pc, marks, Running(m))
         == Running(m.(stack := m.stack[..|m.stack| - 1] + [SArray(|m.heap|)], heap := m.heap + [Nulls(k)]))
  {
  }

  lemma StepStelem(a: nat, k: int, pc: nat, marks: map<nat, nat>, m: Machine)
    requires m.returned.None? && |m.stack| >= 3
    requires m.stack[|m.stack| - 3] == SArray(a) && a < |m.heap| && m.stack[|m.stack| - 2] == SInt(k) && 0 <= k < |m.heap[a]|
    ensures Step(Op(Stelem_Ref), pc, marks, Running(m))
         == Running(m.(stack := m.stack[..|m.stack| - 3], heap := m.heap[a := m.heap[a][k := m.stack[|m.stack| - 1]]]))
  {
  }

  lemma StepStfld(f: string, pc: nat, marks: map<nat, nat>, m: Machine)
    requires m.returned.None? && |m.stack| >= 2
    ensures Step(Instr(Stfld, FieldOperand(f)), pc, marks, Running(m))
         == Running(m.(stack := m.stack[..|m.stack| - 2], stores := m.stores + [FieldStore(m.stack[|m.stack| - 2], f, m.stack[|m.stack| - 1])]))
  {
  }

  /** A call to a method that returns a value, taking the top `k` stack values. */
  lemma StepCall(i: Instr, r: MethodRef, k: nat, pc: nat, marks: map<nat, nat>, m: Machine)
    requires m.returned.None? && (i == Instr(Call, MethodOperand(r)) || i == Instr(Callvirt, MethodOperand(r)))
    requires SignatureOf(r) == Some(Signature(k, true)) && k <= |m.stack|
    ensures Step(i, pc, marks, Running(m))
         == Running(m.(stack := m.stack[..|m.stack| - k] + [SResult(|m.calls|)], calls := m.calls + [Invocation(r, m.stack[|m.stack| - k..])]))
  {
  }

  /** A call to a constructor that takes the whole stack. */
  lemma StepConstruct(r: MethodRef, pc: nat, marks: map<nat, nat>, m: Machine)
    requires m.returned.None? && SignatureOf(r) == Some(Signature(|m.stack|, false))
    ensures Step(Instr(Call, MethodOperand(r)), pc, marks, Running(m)) == Running(m.(stack := [], calls := m.calls + [Invocation(r, m.stack)]))
  {
    assert m.stack[..0] == [] && m.stack[0..] == m.stack;
  }

  lemma StepBr(l: nat, pc: nat, marks: map<nat, nat>, m: Machine)
    requires m.returned.None? && l in marks && marks[l] == pc + 1
    ensures Step(Instr(Br_S, LabelOperand(l)), pc, marks, Running(m)) == Running(m)
  {
  }

  lemma StepRet(pc: nat, marks: map<nat, nat>, m: Machine)
    requires m.returned.None? && |m.stack| == 0
    ensures Step(Op(Ret), pc, marks, Running(m)) == Running(m.(returned := Some(None)))
  {
  }

  lemma StepRetValue(pc: nat, marks: map<nat, nat>, m: Machine)
    requires m.returned.None? && |m.stack| == 1
    ensures Step(Op(Ret), pc, marks, Running(m)) == Running(m.(stack := [], returned := Some(Some(m.stack[0]))))
  {
  }

  /** The Invoke MethodInfo, read from the proxy's field. */
  const InvokeMethodInfo: Sym := SLoad(SArg(0), InvokeMethodField)
  /** The wrapped object, read from the proxy's field. */
  const WrappedObject: Sym := SLoad(SArg(0), ProxyObjectField)

  /** A machine midway through a forwarder: no field stored, local 0 untouched, not returned. */
  function Pending(stack: seq<Sym>, heap: seq<seq<Sym>>, calls: seq<Invocation>): State {
    Running(Machine(stack, heap, [], SNull, calls, None))
  }

  /** The stack while the arguments are stored: MethodInfo, null, the outer array, and the outer array, index 2 and the inner array. */
  const Storing: seq<Sym> := [InvokeMethodInfo, SNull, SArray(0), SArray(0), SInt(2), SArray(1)]

  // Forwarders, piece by piece.

  lemma PreludeLoadRuns(pc: nat, marks: map<nat, nat>)
    ensures RunWith(StepAt(marks), [Op(Nop), Op(Ldarg_0), Instr(Ldfld, FieldOperand(InvokeMethodField)), Op(Ldnull)], pc, Running(Start))
         == Pending([InvokeMethodInfo, SNull], [], [])
  {
    var m0 := Start;
    var m1 := m0.(stack := m0.stack + [SArg(0)]);
    var m2 := m1.(stack := m1.stack[..|m1.stack| - 1] + [SLoad(m1.stack[|m1.stack| - 1], InvokeMethodField)]);
    var m3 := m2.(stack := m2.stack + [SNull]);
    StepNop(pc, marks, m0);
    StepLoad(Op(Ldarg_0), SArg(0), pc + 1, marks, m0);
    StepWrap(Instr(Ldfld, FieldOperand(InvokeMethodField)), SLoad(m1.stack[|m1.stack| - 1], InvokeMethodField), pc + 2, marks, m1);
    StepLoad(Op(Ldnull), SNull, pc + 3, marks, m2);
    Chunk4(StepAt(marks), Op(Nop), Op(Ldarg_0), Instr(Ldfld, FieldOperand(InvokeMethodField)), Op(Ldnull), pc,
           Running(m0), Running(m0), Running(m1), Running(m2), Running(m3));
    assert m3.stack == [InvokeMethodInfo, SNull];
  }

  lemma PreludeArrayRuns(pc: nat, marks: map<nat, nat>)
    ensures RunWith(StepAt(marks), [Op(Ldc_I4_3), Instr(Newarr, TypeOperand(ObjectType)), Op(Dup), Op(Ldc_I4_0)], pc,
                    Pending([InvokeMethodInfo, SNull], [], []))
         == Pending([InvokeMethodInfo, SNull, SArray(0), SArray(0), SInt(0)], [Nulls(3)], [])
  {
    var m0 := Machine([InvokeMethodInfo, SNull], [], [], SNull, [], None);
    var m1 := m0.(stack := m0.stack + [SInt(3)]);
    var m2 := m1.(stack := m1.stack[..|m1.stack| - 1] + [SArray(|m1.heap|)], heap := m1.heap + [Nulls(3)]);
    var m3 := m2.(stack := m2.stack + [m2.stack[|m2.stack| - 1]]);
    var m4 := m3.(stack := m3.stack + [SInt(0)]);
    StepLoad(Op(Ldc_I4_3), SInt(3), pc, marks, m0);
    StepNewarr(3, pc + 1, marks, m1);
    StepDup(pc + 2, marks, m2);
    StepLoad(Op(Ldc_I4_0), SInt(0), pc + 3, marks, m3);
    Chunk4(StepAt(marks), Op(Ldc_I4_3), Instr(Newarr, TypeOperand(ObjectType)), Op(Dup), Op(Ldc_I4_0), pc,
           Running(m0), Running(m1), Running(m2), Running(m3), Running(m4));
    assert m4.stack == [InvokeMethodInfo, SNull, SArray(0), SArray(0), SInt(0)];
  }

  /** The prelude leaves Invoke's MethodInfo, null and a fresh `object[3]` on the stack, ready to fill slot 0. */
  lemma PreludeRuns(pc: nat, marks: map<nat, nat>)
    ensures RunWith(StepAt(marks), ForwarderPrelude, pc, Running(Start))
         == Pending([InvokeMethodInfo, SNull, SArray(0), SArray(0), SInt(0)], [Nulls(3)], [])
  {
    var a := [Op(Nop), Op(Ldarg_0), Instr(Ldfld, FieldOperand(InvokeMethodField)), Op(Ldnull)];
    var b := [Op(Ldc_I4_3), Instr(Newarr, TypeOperand(ObjectType)), Op(Dup), Op(Ldc_I4_0)];
    PreludeLoadRuns(pc, marks);
    PreludeArrayRuns(pc + 4, marks);
    Join(StepAt(marks), a, b, pc, Running(Start), Pending([InvokeMethodInfo, SNull], [], []),
         Pending([InvokeMethodInfo, SNull, SArray(0), SArray(0), SInt(0)], [Nulls(3)], []));
    assert ForwarderPrelude == a + b;
  }

  /** What slot 0 of the outer array holds: the current method, or a delegate over the base method bound to `this`. */
  function Slot0(m: MethodDesc, isInterface: bool): Sym {
    if isInterface then SResult(0) else SDelegate(SArg(0), SFunctionPointer(m))
  }

  /** The calls made to fill slot 0: GetCurrentMethod for an interface proxy, none for a subclass proxy. */
  function SlotCalls(isInterface: bool): seq<Invocation> {
    if isInterface then [Invocation(GetCurrentMethod, [])] else []
  }

  lemma MethodSlotRuns(m: MethodDesc, isInterface: bool, pc: nat, marks: map<nat, nat>)
    ensures RunWith(StepAt(marks), MethodSlot(m, isInterface), pc,
                    Pending([InvokeMethodInfo, SNull, SArray(0), SArray(0), SInt(0)], [Nulls(3)], []))
         == Pending([InvokeMethodInfo, SNull, SArray(0)], [Nulls(3)[0 := Slot0(m, isInterface)]], SlotCalls(isInterface))
  {
    if isInterface {
      CurrentMethodSlotRuns(pc, marks);
    } else {
      DelegateSlotRuns(m, pc, marks);
    }
  }

  lemma CurrentMethodSlotRuns(pc: nat, marks: map<nat, nat>)
    ensures RunWith(StepAt(marks), [Instr(Call, MethodOperand(GetCurrentMethod)), Op(Stelem_Ref)], pc,
                    Pending([InvokeMethodInfo, SNull, SArray(0), SArray(0), SInt(0)], [Nulls(3)], []))
         == Pending([InvokeMethodInfo, SNull, SArray(0)], [Nulls(3)[0 := SResult(0)]], [Invocation(GetCurrentMethod, [])])
  {
    var m0 := Machine([InvokeMethodInfo, SNull, SArray(0), SArray(0), SInt(0)], [Nulls(3)], [], SNull, [], None);
    var m1 := m0.(stack := m0.stack[..|m0.stack| - 0] + [SResult(|m0.calls|)],
                  calls := m0.calls + [Invocation(GetCurrentMethod, m0.stack[|m0.stack| - 0..])]);
    assert m1.stack == [InvokeMethodInfo, SNull, SArray(0), SArray(0), SInt(0), SResult(0)];
    assert m0.stack[|m0.stack| - 0..] == [];
    assert m1.calls == [Invocation(GetCurrentMethod, [])];
    var m2 := m1.(stack := m1.stack[..|m1.stack| - 3], heap := m1.heap[0 := m1.heap[0][0 := m1.stack[|m1.stack| - 1]]]);
    StepCall(Instr(Call, MethodOperand(GetCurrentMethod)), GetCurrentMethod, 0, pc, marks, m0);
    StepStelem(0, 0, pc + 1, marks, m1);
    Chunk2(StepAt(marks), Instr(Call, MethodOperand(GetCurrentMethod)), Op(Stelem_Ref), pc, Running(m0), Running(m1), Running(m2));
    assert m2.stack == [InvokeMethodInfo, SNull, SArray(0)];
    assert m2.heap == [Nulls(3)[0 := SResult(0)]];
  }

  lemma DelegateSlotRuns(m: MethodDesc, pc: nat, marks: map<nat, nat>)
    ensures RunWith(StepAt(marks), [Op(Ldarg_0), Instr(Ldftn, MethodOperand(Target(m))), Instr(Newobj, MethodOperand(DelegateConstructor(m))), Op(Stelem_Ref)],
                    pc, Pending([InvokeMethodInfo, SNull, SArray(0), SArray(0), SInt(0)], [Nulls(3)], []))
         == Pending([InvokeMethodInfo, SNull, SArray(0)], [Nulls(3)[0 := SDelegate(SArg(0), SFunctionPointer(m))]], [])
  {
    var m0 := Machine([InvokeMethodInfo, SNull, SArray(0), SArray(0), SInt(0)], [Nulls(3)], [], SNull, [], None);
    var m1 := m0.(stack := m0.stack + [SArg(0)]);
    var m2 := m1.(stack := m1.stack + [SFunctionPointer(m)]);
    var m3 := m2.(stack := m2.stack[..|m2.stack| - 2] + [SDelegate(m2.stack[|m2.stack| - 2], m2.stack[|m2.stack| - 1])]);
    assert m3.stack == [InvokeMethodInfo, SNull, SArray(0), SArray(0), SInt(0), SDelegate(SArg(0), SFunctionPointer(m))];
    var m4 := m3.(stack := m3.stack[..|m3.stack| - 3], heap := m3.heap[0 := m3.heap[0][0 := m3.stack[|m3.stack| - 1]]]);
    StepLoad(Op(Ldarg_0), SArg(0), pc, marks, m0);
    StepLoad(Instr(Ldftn, MethodOperand(Target(m))), SFunctionPointer(m), pc + 1, marks, m1);
    StepNewobj(m, pc + 2, marks, m2);
    StepStelem(0, 0, pc + 3, marks, m3);
    Chunk4(StepAt(marks), Op(Ldarg_0), Instr(Ldftn, MethodOperand(Target(m))), Instr(Newobj, MethodOperand(DelegateConstructor(m))), Op(Stelem_Ref),
           pc, Running(m0), Running(m1), Running(m2), Running(m3), Running(m4));
    assert m4.stack == [InvokeMethodInfo, SNull, SArray(0)];
  }

  /** Slot 1 of the outer array gets the wrapped object. */
  lemma WrappedObjectRuns(h: seq<Sym>, calls: seq<Invocation>, pc: nat, marks: map<nat, nat>)
    requires |h| == 3
    ensures RunWith(StepAt(marks), [Op(Dup), Op(Ldc_I4_1), Op(Ldarg_0), Instr(Ldfld, FieldOperand(ProxyObjectField)), Op(Stelem_Ref)], pc,
                    Pending([InvokeMethodInfo, SNull, SArray(0)], [h], calls))
         == Pending([InvokeMethodInfo, SNull, SArray(0)], [h[1 := WrappedObject]], calls)
  {
    var m0 := Machine([InvokeMethodInfo, SNull, SArray(0)], [h], [], SNull, calls, None);
    var m1 := m0.(stack := m0.stack + [m0.stack[|m0.stack| - 1]]);
    var m2 := m1.(stack := m1.stack + [SInt(1)]);
    var m3 := m2.(stack := m2.stack + [SArg(0)]);
    var m4 := m3.(stack := m3.stack[..|m3.stack| - 1] + [SLoad(m3.stack[|m3.stack| - 1], ProxyObjectField)]);
    assert m4.stack == [InvokeMethodInfo, SNull, SArray(0), SArray(0), SInt(1), WrappedObject];
    var m5 := m4.(stack := m4.stack[..|m4.stack| - 3], heap := m4.heap[0 := m4.heap[0][1 := m4.stack[|m4.stack| - 1]]]);
    StepDup(pc, marks, m0);
    StepLoad(Op(Ldc_I4_1), SInt(1), pc + 1, marks, m1);
    StepLoad(Op(Ldarg_0), SArg(0), pc + 2, marks, m2);
    StepWrap(Instr(Ldfld, FieldOperand(ProxyObjectField)), WrappedObject, pc + 3, marks, m3);
    StepStelem(0, 1, pc + 4, marks, m4);
    Chunk5(StepAt(marks), Op(Dup), Op(Ldc_I4_1), Op(Ldarg_0), Instr(Ldfld, FieldOperand(ProxyObjectField)), Op(Stelem_Ref), pc,
           Running(m0), Running(m1), Running(m2), Running(m3), Running(m4), Running(m5));
    assert m5.stack == [InvokeMethodInfo, SNull, SArray(0)];
  }

  /** A fresh `object[n]` for the arguments is left on the stack, above the outer array and index 2. */
  lemma ArgArrayRuns(n: nat, h: seq<Sym>, calls: seq<Invocation>, pc: nat, marks: map<nat, nat>)
    ensures RunWith(StepAt(marks), [Op(Dup), Op(Ldc_I4_2), Instr(Ldc_I4_S, IntOperand(n)), Instr(Newarr, TypeOperand(ObjectType))], pc,
                    Pending([InvokeMethodInfo, SNull, SArray(0)], [h], calls))
         == Pending(Storing, [h, Nulls(n)], calls)
  {
    var m0 := Machine([InvokeMethodInfo, SNull, SArray(0)], [h], [], SNull, calls, None);
    var m1 := m0.(stack := m0.stack + [m0.stack[|m0.stack| - 1]]);
    var m2 := m1.(stack := m1.stack + [SInt(2)]);
    var m3 := m2.(stack := m2.stack + [SInt(n)]);
    var m4 := m3.(stack := m3.stack[..|m3.stack| - 1] + [SArray(|m3.heap|)], heap := m3.heap + [Nulls(n)]);
    StepDup(pc, marks, m0);
    StepLoad(Op(Ldc_I4_2), SInt(2), pc + 1, marks, m1);
    StepLoad(Instr(Ldc_I4_S, IntOperand(n)), SInt(n), pc + 2, marks, m2);
    StepNewarr(n, pc + 3, marks, m3);
    Chunk4(StepAt(marks), Op(Dup), Op(Ldc_I4_2), Instr(Ldc_I4_S, IntOperand(n)), Instr(Newarr, TypeOperand(ObjectType)), pc,
           Running(m0), Running(m1), Running(m2), Running(m3), Running(m4));
    assert m4.stack == Storing;
  }

  /** Slot 1 gets the wrapped object; then a fresh `object[n]` for the arguments is left on the stack. */
  lemma MiddleRuns(n: nat, h: seq<Sym>, calls: seq<Invocation>, pc: nat, marks: map<nat, nat>)
    requires |h| == 3
    ensures RunWith(StepAt(marks), ForwarderMiddle(n), pc, Pending([InvokeMethodInfo, SNull, SArray(0)], [h], calls))
         == Pending(Storing, [h[1 := WrappedObject], Nulls(n)], calls)
  {
    var a := [Op(Dup), Op(Ldc_I4_1), Op(Ldarg_0), Instr(Ldfld, FieldOperand(ProxyObjectField)), Op(Stelem_Ref)];
    var b := [Op(Dup), Op(Ldc_I4_2), Instr(Ldc_I4_S, IntOperand(n)), Instr(Newarr, TypeOperand(ObjectType))];
    WrappedObjectRuns(h, calls, pc, marks);
    ArgArrayRuns(n, h[1 := WrappedObject], calls, pc + 5, marks);
    Join(StepAt(marks), a, b, pc, Pending([InvokeMethodInfo, SNull, SArray(0)], [h], calls),
         Pending([InvokeMethodInfo, SNull, SArray(0)], [h[1 := WrappedObject]], calls),
         Pending(Storing, [h[1 := WrappedObject], Nulls(n)], calls));
    assert ForwarderMiddle(n) == a + b;
  }

  /** What the inner array holds for parameter `i`: argument `i + 1`, boxed when its type is a value type. */
  function PackedArg(i: nat, p: Param): Sym {
    if IsValueType(p.ty) then SBoxed(SArg(i + 1), p.ty) else SArg(i + 1)
  }

  function PackedArgs(params: seq<Param>): (r: seq<Sym>)
    ensures |r| == |params| && forall k :: 0 <= k < |params| ==> r[k] == PackedArg(k, params[k])
  {
    seq(|params|, k requires 0 <= k < |params| => PackedArg(k, params[k]))
  }

  /** Loading for argument `i`: the inner array, the index `i` and argument `i + 1`. */
  lemma ArgLoadRuns(i: nat, h: seq<Sym>, a: seq<Sym>, calls: seq<Invocation>, pc: nat, marks: map<nat, nat>)
    ensures RunWith(StepAt(marks), [Op(Dup), Instr(Ldc_I4_S, IntOperand(i)), Instr(Ldarg_S, IntOperand(i + 1))], pc, Pending(Storing, [h, a], calls))
         == Pending(Storing + [SArray(1), SInt(i), SArg(i + 1)], [h, a], calls)
  {
    var m0 := Machine(Storing, [h, a], [], SNull, calls, None);
    var m1 := m0.(stack := m0.stack + [m0.stack[|m0.stack| - 1]]);
    var m2 := m1.(stack := m1.stack + [SInt(i)]);
    var m3 := m2.(stack := m2.stack + [SArg(i + 1)]);
    StepDup(pc, marks, m0);
    StepLoad(Instr(Ldc_I4_S, IntOperand(i)), SInt(i), pc + 1, marks, m1);
    StepLoad(Instr(Ldarg_S, IntOperand(i + 1)), SArg(i + 1), pc + 2, marks, m2);
    Chunk3(StepAt(marks), Op(Dup), Instr(Ldc_I4_S, IntOperand(i)), Instr(Ldarg_S, IntOperand(i + 1)), pc,
           Running(m0), Running(m1), Running(m2), Running(m3));
    assert m3.stack == Storing + [SArray(1), SInt(i), SArg(i + 1)];
  }

  /** Storing the top of the stack `v` at index `i` of the inner array. */
  lemma PackedStoreRuns(i: nat, v: Sym, h: seq<Sym>, a: seq<Sym>, calls: seq<Invocation>, pc: nat, marks: map<nat, nat>)
    requires i < |a|
    ensures RunWith(StepAt(marks), [Op(Stelem_Ref)], pc, Pending(Storing + [SArray(1), SInt(i), v], [h, a], calls))
         == Pending(Storing, [h, a[i := v]], calls)
  {
    var m0 := Machine(Storing + [SArray(1), SInt(i), v], [h, a], [], SNull, calls, None);
    var m1 := m0.(stack := m0.stack[..|m0.stack| - 3], heap := m0.heap[1 := m0.heap[1][i := m0.stack[|m0.stack| - 1]]]);
    StepStelem(1, i, pc, marks, m0);
    Chunk1(StepAt(marks), Op(Stelem_Ref), pc, Running(m0), Running(m1));
    assert m1.stack == Storing;
  }

  /** Boxing the top of the stack, argument `i + 1`, and storing it at index `i` of the inner array. */
  lemma BoxedStoreRuns(i: nat, t: Ty, h: seq<Sym>, a: seq<Sym>, calls: seq<Invocation>, pc: nat, marks: map<nat, nat>)
    requires i < |a|
    ensures RunWith(StepAt(marks), [Instr(Box, TypeOperand(t)), Op(Stelem_Ref)], pc, Pending(Storing + [SArray(1), SInt(i), SArg(i + 1)], [h, a], calls))
         == Pending(Storing, [h, a[i := SBoxed(SArg(i + 1), t)]], calls)
  {
    var m0 := Machine(Storing + [SArray(1), SInt(i), SArg(i + 1)], [h, a], [], SNull, calls, None);
    var m1 := m0.(stack := m0.stack[..|m0.stack| - 1] + [SBoxed(SArg(i + 1), t)]);
    assert m1.stack == Storing + [SArray(1), SInt(i), SBoxed(SArg(i + 1), t)];
    StepWrap(Instr(Box, TypeOperand(t)), SBoxed(SArg(i + 1), t), pc, marks, m0);
    PackedStoreRuns(i, SBoxed(SArg(i + 1), t), h, a, calls, pc + 1, marks);
    Join(StepAt(marks), [Instr(Box, TypeOperand(t))], [Op(Stelem_Ref)], pc, Running(m0), Running(m1),
         Pending(Storing, [h, a[i := SBoxed(SArg(i + 1), t)]], calls));
    Run1(StepAt(marks), Instr(Box, TypeOperand(t)), pc, Running(m0));
  }

  /** Storing one argument writes its packed value at index `i` of the inner array and leaves the stack as it was. */
  lemma ArgStoreRuns(i: nat, p: Param, h: seq<Sym>, a: seq<Sym>, calls: seq<Invocation>, pc: nat, marks: map<nat, nat>)
    requires i < |a|
    ensures RunWith(StepAt(marks), ArgStore(i, p), pc, Pending(Storing, [h, a], calls))
         == Pending(Storing, [h, a[i := PackedArg(i, p)]], calls)
  {
    var load := [Op(Dup), Instr(Ldc_I4_S, IntOperand(i)), Instr(Ldarg_S, IntOperand(i + 1))];
    var loaded := Pending(Storing + [SArray(1), SInt(i), SArg(i + 1)], [h, a], calls);
    ArgLoadRuns(i, h, a, calls, pc, marks);
    if IsValueType(p.ty) {
      var store := [Instr(Box, TypeOperand(p.ty)), Op(Stelem_Ref)];
      BoxedStoreRuns(i, p.ty, h, a, calls, pc + 3, marks);
      Join(StepAt(marks), load, store, pc, Pending(Storing, [h, a], calls), loaded, Pending(Storing, [h, a[i := PackedArg(i, p)]], calls));
      assert ArgStore(i, p) == load + store;
    } else {
      var store := [Op(Stelem_Ref)];
      PackedStoreRuns(i, SArg(i + 1), h, a, calls, pc + 3, marks);
      Join(StepAt(marks), load, store, pc, Pending(Storing, [h, a], calls), loaded, Pending(Storing, [h, a[i := PackedArg(i, p)]], calls));
      assert ArgStore(i, p) == load + store;
    }
  }

  /** Storing the arguments of `params` fills the first |params| slots of the inner array with their packed values. */
  lemma {:induction false} ArgStoresRun(params: seq<Param>, h: seq<Sym>, a: seq<Sym>, calls: seq<Invocation>, pc: nat, marks: map<nat, nat>)
    requires |params| <= |a|
    decreases |params|
    ensures RunWith(StepAt(marks), ArgStores(params), pc, Pending(Storing, [h, a], calls))
         == Pending(Storing, [h, PackedArgs(params) + a[|params|..]], calls)
  {
    if |params| == 0 {
      assert PackedArgs(params) + a[0..] == a;
    } else {
      var k := |params| - 1;
      var init := params[..k];
      var mid := PackedArgs(init) + a[k..];
      ArgStoresRun(init, h, a, calls, pc, marks);
      ArgStoreRuns(k, params[k], h, mid, calls, pc + |ArgStores(init)|, marks);
      Join(StepAt(marks), ArgStores(init), ArgStore(k, params[k]), pc,
           Pending(Storing, [h, a], calls), Pending(Storing, [h, mid], calls),
           Pending(Storing, [h, mid[k := PackedArg(k, params[k])]], calls));
      PackedGrows(params, a);
    }
  }

  /** Packing parameter k after the first k extends the packed prefix by one. */
  lemma PackedGrows(params: seq<Param>, a: seq<Sym>)
    requires 0 < |params| <= |a|
    ensures var k := |params| - 1;
            (PackedArgs(params[..k]) + a[k..])[k := PackedArg(k, params[k])] == PackedArgs(params) + a[k + 1..]
  {
    var k := |params| - 1;
    assert forall j :: 0 <= j < k ==> params[..k][j] == params[j];
  }

  /** The call every forwarder makes: MethodBase.Invoke on the Invoke MethodInfo, with a null target and the outer array. */
  const InvokeCall: Invocation := Invocation(MethodBaseInvoke, [InvokeMethodInfo, SNull, SArray(0)])

  /** What a method returning `returnType` gives back from `result`: nothing for void, else the cast of `result`. */
  function CastResult(returnType: Ty, result: Sym): Option<Sym> {
    if returnType == VoidType then None else Some(SCast(result, returnType, IsValueType(returnType)))
  }

  /** Slot 2 gets the inner array, then MethodBase.Invoke is called with the outer array. */
  lemma InvokeRuns(h: seq<Sym>, a: seq<Sym>, calls: seq<Invocation>, pc: nat, marks: map<nat, nat>)
    requires |h| == 3
    ensures RunWith(StepAt(marks), [Op(Stelem_Ref), Instr(Callvirt, MethodOperand(MethodBaseInvoke))], pc, Pending(Storing, [h, a], calls))
         == Pending([SResult(|calls|)], [h[2 := SArray(1)], a], calls + [InvokeCall])
  {
    var m0 := Machine(Storing, [h, a], [], SNull, calls, None);
    var m1 := m0.(stack := m0.stack[..|m0.stack| - 3], heap := m0.heap[0 := m0.heap[0][2 := m0.stack[|m0.stack| - 1]]]);
    assert m1.stack == [InvokeMethodInfo, SNull, SArray(0)];
    var m2 := m1.(stack := m1.stack[..|m1.stack| - 3] + [SResult(|m1.calls|)], calls := m1.calls + [Invocation(MethodBaseInvoke, m1.stack[|m1.stack| - 3..])]);
    StepStelem(0, 2, pc, marks, m0);
    StepCall(Instr(Callvirt, MethodOperand(MethodBaseInvoke)), MethodBaseInvoke, 3, pc + 1, marks, m1);
    Chunk2(StepAt(marks), Op(Stelem_Ref), Instr(Callvirt, MethodOperand(MethodBaseInvoke)), pc, Running(m0), Running(m1), Running(m2));
    assert m2.stack == [SResult(|calls|)];
  }

  /** A void forwarder discards Invoke's result and returns nothing. */
  lemma VoidReturnRuns(r: Sym, heap: seq<seq<Sym>>, calls: seq<Invocation>, pc: nat, marks: map<nat, nat>)
    ensures RunWith(StepAt(marks), [Op(Pop), Op(Ret)], pc, Pending([r], heap, calls))
         == Running(Machine([], heap, [], SNull, calls, Some(None)))
  {
    var m0 := Machine([r], heap, [], SNull, calls, None);
    var m1 := m0.(stack := m0.stack[..|m0.stack| - 1]);
    var m2 := m1.(returned := Some(None));
    StepPop(pc, marks, m0);
    StepRet(pc + 1, marks, m1);
    Chunk2(StepAt(marks), Op(Pop), Op(Ret), pc, Running(m0), Running(m1), Running(m2));
  }

  /** Any other forwarder casts Invoke's result, keeps it in local 0, branches to the next instruction, reloads and returns it. */
  lemma ValueReturnRuns(rt: Ty, r: Sym, heap: seq<seq<Sym>>, calls: seq<Invocation>, pc: nat, marks: map<nat, nat>)
    requires 0 in marks && marks[0] == pc + 3
    ensures RunWith(StepAt(marks), [Instr(if IsValueType(rt) then Unbox_Any else Castclass, TypeOperand(rt)),
                                    Op(Stloc_0), Instr(Br_S, LabelOperand(0)), Op(Ldloc_0), Op(Ret)], pc, Pending([r], heap, calls))
         == Running(Machine([], heap, [], SCast(r, rt, IsValueType(rt)), calls, Some(Some(SCast(r, rt, IsValueType(rt))))))
  {
    var c := SCast(r, rt, IsValueType(rt));
    var cast := Instr(if IsValueType(rt) then Unbox_Any else Castclass, TypeOperand(rt));
    var m0 := Machine([r], heap, [], SNull, calls, None);
    var m1 := m0.(stack := m0.stack[..|m0.stack| - 1] + [c]);
    var m2 := m1.(stack := m1.stack[..|m1.stack| - 1], local0 := m1.stack[|m1.stack| - 1]);
    var m3 := m2.(stack := m2.stack + [m2.local0]);
    var m4 := m3.(stack := [], returned := Some(Some(m3.stack[0])));
    StepWrap(cast, c, pc, marks, m0);
    StepStloc(pc + 1, marks, m1);
    StepBr(0, pc + 2, marks, m2);
    StepLoad(Op(Ldloc_0), m2.local0, pc + 3, marks, m2);
    StepRetValue(pc + 4, marks, m3);
    Chunk5(StepAt(marks), cast, Op(Stloc_0), Instr(Br_S, LabelOperand(0)), Op(Ldloc_0), Op(Ret), pc,
           Running(m0), Running(m1), Running(m2), Running(m2), Running(m3), Running(m4));
  }

  /** The tail makes the Invoke call and returns its cast result, or nothing for void. */
  lemma TailRuns(rt: Ty, h: seq<Sym>, a: seq<Sym>, calls: seq<Invocation>, pc: nat, marks: map<nat, nat>)
    requires |h| == 3
    requires rt != VoidType ==> 0 in marks && marks[0] == pc + 5
    ensures RunWith(StepAt(marks), ForwarderTail(rt), pc, Pending(Storing, [h, a], calls)) == Running(Finished(a, rt, h, calls))
  {
    var call := [Op(Stelem_Ref), Instr(Callvirt, MethodOperand(MethodBaseInvoke))];
    var heap := [h[2 := SArray(1)], a];
    var r := SResult(|calls|);
    InvokeRuns(h, a, calls, pc, marks);
    if rt == VoidType {
      var rest := [Op(Pop), Op(Ret)];
      VoidReturnRuns(r, heap, calls + [InvokeCall], pc + 2, marks);
      Join(StepAt(marks), call, rest, pc, Pending(Storing, [h, a], calls), Pending([r], heap, calls + [InvokeCall]),
           Running(Machine([], heap, [], SNull, calls + [InvokeCall], Some(None))));
      assert ForwarderTail(rt) == call + rest;
    } else {
      var c := SCast(r, rt, IsValueType(rt));
      var rest := [Instr(if IsValueType(rt) then Unbox_Any else Castclass, TypeOperand(rt)),
                   Op(Stloc_0), Instr(Br_S, LabelOperand(0)), Op(Ldloc_0), Op(Ret)];
      ValueReturnRuns(rt, r, heap, calls + [InvokeCall], pc + 2, marks);
      Join(StepAt(marks), call, rest, pc, Pending(Storing, [h, a], calls), Pending([r], heap, calls + [InvokeCall]),
           Running(Machine([], heap, [], c, calls + [InvokeCall], Some(Some(c)))));
      assert ForwarderTail(rt) == call + rest;
    }
  }

  // Whole forwarders.

  /** The head fills slots 0 and 1 of the outer array and leaves a fresh `object[n]` for the arguments. */
  lemma HeadRuns(m: MethodDesc, isInterface: bool, marks: map<nat, nat>)
    ensures RunWith(StepAt(marks), ForwarderHead(m, isInterface), 0, Running(Start))
         == Pending(Storing, [Nulls(3)[0 := Slot0(m, isInterface)][1 := WrappedObject], Nulls(|m.params|)], SlotCalls(isInterface))
  {
    var step := StepAt(marks);
    var slot := Nulls(3)[0 := Slot0(m, isInterface)];
    var s1 := Pending([InvokeMethodInfo, SNull, SArray(0), SArray(0), SInt(0)], [Nulls(3)], []);
    var s2 := Pending([InvokeMethodInfo, SNull, SArray(0)], [slot], SlotCalls(isInterface));
    var s3 := Pending(Storing, [slot[1 := WrappedObject], Nulls(|m.params|)], SlotCalls(isInterface));
    PreludeRuns(0, marks);
    MethodSlotRuns(m, isInterface, |ForwarderPrelude|, marks);
    Join(step, ForwarderPrelude, MethodSlot(m, isInterface), 0, Running(Start), s1, s2);
    MiddleRuns(|m.params|, slot, SlotCalls(isInterface), |ForwarderPrelude + MethodSlot(m, isInterface)|, marks);
    Join(step, ForwarderPrelude + MethodSlot(m, isInterface), ForwarderMiddle(|m.params|), 0, Running(Start), s2, s3);
  }

  /** A forwarder's machine when it returns, from the outer array `h` before slot 2 is set, the inner array `a` and the calls made before Invoke. */
  function Finished(a: seq<Sym>, rt: Ty, h: seq<Sym>, calls: seq<Invocation>): Machine
    requires |h| == 3
  {
    var result := SResult(|calls|);
    Machine([], [h[2 := SArray(1)], a], [],
            if rt == VoidType then SNull else SCast(result, rt, IsValueType(rt)),
            calls + [InvokeCall], Some(CastResult(rt, result)))
  }

  lemma FilledInner(params: seq<Param>)
    ensures PackedArgs(params) + Nulls(|params|)[|params|..] == PackedArgs(params)
  {
    assert Nulls(|params|)[|params|..] == [];
  }

  /** TailRuns at every index the tail can sit at. */
  lemma TailRunsAnywhere(rt: Ty, h: seq<Sym>, a: seq<Sym>, calls: seq<Invocation>, marks: map<nat, nat>)
    requires |h| == 3
    ensures forall pc: nat :: (rt != VoidType ==> 0 in marks && marks[0] == pc + 5) ==>
              RunWith(StepAt(marks), ForwarderTail(rt), pc, Pending(Storing, [h, a], calls)) == Running(Finished(a, rt, h, calls))
  {
    forall pc: nat | rt != VoidType ==> 0 in marks && marks[0] == pc + 5
      ensures RunWith(StepAt(marks), ForwarderTail(rt), pc, Pending(Storing, [h, a], calls)) == Running(Finished(a, rt, h, calls))
    {
      TailRuns(rt, h, a, calls, pc, marks);
    }
  }

  /** After the head: store the arguments, call Invoke and return. */
  lemma BodyRuns(params: seq<Param>, rt: Ty, h: seq<Sym>, calls: seq<Invocation>, pc: nat, marks: map<nat, nat>)
    requires |h| == 3
    requires rt != VoidType ==> 0 in marks && marks[0] == pc + |ArgStores(params)| + 5
    ensures RunWith(StepAt(marks), ArgStores(params) + ForwarderTail(rt), pc, Pending(Storing, [h, Nulls(|params|)], calls))
         == Running(Finished(PackedArgs(params), rt, h, calls))
  {
    var a := PackedArgs(params);
    ArgStoresRun(params, h, Nulls(|params|), calls, pc, marks);
    FilledInner(params);
    TailRunsAnywhere(rt, h, a, calls, marks);
    Join(StepAt(marks), ArgStores(params), ForwarderTail(rt), pc, Pending(Storing, [h, Nulls(|params|)], calls), Pending(Storing, [h, a], calls),
         Running(Finished(a, rt, h, calls)));
  }

  /** What a forwarder for `m` has done when it returns. */
  function ForwarderEnd(m: MethodDesc, isInterface: bool): Machine {
    var result := SResult(|SlotCalls(isInterface)|);
    Machine([], [[Slot0(m, isInterface), WrappedObject, SArray(1)], PackedArgs(m.params)], [],
            if m.returnType == VoidType then SNull else SCast(result, m.returnType, IsValueType(m.returnType)),
            SlotCalls(isInterface) + [InvokeCall], Some(CastResult(m.returnType, result)))
  }

  lemma EndIsForwarderEnd(m: MethodDesc, isInterface: bool)
    ensures Finished(PackedArgs(m.params), m.returnType, Nulls(3)[0 := Slot0(m, isInterface)][1 := WrappedObject], SlotCalls(isInterface))
         == ForwarderEnd(m, isInterface)
  {
    assert Nulls(3)[0 := Slot0(m, isInterface)][1 := WrappedObject][2 := SArray(1)] == [Slot0(m, isInterface), WrappedObject, SArray(1)];
  }

  lemma CodeShape(m: MethodDesc, isInterface: bool)
    ensures ForwarderCode(m, isInterface) == ForwarderHead(m, isInterface) + (ArgStores(m.params) + ForwarderTail(m.returnType))
    ensures m.returnType != VoidType ==> |ForwarderTail(m.returnType)| == 7
  {
  }

  lemma CodeRuns(m: MethodDesc, isInterface: bool, marks: map<nat, nat>)
    requires m.returnType != VoidType ==> 0 in marks && marks[0] == |ForwarderCode(m, isInterface)| - 2
    ensures RunWith(StepAt(marks), ForwarderCode(m, isInterface), 0, Running(Start)) == Running(ForwarderEnd(m, isInterface))
  {
    var head := ForwarderHead(m, isInterface);
    var h := Nulls(3)[0 := Slot0(m, isInterface)][1 := WrappedObject];
    CodeShape(m, isInterface);
    HeadRuns(m, isInterface, marks);
    BodyRuns(m.params, m.returnType, h, SlotCalls(isInterface), |head|, marks);
    EndIsForwarderEnd(m, isInterface);
    Join(StepAt(marks), head, ArgStores(m.params) + ForwarderTail(m.returnType), 0, Running(Start),
         Pending(Storing, [h, Nulls(|m.params|)], SlotCalls(isInterface)), Running(ForwarderEnd(m, isInterface)));
  }

  /**
   * A forwarder, run from its first instruction, returns normally after calling
   * MethodBase.Invoke(Invoke MethodInfo, null, [slot 0, wrapped object, packed arguments]),
   * having first called GetCurrentMethod for slot 0 in an interface proxy; it returns the
   * cast of Invoke's result, or nothing for a void method.
   */
  lemma ForwarderRuns(m: MethodDesc, isInterface: bool)
    ensures RunFrom(ForwarderOf(m, isInterface).code, 0, ForwarderOf(m, isInterface).marks, Running(Start))
         == Running(ForwarderEnd(m, isInterface))
  {
    var f := ForwarderOf(m, isInterface);
    CodeRuns(m, isInterface, f.marks);
  }

  // Constructors.

  const GetInterceptor: MethodRef := Library("PureProxy.ProxyFactory", "get_Interceptor")
  const GetTypeOf: MethodRef := Library("System.Object", "GetType")
  const ObjectConstructor: MethodRef := Library("System.Object", ".ctor")
  const TypeFromHandle: MethodRef := Library("System.Type", "GetTypeFromHandle")
  const TypeGetMethod: MethodRef := Library("System.Type", "GetMethod")

  /** A constructor machine with an empty stack, midway. */
  function Settled(stores: seq<FieldStore>, calls: seq<Invocation>): State {
    Running(Machine([], [], stores, SNull, calls, None))
  }

  /** The interceptor's runtime type, as the prologue stores it. */
  const ProxyTypeStore: FieldStore := FieldStore(SArg(0), ProxyTypeField, SResult(1))
  /** The calls the prologue makes: the Interceptor getter, then GetType on its result. */
  const PrologueCalls: seq<Invocation> := [Invocation(GetInterceptor, []), Invocation(GetTypeOf, [SResult(0)])]

  /** `this`, then the runtime type of the interceptor the factory holds. */
  lemma InterceptorTypeRuns(pc: nat, marks: map<nat, nat>)
    ensures RunWith(StepAt(marks), [Op(Ldarg_0), Instr(Call, MethodOperand(GetInterceptor)), Instr(Callvirt, MethodOperand(GetTypeOf))], pc, Running(Start))
         == Pending([SArg(0), SResult(1)], [], PrologueCalls)
  {
    var m0 := Start;
    var m1 := Machine([SArg(0)], [], [], SNull, [], None);
    var m2 := Machine([SArg(0), SResult(0)], [], [], SNull, [Invocation(GetInterceptor, [])], None);
    var m3 := Machine([SArg(0), SResult(1)], [], [], SNull, PrologueCalls, None);
    StepLoad(Op(Ldarg_0), SArg(0), pc, marks, m0);
    assert m0.(stack := m0.stack + [SArg(0)]) == m1;
    StepCall(Instr(Call, MethodOperand(GetInterceptor)), GetInterceptor, 0, pc + 1, marks, m1);
    assert m1.stack[..|m1.stack| - 0] == [SArg(0)] && m1.stack[|m1.stack| - 0..] == [];
    StepCall(Instr(Callvirt, MethodOperand(GetTypeOf)), GetTypeOf, 1, pc + 2, marks, m2);
    assert m2.stack[..|m2.stack| - 1] == [SArg(0)] && m2.stack[|m2.stack| - 1..] == [SResult(0)];
    Chunk3(StepAt(marks), Op(Ldarg_0), Instr(Call, MethodOperand(GetInterceptor)), Instr(Callvirt, MethodOperand(GetTypeOf)), pc,
           Running(m0), Running(m1), Running(m2), Running(m3));
  }

  /** The type is stored in the proxy's field and `this` is loaded again. */
  lemma ProxyTypeStoreRuns(pc: nat, marks: map<nat, nat>)
    ensures RunWith(StepAt(marks), [Instr(Stfld, FieldOperand(ProxyTypeField)), Op(Ldarg_0)], pc, Pending([SArg(0), SResult(1)], [], PrologueCalls))
         == Running(Machine([SArg(0)], [], [ProxyTypeStore], SNull, PrologueCalls, None))
  {
    var m0 := Machine([SArg(0), SResult(1)], [], [], SNull, PrologueCalls, None);
    var m1 := m0.(stack := m0.stack[..|m0.stack| - 2], stores := m0.stores + [FieldStore(m0.stack[|m0.stack| - 2], ProxyTypeField, m0.stack[|m0.stack| - 1])]);
    var m2 := m1.(stack := m1.stack + [SArg(0)]);
    StepStfld(ProxyTypeField, pc, marks, m0);
    StepLoad(Op(Ldarg_0), SArg(0), pc + 1, marks, m1);
    Chunk2(StepAt(marks), Instr(Stfld, FieldOperand(ProxyTypeField)), Op(Ldarg_0), pc, Running(m0), Running(m1), Running(m2));
    assert m2.stack == [SArg(0)];
  }

  /** The prologue stores the interceptor's runtime type and leaves `this` for the base constructor call. */
  lemma CtorPrologueRuns(pc: nat, marks: map<nat, nat>)
    ensures RunWith(StepAt(marks), CtorPrologue, pc, Running(Start))
         == Running(Machine([SArg(0)], [], [ProxyTypeStore], SNull, PrologueCalls, None))
  {
    var a := [Op(Ldarg_0), Instr(Call, MethodOperand(GetInterceptor)), Instr(Callvirt, MethodOperand(GetTypeOf))];
    var b := [Instr(Stfld, FieldOperand(ProxyTypeField)), Op(Ldarg_0)];
    InterceptorTypeRuns(pc, marks);
    ProxyTypeStoreRuns(pc + 3, marks);
    Join(StepAt(marks), a, b, pc, Running(Start), Pending([SArg(0), SResult(1)], [], PrologueCalls),
         Running(Machine([SArg(0)], [], [ProxyTypeStore], SNull, PrologueCalls, None)));
    assert CtorPrologue == a + b;
  }

  /** Arguments 1 to n, in order. */
  function ArgSyms(n: nat): (r: seq<Sym>)
    ensures |r| == n && forall k :: 0 <= k < n ==> r[k] == SArg(k + 1)
  {
    seq(n, k => SArg(k + 1))
  }

  /** `Ldarg 1 … Ldarg n` pushes arguments 1 to n. */
  lemma {:induction false} BaseArgumentsRun(n: nat, st: seq<Sym>, stores: seq<FieldStore>, calls: seq<Invocation>, pc: nat, marks: map<nat, nat>)
    decreases n
    ensures RunWith(StepAt(marks), BaseArguments(n), pc, Running(Machine(st, [], stores, SNull, calls, None)))
         == Running(Machine(st + ArgSyms(n), [], stores, SNull, calls, None))
  {
    if n == 0 {
      assert st + ArgSyms(0) == st;
    } else {
      var m0 := Machine(st, [], stores, SNull, calls, None);
      var m1 := Machine(st + ArgSyms(n - 1), [], stores, SNull, calls, None);
      var m2 := m1.(stack := m1.stack + [SArg(n)]);
      BaseArgumentsRun(n - 1, st, stores, calls, pc, marks);
      StepLoad(Instr(Ldarg, IntOperand(n)), SArg(n), pc + n - 1, marks, m1);
      Chunk1(StepAt(marks), Instr(Ldarg, IntOperand(n)), pc + n - 1, Running(m1), Running(m2));
      Join(StepAt(marks), BaseArguments(n - 1), [Instr(Ldarg, IntOperand(n))], pc, Running(m0), Running(m1), Running(m2));
      assert m2.stack == st + ArgSyms(n);
    }
  }

  /** The call to the base constructor consumes `this` and the arguments pushed for it. */
  lemma BaseCallRuns(r: MethodRef, args: seq<Sym>, stores: seq<FieldStore>, calls: seq<Invocation>, pc: nat, marks: map<nat, nat>)
    requires SignatureOf(r) == Some(Signature(1 + |args|, false))
    ensures RunWith(StepAt(marks), [Instr(Call, MethodOperand(r))], pc, Running(Machine([SArg(0)] + args, [], stores, SNull, calls, None)))
         == Settled(stores, calls + [Invocation(r, [SArg(0)] + args)])
  {
    var m0 := Machine([SArg(0)] + args, [], stores, SNull, calls, None);
    StepConstruct(r, pc, marks, m0);
    Chunk1(StepAt(marks), Instr(Call, MethodOperand(r)), pc, Running(m0), Running(m0.(stack := [], calls := m0.calls + [Invocation(r, m0.stack)])));
  }

  /** The wrapped object, argument `k`, goes into the proxy's field. */
  lemma ProxyObjectStoreRuns(isInterface: bool, stores: seq<FieldStore>, calls: seq<Invocation>, pc: nat, marks: map<nat, nat>)
    ensures RunWith(StepAt(marks), ProxyObjectStore(isInterface), pc, Settled(stores, calls))
         == Settled(stores + [FieldStore(SArg(0), ProxyObjectField, SArg(if isInterface then 1 else 0))], calls)
  {
    var k := if isInterface then 1 else 0;
    var m0 := Machine([], [], stores, SNull, calls, None);
    var m1 := m0.(stack := m0.stack + [SArg(0)]);
    var m2 := m1.(stack := m1.stack + [SArg(k)]);
    var m3 := m2.(stack := m2.stack[..|m2.stack| - 2], stores := m2.stores + [FieldStore(m2.stack[|m2.stack| - 2], ProxyObjectField, m2.stack[|m2.stack| - 1])]);
    StepNop(pc, marks, m0);
    StepNop(pc + 1, marks, m0);
    StepLoad(Op(Ldarg_0), SArg(0), pc + 2, marks, m0);
    StepLoad(Instr(Ldarg, IntOperand(k)), SArg(k), pc + 3, marks, m1);
    StepStfld(ProxyObjectField, pc + 4, marks, m2);
    Chunk5(StepAt(marks), Op(Nop), Op(Nop), Op(Ldarg_0), Instr(Ldarg, IntOperand(k)), Instr(Stfld, FieldOperand(ProxyObjectField)), pc,
           Running(m0), Running(m0), Running(m0), Running(m1), Running(m2), Running(m3));
    assert m3.stack == [];
  }

  /** Looking up ProxyFactory.Invoke: GetTypeFromHandle on its type token, then the name "Invoke". */
  lemma InvokeLookupRuns(stores: seq<FieldStore>, calls: seq<Invocation>, pc: nat, marks: map<nat, nat>)
    ensures RunWith(StepAt(marks), [Op(Ldarg_0), Instr(Ldtoken, StringOperand("PureProxy.ProxyFactory")),
                                    Instr(Call, MethodOperand(TypeFromHandle)), Instr(Ldstr, StringOperand("Invoke"))],
                    pc, Settled(stores, calls))
         == Running(Machine([SArg(0), SResult(|calls|), SString("Invoke")], [], stores, SNull,
                            calls + [Invocation(TypeFromHandle, [SToken("PureProxy.ProxyFactory")])], None))
  {
    var m0 := Machine([], [], stores, SNull, calls, None);
    var m1 := m0.(stack := m0.stack + [SArg(0)]);
    var m2 := m1.(stack := m1.stack + [SToken("PureProxy.ProxyFactory")]);
    var m3 := m2.(stack := m2.stack[..|m2.stack| - 1] + [SResult(|m2.calls|)], calls := m2.calls + [Invocation(TypeFromHandle, m2.stack[|m2.stack| - 1..])]);
    var m4 := m3.(stack := m3.stack + [SString("Invoke")]);
    StepLoad(Op(Ldarg_0), SArg(0), pc, marks, m0);
    StepLoad(Instr(Ldtoken, StringOperand("PureProxy.ProxyFactory")), SToken("PureProxy.ProxyFactory"), pc + 1, marks, m1);
    StepCall(Instr(Call, MethodOperand(TypeFromHandle)), TypeFromHandle, 1, pc + 2, marks, m2);
    StepLoad(Instr(Ldstr, StringOperand("Invoke")), SString("Invoke"), pc + 3, marks, m3);
    Chunk4(StepAt(marks), Op(Ldarg_0), Instr(Ldtoken, StringOperand("PureProxy.ProxyFactory")),
           Instr(Call, MethodOperand(TypeFromHandle)), Instr(Ldstr, StringOperand("Invoke")), pc,
           Running(m0), Running(m1), Running(m2), Running(m3), Running(m4));
    assert m4.stack == [SArg(0), SResult(|calls|), SString("Invoke")];
  }

  /** GetMethod("Invoke", Static | NonPublic) is called on the type found, its result stored in the proxy's field, and the constructor returns. */
  lemma InvokeStoreRuns(t: Sym, stores: seq<FieldStore>, calls: seq<Invocation>, pc: nat, marks: map<nat, nat>)
    ensures RunWith(StepAt(marks), [Instr(Ldc_I4_S, IntOperand(40)), Instr(Call, MethodOperand(TypeGetMethod)),
                                    Instr(Stfld, FieldOperand(InvokeMethodField)), Op(Ret)],
                    pc, Running(Machine([SArg(0), t, SString("Invoke")], [], stores, SNull, calls, None)))
         == Running(Machine([], [], stores + [FieldStore(SArg(0), InvokeMethodField, SResult(|calls|))], SNull,
                            calls + [Invocation(TypeGetMethod, [t, SString("Invoke"), SInt(40)])], Some(None)))
  {
    var m0 := Machine([SArg(0), t, SString("Invoke")], [], stores, SNull, calls, None);
    var m1 := m0.(stack := m0.stack + [SInt(40)]);
    var m2 := m1.(stack := m1.stack[..|m1.stack| - 3] + [SResult(|m1.calls|)], calls := m1.calls + [Invocation(TypeGetMethod, m1.stack[|m1.stack| - 3..])]);
    assert m2.stack == [SArg(0), SResult(|calls|)];
    var m3 := m2.(stack := m2.stack[..|m2.stack| - 2], stores := m2.stores + [FieldStore(m2.stack[|m2.stack| - 2], InvokeMethodField, m2.stack[|m2.stack| - 1])]);
    var m4 := m3.(returned := Some(None));
    StepLoad(Instr(Ldc_I4_S, IntOperand(40)), SInt(40), pc, marks, m0);
    StepCall(Instr(Call, MethodOperand(TypeGetMethod)), TypeGetMethod, 3, pc + 1, marks, m1);
    StepStfld(InvokeMethodField, pc + 2, marks, m2);
    StepRet(pc + 3, marks, m3);
    Chunk4(StepAt(marks), Instr(Ldc_I4_S, IntOperand(40)), Instr(Call, MethodOperand(TypeGetMethod)),
           Instr(Stfld, FieldOperand(InvokeMethodField)), Op(Ret), pc,
           Running(m0), Running(m1), Running(m2), Running(m3), Running(m4));
    assert m1.stack[|m1.stack| - 3..] == [t, SString("Invoke"), SInt(40)];
  }

  /** A constructor's state after the epilogue, from the stores and calls made before it. */
  function Epilogued(isInterface: bool, stores: seq<FieldStore>, calls: seq<Invocation>): Machine {
    Machine([], [],
            stores + [FieldStore(SArg(0), ProxyObjectField, SArg(if isInterface then 1 else 0)),
                      FieldStore(SArg(0), InvokeMethodField, SResult(|calls| + 1))],
            SNull,
            calls + [Invocation(TypeFromHandle, [SToken("PureProxy.ProxyFactory")]),
                     Invocation(TypeGetMethod, [SResult(|calls|), SString("Invoke"), SInt(40)])],
            Some(None))
  }

  /** After the base call: the wrapped object and the Invoke MethodInfo are stored, and the constructor returns. */
  lemma CtorEpilogueRuns(isInterface: bool, stores: seq<FieldStore>, calls: seq<Invocation>, pc: nat, marks: map<nat, nat>)
    ensures RunWith(StepAt(marks), CtorEpilogue(isInterface), pc, Settled(stores, calls)) == Running(Epilogued(isInterface, stores, calls))
  {
    var step := StepAt(marks);
    var lookup := [Op(Ldarg_0), Instr(Ldtoken, StringOperand("PureProxy.ProxyFactory")),
                   Instr(Call, MethodOperand(TypeFromHandle)), Instr(Ldstr, StringOperand("Invoke"))];
    var store := [Instr(Ldc_I4_S, IntOperand(40)), Instr(Call, MethodOperand(TypeGetMethod)),
                  Instr(Stfld, FieldOperand(InvokeMethodField)), Op(Ret)];
    var st1 := stores + [FieldStore(SArg(0), ProxyObjectField, SArg(if isInterface then 1 else 0))];
    var c1 := calls + [Invocation(TypeFromHandle, [SToken("PureProxy.ProxyFactory")])];
    var s1 := Settled(st1, calls);
    var s2 := Running(Machine([SArg(0), SResult(|calls|), SString("Invoke")], [], st1, SNull, c1, None));
    ProxyObjectStoreRuns(isInterface, stores, calls, pc, marks);
    InvokeLookupRuns(st1, calls, pc + 5, marks);
    InvokeStoreRuns(SResult(|calls|), st1, c1, pc + 9, marks);
    Join(step, lookup, store, pc + 5, s1, s2, Running(Epilogued(isInterface, stores, calls)));
    assert InvokeMethodStore == lookup + store;
    Join(step, ProxyObjectStore(isInterface), InvokeMethodStore, pc, Settled(stores, calls), s1, Running(Epilogued(isInterface, stores, calls)));
  }

  /** What a proxy constructor has done when it returns, given the base constructor call it made. */
  function CtorEnd(isInterface: bool, baseCall: Invocation): Machine {
    Machine([], [],
            [FieldStore(SArg(0), ProxyTypeField, SResult(1)),
             FieldStore(SArg(0), ProxyObjectField, SArg(if isInterface then 1 else 0)),
             FieldStore(SArg(0), InvokeMethodField, SResult(4))],
            SNull,
            [Invocation(GetInterceptor, []), Invocation(GetTypeOf, [SResult(0)]), baseCall,
             Invocation(TypeFromHandle, [SToken("PureProxy.ProxyFactory")]),
             Invocation(TypeGetMethod, [SResult(3), SString("Invoke"), SInt(40)])],
            Some(None))
  }

  /** After the prologue and a base call, the epilogue ends the constructor in CtorEnd. */
  lemma CtorEpilogueEnds(isInterface: bool, baseCall: Invocation, pc: nat, marks: map<nat, nat>)
    ensures RunWith(StepAt(marks), CtorEpilogue(isInterface), pc, Settled([ProxyTypeStore], PrologueCalls + [baseCall]))
         == Running(CtorEnd(isInterface, baseCall))
  {
    CtorEpilogueRuns(isInterface, [ProxyTypeStore], PrologueCalls + [baseCall], pc, marks);
  }

  /** A constructor whose code up to the epilogue ends with the prologue's store and calls and one base call ends in CtorEnd. */
  lemma EpilogueAfter(isInterface: bool, head: seq<Instr>, baseCall: Invocation, pc: nat, marks: map<nat, nat>)
    requires RunWith(StepAt(marks), head, pc, Running(Start)) == Settled([ProxyTypeStore], PrologueCalls + [baseCall])
    ensures RunWith(StepAt(marks), head + CtorEpilogue(isInterface), pc, Running(Start)) == Running(CtorEnd(isInterface, baseCall))
  {
    CtorEpilogueEnds(isInterface, baseCall, pc + |head|, marks);
    Join(StepAt(marks), head, CtorEpilogue(isInterface), pc, Running(Start), Settled([ProxyTypeStore], PrologueCalls + [baseCall]),
         Running(CtorEnd(isInterface, baseCall)));
  }

  /** Up to the base call of an interface proxy: the prologue and the call to object(). */
  lemma InterfaceHeadRuns(pc: nat, marks: map<nat, nat>)
    ensures RunWith(StepAt(marks), CtorPrologue + [Instr(Call, MethodOperand(ObjectConstructor))], pc, Running(Start))
         == Settled([ProxyTypeStore], PrologueCalls + [Invocation(ObjectConstructor, [SArg(0)])])
  {
    CtorPrologueRuns(pc, marks);
    assert [SArg(0)] + [] == [SArg(0)];
    BaseCallRuns(ObjectConstructor, [], [ProxyTypeStore], PrologueCalls, pc + 5, marks);
    Join(StepAt(marks), CtorPrologue, [Instr(Call, MethodOperand(ObjectConstructor))], pc, Running(Start),
         Running(Machine([SArg(0)], [], [ProxyTypeStore], SNull, PrologueCalls, None)),
         Settled([ProxyTypeStore], PrologueCalls + [Invocation(ObjectConstructor, [SArg(0)])]));
  }

  lemma InterfaceCtorRunsAt(impl: Ty, pc: nat, marks: map<nat, nat>)
    ensures RunWith(StepAt(marks), InterfaceCtor(impl).code, pc, Running(Start))
         == Running(CtorEnd(true, Invocation(ObjectConstructor, [SArg(0)])))
  {
    var head := CtorPrologue + [Instr(Call, MethodOperand(ObjectConstructor))];
    var baseCall := Invocation(ObjectConstructor, [SArg(0)]);
    assert InterfaceCtor(impl).code == head + CtorEpilogue(true);
    InterfaceHeadRuns(pc, marks);
    CtorEpilogueEnds(true, baseCall, pc + 6, marks);
    Join(StepAt(marks), head, CtorEpilogue(true), pc, Running(Start), Settled([ProxyTypeStore], PrologueCalls + [baseCall]),
         Running(CtorEnd(true, baseCall)));
  }

  /**
   * An interface proxy's constructor stores the interceptor's runtime type, calls object(),
   * stores its argument as the wrapped object and the looked-up Invoke MethodInfo, and returns.
   */
  lemma InterfaceCtorRuns(impl: Ty)
    ensures RunFrom(InterfaceCtor(impl).code, 0, map[], Running(Start))
         == Running(CtorEnd(true, Invocation(ObjectConstructor, [SArg(0)])))
  {
    InterfaceCtorRunsAt(impl, 0, map[]);
  }

  /** The prologue, then the constructor's own arguments pushed after `this`. */
  lemma PrologueArgumentsRun(n: nat, pc: nat, marks: map<nat, nat>)
    ensures RunWith(StepAt(marks), CtorPrologue + BaseArguments(n), pc, Running(Start))
         == Running(Machine([SArg(0)] + ArgSyms(n), [], [ProxyTypeStore], SNull, PrologueCalls, None))
  {
    CtorPrologueRuns(pc, marks);
    BaseArgumentsRun(n, [SArg(0)], [ProxyTypeStore], PrologueCalls, pc + 5, marks);
    Join(StepAt(marks), CtorPrologue, BaseArguments(n), pc, Running(Start),
         Running(Machine([SArg(0)], [], [ProxyTypeStore], SNull, PrologueCalls, None)),
         Running(Machine([SArg(0)] + ArgSyms(n), [], [ProxyTypeStore], SNull, PrologueCalls, None)));
  }

  /** Up to the base call of a subclass proxy: the prologue, the arguments and the call to the base constructor. */
  lemma SubclassHeadRuns(n: nat, base: MethodRef, pc: nat, marks: map<nat, nat>)
    requires SignatureOf(base) == Some(Signature(1 + n, false))
    ensures RunWith(StepAt(marks), CtorPrologue + BaseArguments(n) + [Instr(Call, MethodOperand(base))], pc, Running(Start))
         == Settled([ProxyTypeStore], PrologueCalls + [Invocation(base, [SArg(0)] + ArgSyms(n))])
  {
    PrologueArgumentsRun(n, pc, marks);
    BaseCallRuns(base, ArgSyms(n), [ProxyTypeStore], PrologueCalls, pc + |CtorPrologue + BaseArguments(n)|, marks);
    Join(StepAt(marks), CtorPrologue + BaseArguments(n), [Instr(Call, MethodOperand(base))], pc, Running(Start),
         Running(Machine([SArg(0)] + ArgSyms(n), [], [ProxyTypeStore], SNull, PrologueCalls, None)),
         Settled([ProxyTypeStore], PrologueCalls + [Invocation(base, [SArg(0)] + ArgSyms(n))]));
  }

  /** The whole body of a subclass proxy's constructor, for `n` arguments and a base constructor taking them. */
  lemma SubclassCodeRuns(n: nat, base: MethodRef, pc: nat, marks: map<nat, nat>)
    requires SignatureOf(base) == Some(Signature(1 + n, false))
    ensures RunWith(StepAt(marks), CtorPrologue + BaseArguments(n) + [Instr(Call, MethodOperand(base))] + CtorEpilogue(false), pc, Running(Start))
         == Running(CtorEnd(false, Invocation(base, [SArg(0)] + ArgSyms(n))))
  {
    SubclassHeadRuns(n, base, pc, marks);
    EpilogueAfter(false, CtorPrologue + BaseArguments(n) + [Instr(Call, MethodOperand(base))], Invocation(base, [SArg(0)] + ArgSyms(n)), pc, marks);
  }

  lemma SubclassCtorRunsAt(params: seq<Param>, pc: nat, marks: map<nat, nat>)
    ensures RunWith(StepAt(marks), SubclassCtor(params).code, pc, Running(Start))
         == Running(CtorEnd(false, Invocation(BaseConstructor(ParamTypes(params)), [SArg(0)] + ArgSyms(|params|))))
  {
    SubclassCodeRuns(|params|, BaseConstructor(ParamTypes(params)), pc, marks);
  }

  /**
   * A subclass proxy's constructor stores the interceptor's runtime type, calls the base
   * constructor with `this` and its own arguments in order, stores `this` as the wrapped
   * object and the looked-up Invoke MethodInfo, and returns.
   */
  lemma SubclassCtorRuns(params: seq<Param>)
    ensures RunFrom(SubclassCtor(params).code, 0, map[], Running(Start))
         == Running(CtorEnd(false, Invocation(BaseConstructor(ParamTypes(params)), [SArg(0)] + ArgSyms(|params|))))
  {
    SubclassCtorRunsAt(params, 0, map[]);
  }
}
