/**
 * PureProxy/Extensions/InterceptorExtension.cs: the eight awaiter helper slots
 * (AM, ARM, VAM, VARM, AIM, AIRM, VAIM, VAIRM), the static constructor that
 * fills them by scanning the class's public static methods, and the
 * interceptor-running helpers whose task completes with the packet's Result.
 */
module InterceptorExtension {
  import opened Reflection
  import opened Arguments
  import opened Interceptors

  datatype Slot = AM | ARM | VAM | VARM | AIM | AIRM | VAIM | VAIRM

  /** A public static method of InterceptorExtension, as GetMethods reports it. */
  datatype HelperDecl = HelperDecl(name: string, returnType: Ty, parameterTypes: seq<Ty>)

  const HelperT: Ty := GenericParameter("T", 0x2A00_0100)
  const MethodInfoType: Ty := SystemType("System.Reflection.MethodInfo", 0x0200_0030, ClassKind, false, Some(ObjectType))
  const IInterceptorType: Ty :=
    Ty("PureProxy.IInterceptor", 0x0200_0040, InterfaceKind, false, true, true, false, None, None, [], NonGeneric, false, None)
  const IArgumentsType: Ty :=
    Ty("PureProxy.IArguments", 0x0200_0041, InterfaceKind, false, true, true, false, None, None, [], NonGeneric, false, None)

  // The eight helper overloads, in declaration order.
  const AwaiterOfTask: HelperDecl := HelperDecl("Awaiter", VoidType, [TaskType])
  const AwaiterOfTaskOfT: HelperDecl := HelperDecl("Awaiter", HelperT, [TaskOf(HelperT)])
  const ValueTaskAwaiterOfValueTask: HelperDecl := HelperDecl("ValueTaskAwaiter", VoidType, [ValueTaskType])
  const ValueTaskAwaiterOfValueTaskOfT: HelperDecl := HelperDecl("ValueTaskAwaiter", HelperT, [ValueTaskOf(HelperT)])
  const AwaiterRunning: HelperDecl := HelperDecl("Awaiter", TaskType, [IInterceptorType, IArgumentsType])
  const AwaiterRunningOfT: HelperDecl := HelperDecl("Awaiter", TaskOf(HelperT), [IInterceptorType, IArgumentsType])
  const ValueTaskAwaiterRunning: HelperDecl := HelperDecl("ValueTaskAwaiter", ValueTaskType, [IInterceptorType, IArgumentsType])
  const ValueTaskAwaiterRunningOfT: HelperDecl :=
    HelperDecl("ValueTaskAwaiter", ValueTaskOf(HelperT), [IInterceptorType, IArgumentsType])

  function Getter(name: string): HelperDecl { HelperDecl("get_" + name, MethodInfoType, []) }

  /** What GetMethods(Public | Static) returns: the eight property getters and the eight helpers. */
  const Declared: seq<HelperDecl> := [
    Getter("AM"), Getter("ARM"), Getter("VAM"), Getter("VARM"),
    Getter("AIM"), Getter("AIRM"), Getter("VAIM"), Getter("VAIRM"),
    AwaiterOfTask, AwaiterOfTaskOfT, ValueTaskAwaiterOfValueTask, ValueTaskAwaiterOfValueTaskOfT,
    AwaiterRunning, AwaiterRunningOfT, ValueTaskAwaiterRunning, ValueTaskAwaiterRunningOfT
  ]

  /** The slot one method is assigned to, by name and return-type shape, if any. */
  function SlotOf(m: HelperDecl): Option<Slot> {
    if m.name == "Awaiter" then
      if m.returnType == VoidType then Some(AM)
      else if IsGenericParameter(m.returnType) then Some(ARM)
      else if m.returnType == TaskType then Some(AIM)
      else if IsGenericType(m.returnType) then Some(AIRM)
      else None
    else if m.name == "ValueTaskAwaiter" then
      if m.returnType == VoidType then Some(VAM)
      else if IsGenericParameter(m.returnType) then Some(VARM)
      else if m.returnType == ValueTaskType then Some(VAIM)
      else if IsGenericType(m.returnType) then Some(VAIRM)
      else None
    else None
  }

  /** The slot table after scanning `methods` in order: a later method overwrites an earlier one. */
  function Slots(methods: seq<HelperDecl>): map<Slot, HelperDecl>
    decreases |methods|
  {
    if |methods| == 0 then map[]
    else
      var before := Slots(methods[..|methods| - 1]);
      var m := methods[|methods| - 1];
      if SlotOf(m).Some? then before[SlotOf(m).value := m] else before
  }

  /** `k` is the last index of `methods` assigned to slot `s`. */
  predicate LastFor(methods: seq<HelperDecl>, s: Slot, k: int) {
    0 <= k < |methods| && SlotOf(methods[k]) == Some(s)
    && forall j :: k < j < |methods| ==> SlotOf(methods[j]) != Some(s)
  }

  /** Some method of `methods` belongs to slot `s`. */
  predicate Claimed(methods: seq<HelperDecl>, s: Slot) {
    exists k :: 0 <= k < |methods| && SlotOf(methods[k]) == Some(s)
  }

  /** A slot is filled iff some method belongs to it. */
  lemma {:induction false} SlotFilledIffClaimed(methods: seq<HelperDecl>, s: Slot)
    decreases |methods|
    ensures s in Slots(methods) <==> Claimed(methods, s)
  {
    if |methods| > 0 {
      var init := methods[..|methods| - 1];
      var m := methods[|methods| - 1];
      SlotFilledIffClaimed(init, s);
      if Claimed(init, s) {
        var k :| 0 <= k < |init| && SlotOf(init[k]) == Some(s);
        assert methods[k] == init[k];
      }
      if Claimed(methods, s) && SlotOf(m) != Some(s) {
        var k :| 0 <= k < |methods| && SlotOf(methods[k]) == Some(s);
        assert init[k] == methods[k];
      }
    }
  }

  /** A filled slot holds the last method that belongs to it. */
  lemma {:induction false} SlotHoldsLastMatch(methods: seq<HelperDecl>, s: Slot)
    requires s in Slots(methods)
    decreases |methods|
    ensures exists k :: LastFor(methods, s, k) && Slots(methods)[s] == methods[k]
  {
    var init := methods[..|methods| - 1];
    var m := methods[|methods| - 1];
    if SlotOf(m) == Some(s) {
      assert LastFor(methods, s, |methods| - 1);
    } else {
      assert s in Slots(init) && Slots(methods)[s] == Slots(init)[s];
      SlotHoldsLastMatch(init, s);
      var k :| LastFor(init, s, k) && Slots(init)[s] == init[k];
      assert methods[k] == init[k];
      forall j | k < j < |methods|
        ensures SlotOf(methods[j]) != Some(s)
      {
        if j < |init| {
          assert methods[j] == init[j];
        }
      }
      assert LastFor(methods, s, k);
    }
  }

  /** The static constructor: scan the public static methods and fill the slots. */
  method Classify(methods: seq<HelperDecl>) returns (slots: map<Slot, HelperDecl>)
    ensures slots == Slots(methods)
  {
    slots := map[];
    for i := 0 to |methods|
      invariant slots == Slots(methods[..i])
    {
      var item := methods[i];
      assert methods[..i + 1][..i] == methods[..i];
      if item.name == "Awaiter" {
        if item.returnType == VoidType {
          slots := slots[AM := item];
        } else if IsGenericParameter(item.returnType) {
          slots := slots[ARM := item];
        } else if item.returnType == TaskType {
          slots := slots[AIM := item];
        } else if IsGenericType(item.returnType) {
          slots := slots[AIRM := item];
        }
      } else if item.name == "ValueTaskAwaiter" {
        if item.returnType == VoidType {
          slots := slots[VAM := item];
        } else if IsGenericParameter(item.returnType) {
          slots := slots[VARM := item];
        } else if item.returnType == ValueTaskType {
          slots := slots[VAIM := item];
        } else if IsGenericType(item.returnType) {
          slots := slots[VAIRM := item];
        }
      }
    }
    assert methods[..|methods|] == methods;
  }

  /** The overload each slot is meant to hold. */
  function Intended(s: Slot): HelperDecl {
    match s
    case AM => AwaiterOfTask
    case ARM => AwaiterOfTaskOfT
    case VAM => ValueTaskAwaiterOfValueTask
    case VARM => ValueTaskAwaiterOfValueTaskOfT
    case AIM => AwaiterRunning
    case AIRM => AwaiterRunningOfT
    case VAIM => ValueTaskAwaiterRunning
    case VAIRM => ValueTaskAwaiterRunningOfT
  }

  lemma GetterHasNoSlot(name: string)
    ensures SlotOf(Getter(name)) == None
  {
    assert Getter(name).name[0] == 'g';
    assert "Awaiter"[0] == 'A' && "ValueTaskAwaiter"[0] == 'V';
  }

  lemma ReturnShapes()
    ensures VoidType != HelperT && IsGenericParameter(HelperT)
    ensures !IsGenericParameter(TaskType) && TaskType != VoidType
    ensures !IsGenericParameter(ValueTaskType) && ValueTaskType != VoidType
    ensures TaskOf(HelperT) != VoidType && !IsGenericParameter(TaskOf(HelperT)) && TaskOf(HelperT) != TaskType
    ensures ValueTaskOf(HelperT) != VoidType && !IsGenericParameter(ValueTaskOf(HelperT)) && ValueTaskOf(HelperT) != ValueTaskType
  {
  }

  lemma IntendedSlot(s: Slot)
    ensures SlotOf(Intended(s)) == Some(s)
  {
    ReturnShapes();
    assert |"ValueTaskAwaiter"| != |"Awaiter"|;
  }

  /** The eight property getters belong to no slot. */
  lemma GettersHaveNoSlot()
    ensures forall k :: 0 <= k < 8 ==> SlotOf(Declared[k]) == None
  {
    GetterHasNoSlot("AM"); GetterHasNoSlot("ARM"); GetterHasNoSlot("VAM"); GetterHasNoSlot("VARM");
    GetterHasNoSlot("AIM"); GetterHasNoSlot("AIRM"); GetterHasNoSlot("VAIM"); GetterHasNoSlot("VAIRM");
  }

  /** The last eight declared methods are the intended overloads, one per slot. */
  lemma HelpersAreIntended()
    ensures forall s :: SlotOf(Intended(s)) == Some(s)
    ensures Declared[8..] == [Intended(AM), Intended(ARM), Intended(VAM), Intended(VARM),
                              Intended(AIM), Intended(AIRM), Intended(VAIM), Intended(VAIRM)]
  {
    forall s ensures SlotOf(Intended(s)) == Some(s) { IntendedSlot(s); }
  }

  /** Among the declared methods, exactly one belongs to each slot: the intended overload. */
  lemma DeclaredSlotsAreUnique()
    ensures forall k :: 0 <= k < |Declared| && SlotOf(Declared[k]).Some? ==> Declared[k] == Intended(SlotOf(Declared[k]).value)
    ensures forall s :: Intended(s) in Declared && SlotOf(Intended(s)) == Some(s)
  {
    GettersHaveNoSlot();
    HelpersAreIntended();
    forall k | 8 <= k < |Declared|
      ensures Declared[k] == Intended(SlotOf(Declared[k]).value)
    {
      assert Declared[k] == Declared[8..][k - 8];
    }
    forall s
      ensures Intended(s) in Declared
    {
      assert Intended(s) in Declared[8..];
    }
  }

  /** Slot `s` ends up with its intended overload whatever the order of the methods. */
  lemma SlotIgnoresOrder(methods: seq<HelperDecl>, s: Slot)
    requires multiset(methods) == multiset(Declared)
    requires forall k :: 0 <= k < |Declared| && SlotOf(Declared[k]).Some? ==> Declared[k] == Intended(SlotOf(Declared[k]).value)
    requires Intended(s) in Declared && SlotOf(Intended(s)) == Some(s)
    ensures s in Slots(methods) && Slots(methods)[s] == Intended(s)
  {
    assert Intended(s) in multiset(methods);
    var i :| 0 <= i < |methods| && methods[i] == Intended(s);
    SlotFilledIffClaimed(methods, s);
    SlotHoldsLastMatch(methods, s);
    var k :| LastFor(methods, s, k) && Slots(methods)[s] == methods[k];
    assert methods[k] in multiset(Declared);
    var j :| 0 <= j < |Declared| && Declared[j] == methods[k];
  }

  /** Whatever order GetMethods reports the methods in, every slot ends up with its intended overload. */
  lemma SlotsIgnoreOrder(methods: seq<HelperDecl>)
    requires multiset(methods) == multiset(Declared)
    ensures forall s :: s in Slots(methods) && Slots(methods)[s] == Intended(s)
  {
    DeclaredSlotsAreUnique();
    forall s
      ensures s in Slots(methods) && Slots(methods)[s] == Intended(s)
    {
      SlotIgnoresOrder(methods, s);
    }
  }

  /** A method with any other name never reaches a slot, wherever it appears. */
  lemma {:induction false} OtherNamesIgnored(a: seq<HelperDecl>, m: HelperDecl, b: seq<HelperDecl>)
    requires m.name != "Awaiter" && m.name != "ValueTaskAwaiter"
    decreases |b|
    ensures Slots(a + [m] + b) == Slots(a + b)
  {
    if |b| == 0 {
      assert (a + [m])[..|a + [m]| - 1] == a;
      assert a + [m] + b == a + [m] && a + b == a;
    } else {
      var b' := b[..|b| - 1];
      OtherNamesIgnored(a, m, b');
      assert (a + [m] + b)[..|a + [m] + b| - 1] == a + [m] + b';
      assert (a + b)[..|a + b| - 1] == a + b';
      assert (a + [m] + b)[|a + [m] + b| - 1] == b[|b| - 1] == (a + b)[|a + b| - 1];
    }
  }

  /** The instantiated first parameter type of a generic helper (T := typeArgument). */
  function Instantiate(t: Ty, typeArgument: Ty): Ty {
    if t == HelperT then typeArgument
    else if t == TaskOf(HelperT) then TaskOf(typeArgument)
    else if t == ValueTaskOf(HelperT) then ValueTaskOf(typeArgument)
    else t
  }

  // ---- The helpers that run an interceptor ----

  /**
   * Awaiter(interceptor, arguments) and ValueTaskAwaiter(interceptor, arguments): a Task, or a
   * ValueTask over one, that completes once the interceptor ran.
   */
  method AwaiterRunningInterceptor(interceptor: InterceptorRef, arguments: Packet, valueTask: bool) returns (task: Value)
    requires arguments.Valid()
    modifies arguments.Frame(), arguments.ArgumentsArray()
    ensures arguments.View() == Effect(interceptor, old(arguments.View()))
    ensures task == TaskValue(if valueTask then ValueTaskType else TaskType, Success(None))
  {
    Run(interceptor, arguments);
    task := TaskValue(if valueTask then ValueTaskType else TaskType, Success(None));
  }

  /** What the task's body ends with, `(T)arguments.Result`: the cast value, or the fault the cast throws. */
  function AwaitedOutcome(typeArgument: Ty, result: Value): Result<Option<Value>> {
    match Cast(typeArgument, result)
    case Success(v) => Success(Some(v))
    case Failure(e) => Failure(e)
  }

  /**
   * The task completes with Result exactly when Result fits T; otherwise it faults, with
   * NullReferenceException for a null Result and a value-type T, and InvalidCastException for any other misfit.
   */
  lemma AwaitedOutcomeContract(typeArgument: Ty, result: Value)
    ensures AwaitedOutcome(typeArgument, result).Success? <==> Fits(typeArgument, result)
    ensures Fits(typeArgument, result) ==> AwaitedOutcome(typeArgument, result) == Success(Some(result))
    ensures AwaitedOutcome(typeArgument, result) == Failure(NullReference) <==> result == Null && IsValueType(typeArgument)
    ensures AwaitedOutcome(typeArgument, result) == Failure(InvalidCast) <==> result != Null && !Fits(typeArgument, result)
  {
    CastContract(typeArgument, result);
  }

  /**
   * Awaiter<T>(interceptor, arguments) and ValueTaskAwaiter<T>: a Task<T>, or a ValueTask<T> over
   * one, whose body runs the interceptor and then casts Result, as read afterwards, to T.
   */
  method AwaiterRunningInterceptorOfT(interceptor: InterceptorRef, arguments: Packet, typeArgument: Ty, valueTask: bool)
    returns (task: Value)
    requires arguments.Valid()
    modifies arguments.Frame(), arguments.ArgumentsArray()
    ensures arguments.View() == Effect(interceptor, old(arguments.View()))
    ensures task == TaskValue(if valueTask then ValueTaskOf(typeArgument) else TaskOf(typeArgument),
                              AwaitedOutcome(typeArgument, Effect(interceptor, old(arguments.View())).result))
  {
    Run(interceptor, arguments);
    var outcome: Result<Option<Value>>;
    var cast := Cast(typeArgument, arguments.Result());
    if cast.Success? {
      outcome := Success(Some(cast.value));
    } else {
      outcome := Failure(cast.error);
    }
    task := TaskValue(if valueTask then ValueTaskOf(typeArgument) else TaskOf(typeArgument), outcome);
  }
}
