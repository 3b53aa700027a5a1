/**
 * The type helpers of PureProxy/Extensions/TypeExtension.cs: visibility through the
 * enclosing-type chain, by-ref argument extraction, open-generic assignability, the
 * metadata-token string keys, task-shape detection and the custom-attribute rebuild.
 */
module TypeExtension {
  import opened Reflection

  // ---- IsPublic ----

  /** A type is public when it is public or nested-public and so is every type enclosing it. */
  predicate IsPublic(t: Ty)
    decreases t
  {
    (t.isPublic || t.isNestedPublic) && (t.declaringType.None? || IsPublic(t.declaringType.value))
  }

  /** The type followed by its enclosing types, innermost first. */
  function EnclosingChain(t: Ty): (r: seq<Ty>)
    decreases t
    ensures |r| >= 1 && r[0] == t
  {
    [t] + (if t.declaringType.Some? then EnclosingChain(t.declaringType.value) else [])
  }

  predicate Visible(t: Ty) { t.isPublic || t.isNestedPublic }

  predicate ChainVisible(chain: seq<Ty>) {
    forall k :: 0 <= k < |chain| ==> Visible(chain[k])
  }

  lemma {:induction false} IsPublicIffChainVisible(t: Ty)
    decreases t
    ensures IsPublic(t) <==> ChainVisible(EnclosingChain(t))
  {
    var chain := EnclosingChain(t);
    if t.declaringType.Some? {
      var outer := t.declaringType.value;
      IsPublicIffChainVisible(outer);
      var rest := EnclosingChain(outer);
      assert chain == [t] + rest;
      if IsPublic(t) {
        forall k | 0 <= k < |chain|
          ensures Visible(chain[k])
        {
          if k > 0 { assert chain[k] == rest[k - 1]; }
        }
      }
      if ChainVisible(chain) {
        forall k | 0 <= k < |rest|
          ensures Visible(rest[k])
        {
          assert chain[k + 1] == rest[k];
        }
        assert Visible(chain[0]);
      }
    } else {
      assert chain == [t];
      if ChainVisible(chain) {
        assert Visible(chain[0]);
      }
    }
  }

  // ---- GetRefElementType and HasRefArgs ----

  /** Strips one by-ref level; the identity on every other type. */
  function GetRefElementType(t: Ty): Ty {
    if IsByRef(t) then t.kind.element else t
  }

  lemma RefElementOfMakeByRef(t: Ty)
    ensures GetRefElementType(MakeByRef(t)) == t
    ensures !IsByRef(t) ==> GetRefElementType(t) == t
    ensures IsByRef(t) ==> MakeByRef(GetRefElementType(t)).kind == t.kind
  {
  }

  /** A parameter the original method can write through: by-ref and not `in`. */
  predicate WritesBack(p: Param) { IsByRef(p.ty) && !p.isIn }

  method HasRefArgs(parameters: seq<Param>) returns (hasRefArgs: bool, refArgs: array<Ty>)
    ensures refArgs.Length == |parameters|
    ensures forall k :: 0 <= k < |parameters| ==> refArgs[k] == GetRefElementType(parameters[k].ty)
    ensures hasRefArgs <==> exists k :: 0 <= k < |parameters| && WritesBack(parameters[k])
  {
    hasRefArgs := false;
    refArgs := new Ty[|parameters|];
    for i := 0 to |parameters|
      invariant forall k :: 0 <= k < i ==> refArgs[k] == GetRefElementType(parameters[k].ty)
      invariant hasRefArgs <==> exists k :: 0 <= k < i && WritesBack(parameters[k])
    {
      var parameterType := parameters[i].ty;
      if IsByRef(parameterType) {
        if !parameters[i].isIn {
          hasRefArgs := true;
        }
        refArgs[i] := parameterType.kind.element;
      } else {
        refArgs[i] := parameterType;
      }
    }
  }

  // ---- IsAssignableFromType ----

  /** `c` is among the interfaces `Type.FindInterfaces` reports for `t`, inherited ones included. */
  ghost predicate ImplementsInterface(t: Ty, c: Ty)
    decreases t
  {
    (exists k :: 0 <= k < |t.interfaces| && (t.interfaces[k] == c || ImplementsInterface(t.interfaces[k], c)))
    || (t.baseType.Some? && ImplementsInterface(t.baseType.value, c))
  }

  /**
   * IsAssignableFrom, widened to open generics: an open generic interface accepts an
   * open generic type that implements a still-open instantiation of it.
   */
  ghost predicate IsAssignableFromType(service: Ty, t: Ty) {
    AssignableFrom(service, t)
    || (IsInterface(service) && IsGenericTypeDefinition(service) && IsGenericTypeDefinition(t)
        && exists c :: ImplementsInterface(t, c) && OpenInstanceOf(c, service))
  }

  /** The FindInterfaces filter: `c` is a generic type still containing parameters, built from `service`. */
  predicate OpenInstanceOf(c: Ty, service: Ty) {
    IsGenericType(c) && ContainsGenericParameters(c) && GenericTypeDefinition(c) == service
  }

  /** A walk over `t`'s interfaces, theirs, and its base types, looking for an open instance of `service`. */
  predicate HasOpenInstance(t: Ty, service: Ty)
    decreases t
  {
    (exists k :: 0 <= k < |t.interfaces| && (OpenInstanceOf(t.interfaces[k], service) || HasOpenInstance(t.interfaces[k], service)))
    || (t.baseType.Some? && HasOpenInstance(t.baseType.value, service))
  }

  /** The walk finds an open instance exactly when FindInterfaces reports one. */
  lemma {:induction false} HasOpenInstanceIff(t: Ty, service: Ty)
    ensures HasOpenInstance(t, service) <==> exists c :: ImplementsInterface(t, c) && OpenInstanceOf(c, service)
    decreases t
  {
    if HasOpenInstance(t, service) {
      if k :| 0 <= k < |t.interfaces| && (OpenInstanceOf(t.interfaces[k], service) || HasOpenInstance(t.interfaces[k], service)) {
        if OpenInstanceOf(t.interfaces[k], service) {
          assert ImplementsInterface(t, t.interfaces[k]);
        } else {
          HasOpenInstanceIff(t.interfaces[k], service);
          var c :| ImplementsInterface(t.interfaces[k], c) && OpenInstanceOf(c, service);
          assert ImplementsInterface(t, c);
        }
      } else {
        HasOpenInstanceIff(t.baseType.value, service);
        var c :| ImplementsInterface(t.baseType.value, c) && OpenInstanceOf(c, service);
        assert ImplementsInterface(t, c);
      }
    }
    if c :| ImplementsInterface(t, c) && OpenInstanceOf(c, service) {
      if k :| 0 <= k < |t.interfaces| && (t.interfaces[k] == c || ImplementsInterface(t.interfaces[k], c)) {
        if t.interfaces[k] != c {
          HasOpenInstanceIff(t.interfaces[k], service);
        }
      } else {
        HasOpenInstanceIff(t.baseType.value, service);
      }
    }
  }

  // An open generic interface IRepository<T> and a class Repository<T> : IRepository<T>.
  const RepoParam: Ty := GenericParameter("T", 0x2A00_0010)
  const RepositoryInterface: Ty :=
    Ty("Demo.IRepository`1", 0x0200_0100, InterfaceKind, false, true, true, false, None, None, [],
       Definition(RepoParam, []), false, None)
  const RepositoryOfParam: Ty :=
    Ty("Demo.IRepository`1[T]", 0x0200_0100, InterfaceKind, false, true, true, false, None, None, [],
       Constructed(RepositoryInterface, RepoParam, []), false, None)
  const RepositoryClass: Ty :=
    Ty("Demo.Repository`1", 0x0200_0101, ClassKind, false, false, true, false, None, Some(ObjectType),
       [RepositoryOfParam], Definition(RepoParam, []), false, None)

  /** The widening matters: plain IsAssignableFrom rejects the pair, IsAssignableFromType accepts it. */
  lemma OpenGenericAssignability()
    ensures !AssignableFrom(RepositoryInterface, RepositoryClass)
    ensures IsAssignableFromType(RepositoryInterface, RepositoryClass)
  {
    assert !AssignableFrom(RepositoryInterface, ObjectType);
    assert !AssignableFrom(RepositoryInterface, RepositoryOfParam);
    assert RepositoryClass.interfaces[0] == RepositoryOfParam;
    assert ImplementsInterface(RepositoryClass, RepositoryOfParam);
  }

  /**
   * IsAssignableFromType is plain IsAssignableFrom unless both types are open generics and the
   * service an interface; then it also accepts a type whose interfaces, or whose base types'
   * interfaces, include an open instance of the service.
   */
  lemma IsAssignableFromTypeIff(service: Ty, t: Ty)
    ensures !(IsInterface(service) && IsGenericTypeDefinition(service) && IsGenericTypeDefinition(t)) ==>
      (IsAssignableFromType(service, t) <==> AssignableFrom(service, t))
    ensures IsInterface(service) && IsGenericTypeDefinition(service) && IsGenericTypeDefinition(t) ==>
      (IsAssignableFromType(service, t) <==> AssignableFrom(service, t) || HasOpenInstance(t, service))
  {
    HasOpenInstanceIff(t, service);
  }

  // ---- Metadata-token keys ----

  function Digit(d: nat): (c: char)
    requires d < 10
    ensures '0' <= c <= '9'
  {
    (('0' as int) + d) as char
  }

  /** The decimal text of a token, as string interpolation writes it. */
  function DecimalString(n: nat): (s: string)
    decreases n
    ensures |s| >= 1
    ensures forall k :: 0 <= k < |s| ==> '0' <= s[k] <= '9'
    ensures n >= 10 ==> |s| >= 2
    ensures n < 10 ==> |s| == 1
  {
    if n < 10 then [Digit(n)] else DecimalString(n / 10) + [Digit(n % 10)]
  }

  /** string.Join(sep, parts). */
  function Join(sep: string, parts: seq<string>): string
    decreases |parts|
  {
    if |parts| == 0 then ""
    else if |parts| == 1 then parts[0]
    else parts[0] + sep + Join(sep, parts[1..])
  }

  function Tokens(types: seq<Ty>): (r: seq<nat>)
    ensures |r| == |types| && forall k :: 0 <= k < |r| ==> r[k] == types[k].token
  {
    seq(|types|, k requires 0 <= k < |types| => types[k].token)
  }

  function TokenStrings(types: seq<Ty>): (r: seq<string>)
    ensures |r| == |types| && forall k :: 0 <= k < |r| ==> r[k] == DecimalString(types[k].token)
  {
    seq(|types|, k requires 0 <= k < |types| => DecimalString(types[k].token))
  }

  /** GetTypeToken: "_" and the tokens joined by "_", or empty for an empty collection. */
  function GetTypeToken(types: seq<Ty>): string {
    if |types| > 0 then "_" + Join("_", TokenStrings(types)) else ""
  }

  /** GetGenericTypeArgumentsToken: the key of the type arguments of a closed generic type, else empty. */
  function GetGenericTypeArgumentsToken(t: Ty): string {
    if IsGenericType(t) && !IsGenericTypeDefinition(t) then "_" + Join("_", TokenStrings(GenericTypeArguments(t))) else ""
  }

  lemma GenericTokenIsTypeTokenOfArguments(t: Ty)
    ensures GetGenericTypeArgumentsToken(t) == GetTypeToken(GenericTypeArguments(t))
    ensures GetGenericTypeArgumentsToken(t) != "" <==> (IsGenericType(t) && !IsGenericTypeDefinition(t))
  {
  }

  /** Each part preceded by "_". */
  function Prefixed(parts: seq<string>): (r: string)
    ensures |parts| == 0 <==> |r| == 0
    ensures |parts| > 0 ==> r[0] == '_'
  {
    if |parts| == 0 then "" else "_" + parts[0] + Prefixed(parts[1..])
  }

  lemma {:induction false} JoinIsPrefixed(parts: seq<string>)
    requires |parts| > 0
    ensures "_" + Join("_", parts) == Prefixed(parts)
    decreases |parts|
  {
    if |parts| > 1 {
      JoinIsPrefixed(parts[1..]);
      assert Prefixed(parts[1..]) == "_" + Join("_", parts[1..]);
    }
  }

  predicate IsNumeral(s: string) { |s| >= 1 && forall k :: 0 <= k < |s| ==> '0' <= s[k] <= '9' }

  /** In Prefixed(parts), the first part runs from index 1 up to the next "_" or the end. */
  lemma PrefixedHead(parts: seq<string>)
    requires |parts| > 0 && forall k :: 0 <= k < |parts| ==> IsNumeral(parts[k])
    ensures 1 + |parts[0]| <= |Prefixed(parts)|
    ensures Prefixed(parts)[1..1 + |parts[0]|] == parts[0]
    ensures Prefixed(parts)[1 + |parts[0]|..] == Prefixed(parts[1..])
    ensures forall j :: 1 <= j < 1 + |parts[0]| ==> Prefixed(parts)[j] != '_'
    ensures 1 + |parts[0]| == |Prefixed(parts)| || Prefixed(parts)[1 + |parts[0]|] == '_'
  {
    var s, head, rest := Prefixed(parts), parts[0], Prefixed(parts[1..]);
    assert s == "_" + head + rest;
    assert s[1..1 + |head|] == head;
    assert s[1 + |head|..] == rest;
    forall j | 1 <= j < 1 + |head|
      ensures s[j] != '_'
    {
      assert s[j] == head[j - 1];
      assert IsNumeral(head);
    }
    if |parts| > 1 {
      assert rest[0] == '_';
      assert s[1 + |head|] == rest[0];
    }
  }

  lemma {:induction false} PrefixedInjective(a: seq<string>, b: seq<string>)
    requires forall k :: 0 <= k < |a| ==> IsNumeral(a[k])
    requires forall k :: 0 <= k < |b| ==> IsNumeral(b[k])
    requires Prefixed(a) == Prefixed(b)
    ensures a == b
    decreases |a|
  {
    if |a| > 0 && |b| > 0 {
      PrefixedHead(a);
      PrefixedHead(b);
      assert |a[0]| == |b[0]|;
      PrefixedInjective(a[1..], b[1..]);
      assert a == [a[0]] + a[1..];
      assert b == [b[0]] + b[1..];
    }
  }

  lemma {:induction false} DecimalStringInjective(m: nat, n: nat)
    requires DecimalString(m) == DecimalString(n)
    ensures m == n
    decreases m
  {
    if m >= 10 && n >= 10 {
      var sm, sn := DecimalString(m), DecimalString(n);
      assert sm == DecimalString(m / 10) + [Digit(m % 10)];
      assert sn == DecimalString(n / 10) + [Digit(n % 10)];
      assert sm[|sm| - 1] == Digit(m % 10) && sn[|sn| - 1] == Digit(n % 10);
      assert DecimalString(m / 10) == sm[..|sm| - 1] == sn[..|sn| - 1] == DecimalString(n / 10);
      DecimalStringInjective(m / 10, n / 10);
    } else if m < 10 && n < 10 {
      assert DecimalString(m)[0] == Digit(m) && DecimalString(n)[0] == Digit(n);
    }
  }

  /** A type-token key determines the token list it was built from: distinct lists give distinct keys. */
  lemma TypeTokenInjective(a: seq<Ty>, b: seq<Ty>)
    requires GetTypeToken(a) == GetTypeToken(b)
    ensures Tokens(a) == Tokens(b)
  {
    if |a| > 0 && |b| > 0 {
      JoinIsPrefixed(TokenStrings(a));
      JoinIsPrefixed(TokenStrings(b));
      PrefixedInjective(TokenStrings(a), TokenStrings(b));
      forall k | 0 <= k < |a|
        ensures a[k].token == b[k].token
      {
        assert TokenStrings(a)[k] == TokenStrings(b)[k];
        DecimalStringInjective(a[k].token, b[k].token);
      }
    }
  }

  // ---- GetTaskGenericType ----

  datatype TaskShape = TaskShape(resultType: Option<Ty>, taskType: Option<Ty>)

  /** Task and ValueTask themselves, or a constructed Task<T> or ValueTask<T>. */
  predicate IsTaskLike(t: Ty) {
    t == TaskType || t == ValueTaskType
    || (IsGenericType(t) && (GenericTypeDefinition(t) == TaskDefinition || GenericTypeDefinition(t) == ValueTaskDefinition))
  }

  /** What a task-like type yields: no result and itself, or its result type and its generic definition. */
  function ShapeAt(t: Ty): TaskShape
    requires IsTaskLike(t)
  {
    if t == TaskType || t == ValueTaskType then TaskShape(None, Some(t))
    else TaskShape(Some(GenericArguments(t)[0]), Some(GenericTypeDefinition(t)))
  }

  /** The specification of GetTaskGenericType: the shape of the first task-like type up the base chain. */
  function TaskShapeOf(t: Option<Ty>): TaskShape
    decreases t
  {
    if t.None? then TaskShape(None, None)
    else if IsTaskLike(t.value) then ShapeAt(t.value)
    else TaskShapeOf(t.value.baseType)
  }

  /** The type and its base types, nearest first. */
  function BaseChain(t: Option<Ty>): seq<Ty>
    decreases t
  {
    if t.None? then [] else [t.value] + BaseChain(t.value.baseType)
  }

  predicate NoTaskLike(chain: seq<Ty>) {
    forall k :: 0 <= k < |chain| ==> !IsTaskLike(chain[k])
  }

  /** Index `k` holds the first task-like type of `chain`. */
  predicate FirstTaskLikeAt(chain: seq<Ty>, k: int) {
    0 <= k < |chain| && IsTaskLike(chain[k]) && forall j :: 0 <= j < k ==> !IsTaskLike(chain[j])
  }

  lemma {:induction false} TaskShapeIsFirstTaskLike(t: Option<Ty>)
    decreases t
    ensures TaskShapeOf(t).taskType.None? <==> NoTaskLike(BaseChain(t))
    ensures TaskShapeOf(t).taskType.None? ==> TaskShapeOf(t).resultType.None?
    ensures TaskShapeOf(t).taskType.Some? ==>
      exists k :: FirstTaskLikeAt(BaseChain(t), k) && TaskShapeOf(t) == ShapeAt(BaseChain(t)[k])
  {
    if t.Some? {
      var chain := BaseChain(t);
      var rest := BaseChain(t.value.baseType);
      assert chain == [t.value] + rest;
      if IsTaskLike(t.value) {
        assert FirstTaskLikeAt(chain, 0);
      } else {
        TaskShapeIsFirstTaskLike(t.value.baseType);
        assert TaskShapeOf(t) == TaskShapeOf(t.value.baseType);
        if TaskShapeOf(t).taskType.Some? {
          var k :| FirstTaskLikeAt(rest, k) && TaskShapeOf(t.value.baseType) == ShapeAt(rest[k]);
          assert chain[k + 1] == rest[k];
          forall j | 0 <= j < k + 1 ensures !IsTaskLike(chain[j]) {
            if j > 0 { assert chain[j] == rest[j - 1]; }
          }
          assert FirstTaskLikeAt(chain, k + 1);
        } else {
          forall k | 0 <= k < |chain| ensures !IsTaskLike(chain[k]) {
            if k > 0 { assert chain[k] == rest[k - 1]; }
          }
        }
      }
    }
  }

  lemma TaskShapesOfTasks(t: Ty)
    ensures TaskShapeOf(Some(TaskType)) == TaskShape(None, Some(TaskType))
    ensures TaskShapeOf(Some(ValueTaskType)) == TaskShape(None, Some(ValueTaskType))
    ensures TaskShapeOf(Some(TaskOf(t))) == TaskShape(Some(t), Some(TaskDefinition))
    ensures TaskShapeOf(Some(ValueTaskOf(t))) == TaskShape(Some(t), Some(ValueTaskDefinition))
  {
  }

  method GetTaskGenericType(t: Option<Ty>) returns (r: Option<Ty>, taskType: Option<Ty>)
    ensures TaskShape(r, taskType) == TaskShapeOf(t)
  {
    var current := t;
    taskType := None;
    while current.Some?
      invariant TaskShapeOf(current) == TaskShapeOf(t)
      decreases current
    {
      var ty := current.value;
      if ty == TaskType || ty == ValueTaskType {
        taskType := Some(ty);
        return None, taskType;
      } else if IsGenericType(ty) {
        taskType := Some(GenericTypeDefinition(ty));
        if taskType.value == TaskDefinition || taskType.value == ValueTaskDefinition {
          return Some(GenericArguments(ty)[0]), taskType;
        }
      }
      current := ty.baseType;
    }
    r, taskType := None, None;
  }

  // ---- GetCustomAttributeBuilder ----

  datatype NamedArgument = NamedArgument(isField: bool, member: string, value: Value)

  datatype CustomAttributeData = CustomAttributeData(
    ctor: string,
    constructorArguments: seq<Value>,
    namedArguments: seq<NamedArgument>)

  datatype CustomAttributeBuilder = CustomAttributeBuilder(
    ctor: string,
    constructorArgs: seq<Value>,
    properties: seq<string>,
    propertyValues: seq<Value>,
    fields: seq<string>,
    fieldValues: seq<Value>)

  /** The named arguments that are fields (`fields`) or properties (`!fields`), in their original order. */
  function Select(named: seq<NamedArgument>, fields: bool): seq<NamedArgument>
    decreases |named|
  {
    if |named| == 0 then []
    else Select(named[..|named| - 1], fields)
         + (if named[|named| - 1].isField == fields then [named[|named| - 1]] else [])
  }

  function Members(s: seq<NamedArgument>): (r: seq<string>)
    ensures |r| == |s| && forall k :: 0 <= k < |s| ==> r[k] == s[k].member
  {
    seq(|s|, k requires 0 <= k < |s| => s[k].member)
  }

  function Values(s: seq<NamedArgument>): (r: seq<Value>)
    ensures |r| == |s| && forall k :: 0 <= k < |s| ==> r[k] == s[k].value
  {
    seq(|s|, k requires 0 <= k < |s| => s[k].value)
  }

  lemma {:induction false} SelectAppend(a: seq<NamedArgument>, b: seq<NamedArgument>, fields: bool)
    ensures Select(a + b, fields) == Select(a, fields) + Select(b, fields)
    decreases |b|
  {
    if |b| > 0 {
      var b' := b[..|b| - 1];
      assert (a + b)[..|a + b| - 1] == a + b';
      SelectAppend(a, b', fields);
    } else {
      assert a + b == a;
    }
  }

  /** The two selections split the named arguments: nothing lost, nothing duplicated, kinds respected. */
  lemma {:induction false} SelectPartitions(named: seq<NamedArgument>)
    ensures |Select(named, true)| + |Select(named, false)| == |named|
    ensures multiset(Select(named, true)) + multiset(Select(named, false)) == multiset(named)
    ensures forall a :: a in Select(named, true) ==> a in named && a.isField
    ensures forall a :: a in Select(named, false) ==> a in named && !a.isField
    decreases |named|
  {
    if |named| > 0 {
      var init := named[..|named| - 1];
      var last := named[|named| - 1];
      SelectPartitions(init);
      assert named == init + [last];
    }
  }

  method GetCustomAttributeBuilder(customAttribute: CustomAttributeData) returns (b: CustomAttributeBuilder)
    ensures b.ctor == customAttribute.ctor
    ensures b.constructorArgs == customAttribute.constructorArguments
    ensures b.fields == Members(Select(customAttribute.namedArguments, true))
    ensures b.fieldValues == Values(Select(customAttribute.namedArguments, true))
    ensures b.properties == Members(Select(customAttribute.namedArguments, false))
    ensures b.propertyValues == Values(Select(customAttribute.namedArguments, false))
    ensures |b.fields| == |b.fieldValues| && |b.properties| == |b.propertyValues|
    ensures forall k :: 0 <= k < |b.fields| ==> NamedArgument(true, b.fields[k], b.fieldValues[k]) in customAttribute.namedArguments
    ensures forall k :: 0 <= k < |b.properties| ==> NamedArgument(false, b.properties[k], b.propertyValues[k]) in customAttribute.namedArguments
  {
    var named := customAttribute.namedArguments;
    var fieldTypes, fieldValues, propTypes, propValues := [], [], [], [];
    for i := 0 to |named|
      invariant fieldTypes == Members(Select(named[..i], true)) && fieldValues == Values(Select(named[..i], true))
      invariant propTypes == Members(Select(named[..i], false)) && propValues == Values(Select(named[..i], false))
    {
      var item := named[i];
      assert named[..i + 1][..i] == named[..i];
      if item.isField {
        fieldTypes := fieldTypes + [item.member];
        fieldValues := fieldValues + [item.value];
      } else {
        propTypes := propTypes + [item.member];
        propValues := propValues + [item.value];
      }
    }
    assert named[..|named|] == named;
    b := CustomAttributeBuilder(customAttribute.ctor, customAttribute.constructorArguments,
                                propTypes, propValues, fieldTypes, fieldValues);
    SelectPartitions(named);
    forall k | 0 <= k < |b.fields|
      ensures NamedArgument(true, b.fields[k], b.fieldValues[k]) in named
    {
      var s := Select(named, true);
      assert s[k] in s;
    }
    forall k | 0 <= k < |b.properties|
      ensures NamedArgument(false, b.properties[k], b.propertyValues[k]) in named
    {
      var s := Select(named, false);
      assert s[k] in s;
    }
  }
}
