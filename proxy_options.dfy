/**
 * Service registration (PureProxy/Options/ProxyOptions.cs). `Add` validates a
 * service/implementation pair in its own order, which differs from the factory's,
 * and then registers on the static service collection either the plain
 * implementation (IgnoreProxy) or the type the factory generates. The collection
 * is modelled by the sequence of TryAdd/Replace calls made on it; what the
 * dependency-injection container does with them is not part of this model.
 */
module Options {
  import opened Reflection
  import opened ProxyGeneration

  datatype Lifetime = Singleton | Scoped | Transient

  /** ServiceDescriptor.Describe(serviceType, implementationType, lifetime). */
  datatype ServiceDescriptor = Describe(serviceType: Ty, implementation: Generated, lifetime: Lifetime)

  /** The two collection operations `Add` uses. */
  datatype ServiceCall = TryAdd(descriptor: ServiceDescriptor) | Replace(descriptor: ServiceDescriptor)

  /** Add's checks in source order; `Bypass` is the IgnoreProxy early return. */
  function AddCheck(service: Option<Ty>, impl: Option<Ty>): Verdict {
    if service.None? then Reject(ArgumentNull("serviceType"))
    else if impl.None? then Reject(ArgumentNull("implementationType"))
    else if impl.value.ignoreProxy then Bypass
    else if !AssignableFrom(service.value, impl.value) then Reject(Argument(NotAssignable))
    else if !IsInterface(service.value) && service.value.isSealed then Reject(Argument(ServiceSealed))
    else if !IsInterface(service.value) && service.value.isAbstract then Reject(Argument(ServiceAbstract))
    else if impl.value.isSealed then Reject(Argument(ImplementationSealed))
    else if impl.value.isAbstract then Reject(Argument(ImplementationAbstract))
    else Proceed
  }

  /** The calls `Add` makes before asking the factory: a self-registration of the implementation for an interface service. */
  function Preregistration(calls: seq<ServiceCall>, service: Ty, impl: Ty, lifetime: Lifetime): seq<ServiceCall> {
    if IsInterface(service) then calls + [TryAdd(Describe(impl, Unproxied(impl), lifetime))] else calls
  }

  /** Add's exception, the collection's calls and the factory's type table afterwards. */
  function AddEffect(calls: seq<ServiceCall>, types: map<string, ProxyType>, interceptorSet: bool,
                     service: Option<TypeInfo>, impl: Option<TypeInfo>, lifetime: Lifetime)
    : (Option<Exception>, seq<ServiceCall>, map<string, ProxyType>)
  {
    match AddCheck(TyOf(service), TyOf(impl))
    case Reject(e) => (Some(e), calls, types)
    case Bypass => (None, calls + [TryAdd(Describe(service.value.ty, Unproxied(impl.value.ty), lifetime))], types)
    case Proceed =>
      var before := Preregistration(calls, service.value.ty, impl.value.ty, lifetime);
      var (r, after) := Generate(types, interceptorSet, service, impl);
      if r.Failure? then (Some(r.error), before, after)
      else (None, before + [Replace(Describe(service.value.ty, r.value, lifetime))], after)
  }

  // ---- Properties of Add ----

  /** The two null checks come first, service before implementation. */
  lemma AddRejectsNullsFirst(service: Option<Ty>, impl: Option<Ty>)
    ensures AddCheck(service, impl) == Reject(ArgumentNull("serviceType")) <==> service.None?
    ensures AddCheck(service, impl) == Reject(ArgumentNull("implementationType")) <==> service.Some? && impl.None?
  {
    ParamNamesDiffer();
  }

  /**
   * An IgnoreProxy implementation is registered as it is with one TryAdd, whatever
   * else is true of the pair: no other check runs and the factory is not consulted.
   */
  lemma AddBypass(calls: seq<ServiceCall>, types: map<string, ProxyType>, interceptorSet: bool,
                  service: TypeInfo, impl: TypeInfo, lifetime: Lifetime)
    requires impl.ty.ignoreProxy
    ensures AddCheck(Some(service.ty), Some(impl.ty)) == Bypass
    ensures AddEffect(calls, types, interceptorSet, Some(service), Some(impl), lifetime)
         == (None, calls + [TryAdd(Describe(service.ty, Unproxied(impl.ty), lifetime))], types)
  {
  }

  /**
   * The ArgumentExceptions, each exactly when the earlier checks passed and its own
   * condition holds: assignability, then (for a class service) sealed and abstract
   * service, then sealed and abstract implementation.
   */
  lemma AddArgumentOrder(service: Ty, impl: Ty)
    ensures AddCheck(Some(service), Some(impl)) == Reject(Argument(NotAssignable))
      <==> !impl.ignoreProxy && !AssignableFrom(service, impl)
    ensures AddCheck(Some(service), Some(impl)) == Reject(Argument(ServiceSealed))
      <==> !impl.ignoreProxy && AssignableFrom(service, impl) && !IsInterface(service) && service.isSealed
    ensures AddCheck(Some(service), Some(impl)) == Reject(Argument(ServiceAbstract))
      <==> !impl.ignoreProxy && AssignableFrom(service, impl) && !IsInterface(service) && !service.isSealed && service.isAbstract
    ensures AddCheck(Some(service), Some(impl)) == Reject(Argument(ImplementationSealed))
      <==> !impl.ignoreProxy && AssignableFrom(service, impl)
           && (IsInterface(service) || (!service.isSealed && !service.isAbstract)) && impl.isSealed
    ensures AddCheck(Some(service), Some(impl)) == Reject(Argument(ImplementationAbstract))
      <==> !impl.ignoreProxy && AssignableFrom(service, impl)
           && (IsInterface(service) || (!service.isSealed && !service.isAbstract)) && !impl.isSealed && impl.isAbstract
  {
  }

  /** Add proceeds to the factory exactly for a non-ignored, assignable pair of concrete, unsealed types (the service may be an interface). */
  lemma AddProceedIff(service: Option<Ty>, impl: Option<Ty>)
    ensures AddCheck(service, impl) == Proceed <==>
      && service.Some? && impl.Some? && !impl.value.ignoreProxy && AssignableFrom(service.value, impl.value)
      && (IsInterface(service.value) || (!service.value.isSealed && !service.value.isAbstract))
      && !impl.value.isSealed && !impl.value.isAbstract
  {
  }

  /**
   * Once Add's checks pass, the factory's own checks find nothing more to object to
   * except a missing global interceptor.
   */
  lemma AddLeavesOnlyInterceptorCheck(service: Option<Ty>, impl: Option<Ty>, interceptorSet: bool)
    requires AddCheck(service, impl) == Proceed
    ensures Check(service, impl, interceptorSet) == (if interceptorSet then Proceed else Reject(ArgumentNull("Interceptor")))
  {
  }

  /**
   * Unlike the factory, Add reaches its sealed-service check: registering a sealed
   * class as itself is reported against the service, where the factory reports it
   * against the implementation.
   */
  lemma SealedSelfRegistration(t: Ty, interceptorSet: bool)
    requires !IsInterface(t) && t.isSealed && !t.ignoreProxy
    ensures AddCheck(Some(t), Some(t)) == Reject(Argument(ServiceSealed))
    ensures Check(Some(t), Some(t), interceptorSet) == Reject(Argument(ImplementationSealed))
  {
  }

  /**
   * The single-type forms register `t` as itself: that proceeds exactly for a
   * non-ignored, unsealed, non-abstract `t`, so an interface (which is abstract)
   * is always rejected, against the implementation, never the service.
   */
  lemma SelfRegistration(t: Ty)
    ensures AddCheck(Some(t), Some(t)) == Proceed <==> !t.ignoreProxy && !t.isSealed && !t.isAbstract
    ensures AddCheck(Some(t), Some(t)) != Reject(Argument(NotAssignable))
    ensures IsInterface(t) && t.isAbstract && !t.ignoreProxy ==>
      AddCheck(Some(t), Some(t)) == Reject(Argument(if t.isSealed then ImplementationSealed else ImplementationAbstract))
  {
  }

  /**
   * What a registration that passed the checks leaves behind. An interface service
   * first gets its implementation self-registered, and that TryAdd stays even when
   * the factory then fails for want of an interceptor; with one set, the last call
   * replaces the service's registration with the proxy stored under its name.
   */
  lemma AddRegisters(calls: seq<ServiceCall>, types: map<string, ProxyType>, interceptorSet: bool,
                     service: TypeInfo, impl: TypeInfo, lifetime: Lifetime)
    requires AddCheck(Some(service.ty), Some(impl.ty)) == Proceed
    ensures var (error, after, table) := AddEffect(calls, types, interceptorSet, Some(service), Some(impl), lifetime);
      && after[..|calls|] == calls
      && (IsInterface(service.ty) ==> |after| > |calls| && after[|calls|] == TryAdd(Describe(impl.ty, Unproxied(impl.ty), lifetime)))
      && (!interceptorSet ==>
            error == Some(ArgumentNull("Interceptor")) && table == types
            && after == Preregistration(calls, service.ty, impl.ty, lifetime))
      && (interceptorSet ==>
            var name := TypeName(service.ty);
            && error.None? && name in table
            && (name in types ==> table == types)
            && after == Preregistration(calls, service.ty, impl.ty, lifetime)
                        + [Replace(Describe(service.ty, Built(table[name]), lifetime))])
  {
    AddLeavesOnlyInterceptorCheck(Some(service.ty), Some(impl.ty), interceptorSet);
  }

  /** The first registration of a service builds its proxy, stores it under the service's name and registers it. */
  lemma AddRegistersFresh(calls: seq<ServiceCall>, types: map<string, ProxyType>,
                          service: TypeInfo, impl: TypeInfo, lifetime: Lifetime)
    requires AddCheck(Some(service.ty), Some(impl.ty)) == Proceed && TypeName(service.ty) !in types
    ensures AddEffect(calls, types, true, Some(service), Some(impl), lifetime)
         == (None,
             Preregistration(calls, service.ty, impl.ty, lifetime) + [Replace(Describe(service.ty, Built(Build(service, impl)), lifetime))],
             types[TypeName(service.ty) := Build(service, impl)])
  {
    AddLeavesOnlyInterceptorCheck(Some(service.ty), Some(impl.ty), true);
  }

  // ---- The options object ----

  class ProxyOptions {
    /** The calls made so far on the static Services collection, oldest first. */
    var services: seq<ServiceCall>

    constructor (services: seq<ServiceCall>)
      ensures this.services == services
    {
      this.services := services;
    }

    /** Add: the ordered checks, then TryAdd or Replace; the factory's exceptions propagate. */
    method Add(factory: ProxyFactory, serviceType: Option<TypeInfo>, implementationType: Option<TypeInfo>, lifetime: Lifetime)
      returns (error: Option<Exception>)
      modifies this, factory
      ensures (error, services, factory.moduleTypes)
           == AddEffect(old(services), old(factory.moduleTypes), old(factory.Interceptor).Some?, serviceType, implementationType, lifetime)
      ensures factory.Interceptor == old(factory.Interceptor)
    {
      if serviceType.None? {
        return Some(ArgumentNull("serviceType"));
      }
      if implementationType.None? {
        return Some(ArgumentNull("implementationType"));
      }
      var service := serviceType.value.ty;
      var impl := implementationType.value.ty;
      if impl.ignoreProxy {
        services := services + [TryAdd(Describe(service, Unproxied(impl), lifetime))];
        return None;
      }
      if !AssignableFrom(service, impl) {
        return Some(Argument(NotAssignable));
      }
      if !IsInterface(service) {
        if service.isSealed {
          return Some(Argument(ServiceSealed));
        }
        if service.isAbstract {
          return Some(Argument(ServiceAbstract));
        }
      }
      if impl.isSealed {
        return Some(Argument(ImplementationSealed));
      }
      if impl.isAbstract {
        return Some(Argument(ImplementationAbstract));
      }
      if IsInterface(service) {
        services := services + [TryAdd(Describe(impl, Unproxied(impl), lifetime))];
      }
      var generated := factory.ProxyGenerator(serviceType, implementationType);
      if generated.Failure? {
        return Some(generated.error);
      }
      services := services + [Replace(Describe(service, generated.value, lifetime))];
      error := None;
    }

    /** AddSingleton<TService, TImplementation>: the constraint makes the implementation a reference type assignable to the service. */
    method AddSingleton(factory: ProxyFactory, service: TypeInfo, impl: TypeInfo) returns (error: Option<Exception>)
      requires !IsValueType(impl.ty) && AssignableFrom(service.ty, impl.ty)
      modifies this, factory
      ensures (error, services, factory.moduleTypes)
           == AddEffect(old(services), old(factory.moduleTypes), old(factory.Interceptor).Some?, Some(service), Some(impl), Singleton)
      ensures factory.Interceptor == old(factory.Interceptor)
    {
      error := Add(factory, Some(service), Some(impl), Singleton);
    }

    /** AddSingleton<TImplementation>: the type registered as itself. */
    method AddSingletonSelf(factory: ProxyFactory, impl: TypeInfo) returns (error: Option<Exception>)
      requires !IsValueType(impl.ty)
      modifies this, factory
      ensures (error, services, factory.moduleTypes)
           == AddEffect(old(services), old(factory.moduleTypes), old(factory.Interceptor).Some?, Some(impl), Some(impl), Singleton)
      ensures factory.Interceptor == old(factory.Interceptor)
    {
      error := Add(factory, Some(impl), Some(impl), Singleton);
    }

    /** AddSingleton(Type): the type registered as itself; a null type reaches Add's null check. */
    method AddSingletonType(factory: ProxyFactory, implementationType: Option<TypeInfo>) returns (error: Option<Exception>)
      modifies this, factory
      ensures (error, services, factory.moduleTypes)
           == AddEffect(old(services), old(factory.moduleTypes), old(factory.Interceptor).Some?, implementationType, implementationType, Singleton)
      ensures factory.Interceptor == old(factory.Interceptor)
    {
      error := Add(factory, implementationType, implementationType, Singleton);
    }

    /** AddScoped<TService, TImplementation>. */
    method AddScoped(factory: ProxyFactory, service: TypeInfo, impl: TypeInfo) returns (error: Option<Exception>)
      requires !IsValueType(impl.ty) && AssignableFrom(service.ty, impl.ty)
      modifies this, factory
      ensures (error, services, factory.moduleTypes)
           == AddEffect(old(services), old(factory.moduleTypes), old(factory.Interceptor).Some?, Some(service), Some(impl), Scoped)
      ensures factory.Interceptor == old(factory.Interceptor)
    {
      error := Add(factory, Some(service), Some(impl), Scoped);
    }

    /** AddScoped<TImplementation>. */
    method AddScopedSelf(factory: ProxyFactory, impl: TypeInfo) returns (error: Option<Exception>)
      requires !IsValueType(impl.ty)
      modifies this, factory
      ensures (error, services, factory.moduleTypes)
           == AddEffect(old(services), old(factory.moduleTypes), old(factory.Interceptor).Some?, Some(impl), Some(impl), Scoped)
      ensures factory.Interceptor == old(factory.Interceptor)
    {
      error := Add(factory, Some(impl), Some(impl), Scoped);
    }

    /** AddScoped(Type). */
    method AddScopedType(factory: ProxyFactory, implementationType: Option<TypeInfo>) returns (error: Option<Exception>)
      modifies this, factory
      ensures (error, services, factory.moduleTypes)
           == AddEffect(old(services), old(factory.moduleTypes), old(factory.Interceptor).Some?, implementationType, implementationType, Scoped)
      ensures factory.Interceptor == old(factory.Interceptor)
    {
      error := Add(factory, implementationType, implementationType, Scoped);
    }

    /** AddTransient<TService, TImplementation>. */
    method AddTransient(factory: ProxyFactory, service: TypeInfo, impl: TypeInfo) returns (error: Option<Exception>)
      requires !IsValueType(impl.ty) && AssignableFrom(service.ty, impl.ty)
      modifies this, factory
      ensures (error, services, factory.moduleTypes)
           == AddEffect(old(services), old(factory.moduleTypes), old(factory.Interceptor).Some?, Some(service), Some(impl), Transient)
      ensures factory.Interceptor == old(factory.Interceptor)
    {
      error := Add(factory, Some(service), Some(impl), Transient);
    }

    /** AddTransient<TImplementation>. */
    method AddTransientSelf(factory: ProxyFactory, impl: TypeInfo) returns (error: Option<Exception>)
      requires !IsValueType(impl.ty)
      modifies this, factory
      ensures (error, services, factory.moduleTypes)
           == AddEffect(old(services), old(factory.moduleTypes), old(factory.Interceptor).Some?, Some(impl), Some(impl), Transient)
      ensures factory.Interceptor == old(factory.Interceptor)
    {
      error := Add(factory, Some(impl), Some(impl), Transient);
    }

    /** AddTransient(Type). */
    method AddTransientType(factory: ProxyFactory, implementationType: Option<TypeInfo>) returns (error: Option<Exception>)
      modifies this, factory
      ensures (error, services, factory.moduleTypes)
           == AddEffect(old(services), old(factory.moduleTypes), old(factory.Interceptor).Some?, implementationType, implementationType, Transient)
      ensures factory.Interceptor == old(factory.Interceptor)
    {
      error := Add(factory, implementationType, implementationType, Transient);
    }
  }
}
