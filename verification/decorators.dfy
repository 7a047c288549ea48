/**
 * The decorators: `@Inject()` on a class (constructor injection) or on a
 * field (field injection), and `@Provider()`, which wraps a class for
 * constructor injection and may mark it multi-instance.
 */
module Decorators {
  import opened Values
  import opened Injector
  import opened Resolution

  /** `@Inject()` applied to a class: the wrapper subclass, which fills missing
      constructor arguments from the injector. It carries no mark of its own. */
  function InjectClass(target: Class): (c: Class)
    ensures c.Name() == target.Name()
    ensures !IsMulti(ClassRef(c))
    ensures c.Height() == target.Height() + 1
  {
    Wrapped(target, false)
  }

  /** `@Inject()` applied to a field: resolves the field's declared type once,
      while the decorator runs, and yields the value stored on the target.
      `declaredType` is the recorded type name, None when none was recorded. */
  function InjectField(r: Registry, declaredType: Option<string>, fx: Bodies, depth: nat): (out: Run<Val>)
    ensures Evolves(r, out.reg)
    ensures declaredType.None? ==> out == Run(Err(TypeError(NoTypeMetadata)), r)
    ensures declaredType.Some? && declaredType.value !in r.singletons && declaredType.value !in r.factories ==>
      out == Run(Err(NotFound(declaredType.value)), r)
    ensures declaredType.Some? && declaredType.value in r.singletons && r.singletons[declaredType.value] != Null ==>
      out == Run(Ok(r.singletons[declaredType.value]), r)
  {
    match declaredType
    case None => Run(Err(TypeError(NoTypeMetadata)), r)
    case Some(name) => Inject(r, ByName(name), fx, depth)
  }

  /** The options `@Provider()` accepts; `multi` is None when not given. */
  datatype ProviderOptions = ProviderOptions(multi: Option<bool>)

  /** `@Provider(options)`: the constructor-injection wrapper of `target`,
      marked multi-instance exactly when `options.multi === true`. */
  function Provider(options: Option<ProviderOptions>, target: Class): (c: Class)
    ensures c.Name() == target.Name()
    ensures IsMulti(ClassRef(c)) <==> options == Some(ProviderOptions(Some(true)))
    ensures c.Wrapped? && c.target == target
  {
    var marked := options.Some? && options.value.multi == Some(true);
    Wrapped(target, marked)
  }
}
