/**
 * The injector's registry and its registration operations: the state record,
 * the dispatch of a registration over bare classes, provider records and
 * arrays, and the `clear`/`exist` queries.
 */
module Injector {
  import opened Values

  /** What `factories[name]` holds.
      `Build(payload)` is the bound `factory` helper: invoking it constructs
      `payload` with no arguments when it is a class and returns it otherwise.
      `Call(fn)` is a user factory, invoked with the injector as argument. */
  datatype Producer = Build(payload: Val) | Call(fn: Val)

  /** The injector's state. A key of `singletons` is singleton-scoped; its value
      is `Null` until first built. `next` is the identity the next `new`
      object receives. */
  datatype Registry = Registry(singletons: map<string, Val>, factories: map<string, Producer>, next: nat)

  /** The result of a stateful operation together with the state it left
      behind; a thrown error keeps every write made before the throw. */
  datatype Run<+T> = Run(result: Result<T>, reg: Registry)

  /** What `register` accepts. In a `Record`, `None` stands for an absent field;
      `multi` is the record's own flag (absent means false). `Bare(v)` is any
      other argument: an array is always a `Batch` and an object with a truthy
      `provide` field always a `Record`, so `v` is never one of those. */
  datatype Spec =
    | Bare(v: Val)
    | Record(provide: Option<Val>, useClass: Option<Val>, useValue: Option<Val>,
             useFactory: Option<Val>, multi: bool)
    | Batch(items: seq<Spec>)

  /** Every singleton-scoped identifier also has a producer. */
  ghost predicate Consistent(r: Registry)
  {
    r.singletons.Keys <= r.factories.Keys
  }

  /** A freshly constructed injector. */
  function Create(): Registry
  {
    Registry(map[], map[], 0)
  }

  /** The registry key of a validated `provide` field. */
  function ProvideName(provide: Val): string
  {
    match provide
    case Str(s) => s
    case ClassRef(c) => c.Name()
    case _ => ""
  }

  /** The class's own "multi" mark; a value that is not a class has none. */
  predicate IsMulti(v: Val)
  {
    v.ClassRef? && v.cls.multi
  }

  /** Singleton registration of a bound `factory` producer. An empty `name`
      means "no name given": the key then falls back to the payload's class
      name, and a payload without a prototype makes that lookup throw. */
  function RegisterSingleton(r: Registry, payload: Val, name: string): Run<()>
  {
    if name != "" then
      Run(Ok(()), r.(singletons := r.singletons[name := Null], factories := r.factories[name := Build(payload)]))
    else if payload.ClassRef? then
      var key := payload.cls.Name();
      Run(Ok(()), r.(singletons := r.singletons[key := Null], factories := r.factories[key := Build(payload)]))
    else
      Run(Err(TypeError(NoPrototype)), r)
  }

  /** Singleton registration of a user factory. */
  function RegisterSingletonFactory(r: Registry, fn: Val, name: string): Registry
  {
    r.(singletons := r.singletons[name := Null], factories := r.factories[name := Call(fn)])
  }

  /** Multi-instance registration: only the producer is written. */
  function RegisterMultiInstance(r: Registry, name: string, p: Producer): Registry
  {
    r.(factories := r.factories[name := p])
  }

  /** `useClass`: multi-instance when the record or the class's own mark says so.
      The mark is only read when the record's flag is false, and reading
      metadata off a string throws. */
  function UseClass(r: Registry, name: string, cls: Val, multi: bool): Run<()>
  {
    if multi then Run(Ok(()), RegisterMultiInstance(r, name, Build(cls)))
    else if cls.Str? then Run(Err(TypeError(MetadataTargetNotObject)), r)
    else if IsMulti(cls) then Run(Ok(()), RegisterMultiInstance(r, name, Build(cls)))
    else RegisterSingleton(r, cls, name)
  }

  /** `useValue`: multi-instance only when the record says so. */
  function UseValue(r: Registry, name: string, value: Val, multi: bool): Run<()>
  {
    if multi then Run(Ok(()), RegisterMultiInstance(r, name, Build(value)))
    else RegisterSingleton(r, value, name)
  }

  /** `useFactory`: the payload must be callable; multi-instance only when the
      record says so. */
  function UseFactory(r: Registry, name: string, fn: Val, multi: bool): Run<()>
  {
    if !fn.IsFunction() then Run(Err(TypeError(InvalidFactory)), r)
    else if multi then Run(Ok(()), RegisterMultiInstance(r, name, Call(fn)))
    else Run(Ok(()), RegisterSingletonFactory(r, fn, name))
  }

  /** Size of a registration spec, the termination measure of `Register`. */
  function SpecSize(s: Spec): nat
  {
    match s
    case Bare(_) => 1
    case Record(_, _, _, _, _) => 1
    case Batch(items) => 1 + ItemsSize(items)
  }

  function ItemsSize(items: seq<Spec>): nat
  {
    if |items| == 0 then 0 else SpecSize(items[0]) + ItemsSize(items[1..])
  }

  /** `register`: dispatches arrays, provider records and bare classes.
      A rejected single registration writes nothing and throws a TypeError;
      an array keeps the registrations made before its first rejected element. */
  function Register(r: Registry, s: Spec): (out: Run<()>)
    decreases SpecSize(s), 0
    ensures Consistent(r) ==> Consistent(out.reg)
    ensures out.reg.next == r.next
    ensures out.result.Err? ==> out.result.error.TypeError?
    ensures !s.Batch? && out.result.Err? ==> out.reg == r
  {
    match s
    case Batch(items) => RegisterMultiple(r, items)
    case Record(provide, useClass, useValue, useFactory, multi) =>
      if !Present(provide) then
        Run(Err(TypeError(InvalidProviders)), r)
      else if !(provide.value.Str? || provide.value.ClassRef?) then
        Run(Err(TypeError(ProvideMustBeStringOrClass)), r)
      else
        var name := ProvideName(provide.value);
        if Present(useClass) then UseClass(r, name, useClass.value, multi)
        else if Present(useValue) then UseValue(r, name, useValue.value, multi)
        else if Present(useFactory) then UseFactory(r, name, useFactory.value, multi)
        // no payload: the record itself is taken for a class and has no prototype
        else if provide.value.ClassRef? then Run(Err(TypeError(NoPrototype)), r)
        else Run(Err(TypeError(InvalidProviders)), r)
    case Bare(v) =>
      // `null` passes the `typeof` object test and `undefined` reaches the
      // constructor test; both then read `.provide` and throw
      if v.Null? then Run(Err(TypeError(NullProvider)), r)
      else if v.Undefined? then Run(Err(TypeError(UndefinedProvider)), r)
      else if v.ClassRef? then RegisterSingleton(r, v, "")
      else Run(Err(TypeError(InvalidProviders)), r)
  }

  /** `registerMultiple`: registers the elements in order, stopping at the
      first one that throws. */
  function RegisterMultiple(r: Registry, items: seq<Spec>): (out: Run<()>)
    decreases ItemsSize(items), 1
    ensures Consistent(r) ==> Consistent(out.reg)
    ensures out.reg.next == r.next
    ensures out.result.Err? ==> out.result.error.TypeError?
  {
    if |items| == 0 then Run(Ok(()), r)
    else
      var first := Register(r, items[0]);
      if first.result.Err? then first
      else RegisterMultiple(first.reg, items[1..])
  }

  /** `clear`: forgets every registration and cached singleton. */
  function Clear(r: Registry): Registry
  {
    r.(singletons := map[], factories := map[])
  }

  /** `exist`: whether either map knows the identifier. */
  function Exist(r: Registry, k: Key): bool
  {
    KeyName(k) in r.singletons || KeyName(k) in r.factories
  }
}
