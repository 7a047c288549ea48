/**
 * What registration does to the registry: the scope each kind of provider
 * gets, the dispatch priority of a provider record, the rejected shapes, and
 * the in-order, non-atomic processing of arrays.
 */
module RegistrationFacts {
  import opened Values
  import opened Injector
  import opened Resolution

  /** The registry after `name` became singleton-scoped, not yet built, with producer `p`. */
  function AsSingleton(r: Registry, name: string, p: Producer): Registry
  {
    r.(singletons := r.singletons[name := Null], factories := r.factories[name := p])
  }

  /** The registry after `name` received producer `p` and nothing else. */
  function AsMulti(r: Registry, name: string, p: Producer): Registry
  {
    r.(factories := r.factories[name := p])
  }

  /** The `provide` field that names a key. */
  function ProvideOf(k: Key): Val
  {
    match k
    case ByName(n) => Str(n)
    case ByClass(c) => ClassRef(c)
  }

  /** The name a record is registered under is the name `get`, `inject` and
      `exist` look up for the same string or class, so what was registered
      is found. */
  lemma ProvideKeyMatchesLookup(r: Registry, k: Key, v: Val, multi: bool)
    requires KeyName(k) != "" && v.Truthy()
    ensures ProvideName(ProvideOf(k)) == KeyName(k)
    ensures var out := Register(r, Record(Some(ProvideOf(k)), None, Some(v), None, multi));
      out.result.Ok? && Exist(out.reg, k) && out.reg.factories[KeyName(k)] == Build(v)
  {
    UseValueScope(r, k, None, v, None, multi);
  }

  lemma FreshInjectorIsEmpty(k: Key, fx: Bodies, depth: nat)
    ensures Create().singletons == map[] && Create().factories == map[]
    ensures !Exist(Create(), k)
    ensures Get(Create(), k, fx, depth).result == Err(NotFound(KeyName(k)))
    ensures Inject(Create(), k, fx, depth).result == Err(NotFound(KeyName(k)))
  {
  }

  /** A bare class is always registered as a singleton under its own name,
      whatever its "multi" mark says. */
  lemma BareClassIsSingleton(r: Registry, c: Class)
    ensures Register(r, Bare(ClassRef(c))) == Run(Ok(()), AsSingleton(r, c.Name(), Build(ClassRef(c))))
  {
  }

  /** `useClass` wins over the other payloads; the registration is
      multi-instance exactly when the record or the class's mark says so. */
  lemma UseClassScope(r: Registry, k: Key, c: Class, useValue: Option<Val>, useFactory: Option<Val>, multi: bool)
    requires KeyName(k) != ""
    ensures var out := Register(r, Record(Some(ProvideOf(k)), Some(ClassRef(c)), useValue, useFactory, multi));
      out == Run(Ok(()), if multi || c.multi then AsMulti(r, KeyName(k), Build(ClassRef(c)))
                         else AsSingleton(r, KeyName(k), Build(ClassRef(c))))
  {
  }

  /** A string given as `useClass` is only accepted with the record's own
      `multi` flag; otherwise looking up its mark throws. */
  lemma UseClassStringNeedsFlag(r: Registry, k: Key, s: string, multi: bool)
    requires KeyName(k) != "" && s != ""
    ensures var out := Register(r, Record(Some(ProvideOf(k)), Some(Str(s)), None, None, multi));
      out == if multi then Run(Ok(()), AsMulti(r, KeyName(k), Build(Str(s))))
             else Run(Err(TypeError(MetadataTargetNotObject)), r)
  {
  }

  /** Without `useClass`, `useValue` wins over `useFactory`; the registration
      is multi-instance exactly when the record says so, even for a marked class. */
  lemma UseValueScope(r: Registry, k: Key, useClass: Option<Val>, v: Val, useFactory: Option<Val>, multi: bool)
    requires KeyName(k) != "" && !Present(useClass) && v.Truthy()
    ensures var out := Register(r, Record(Some(ProvideOf(k)), useClass, Some(v), useFactory, multi));
      out == Run(Ok(()), if multi then AsMulti(r, KeyName(k), Build(v)) else AsSingleton(r, KeyName(k), Build(v)))
  {
  }

  /** `useFactory` is consulted last; a payload that is not a function is
      rejected before anything is written. */
  lemma UseFactoryScope(r: Registry, k: Key, useClass: Option<Val>, useValue: Option<Val>, f: Val, multi: bool)
    requires KeyName(k) != "" && !Present(useClass) && !Present(useValue) && f.Truthy()
    ensures var out := Register(r, Record(Some(ProvideOf(k)), useClass, useValue, Some(f), multi));
      && (!f.IsFunction() ==> out == Run(Err(TypeError(InvalidFactory)), r))
      && (f.IsFunction() && multi ==> out == Run(Ok(()), AsMulti(r, KeyName(k), Call(f))))
      && (f.IsFunction() && !multi ==> out == Run(Ok(()), AsSingleton(r, KeyName(k), Call(f))))
  {
  }

  /** A `provide` key that is neither a string nor a class is rejected first. */
  lemma BadProvideRejected(r: Registry, p: Val, useClass: Option<Val>, useValue: Option<Val>, useFactory: Option<Val>, multi: bool)
    requires p.Truthy() && !p.Str? && !p.ClassRef?
    ensures Register(r, Record(Some(p), useClass, useValue, useFactory, multi))
      == Run(Err(TypeError(ProvideMustBeStringOrClass)), r)
  {
  }

  /** Any other value that is not an array, a provider record or a class is
      rejected as an invalid provider. */
  lemma UnrecognisedShapeRejected(r: Registry, v: Val)
    requires !v.ClassRef? && !v.Undefined? && !v.Null?
    ensures Register(r, Bare(v)) == Run(Err(TypeError(InvalidProviders)), r)
  {
  }

  /** A provider record that names nothing, or names something but carries no
      payload, is rejected without writing: with no truthy `provide` or with a
      string `provide` it is no class either, and with a class `provide` the
      record itself is taken for the class, whose missing prototype throws. */
  lemma MalformedRecordRejected(r: Registry, provide: Option<Val>, useClass: Option<Val>,
                                useValue: Option<Val>, useFactory: Option<Val>, multi: bool)
    ensures !Present(provide) ==>
      Register(r, Record(provide, useClass, useValue, useFactory, multi)) == Run(Err(TypeError(InvalidProviders)), r)
    ensures Present(provide) && provide.value.Str? && !Present(useClass) && !Present(useValue) && !Present(useFactory) ==>
      Register(r, Record(provide, useClass, useValue, useFactory, multi)) == Run(Err(TypeError(InvalidProviders)), r)
    ensures Present(provide) && provide.value.ClassRef? && !Present(useClass) && !Present(useValue) && !Present(useFactory) ==>
      Register(r, Record(provide, useClass, useValue, useFactory, multi)) == Run(Err(TypeError(NoPrototype)), r)
  {
  }

  /** A class `provide` whose name is empty leaves `useClass` and `useValue`
      singletons to fall back on the payload's own class name, and a payload
      without a prototype then throws; `useFactory` has no fallback and
      registers under the empty name. */
  lemma EmptyProvideNameFallsBack(r: Registry, c: Class, v: Val, f: Val)
    requires c.Name() == "" && v.Truthy() && f.IsFunction()
    ensures Register(r, Record(Some(ClassRef(c)), None, Some(v), None, false))
      == if v.ClassRef? then Run(Ok(()), AsSingleton(r, v.cls.Name(), Build(v)))
         else Run(Err(TypeError(NoPrototype)), r)
    ensures !v.Str? && !IsMulti(v) ==>
      Register(r, Record(Some(ClassRef(c)), Some(v), None, None, false))
        == if v.ClassRef? then Run(Ok(()), AsSingleton(r, v.cls.Name(), Build(v)))
           else Run(Err(TypeError(NoPrototype)), r)
    ensures Register(r, Record(Some(ClassRef(c)), None, None, Some(f), false))
      == Run(Ok(()), AsSingleton(r, "", Call(f)))
  {
  }

  /** `null` and `undefined` are rejected by reading their `provide` field,
      which throws before any check of the shape. */
  lemma NullishProviderRejected(r: Registry)
    ensures Register(r, Bare(Null)) == Run(Err(TypeError(NullProvider)), r)
    ensures Register(r, Bare(Undefined)) == Run(Err(TypeError(UndefinedProvider)), r)
  {
  }

  /** Re-registering a singleton discards the instance cached before. */
  lemma ReRegisterDiscardsInstance(r: Registry, c: Class)
    requires c.Name() in r.singletons && r.singletons[c.Name()] != Null
    ensures var r' := Register(r, Bare(ClassRef(c))).reg;
      c.Name() in r'.singletons && r'.singletons[c.Name()] == Null
  {
    BareClassIsSingleton(r, c);
  }

  /** An array is registered element by element: registering `a + b` is
      registering `a`, then, unless that threw, `b`. */
  lemma {:induction false} BatchSplits(r: Registry, a: seq<Spec>, b: seq<Spec>)
    ensures var first := Register(r, Batch(a));
      Register(r, Batch(a + b)) == if first.result.Err? then first else Register(first.reg, Batch(b))
    decreases |a|
  {
    if |a| == 0 {
      assert a + b == b;
    } else {
      var head := Register(r, a[0]);
      assert (a + b)[0] == a[0];
      assert (a + b)[1..] == a[1..] + b;
      if head.result.Ok? {
        BatchSplits(head.reg, a[1..], b);
      }
    }
  }

  /** An array is not atomic: when element `k` is the first to be rejected,
      the elements before it stay registered, element `k` leaves what it
      wrote before throwing (a nested array keeps its own earlier elements),
      and the rest are never seen. */
  lemma BatchStopsAtFirstError(r: Registry, items: seq<Spec>, k: nat)
    requires k < |items|
    requires Register(r, Batch(items[..k])).result.Ok?
    requires Register(Register(r, Batch(items[..k])).reg, items[k]).result.Err?
    ensures var before := Register(r, Batch(items[..k])).reg;
      Register(r, Batch(items)) == Register(before, items[k])
    ensures var before := Register(r, Batch(items[..k])).reg;
      !items[k].Batch? ==> Register(r, Batch(items)) == Run(Register(before, items[k]).result, before)
  {
    var before := Register(r, Batch(items[..k])).reg;
    assert items == items[..k] + items[k..];
    BatchSplits(r, items[..k], items[k..]);
    assert items[k..][0] == items[k];
  }

  /** `out` is what running an operation on `r` gives when the same operation
      on a fresh injector gives `alone`: the same result and, on success, `r`
      overridden by the entries written there. */
  ghost predicate OverridesWith(r: Registry, out: Run<()>, alone: Run<()>)
  {
    && out.result == alone.result
    && (out.result.Ok? ==> out.reg == Registry(r.singletons + alone.reg.singletons,
                                               r.factories + alone.reg.factories, r.next))
    && (out.result.Err? ==> out.reg == r)
  }

  lemma SingletonWritesAlone(r: Registry, payload: Val, name: string)
    ensures OverridesWith(r, RegisterSingleton(r, payload, name), RegisterSingleton(Create(), payload, name))
  {
    var out := RegisterSingleton(r, payload, name);
    var alone := RegisterSingleton(Create(), payload, name);
    if out.result.Ok? {
      assert out.reg.singletons == r.singletons + alone.reg.singletons;
      assert out.reg.factories == r.factories + alone.reg.factories;
    }
  }

  lemma UseClassWritesAlone(r: Registry, name: string, cls: Val, multi: bool)
    ensures OverridesWith(r, UseClass(r, name, cls, multi), UseClass(Create(), name, cls, multi))
  {
    if multi || IsMulti(cls) {
      assert UseClass(r, name, cls, multi).reg.singletons == r.singletons + map[];
    } else {
      SingletonWritesAlone(r, cls, name);
    }
  }

  lemma UseValueWritesAlone(r: Registry, name: string, value: Val, multi: bool)
    ensures OverridesWith(r, UseValue(r, name, value, multi), UseValue(Create(), name, value, multi))
  {
    if multi {
      assert UseValue(r, name, value, multi).reg.singletons == r.singletons + map[];
    } else {
      SingletonWritesAlone(r, value, name);
    }
  }

  lemma UseFactoryWritesAlone(r: Registry, name: string, fn: Val, multi: bool)
    ensures OverridesWith(r, UseFactory(r, name, fn, multi), UseFactory(Create(), name, fn, multi))
  {
    var out := UseFactory(r, name, fn, multi);
    if fn.IsFunction() && multi {
      assert out.reg.singletons == r.singletons + map[];
    } else if fn.IsFunction() {
      assert out.reg.singletons == r.singletons + map[name := Null];
      assert out.reg.factories == r.factories + map[name := Call(fn)];
    }
  }

  /** A single (non-array) registration does the same whatever the registry
      holds: it succeeds or fails as it would on a fresh injector, and on
      success it overrides the registry with exactly the entries it writes
      there. A rejected one writes nothing. */
  lemma EntryWritesAlone(r: Registry, s: Spec)
    requires !s.Batch?
    ensures OverridesWith(r, Register(r, s), Register(Create(), s))
  {
    match s
    case Bare(v) =>
      if v.ClassRef? {
        SingletonWritesAlone(r, v, "");
      }
    case Record(provide, useClass, useValue, useFactory, multi) =>
      if Present(provide) && (provide.value.Str? || provide.value.ClassRef?) {
        var name := ProvideName(provide.value);
        if Present(useClass) {
          UseClassWritesAlone(r, name, useClass.value, multi);
        } else if Present(useValue) {
          UseValueWritesAlone(r, name, useValue.value, multi);
        } else if Present(useFactory) {
          UseFactoryWritesAlone(r, name, useFactory.value, multi);
        }
      }
  }

  /** Later array entries overwrite earlier ones: after registering `items`
      and then an entry `s`, the registry is the one `items` left, overridden
      by what `s` writes on its own; when `s` is rejected, what `items`
      registered stays. */
  lemma LaterEntryWins(r: Registry, items: seq<Spec>, s: Spec)
    requires !s.Batch?
    requires Register(r, Batch(items)).result.Ok?
    ensures var mid := Register(r, Batch(items)).reg;
      var alone := Register(Create(), s);
      var out := Register(r, Batch(items + [s]));
      && out.result == alone.result
      && (alone.result.Ok? ==> out.reg == Registry(mid.singletons + alone.reg.singletons,
                                                   mid.factories + alone.reg.factories, mid.next))
      && (alone.result.Err? ==> out.reg == mid)
  {
    var mid := Register(r, Batch(items)).reg;
    BatchSplits(r, items, [s]);
    var single := [s];
    var after := Register(mid, single[0]);
    assert single[1..] == [];
    if after.result.Ok? {
      assert RegisterMultiple(after.reg, single[1..]) == Run(Ok(()), after.reg);
    }
    assert Register(mid, Batch(single)) == after;
    EntryWritesAlone(mid, s);
  }
}
