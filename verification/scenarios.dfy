/**
 * A worked example: an `Engine` built by a singleton factory and a `Car`
 * decorated with `@Inject()` whose constructor declares an `Engine`.
 */
module Scenarios {
  import opened Values
  import opened Injector
  import opened Resolution

  const EngineClass := Declared("Engine", None, false)
  const CarClass := Wrapped(Declared("Car", Some(["Engine"]), false), false)

  /** Factory 0 is `() => new Engine()`. */
  function EngineFactory(fid: nat): Yield
  {
    Construct(EngineClass, [])
  }

  /** `register({provide: Engine, useFactory: create})`, then `register(Car)`. */
  function CarSetup(): Registry
  {
    var withEngine := Register(Create(), Record(Some(ClassRef(EngineClass)), None, None, Some(Fn(0)), false)).reg;
    Register(withEngine, Bare(ClassRef(CarClass))).reg
  }

  /** After the two registrations both identifiers are singleton-scoped and
      unbuilt: the factory is kept as given, the class gets a bound builder. */
  lemma CarSetupRegistersBoth()
    ensures CarSetup() == Registry(map["Engine" := Null, "Car" := Null],
                                   map["Engine" := Call(Fn(0)), "Car" := Build(ClassRef(CarClass))], 0)
  {
    var withEngine := Register(Create(), Record(Some(ClassRef(EngineClass)), None, None, Some(Fn(0)), false));
    assert withEngine == Run(Ok(()), Registry(map["Engine" := Null], map["Engine" := Call(Fn(0))], 0));
  }

  /** Building the car's constructor arguments injects the engine, which the
      factory creates and the cache keeps. */
  lemma CarConstructorGetsEngine()
    ensures var engine := Object(0, EngineClass, Some([]));
      RunCtor(CarSetup(), CarClass, [], EngineFactory, 1)
        == Run(Ok(Some([engine])), Registry(map["Engine" := engine, "Car" := Null], CarSetup().factories, 1))
  {
    var r := CarSetup();
    CarSetupRegistersBoth();
    var engine := Object(0, EngineClass, Some([]));
    assert RunBody(r, Construct(EngineClass, []), EngineFactory, 0) == Run(Ok(engine), r.(next := 1));
    var r1 := r.(next := 1, singletons := r.singletons["Engine" := engine]);
    assert Inject(r, ByName("Engine"), EngineFactory, 0) == Run(Ok(engine), r1);
    assert FillFrom(r1, ["Engine"], [engine], 1, EngineFactory, 1) == Run(Ok(Filled([engine])), r1);
    assert FillArgs(r, Some(["Engine"]), [], EngineFactory, 1) == Run(Ok(Filled([engine])), r1);
  }

  /** `inject('Car')` builds the engine first, hands it to the car's
      constructor, and caches both; a second `inject('Car')` returns the
      identical car, so also the identical engine. */
  lemma CarGetsCachedEngine()
    ensures var engine := Object(0, EngineClass, Some([]));
      var car := Object(1, CarClass, Some([engine]));
      var first := Inject(CarSetup(), ByName("Car"), EngineFactory, 1);
      && first.result == Ok(car)
      && first.reg == Registry(map["Engine" := engine, "Car" := car], CarSetup().factories, 2)
      && Inject(first.reg, ByName("Car"), EngineFactory, 0) == first
  {
    var r := CarSetup();
    var engine := Object(0, EngineClass, Some([]));
    var car := Object(1, CarClass, Some([engine]));
    CarSetupRegistersBoth();
    CarConstructorGetsEngine();
    var built := Registry(map["Engine" := engine, "Car" := Null], r.factories, 2);
    assert Get(r, ByName("Car"), EngineFactory, 1) == Run(Ok(car), built);
  }
}
