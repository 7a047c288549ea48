# tsjs-di core, modelled in Dafny

This project models the core of tsjs-di, a small dependency-injection container for
TypeScript, and proves properties of the model.

- **The injector** (`Injector`) keeps two dictionaries keyed by identifier:
  - `singletons`: the identifiers that are singleton-scoped, with their instance, or `null` until first built.
  - `factories`: the producer of every registered identifier.
- **`register`** accepts three shapes: a bare class, a provider record
  `{provide, useClass | useValue | useFactory, multi?}`, or an array of these.
- **`get`** always invokes the producer.
- **`inject`** builds a singleton once and caches it. It builds a multi-instance identifier afresh on every call.
- **`@Inject()`** has two uses:
  - On a field, it resolves the field's declared type once, while the decorator runs.
  - On a class, it returns a subclass whose constructor fills missing (`undefined`)
    arguments by `inject` of the declared parameter types. It returns early, without
    running the wrapped constructor, at the first declared parameter position whose
    argument is not `undefined`. Arguments past the declared parameters are never inspected.
- **`@Provider()`** applies the same wrapper. With `{multi: true}` it also marks the class
  multi-instance, and `useClass` registration reads that mark.

The model is written in functional style:

- The injector is an immutable `Registry` record. It holds the two maps and a counter
  `next` that hands out the identity of the next object `new` creates.
- Every stateful operation returns a `Run`, which is the result (a value or a thrown
  error) together with the registry it leaves behind. A thrown error keeps every write
  made before the throw, as in JavaScript.
- Classes are data:
  - `Declared(name, paramTypes, multi)` is a user class. `paramTypes` is the recorded
    constructor metadata, or None when none was recorded.
  - `Wrapped(target, multi)` is the subclass a decorator returns.
- The bodies of user factories are the parameter `fx`, which maps a function identity to
  what the body does: return a value it holds, construct a class, or `inject` an identifier.
- Resolution and construction call each other:
  - building a wrapped class injects its parameters;
  - a factory may inject further dependencies.

  JavaScript bounds this recursion only by its call stack. The model makes that bound a
  parameter `depth`: each nested resolution uses up one level, and when none is left the
  call throws a RangeError. A dependency cycle therefore ends in that RangeError, as it
  does in JavaScript.

Modules:

| module | what it holds |
|---|---|
| `Values` | classes, values, truthiness, errors, keys |
| `Injector` | the registry, `register` and its helpers, `clear`, `exist` |
| `Resolution` | `get`, `inject`, the bound `factory`, construction, and the wrapper's argument scan |
| `Decorators` | `@Inject()` on a class or a field, and `@Provider()` |
| `RegistrationFacts`, `ResolutionFacts`, `WrapperFacts` | the proved properties |
| `Scenarios` | a worked example: an `Engine` factory and a `Car` that injects it |

Some behaviours follow from the code as written, and the model keeps them:

- A bare class carrying the multi mark is still registered as a singleton. Only
  `useClass` reads the mark. The test at src/injector.spec.ts:168-177 expects
  multi-instance behaviour here; the model follows the code.
- A multi-instance registration over an identifier whose singleton is already built
  writes only the producer. `inject` therefore keeps returning the cached instance.
- The wrapper's scan stops at the first declared parameter position whose argument is
  not `undefined`. When it stops, the wrapped constructor never runs, and the object is
  created without its initialisation (`init == None`). The parameters after that
  position are not injected either. Extra arguments past the declared parameters never
  stop the scan.

## Model

| member | source | states |
|---|---|---|
| Values.NotFoundNamesIdentifier | src/injector.ts:149 | the "does not exist" message determines the identifier it names, so the error blames exactly one identifier |
| Injector.Register | src/injector.ts:20-43 | registration keeps every singleton-scoped identifier backed by a producer, never creates objects, only throws TypeErrors, and a rejected single registration writes nothing |
| Injector.RegisterMultiple | src/injector.ts:64-68 | registering an array keeps the registry consistent, creates no objects and only throws TypeErrors |
| RegistrationFacts.ProvideKeyMatchesLookup | src/injector.ts:122-124 | a record is registered under the name that `get`, `inject` and `exist` look up for the same string or class, so the registered producer is found |
| RegistrationFacts.FreshInjectorIsEmpty | src/injector.ts:10-13 | a new injector has empty maps, knows no identifier, and both `get` and `inject` throw "does not exist" |
| RegistrationFacts.BareClassIsSingleton | src/injector.ts:75-80 | a bare class becomes singleton-scoped and unbuilt under its own name, with the bound builder as producer, whatever its multi mark |
| RegistrationFacts.UseClassScope | src/injector.ts:97-101 | `useClass` wins over the other payloads; the registration is multi-instance exactly when the record's flag or the class's mark is set, and singleton-scoped otherwise |
| RegistrationFacts.UseClassStringNeedsFlag | src/injector.ts:118-120 | a string `useClass` is stored as a multi-instance producer when the record says multi; otherwise reading its mark throws a TypeError and nothing is written |
| RegistrationFacts.UseValueScope | src/injector.ts:103-107 | without `useClass`, `useValue` wins over `useFactory`; it is multi-instance exactly when the record says so, even for a marked class |
| RegistrationFacts.UseFactoryScope | src/injector.ts:82-116 | a non-function factory is rejected with a TypeError before any write; a function is stored as the producer itself, multi-instance exactly when the record says so, and otherwise singleton-scoped with its name marked unbuilt (`registerSingletonFactory`) |
| RegistrationFacts.BadProvideRejected | src/injector.ts:25-28 | a truthy `provide` that is neither a string nor a class is rejected with its own TypeError and nothing is written |
| RegistrationFacts.UnrecognisedShapeRejected | src/injector.ts:38-42 | a bare value that is not a class, `null` or `undefined` is rejected with "Invalid provider(s)" and nothing is written |
| RegistrationFacts.MalformedRecordRejected | src/injector.ts:25-42 | a record with no truthy `provide`, or a string `provide` and no truthy payload, is rejected with "Invalid provider(s)"; a class `provide` with no payload throws the missing-prototype TypeError; nothing is written |
| RegistrationFacts.EmptyProvideNameFallsBack | src/injector.ts:75-116 | under a class `provide` with an empty name, a `useValue` or `useClass` singleton is registered under its payload's class name, or throws without writing when the payload has no prototype; a `useFactory` singleton has no fallback and is registered under the empty name |
| RegistrationFacts.NullishProviderRejected | src/injector.ts:25 | `null` and `undefined` are rejected by the TypeError that reading their `provide` field throws (for `null` at the record test, for `undefined` inside the constructor test), and nothing is written |
| RegistrationFacts.ReRegisterDiscardsInstance | src/injector.ts:77 | re-registering a built singleton resets it to unbuilt |
| RegistrationFacts.BatchSplits | src/injector.ts:64-68 | registering `a + b` is registering `a` and then, unless that threw, `b` |
| RegistrationFacts.BatchStopsAtFirstError | src/injector.ts:64-68 | when element `k` is the first rejected one, the outcome is exactly registering element `k` after the elements before it: those stay registered, element `k` (even a nested array) leaves what it wrote before its error, and the rest are never seen; a rejected single element writes nothing |
| RegistrationFacts.SingletonWritesAlone | src/injector.ts:75-80 | singleton registration writes the same entries on any registry as on a fresh one, or fails the same way without writing |
| RegistrationFacts.UseClassWritesAlone | src/injector.ts:97-101 | `useClass` registration writes the same entries on any registry as on a fresh one, or fails the same way without writing |
| RegistrationFacts.UseValueWritesAlone | src/injector.ts:103-107 | `useValue` registration writes the same entries on any registry as on a fresh one |
| RegistrationFacts.UseFactoryWritesAlone | src/injector.ts:109-116 | `useFactory` registration writes the same entries on any registry as on a fresh one, or fails the same way without writing |
| RegistrationFacts.EntryWritesAlone | src/injector.ts:20-43 | a single registration succeeds or fails independently of what is registered, and on success overrides the registry with exactly the entries it writes on a fresh injector |
| RegistrationFacts.LaterEntryWins | src/injector.ts:64-68 | after an array's earlier entries succeed, a later entry of any kind overrides what they registered with exactly the entries it writes on its own; if it is rejected, the earlier registrations stay |
| Resolution.Put | src/inject.ts:35 | writing position `i` sets that position, grows the list by one only when writing past its end, and leaves every other position alone |
| Resolution.Inject | src/injector.ts:159-170 | `inject` never changes producers or the singleton-scoped set and never replaces a built instance; a built singleton is returned as is; a multi-instance identifier gives exactly what `get` gives; an unknown identifier throws "does not exist" naming it; a singleton-scoped success is what the cache holds afterwards |
| ResolutionFacts.MultiValueInjectsValue | src/injector.ts:166-167 | a value registered with `useValue` and `multi` is returned by `inject` as that very value, and nothing changes |
| Resolution.Get | src/injector.ts:146-152 | `get` of an identifier without a producer throws "does not exist" naming it; otherwise it changes the registry no more than resolution may |
| Resolution.Invoke | src/injector.ts:134-139 | the bound builder of a class returns an object of that class created during the call; for any other payload it returns the payload itself and changes nothing |
| Resolution.RunBody | src/injector.ts:151 | a factory that constructs a class returns a new object of that class; any body changes the registry no more than resolution may |
| Resolution.New | src/inject.ts:25-39 | construction returns an object of the requested class with an identity no earlier object had |
| Resolution.RunCtor | src/inject.ts:25-39 | running a wrapper chain never changes producers or replaces a built singleton, and blames only unknown identifiers |
| Resolution.FillArgs | src/inject.ts:27-28 | without parameter-type metadata the arguments pass through unchanged |
| Resolution.FillFrom | src/inject.ts:29-36 | the filled list is as long as the longer of the arguments and the declared parameters; positions before the scan and after the declared ones are kept |
| Resolution.Nested | src/inject.ts:34 | a resolution made with no stack left throws a RangeError and changes nothing |
| Decorators.InjectClass | src/inject.ts:14 | the class decorator returns a wrapper that keeps the class's name, carries no multi mark, and adds one wrapping layer |
| Decorators.InjectField | src/inject.ts:8-12 | field injection fails with a TypeError when no type was recorded, throws "does not exist" for an unregistered type, and yields the cached instance of a built singleton |
| Decorators.Provider | src/provider.ts:5-12 | the decorator wraps the class and keeps its name; the result carries the multi mark exactly when the options say `multi === true` |
| ResolutionFacts.ClassKeyIsName | src/injector.ts:126-128 | `get`, `inject` and `exist` give the same answer for a class and for its name |
| ResolutionFacts.UnknownIdentifierFails | src/injector.ts:146-150 | an identifier neither map knows makes `get` and `inject` throw "does not exist" naming it, and leaves the registry unchanged |
| ResolutionFacts.GetValueIsIdentical | src/injector.ts:134-139 | `get` of a stored non-class value returns that very value and changes nothing |
| ResolutionFacts.GetFactoryResult | src/injector.ts:151 | `get` of a user factory returns what its body returns: a value it holds, unchanged and with nothing written, or the result of the nested `inject` it asks for |
| ResolutionFacts.GetPlainClassIsNew | src/injector.ts:134-139 | `get` of a plain class returns a new object built with no arguments, and changes only the identity counter |
| ResolutionFacts.GetCreatesFresh | src/injector.ts:146-152 | `get` never caches: each success of a creating producer is an object whose identity was handed out during this call |
| ResolutionFacts.FirstInjectCaches | src/injector.ts:159-163 | the first `inject` of an unbuilt singleton returns what `get` returns and stores it in the cache; a failure stores nothing |
| ResolutionFacts.SingletonIdentity | src/injector.ts:164-165 | once `inject` has produced a non-null singleton instance, every later `inject` returns that same instance and changes nothing |
| ResolutionFacts.MultiInstanceFreshness | src/injector.ts:166-167 | two successive `inject`s of a multi-instance identifier with a creating producer return two different objects |
| ResolutionFacts.MultiOverBuiltSingletonKeepsInstance | src/injector.ts:88-91 | a multi-instance registration over a built singleton leaves its cached instance, which `inject` keeps returning |
| ResolutionFacts.ClearForgetsEverything | src/injector.ts:175-178 | after `clear` both maps are empty, nothing exists, and `get` and `inject` throw "does not exist" |
| ResolutionFacts.ExistIffResolvable | src/injector.ts:180-183 | in a consistent registry, `exist` holds exactly when `get` (and `inject`) do not throw "does not exist" for that identifier |
| ResolutionFacts.ResolutionKeepsRegistrations | src/injector.ts:159-170 | resolution keeps the registry consistent, adds and removes no registration, and never replaces a built singleton |
| WrapperFacts.StopIndex | src/inject.ts:29-32 | the reference stopping point: the first declared position with a supplied argument, with no supplied position before it |
| WrapperFacts.InjectEach | src/inject.ts:33-35 | the reference filling: `inject` of each name in turn yields one value per name |
| WrapperFacts.StopIndexFrame | src/inject.ts:29-32 | the stop depends only on which positions from the start of the scan are supplied |
| WrapperFacts.FillFromScan | src/inject.ts:27-38 | the wrapper's scan equals the reference: inject the positions before the stop in order; return early at a supplied position, otherwise overlay the injected values on the arguments |
| WrapperFacts.ManualOverrideStops | src/inject.ts:30-31 | with `k` the first supplied position, exactly the positions before `k` are injected and the wrapper returns early |
| WrapperFacts.MissingArgumentsInjected | src/inject.ts:29-38 | with nothing supplied, every declared position holds its injected instance, in order, and extra arguments are passed on |
| WrapperFacts.NoMetadataPassesArguments | src/inject.ts:27-38 | without metadata the wrapped constructor receives the caller's arguments unchanged, and nothing is resolved |
| WrapperFacts.OverrideSkipsWrappedConstructor | src/inject.ts:30-31 | a supplied argument makes the object come out without its wrapped constructor having run, after the earlier positions were injected |
| WrapperFacts.ScanFailsAt | src/inject.ts:29-36 | a scan that meets no supplied argument up to position `j`, where the type is unregistered, injects the positions before `j` and then throws "does not exist" naming that type |
| WrapperFacts.UnregisteredParameterFails | src/inject.ts:33-34 | an unregistered parameter type at any missing position the scan reaches throws "does not exist" naming it, after the earlier positions were injected, and nothing is constructed |
| WrapperFacts.ConstructionsShareSingleton | src/inject.ts:33-38 | a singleton-scoped parameter is filled with the instance `inject` returns, and a second construction receives that same instance |
| WrapperFacts.ProviderInjectsLikeInject | src/provider.ts:7 | `@Provider()` gives a class the same constructor injection as `@Inject()` |
| WrapperFacts.ProviderMarkMakesUseClassMulti | src/provider.ts:8-10 | a class marked by `@Provider({multi: true})` and registered through `useClass` without a flag is multi-instance |
| WrapperFacts.ProviderMarkIgnoredOutsideUseClass | src/provider.ts:8-10 | the mark is ignored when the class is registered bare or as a `useValue` |
| Scenarios.CarSetupRegistersBoth | src/injector.ts:20-43 | registering a factory for the `Engine` class and then the injecting `Car` class leaves both singleton-scoped and unbuilt |
| Scenarios.CarConstructorGetsEngine | src/inject.ts:29-38 | constructing the car without arguments injects its `Engine` parameter: the factory builds the engine, the cache keeps it, and the car's constructor receives it |
| Scenarios.CarGetsCachedEngine | src/injector.ts:159-170 | `inject('Car')` builds the engine first, hands it to the car, and caches both, leaving the registry exactly as stated; a second `inject('Car')` returns the identical car |

## Left out

- reflect-metadata is not modelled as a store. The recorded metadata becomes explicit data:
  - parameter types are the `paramTypes` of a `Declared` class;
  - a field's declared type is a parameter of `InjectField`;
  - the multi mark is a field of the class.
- The global `DI` instance that the decorators use is the registry passed as a parameter.
- Field injection's assignment `target[key] = dependency` is not modelled. `InjectField` yields the value that would be stored.
- The constructor's `config` argument and the `console.log` in `isConstructor` are not modelled. Neither affects behaviour.
- Values are limited to `undefined`, `null`, strings, opaque truthy objects, functions, classes and created objects. Numbers, booleans and symbols are not modelled. A primitive number given as `useClass` would throw like a string does.
- `Fn` stands for a function without a usable prototype, such as an arrow function. A plain `function` used as a `provide` key or a class is not modelled.
- The body of a user class's own constructor is not modelled. `new` of a declared class always succeeds and only records the arguments it received. A constructor that throws, calls the injector, or returns a different object is not modelled. This applies to `new provider()` in the bound builder and to `super(...args)` in the wrapper. 
- ResolutionFacts.GetPlainClassIsNew: promises success only because constructor bodies are not modelled (previous line). In JavaScript, `get` of a plain class fails whenever its constructor throws.
- Factory bodies are limited to the three shapes of `Yield`. A factory that registers providers, calls `get`, or throws on its own is not modelled.
- Resolution: `depth` stands for the JavaScript call stack. The real stack limit depends on the engine.
- The JavaScript semantics differ between compile targets. The model chooses one per behaviour:
  - Early `return` in the wrapper constructor: follows the es5 output, where `new` yields an object whose base constructor never ran. ES2015 classes would throw a ReferenceError for the missing `super` call instead.
  - Name of a decorated class: follows ES2015, where the anonymous subclass has no own `name` and inherits the wrapped class's. The es5 output names it `class_1`, and later editions give it an own empty name.
  - A class called as a factory: follows ES2015, where calling a class without `new` throws a TypeError.
- Decorators.InjectClass: the registry key of a decorated class is the wrapped class's name (the ES2015 choice above). Under es5 output or later editions the key would differ, and that is not modelled.
- Resolution.Invoke: a class given as `useFactory` throws a TypeError when called (the ES2015 choice above). Under es5 output its constructor function would run as a plain call with the injector as argument; that is not modelled.
- Keys inherited from `Object.prototype` are not modelled. The registry is an ordinary map, so an identifier such as `toString` behaves like any other.
- Concurrency is not modelled. The container is single-threaded JavaScript.
