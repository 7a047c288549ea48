/**
 * Resolution: `get`, `inject`, the bound `factory` helper, and construction
 * of classes, including the argument filling that a constructor-injection
 * wrapper performs before it runs the class it wraps.
 *
 * These operations call each other: building a wrapped class resolves its
 * parameters through `inject`, and a user factory may resolve further
 * dependencies through the injector it receives. JavaScript bounds that
 * recursion by its call stack; here `depth` is that bound, consumed by each
 * nested resolution, and running out of it throws a RangeError.
 */
module Resolution {
  import opened Values
  import opened Injector

  /** What the body of a user factory does with the injector it receives. */
  datatype Yield =
    | Return(v: Val)                       // returns a value it already holds
    | Construct(cls: Class, args: seq<Val>) // returns `new cls(...args)`
    | Resolve(id: string)                  // returns `injector.inject(id)`

  /** The bodies of user factories, by the identity of the function. */
  type Bodies = nat -> Yield

  /** What a constructor-injection wrapper does after scanning the parameters:
      return early without running the class it wraps, or run it on `args`. */
  datatype Scan = Stopped | Filled(args: seq<Val>)

  /** How resolution may change the registry: the producers and the set of
      singleton-scoped identifiers stay as they are, a singleton once built
      keeps its instance, and object identities only move forward. */
  ghost predicate Evolves(r: Registry, r': Registry)
  {
    && r'.factories == r.factories
    && r'.singletons.Keys == r.singletons.Keys
    && (forall id | id in r.singletons && r.singletons[id] != Null :: r'.singletons[id] == r.singletons[id])
    && r.next <= r'.next
  }

  /** A "does not exist" error only ever names an identifier without a producer. */
  ghost predicate BlamesUnknown<T>(r: Registry, res: Result<T>)
  {
    forall n :: res == Err(NotFound(n)) ==> n !in r.factories
  }

  /** A successful result is an object of class `c` created during the call. */
  ghost predicate NewObjectOf(r: Registry, out: Run<Val>, c: Class)
  {
    out.result.Ok? ==>
      && out.result.value.Object?
      && out.result.value.cls == c
      && r.next <= out.result.value.id < out.reg.next
  }

  /** `args[i] = v` on a JavaScript array, for an index at most one past the end. */
  function Put(args: seq<Val>, i: nat, v: Val): (a: seq<Val>)
    requires i <= |args|
    ensures |a| == (if i < |args| then |args| else i + 1)
    ensures a[i] == v
    ensures forall j | 0 <= j < |a| && j != i :: a[j] == args[j]
  {
    if i < |args| then args[i := v] else args + [v]
  }

  /** `inject(key)`: builds and caches a singleton on first use, returns the
      cached instance afterwards, and builds afresh for a multi-instance key. */
  function Inject(r: Registry, k: Key, fx: Bodies, depth: nat): (out: Run<Val>)
    decreases depth, 7, 0
    ensures Evolves(r, out.reg) && BlamesUnknown(r, out.result)
    ensures KeyName(k) in r.singletons && r.singletons[KeyName(k)] != Null ==>
      out == Run(Ok(r.singletons[KeyName(k)]), r)
    ensures KeyName(k) !in r.singletons && KeyName(k) !in r.factories ==>
      out == Run(Err(NotFound(KeyName(k))), r)
    ensures KeyName(k) in r.singletons && out.result.Ok? ==>
      out.reg.singletons[KeyName(k)] == out.result.value
    ensures KeyName(k) !in r.singletons && KeyName(k) in r.factories ==>
      out == Get(r, ByName(KeyName(k)), fx, depth)
  {
    var name := KeyName(k);
    if name in r.singletons && r.singletons[name] == Null && name in r.factories then
      var built := Get(r, ByName(name), fx, depth);
      match built.result
      case Err(e) => built
      case Ok(v) => Run(Ok(v), built.reg.(singletons := built.reg.singletons[name := v]))
    else if name in r.singletons then
      Run(Ok(r.singletons[name]), r)
    else if name in r.factories then
      Get(r, ByName(name), fx, depth)
    else
      NotFoundNamesIdentifier(name);
      Run(Err(NotFound(name)), r)
  }

  /** `get(key)`: invokes the key's producer without caching anything. */
  function Get(r: Registry, k: Key, fx: Bodies, depth: nat): (out: Run<Val>)
    decreases depth, 6, 0
    ensures Evolves(r, out.reg) && BlamesUnknown(r, out.result)
    ensures KeyName(k) !in r.factories ==> out == Run(Err(NotFound(KeyName(k))), r)
  {
    var name := KeyName(k);
    if name !in r.factories then
      NotFoundNamesIdentifier(name);
      Run(Err(NotFound(name)), r)
    else Invoke(r, r.factories[name], fx, depth)
  }

  /** Invokes a producer with the injector as its argument. */
  function Invoke(r: Registry, p: Producer, fx: Bodies, depth: nat): (out: Run<Val>)
    decreases depth, 5, 0
    ensures Evolves(r, out.reg) && BlamesUnknown(r, out.result)
    ensures p.Build? && p.payload.ClassRef? ==> NewObjectOf(r, out, p.payload.cls)
    ensures p.Build? && !p.payload.ClassRef? ==> out == Run(Ok(p.payload), r)
  {
    match p
    case Build(v) =>
      // the bound `factory` helper: `new v()` for a class, `v` itself otherwise
      if v.ClassRef? then New(r, v.cls, [], fx, depth) else Run(Ok(v), r)
    case Call(f) =>
      if f.Fn? then RunBody(r, fx(f.fid), fx, depth)
      else Run(Err(TypeError(ClassCalledWithoutNew)), r)
  }

  /** Runs the body of a user factory. */
  function RunBody(r: Registry, y: Yield, fx: Bodies, depth: nat): (out: Run<Val>)
    decreases depth, 4, 0
    ensures Evolves(r, out.reg) && BlamesUnknown(r, out.result)
    ensures y.Construct? ==> NewObjectOf(r, out, y.cls)
  {
    match y
    case Return(v) => Run(Ok(v), r)
    case Construct(c, args) => New(r, c, args, fx, depth)
    case Resolve(id) => Nested(r, id, fx, depth)
  }

  /** `new c(...args)`: runs the constructor chain, then hands out a new identity. */
  function New(r: Registry, c: Class, args: seq<Val>, fx: Bodies, depth: nat): (out: Run<Val>)
    decreases depth, 3, 0
    ensures Evolves(r, out.reg) && BlamesUnknown(r, out.result)
    ensures NewObjectOf(r, out, c)
  {
    var ran := RunCtor(r, c, args, fx, depth);
    match ran.result
    case Err(e) => Run(Err(e), ran.reg)
    case Ok(init) => Run(Ok(Object(ran.reg.next, c, init)), ran.reg.(next := ran.reg.next + 1))
  }

  /** The constructor chain of `c` on `args`: the argument list the innermost
      declared constructor receives, or None when a wrapper returned early. */
  function RunCtor(r: Registry, c: Class, args: seq<Val>, fx: Bodies, depth: nat): (out: Run<Option<seq<Val>>>)
    decreases depth, 2, c.Height()
    ensures Evolves(r, out.reg) && BlamesUnknown(r, out.result)
  {
    match c
    case Declared(_, _, _) => Run(Ok(Some(args)), r)
    case Wrapped(target, _) =>
      var filled := FillArgs(r, target.OwnParamTypes(), args, fx, depth);
      match filled.result
      case Err(e) => Run(Err(e), filled.reg)
      case Ok(Stopped) => Run(Ok(None), filled.reg)
      case Ok(Filled(a)) => RunCtor(filled.reg, target, a, fx, depth)
  }

  /** The wrapper's argument filling: without parameter-type metadata the
      arguments pass through unchanged; otherwise the parameters are scanned
      from the first. */
  function FillArgs(r: Registry, params: Option<seq<string>>, args: seq<Val>, fx: Bodies, depth: nat): (out: Run<Scan>)
    decreases depth, 1, 0
    ensures Evolves(r, out.reg) && BlamesUnknown(r, out.result)
    ensures params.None? ==> out == Run(Ok(Filled(args)), r)
  {
    match params
    case None => Run(Ok(Filled(args)), r)
    case Some(ps) => FillFrom(r, ps, args, 0, fx, depth)
  }

  /** The scan from position `i`: a supplied (non-undefined) argument stops it,
      an undefined or missing one is replaced by `inject` of the declared
      type name. */
  function FillFrom(r: Registry, ps: seq<string>, args: seq<Val>, i: nat, fx: Bodies, depth: nat): (out: Run<Scan>)
    requires i <= |ps| && i <= |args|
    decreases depth, 0, |ps| - i + 1
    ensures Evolves(r, out.reg) && BlamesUnknown(r, out.result)
    ensures out.result.Ok? && out.result.value.Filled? ==>
      var a := out.result.value.args;
      && |a| == (if |args| < |ps| then |ps| else |args|)
      && a[..i] == args[..i]
      && (|ps| <= |args| ==> a[|ps|..] == args[|ps|..])
  {
    if i == |ps| then Run(Ok(Filled(args)), r)
    else if i < |args| && args[i] != Undefined then Run(Ok(Stopped), r)
    else
      var dep := Nested(r, ps[i], fx, depth);
      match dep.result
      case Err(e) => Run(Err(e), dep.reg)
      case Ok(v) => FillFrom(dep.reg, ps, Put(args, i, v), i + 1, fx, depth)
  }

  /** A resolution made from inside another one, one stack level deeper. */
  function Nested(r: Registry, id: string, fx: Bodies, depth: nat): (out: Run<Val>)
    decreases depth, 0, 0
    ensures Evolves(r, out.reg) && BlamesUnknown(r, out.result)
    ensures depth == 0 ==> out == Run(Err(RangeError(StackExhausted)), r)
  {
    if depth == 0 then Run(Err(RangeError(StackExhausted)), r)
    else Inject(r, ByName(id), fx, depth - 1)
  }
}
