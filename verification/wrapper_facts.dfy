/**
 * What the constructor-injection wrapper does with the arguments it is given,
 * stated against an independent description: the scan stops at the first
 * declared position whose argument was supplied, and every position before
 * it is filled, in order, by `inject` of its declared type name.
 */
module WrapperFacts {
  import opened Values
  import opened Injector
  import opened Resolution
  import opened Decorators
  import opened RegistrationFacts

  /** The caller supplied position `j`: it exists and is not `undefined`. */
  predicate Supplied(args: seq<Val>, j: nat)
  {
    j < |args| && args[j] != Undefined
  }

  /** Where the scan from `i` stops: the first declared position with a
      supplied argument, or `|ps|` when there is none. */
  function StopIndex(ps: seq<string>, args: seq<Val>, i: nat): (k: nat)
    requires i <= |ps|
    ensures i <= k <= |ps|
    ensures k < |ps| ==> Supplied(args, k)
    ensures forall j | i <= j < k :: !Supplied(args, j)
    decreases |ps| - i
  {
    if i == |ps| then |ps|
    else if Supplied(args, i) then i
    else StopIndex(ps, args, i + 1)
  }

  /** `inject` of each name in turn, one stack level down, stopping at the
      first failure. */
  function InjectEach(r: Registry, names: seq<string>, fx: Bodies, depth: nat): (out: Run<seq<Val>>)
    ensures Evolves(r, out.reg)
    ensures out.result.Ok? ==> |out.result.value| == |names|
    decreases |names|
  {
    if |names| == 0 then Run(Ok([]), r)
    else
      var first := Nested(r, names[0], fx, depth);
      match first.result
      case Err(e) => Run(Err(e), first.reg)
      case Ok(v) =>
        var rest := InjectEach(first.reg, names[1..], fx, depth);
        match rest.result
        case Err(e) => Run(Err(e), rest.reg)
        case Ok(vs) => Run(Ok([v] + vs), rest.reg)
  }

  /** `args` with positions `i .. i + |vs|` replaced by `vs` (extending it when
      `vs` reaches past its end). */
  function Overlay(args: seq<Val>, i: nat, vs: seq<Val>): seq<Val>
    requires i <= |args|
  {
    args[..i] + vs + (if i + |vs| < |args| then args[i + |vs|..] else [])
  }

  /** Positions from `i` on that are supplied alike give the same stop. */
  lemma {:induction false} StopIndexFrame(ps: seq<string>, a: seq<Val>, b: seq<Val>, i: nat)
    requires i <= |ps|
    requires forall j :: i <= j ==> Supplied(a, j) == Supplied(b, j)
    ensures StopIndex(ps, a, i) == StopIndex(ps, b, i)
    decreases |ps| - i
  {
    if i < |ps| && !Supplied(a, i) {
      StopIndexFrame(ps, a, b, i + 1);
    }
  }

  /** Filling position `i` with `v` and then overlaying from `i + 1` is the
      same as overlaying `[v] + vs` from `i`. */
  lemma OverlayStep(args: seq<Val>, i: nat, v: Val, vs: seq<Val>)
    requires i <= |args|
    ensures Overlay(Put(args, i, v), i + 1, vs) == Overlay(args, i, [v] + vs)
  {
    var a' := Put(args, i, v);
    assert a'[..i + 1] == args[..i] + [v];
    var m := i + 1 + |vs|;
    if m < |a'| {
      assert i < |args| && |a'| == |args|;
      assert a'[m..] == args[m..];
    }
  }

  /** The wrapper's scan agrees with the independent description: the
      positions before the stop are injected in order; a stop before the end
      returns early, otherwise the injected values overlay the arguments. */
  lemma {:induction false} FillFromScan(r: Registry, ps: seq<string>, args: seq<Val>, i: nat, fx: Bodies, depth: nat)
    requires i <= |ps| && i <= |args|
    ensures var k := StopIndex(ps, args, i);
      var m := InjectEach(r, ps[i..k], fx, depth);
      FillFrom(r, ps, args, i, fx, depth) ==
        if m.result.Err? then Run(Err(m.result.error), m.reg)
        else if k < |ps| then Run(Ok(Stopped), m.reg)
        else Run(Ok(Filled(Overlay(args, i, m.result.value))), m.reg)
    decreases |ps| - i
  {
    var k := StopIndex(ps, args, i);
    if i == |ps| {
      assert ps[i..k] == [];
      assert Overlay(args, i, []) == args;
    } else if Supplied(args, i) {
      assert ps[i..k] == [];
    } else {
      var dep := Nested(r, ps[i], fx, depth);
      assert k == StopIndex(ps, args, i + 1);
      assert ps[i..k][0] == ps[i] && ps[i..k][1..] == ps[i + 1..k];
      if dep.result.Ok? {
        var v := dep.result.value;
        var args' := Put(args, i, v);
        forall j | i + 1 <= j
          ensures Supplied(args', j) == Supplied(args, j)
        {
        }
        StopIndexFrame(ps, args', args, i + 1);
        FillFromScan(dep.reg, ps, args', i + 1, fx, depth);
        var rest := InjectEach(dep.reg, ps[i + 1..k], fx, depth);
        if rest.result.Ok? {
          OverlayStep(args, i, v, rest.result.value);
        }
      }
    }
  }

  /** Manual override: when position `k` is the first supplied one, the scan
      injects exactly the positions before `k` and then returns early, so the
      supplied argument is never replaced and nothing from `k` on is resolved. */
  lemma ManualOverrideStops(r: Registry, ps: seq<string>, args: seq<Val>, k: nat, fx: Bodies, depth: nat)
    requires k < |ps| && Supplied(args, k)
    requires forall j | 0 <= j < k :: !Supplied(args, j)
    ensures var m := InjectEach(r, ps[..k], fx, depth);
      FillArgs(r, Some(ps), args, fx, depth) ==
        if m.result.Err? then Run(Err(m.result.error), m.reg) else Run(Ok(Stopped), m.reg)
  {
    assert StopIndex(ps, args, 0) == k;
    assert ps[0..k] == ps[..k];
    FillFromScan(r, ps, args, 0, fx, depth);
  }

  /** When no declared position was supplied, the wrapped constructor runs on
      the arguments with every declared position replaced, in order, by the
      injected instance; positions past the declared ones are passed on. */
  lemma MissingArgumentsInjected(r: Registry, ps: seq<string>, args: seq<Val>, fx: Bodies, depth: nat)
    requires forall j | 0 <= j < |ps| :: !Supplied(args, j)
    requires InjectEach(r, ps, fx, depth).result.Ok?
    ensures var m := InjectEach(r, ps, fx, depth);
      var a := Overlay(args, 0, m.result.value);
      && FillArgs(r, Some(ps), args, fx, depth) == Run(Ok(Filled(a)), m.reg)
      && |a| == (if |args| < |ps| then |ps| else |args|)
      && (forall j | 0 <= j < |ps| :: a[j] == m.result.value[j])
      && (forall j | |ps| <= j < |a| :: a[j] == args[j])
  {
    assert StopIndex(ps, args, 0) == |ps|;
    assert ps[0..|ps|] == ps;
    FillFromScan(r, ps, args, 0, fx, depth);
  }

  /** Without parameter-type metadata the wrapped constructor receives the
      caller's arguments unchanged and nothing is resolved. */
  lemma NoMetadataPassesArguments(r: Registry, name: string, mark: bool, wrapMark: bool, args: seq<Val>, fx: Bodies, depth: nat)
    ensures var c := Wrapped(Declared(name, None, mark), wrapMark);
      New(r, c, args, fx, depth) == Run(Ok(Object(r.next, c, Some(args))), r.(next := r.next + 1))
  {
    var c := Wrapped(Declared(name, None, mark), wrapMark);
    assert RunCtor(r, c, args, fx, depth) == Run(Ok(Some(args)), r);
  }

  /** When position `k` is the first supplied one, the wrapped constructor
      never runs: after injecting the positions before `k`, the object is
      created without its initialisation (or an earlier injection failed). */
  lemma OverrideSkipsWrappedConstructor(r: Registry, name: string, ps: seq<string>, mark: bool, wrapMark: bool,
                                        args: seq<Val>, k: nat, fx: Bodies, depth: nat)
    requires k < |ps| && Supplied(args, k)
    requires forall j | 0 <= j < k :: !Supplied(args, j)
    ensures var c := Wrapped(Declared(name, Some(ps), mark), wrapMark);
      var m := InjectEach(r, ps[..k], fx, depth);
      var out := New(r, c, args, fx, depth);
      && (m.result.Ok? ==> out == Run(Ok(Object(m.reg.next, c, None)), m.reg.(next := m.reg.next + 1)))
      && (m.result.Err? ==> out == Run(Err(m.result.error), m.reg))
  {
    ManualOverrideStops(r, ps, args, k, fx, depth);
  }

  /** The scan from `i` reaches position `j` with nothing supplied on the way,
      injects the positions before `j`, and then fails on `ps[j]`, which
      neither map knows. */
  lemma {:induction false} ScanFailsAt(r: Registry, ps: seq<string>, args: seq<Val>, i: nat, j: nat, fx: Bodies, depth: nat)
    requires i <= j < |ps| && i <= |args| && depth > 0
    requires forall t | i <= t <= j :: !Supplied(args, t)
    requires InjectEach(r, ps[i..j], fx, depth).result.Ok?
    requires ps[j] !in r.singletons && ps[j] !in r.factories
    ensures FillFrom(r, ps, args, i, fx, depth) == Run(Err(NotFound(ps[j])), InjectEach(r, ps[i..j], fx, depth).reg)
    decreases j - i
  {
    assert !Supplied(args, i);
    if i == j {
      assert ps[i..j] == [];
      assert Nested(r, ps[j], fx, depth) == Run(Err(NotFound(ps[j])), r);
    } else {
      var dep := Nested(r, ps[i], fx, depth);
      assert ps[i..j][0] == ps[i] && ps[i..j][1..] == ps[i + 1..j];
      assert dep.result.Ok?;
      var v := dep.result.value;
      var args' := Put(args, i, v);
      forall t | i + 1 <= t <= j
        ensures !Supplied(args', t)
      {
        assert !Supplied(args, t);
      }
      var rest := InjectEach(dep.reg, ps[i + 1..j], fx, depth);
      assert InjectEach(r, ps[i..j], fx, depth) == Run(Ok([v] + rest.result.value), rest.reg);
      assert FillFrom(r, ps, args, i, fx, depth) == FillFrom(dep.reg, ps, args', i + 1, fx, depth);
      ScanFailsAt(dep.reg, ps, args', i + 1, j, fx, depth);
    }
  }

  /** An unregistered parameter type at the first missing position whose type
      cannot be resolved fails with a ReferenceError naming it: the positions
      before it were injected, and the wrapped constructor never runs. */
  lemma UnregisteredParameterFails(r: Registry, name: string, ps: seq<string>, mark: bool, wrapMark: bool,
                                   args: seq<Val>, j: nat, fx: Bodies, depth: nat)
    requires j < |ps| && depth > 0
    requires forall i | 0 <= i <= j :: !Supplied(args, i)
    requires InjectEach(r, ps[..j], fx, depth).result.Ok?
    requires ps[j] !in r.singletons && ps[j] !in r.factories
    ensures var m := InjectEach(r, ps[..j], fx, depth);
      && FillArgs(r, Some(ps), args, fx, depth) == Run(Err(NotFound(ps[j])), m.reg)
      && New(r, Wrapped(Declared(name, Some(ps), mark), wrapMark), args, fx, depth) == Run(Err(NotFound(ps[j])), m.reg)
  {
    assert ps[0..j] == ps[..j];
    ScanFailsAt(r, ps, args, 0, j, fx, depth);
  }

  /** Filled arguments come from `inject`: a class whose one parameter is
      singleton-scoped receives the instance `inject` returns, and a second
      construction receives that same cached instance while touching nothing
      but the identity counter. */
  lemma ConstructionsShareSingleton(r: Registry, name: string, p: string, mark: bool, wrapMark: bool,
                                    fx: Bodies, depth1: nat, depth2: nat)
    requires p in r.singletons && depth1 > 0 && depth2 > 0
    requires Inject(r, ByName(p), fx, depth1 - 1).result.Ok?
    requires Inject(r, ByName(p), fx, depth1 - 1).result.value != Null
    ensures var c := Wrapped(Declared(name, Some([p]), mark), wrapMark);
      var dep := Inject(r, ByName(p), fx, depth1 - 1);
      var first := New(r, c, [], fx, depth1);
      && first == Run(Ok(Object(dep.reg.next, c, Some([dep.result.value]))), dep.reg.(next := dep.reg.next + 1))
      && New(first.reg, c, [], fx, depth2)
           == Run(Ok(Object(first.reg.next, c, Some([dep.result.value]))), first.reg.(next := first.reg.next + 1))
  {
    var c := Wrapped(Declared(name, Some([p]), mark), wrapMark);
    var dep := Inject(r, ByName(p), fx, depth1 - 1);
    var v := dep.result.value;
    assert Nested(r, p, fx, depth1) == dep;
    assert Put([], 0, v) == [v];
    assert FillFrom(dep.reg, [p], [v], 1, fx, depth1) == Run(Ok(Filled([v])), dep.reg);
    assert FillArgs(r, Some([p]), [], fx, depth1) == Run(Ok(Filled([v])), dep.reg);
    assert RunCtor(r, c, [], fx, depth1) == Run(Ok(Some([v])), dep.reg);
    var first := New(r, c, [], fx, depth1);
    assert dep.reg.singletons[p] == v;
    assert Nested(first.reg, p, fx, depth2) == Run(Ok(v), first.reg);
    assert FillFrom(first.reg, [p], [v], 1, fx, depth2) == Run(Ok(Filled([v])), first.reg);
    assert FillArgs(first.reg, Some([p]), [], fx, depth2) == Run(Ok(Filled([v])), first.reg);
    assert RunCtor(first.reg, c, [], fx, depth2) == Run(Ok(Some([v])), first.reg);
  }

  /** `@Provider()` gives a class the same constructor injection as `@Inject()`. */
  lemma ProviderInjectsLikeInject(r: Registry, options: Option<ProviderOptions>, target: Class,
                                  args: seq<Val>, fx: Bodies, depth: nat)
    ensures RunCtor(r, Provider(options, target), args, fx, depth) == RunCtor(r, InjectClass(target), args, fx, depth)
  {
  }

  /** A class marked by `@Provider({multi: true})` and registered through
      `useClass` without a flag becomes multi-instance. */
  lemma ProviderMarkMakesUseClassMulti(r: Registry, target: Class)
    requires target.Name() != ""
    ensures var c := Provider(Some(ProviderOptions(Some(true))), target);
      Register(r, Record(Some(ClassRef(c)), Some(ClassRef(c)), None, None, false))
        == Run(Ok(()), AsMulti(r, target.Name(), Build(ClassRef(c))))
  {
    var c := Provider(Some(ProviderOptions(Some(true))), target);
    UseClassScope(r, ByClass(c), c, None, None, false);
  }

  /** The mark is ignored when the class is registered bare or as a value. */
  lemma ProviderMarkIgnoredOutsideUseClass(r: Registry, options: Option<ProviderOptions>, target: Class, k: Key)
    requires KeyName(k) != ""
    ensures var c := Provider(options, target);
      && Register(r, Bare(ClassRef(c))) == Run(Ok(()), AsSingleton(r, target.Name(), Build(ClassRef(c))))
      && Register(r, Record(Some(ProvideOf(k)), None, Some(ClassRef(c)), None, false))
           == Run(Ok(()), AsSingleton(r, KeyName(k), Build(ClassRef(c))))
  {
    var c := Provider(options, target);
    BareClassIsSingleton(r, c);
    UseValueScope(r, k, None, ClassRef(c), None, false);
  }
}
