/**
 * What resolution promises: `get` never caches, `inject` builds a singleton
 * once and hands out the cached instance afterwards, a multi-instance class
 * yields a new object on every call, and `clear`/`exist` agree with what
 * resolution can find.
 */
module ResolutionFacts {
  import opened Values
  import opened Injector
  import opened Resolution
  import opened RegistrationFacts

  /** A class is looked up by its name: passing the class or its name is the same. */
  lemma ClassKeyIsName(r: Registry, c: Class, fx: Bodies, depth: nat)
    ensures Get(r, ByClass(c), fx, depth) == Get(r, ByName(c.Name()), fx, depth)
    ensures Inject(r, ByClass(c), fx, depth) == Inject(r, ByName(c.Name()), fx, depth)
    ensures Exist(r, ByClass(c)) == Exist(r, ByName(c.Name()))
  {
  }

  /** An identifier neither map knows fails `get` and `inject` alike, with a
      ReferenceError naming it, and leaves the registry as it was. */
  lemma UnknownIdentifierFails(r: Registry, k: Key, fx: Bodies, depth: nat)
    requires !Exist(r, k)
    ensures Get(r, k, fx, depth) == Run(Err(NotFound(KeyName(k))), r)
    ensures Inject(r, k, fx, depth) == Run(Err(NotFound(KeyName(k))), r)
  {
  }

  /** `get` of a stored value returns that very value and changes nothing. */
  lemma GetValueIsIdentical(r: Registry, k: Key, v: Val, fx: Bodies, depth: nat)
    requires KeyName(k) in r.factories && r.factories[KeyName(k)] == Build(v) && !v.ClassRef?
    ensures Get(r, k, fx, depth) == Run(Ok(v), r)
  {
  }

  /** `get` of a plain class constructs a new object with no arguments; only
      the identity counter moves, neither map changes. */
  lemma GetPlainClassIsNew(r: Registry, k: Key, name: string, params: Option<seq<string>>, mark: bool, fx: Bodies, depth: nat)
    requires KeyName(k) in r.factories
    requires r.factories[KeyName(k)] == Build(ClassRef(Declared(name, params, mark)))
    ensures Get(r, k, fx, depth) ==
      Run(Ok(Object(r.next, Declared(name, params, mark), Some([]))), r.(next := r.next + 1))
  {
    var c := Declared(name, params, mark);
    assert RunCtor(r, c, [], fx, depth) == Run(Ok(Some([])), r);
    assert Invoke(r, Build(ClassRef(c)), fx, depth) == New(r, c, [], fx, depth);
  }

  /** `get` of a user factory returns what the factory's body returns: the
      value it holds, unchanged and with nothing written, or whatever the
      nested `inject` of the identifier it asks for gives. */
  lemma GetFactoryResult(r: Registry, k: Key, fid: nat, fx: Bodies, depth: nat)
    requires KeyName(k) in r.factories && r.factories[KeyName(k)] == Call(Fn(fid))
    ensures fx(fid).Return? ==> Get(r, k, fx, depth) == Run(Ok(fx(fid).v), r)
    ensures fx(fid).Resolve? ==> Get(r, k, fx, depth) == Nested(r, fx(fid).id, fx, depth)
  {
    assert Invoke(r, Call(Fn(fid)), fx, depth) == RunBody(r, fx(fid), fx, depth);
  }

  /** A producer whose every successful call creates a new object. */
  predicate Creates(p: Producer, fx: Bodies)
  {
    || (p.Build? && p.payload.ClassRef?)
    || (p.Call? && p.fn.Fn? && fx(p.fn.fid).Construct?)
  }

  /** `get` never caches: each successful call of a creating producer returns
      an object no earlier call returned. */
  lemma GetCreatesFresh(r: Registry, k: Key, fx: Bodies, depth: nat)
    requires KeyName(k) in r.factories && Creates(r.factories[KeyName(k)], fx)
    ensures var out := Get(r, k, fx, depth);
      out.result.Ok? ==> out.result.value.Object? && r.next <= out.result.value.id < out.reg.next
  {
  }

  /** The first `inject` of an unbuilt singleton builds it through `get` and
      caches exactly what `get` returned. */
  lemma FirstInjectCaches(r: Registry, k: Key, fx: Bodies, depth: nat)
    requires KeyName(k) in r.singletons && r.singletons[KeyName(k)] == Null && KeyName(k) in r.factories
    ensures var built := Get(r, ByName(KeyName(k)), fx, depth);
      var out := Inject(r, k, fx, depth);
      && out.result == built.result
      && (built.result.Ok? ==> out.reg == built.reg.(singletons := built.reg.singletons[KeyName(k) := built.result.value]))
      && (built.result.Err? ==> out.reg == built.reg)
  {
  }

  /** Singleton identity: once `inject` has produced a (non-null) instance of
      a singleton-scoped identifier, every later `inject` returns that same
      instance without invoking the producer. */
  lemma SingletonIdentity(r: Registry, k: Key, fx: Bodies, depth1: nat, depth2: nat)
    requires KeyName(k) in r.singletons
    requires Inject(r, k, fx, depth1).result.Ok? && Inject(r, k, fx, depth1).result.value != Null
    ensures var first := Inject(r, k, fx, depth1);
      Inject(first.reg, k, fx, depth2) == first
  {
  }

  /** Multi-instance freshness: two successive `inject`s of a multi-instance
      identifier with a creating producer return two different objects. */
  lemma MultiInstanceFreshness(r: Registry, k: Key, fx: Bodies, depth1: nat, depth2: nat)
    requires KeyName(k) !in r.singletons && KeyName(k) in r.factories && Creates(r.factories[KeyName(k)], fx)
    requires Inject(r, k, fx, depth1).result.Ok?
    requires Inject(Inject(r, k, fx, depth1).reg, k, fx, depth2).result.Ok?
    ensures var first := Inject(r, k, fx, depth1);
      var second := Inject(first.reg, k, fx, depth2);
      first.result.value != second.result.value
  {
    var name := KeyName(k);
    var first := Inject(r, k, fx, depth1);
    GetCreatesFresh(r, ByName(name), fx, depth1);
    assert first == Get(r, ByName(name), fx, depth1);
    GetCreatesFresh(first.reg, ByName(name), fx, depth2);
    var second := Inject(first.reg, k, fx, depth2);
    assert second == Get(first.reg, ByName(name), fx, depth2);
  }

  /** `inject` of a multi-instance identifier is `get`: a value registered with
      `useValue` and `multi` comes back as that very value, every time. */
  lemma MultiValueInjectsValue(r: Registry, k: Key, v: Val, fx: Bodies, depth: nat)
    requires KeyName(k) != "" && KeyName(k) !in r.singletons && v.Truthy() && !v.ClassRef?
    ensures var r' := Register(r, Record(Some(ProvideOf(k)), None, Some(v), None, true)).reg;
      Inject(r', k, fx, depth) == Run(Ok(v), r')
  {
    UseValueScope(r, k, None, v, None, true);
  }

  /** A multi-instance registration over a singleton that is already built
      leaves the cached instance in place, so `inject` keeps returning it. */
  lemma MultiOverBuiltSingletonKeepsInstance(r: Registry, k: Key, c: Class, fx: Bodies, depth: nat)
    requires KeyName(k) != "" && KeyName(k) in r.singletons && r.singletons[KeyName(k)] != Null
    ensures var r' := Register(r, Record(Some(ProvideOf(k)), Some(ClassRef(c)), None, None, true)).reg;
      Inject(r', k, fx, depth) == Run(Ok(r.singletons[KeyName(k)]), r')
  {
    UseClassScope(r, k, c, None, None, true);
  }

  /** After `clear`, nothing exists and every identifier fails to resolve. */
  lemma ClearForgetsEverything(r: Registry, k: Key, fx: Bodies, depth: nat)
    ensures Clear(r).singletons == map[] && Clear(r).factories == map[]
    ensures !Exist(Clear(r), k)
    ensures Get(Clear(r), k, fx, depth).result == Err(NotFound(KeyName(k)))
    ensures Inject(Clear(r), k, fx, depth).result == Err(NotFound(KeyName(k)))
  {
  }

  /** `exist` answers exactly whether resolution can find a producer: it is
      false precisely when `get` fails with "does not exist" for that name. */
  lemma ExistIffResolvable(r: Registry, k: Key, fx: Bodies, depth: nat)
    requires Consistent(r)
    ensures Exist(r, k) <==> Get(r, k, fx, depth).result != Err(NotFound(KeyName(k)))
    ensures Exist(r, k) <==> Inject(r, k, fx, depth).result != Err(NotFound(KeyName(k)))
  {
  }

  /** Resolution keeps the registry consistent and never adds or removes a
      registration; a built singleton is never replaced. */
  lemma ResolutionKeepsRegistrations(r: Registry, k: Key, fx: Bodies, depth: nat)
    requires Consistent(r)
    ensures var r' := Inject(r, k, fx, depth).reg;
      && Consistent(r') && r'.factories == r.factories && r'.singletons.Keys == r.singletons.Keys
      && (forall id | id in r.singletons && r.singletons[id] != Null :: r'.singletons[id] == r.singletons[id])
    ensures var r' := Get(r, k, fx, depth).reg;
      Consistent(r') && r'.factories == r.factories && r'.singletons.Keys == r.singletons.Keys
  {
  }
}
