/**
 * The values the container handles: classes, the JavaScript values stored in
 * and produced by the registry, the two error kinds it throws, and the keys
 * callers use to name a dependency.
 */
module Values {

  datatype Option<+T> = None | Some(value: T)

  /** A class as the container sees it.
      `Declared` is a class written by the user; `paramTypes` holds the names of
      its declared constructor parameter types when the compiler recorded them
      (None when no such metadata exists). `Wrapped` is the subclass the
      `Inject`/`Provider` decorators return around `target`. `multi` is the
      class's own "multi" mark. */
  datatype Class =
    | Declared(name: string, paramTypes: Option<seq<string>>, multi: bool)
    | Wrapped(target: Class, multi: bool)
  {
    /** The class's name; a wrapper reports the name of the class it wraps. */
    function Name(): string
    {
      match this
      case Declared(n, _, _) => n
      case Wrapped(t, _) => t.Name()
    }

    /** The parameter-type metadata recorded on this very class (not inherited). */
    function OwnParamTypes(): Option<seq<string>>
    {
      match this
      case Declared(_, ps, _) => ps
      case Wrapped(_, _) => None
    }

    /** Number of wrapping layers, the termination measure of construction. */
    function Height(): nat
    {
      match this
      case Declared(_, _, _) => 0
      case Wrapped(t, _) => 1 + t.Height()
    }
  }

  /** A JavaScript value. `Data` stands for a truthy non-function object created
      outside the model (a plain object, an array, an instance); given to
      `register` on its own it is neither an array nor a provider record,
      which have shapes of their own; `Fn` is a function
      that is not a constructor; `ClassRef` is a class used as a value;
      `Object` is an instance created by `new`, carrying a unique identity, its
      class, and the argument list its innermost declared constructor received
      (None when a constructor-injection wrapper returned before running it). */
  datatype Val =
    | Undefined
    | Null
    | Str(s: string)
    | Data(tag: nat)
    | Fn(fid: nat)
    | ClassRef(cls: Class)
    | Object(id: nat, cls: Class, init: Option<seq<Val>>)
  {
    /** JavaScript truthiness, for the values whose truthiness the model fixes. */
    predicate Truthy()
    {
      !(Undefined? || Null? || this == Str(""))
    }

    /** `typeof v === 'function'`. */
    predicate IsFunction()
    {
      Fn? || ClassRef?
    }
  }

  /** A record field that is present with a truthy value. */
  predicate Present(field: Option<Val>)
  {
    field.Some? && field.value.Truthy()
  }

  datatype Error =
    | TypeError(message: string)
    | ReferenceError(message: string)
    | RangeError(message: string)

  datatype Result<+T> = Ok(value: T) | Err(error: Error)

  /** The error `get` and `inject` throw for an identifier nobody registered. */
  function NotFound(name: string): Error
  {
    ReferenceError("Dependency `" + name + "` does not exist.")
  }

  /** The "does not exist" message determines the identifier it names. */
  lemma NotFoundNamesIdentifier(name: string)
    ensures forall other :: NotFound(other) == NotFound(name) ==> other == name
  {
    forall other | NotFound(other) == NotFound(name)
      ensures other == name
    {
      var prefix, suffix := "Dependency `", "` does not exist.";
      var m := NotFound(name).message;
      assert m == prefix + name + suffix;
      assert m == prefix + other + suffix;
      assert |other| == |name|;
      assert name == m[|prefix|..|prefix| + |name|];
      assert other == m[|prefix|..|prefix| + |other|];
    }
  }

  const InvalidProviders := "Invalid provider(s)"
  const ProvideMustBeStringOrClass := "`Provider.provide` must be a string or a Class"
  const InvalidFactory := "Invalid factory, a factory must be a function."
  /** Reading `prototype.constructor` of something that has no prototype. */
  const NoPrototype := "Cannot read property 'constructor' of undefined"
  /** Reading `.provide` of a `null` or `undefined` provider. */
  const NullProvider := "Cannot read property 'provide' of null"
  const UndefinedProvider := "Cannot read property 'provide' of undefined"
  /** Reading `.name` of missing type metadata. */
  const NoTypeMetadata := "Cannot read property 'name' of undefined"
  /** Metadata lookup on a primitive: reflect-metadata throws a bare TypeError. */
  const MetadataTargetNotObject := ""
  const ClassCalledWithoutNew := "Class constructor cannot be invoked without 'new'"
  const StackExhausted := "Maximum call stack size exceeded"

  /** What a caller passes to `get`, `inject` and `exist`: a name or a class. */
  datatype Key = ByName(name: string) | ByClass(cls: Class)

  /** The registry key a `Key` stands for: a class is looked up by its name. */
  function KeyName(k: Key): string
  {
    match k
    case ByName(n) => n
    case ByClass(c) => c.Name()
  }
}
