/**
  `GuiceRegistry`: the typed lookup facade over a Guice injector. Every
  failure is one `RegistryException`; a `null` argument is rejected before
  the injector is consulted, and a `ConfigurationException` raised by the
  injector is wrapped as the exception's cause.
 */
module GuiceRegistry {
  import opened Wrappers
  import opened Guice

  /**
    The registry's one exception kind. `cause` is the `ConfigurationException`
    it wraps when the injector could not resolve the request, and `None` when
    the registry itself refused (a `null` argument, or an instance of the
    wrong type).
   */
  datatype RegistryException = RegistryException(cause: Option<ConfigurationException>)

  /** A lookup either returns a value or throws a `RegistryException`. */
  datatype Result<+T> = Ok(value: T) | Err(error: RegistryException)

  /** The exception thrown for a failure the registry detects without the injector. */
  const Refused := RegistryException(None)

  /** `lookup(Class)`: the injector's instance for the unannotated key of `clazz`. */
  function LookupByType(inj: Injector, clazz: Option<ClassRef>): (r: Result<Instance>)
    ensures clazz.None? ==> r == Err(Refused)
    ensures r.Ok? <==> clazz.Some? && GetInstance(inj, KeyOf(clazz.value)).Provided?
    ensures r.Ok? ==> GetInstance(inj, KeyOf(clazz.value)) == Provided(r.value)
    ensures clazz.Some? && r.Err? ==>
      r.error.cause == Some(ConfigurationException(KeyOf(clazz.value)))
  {
    if clazz.None? then Err(Refused)
    else
      match GetInstance(inj, KeyOf(clazz.value))
      case Provided(o) => Ok(o)
      case Unresolvable(e) => Err(RegistryException(Some(e)))
  }

  /**
    `lookup(Class, Key)`: the instance bound at `name`, returned only when it
    is an instance of `clazz`.
   */
  function LookupByTypeAndKey(h: ClassHierarchy, inj: Injector, clazz: Option<ClassRef>, name: Option<Key>): (r: Result<Instance>)
    ensures name.None? || clazz.None? ==> r == Err(Refused)
    ensures r.Ok? <==>
      && name.Some? && clazz.Some?
      && GetInstance(inj, name.value).Provided?
      && IsInstance(h, clazz.value, GetInstance(inj, name.value).instance)
    ensures r.Ok? ==> GetInstance(inj, name.value) == Provided(r.value) && IsInstance(h, clazz.value, r.value)
    ensures r.Err? && r.error.cause.Some? ==>
      name.Some? && clazz.Some? && GetInstance(inj, name.value) == Unresolvable(r.error.cause.value)
  {
    if name.None? || clazz.None? then Err(Refused)
    else
      match GetInstance(inj, name.value)
      case Provided(o) => if IsInstance(h, clazz.value, o) then Ok(o) else Err(Refused)
      case Unresolvable(e) => Err(RegistryException(Some(e)))
  }

  /** `lookup(Key)`: the instance bound at `name`, whatever its type. */
  function LookupByKey(inj: Injector, name: Option<Key>): (r: Result<Instance>)
    ensures name.None? ==> r == Err(Refused)
    ensures r.Ok? <==> name.Some? && GetInstance(inj, name.value).Provided?
    ensures r.Ok? ==> GetInstance(inj, name.value) == Provided(r.value)
    ensures name.Some? && r.Err? ==> r.error.cause == Some(ConfigurationException(name.value))
  {
    if name.None? then Err(Refused)
    else
      match GetInstance(inj, name.value)
      case Provided(o) => Ok(o)
      case Unresolvable(e) => Err(RegistryException(Some(e)))
  }

  /** The keys `lookupAll(clazz)` collects: every binding whose raw type is assignable to `clazz`. */
  ghost function AssignableKeys(h: ClassHierarchy, inj: Injector, clazz: ClassRef): set<Key>
  {
    set k | k in inj.bindings && IsAssignableFrom(h, clazz, RawType(k))
  }

  /** `lookupAll(Class)`: scan every binding of the injector and keep the keys assignable to `clazz`. */
  method LookupAll(h: ClassHierarchy, inj: Injector, clazz: Option<ClassRef>) returns (r: Result<set<Key>>)
    ensures clazz.None? ==> r == Err(Refused)
    ensures clazz.Some? ==> r.Ok?
    ensures r.Ok? ==> r.value == AssignableKeys(h, inj, clazz.value)
  {
    if clazz.None? {
      return Err(Refused);
    }
    var target := clazz.value;
    var bindings := inj.bindings;
    var result: set<Key> := {};
    var remaining := bindings.Keys;
    while remaining != {}
      invariant remaining <= bindings.Keys
      invariant forall k :: k in result <==>
        k in bindings && k !in remaining && IsAssignableFrom(h, target, RawType(k))
      decreases remaining
    {
      var key :| key in remaining;
      if IsAssignableFrom(h, target, RawType(key)) {
        result := result + {key};
      }
      remaining := remaining - {key};
    }
    return Ok(result);
  }

  /**
    A `null` argument is refused before the injector is consulted: the outcome
    is the same whatever the injector and the class hierarchy.
   */
  lemma NullArgumentsIgnoreInjector(h1: ClassHierarchy, h2: ClassHierarchy, inj1: Injector, inj2: Injector,
                                    clazz: Option<ClassRef>, name: Option<Key>)
    ensures LookupByType(inj1, None) == LookupByType(inj2, None) == Err(Refused)
    ensures LookupByKey(inj1, None) == LookupByKey(inj2, None) == Err(Refused)
    ensures name.None? || clazz.None? ==>
      LookupByTypeAndKey(h1, inj1, clazz, name) == LookupByTypeAndKey(h2, inj2, clazz, name) == Err(Refused)
  {
  }

  /** `lookup(clazz)` behaves as `lookup(Key.get(clazz))`, errors included. */
  lemma LookupByTypeIsKeyLookup(inj: Injector, clazz: ClassRef)
    ensures LookupByType(inj, Some(clazz)) == LookupByKey(inj, Some(KeyOf(clazz)))
  {
  }

  /** What `lookup(clazz)` returns is an instance of `clazz`, given the injector's type safety. */
  lemma LookupByTypeIsInstance(h: ClassHierarchy, inj: Injector, clazz: ClassRef)
    requires Conforms(h, inj)
    requires LookupByType(inj, Some(clazz)).Ok?
    ensures IsInstance(h, clazz, LookupByType(inj, Some(clazz)).value)
  {
    GetInstanceConforms(h, inj, KeyOf(clazz));
  }

  /**
    `lookup(clazz, name)` is `lookup(name)` followed by the type check: a bound
    instance of the wrong type is refused although `name` is bound, and an
    unbound `name` fails exactly as in `lookup(name)`.
   */
  lemma TypedLookupChecksKeyLookup(h: ClassHierarchy, inj: Injector, clazz: ClassRef, name: Key)
    ensures LookupByKey(inj, Some(name)).Ok? && IsInstance(h, clazz, LookupByKey(inj, Some(name)).value) ==>
      LookupByTypeAndKey(h, inj, Some(clazz), Some(name)) == LookupByKey(inj, Some(name))
    ensures LookupByKey(inj, Some(name)).Ok? && !IsInstance(h, clazz, LookupByKey(inj, Some(name)).value) ==>
      LookupByTypeAndKey(h, inj, Some(clazz), Some(name)) == Err(Refused)
    ensures LookupByKey(inj, Some(name)).Err? ==>
      LookupByTypeAndKey(h, inj, Some(clazz), Some(name)) == LookupByKey(inj, Some(name))
  {
  }

  /** `lookupAll` only returns keys of the injector. */
  lemma AssignableKeysAreBound(h: ClassHierarchy, inj: Injector, clazz: ClassRef)
    ensures AssignableKeys(h, inj, clazz) <= inj.bindings.Keys
  {
  }

  /** `lookupAll` returns the empty set exactly when no binding's raw type is assignable to `clazz`. */
  lemma AssignableKeysEmpty(h: ClassHierarchy, inj: Injector, clazz: ClassRef)
    ensures AssignableKeys(h, inj, clazz) == {} <==>
      forall k :: k in inj.bindings ==> !IsAssignableFrom(h, clazz, RawType(k))
  {
    if exists k :: k in inj.bindings && IsAssignableFrom(h, clazz, RawType(k)) {
      var k :| k in inj.bindings && IsAssignableFrom(h, clazz, RawType(k));
      assert k in AssignableKeys(h, inj, clazz);
    }
  }

  /** The primary binding of `clazz`, when there is one, is among the keys `lookupAll(clazz)` returns. */
  lemma PrimaryKeyIsListed(h: ClassHierarchy, inj: Injector, clazz: ClassRef)
    requires KeyOf(clazz) in inj.bindings
    ensures KeyOf(clazz) in AssignableKeys(h, inj, clazz)
  {
  }

  /** Asking for a supertype never returns fewer keys: `lookupAll` matches by assignability. */
  lemma AssignableKeysMonotone(h: ClassHierarchy, inj: Injector, sub: ClassRef, super: ClassRef)
    requires WellFormed(h)
    requires IsAssignableFrom(h, super, sub)
    ensures AssignableKeys(h, inj, sub) <= AssignableKeys(h, inj, super)
  {
    forall k | k in AssignableKeys(h, inj, sub)
      ensures k in AssignableKeys(h, inj, super)
    {
      AssignableTransitive(h, RawType(k), sub, super);
    }
  }

  /** Every key `lookupAll` returns resolves under `lookup(key)` to the instance bound at it. */
  lemma LookupAfterLookupAll(h: ClassHierarchy, inj: Injector, clazz: ClassRef, key: Key)
    requires key in AssignableKeys(h, inj, clazz)
    ensures LookupByKey(inj, Some(key)) == Ok(inj.bindings[key])
  {
  }

  /**
    Every key `lookupAll(clazz)` returns also resolves under `lookup(clazz, key)`,
    provided each binding provides an instance of its key's raw type.
   */
  lemma TypedLookupAfterLookupAll(h: ClassHierarchy, inj: Injector, clazz: ClassRef, key: Key)
    requires WellFormed(h) && Conforms(h, inj)
    requires key in AssignableKeys(h, inj, clazz)
    ensures LookupByTypeAndKey(h, inj, Some(clazz), Some(key)) == Ok(inj.bindings[key])
  {
    AssignableTransitive(h, inj.bindings[key].runtimeClass, RawType(key), clazz);
  }
}
