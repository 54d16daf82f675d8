/**
  The collaborators the registry consumes, stated abstractly: the part of Java
  reflection it uses (class identity, `isAssignableFrom`, `isInstance`) and the
  read side of a Guice `Injector` (`getInstance`, `getAllBindings`).
 */
module Guice {
  import opened Wrappers

  /** A Java class, identified by its fully qualified name. */
  datatype ClassRef = ClassRef(name: string)

  /**
    The Java class hierarchy: for each class, the set of its proper supertypes
    (superclasses and implemented interfaces, direct or not). A class without
    an entry has no supertypes besides itself.
   */
  datatype ClassHierarchy = ClassHierarchy(supertypes: map<ClassRef, set<ClassRef>>)

  /** `target.isAssignableFrom(source)`: `source` is `target` or one of its subtypes. */
  predicate IsAssignableFrom(h: ClassHierarchy, target: ClassRef, source: ClassRef)
  {
    source == target || (source in h.supertypes && target in h.supertypes[source])
  }

  /** A supertype's own supertypes are supertypes too, as in any Java class hierarchy. */
  ghost predicate WellFormed(h: ClassHierarchy)
  {
    forall a, b :: a in h.supertypes && b in h.supertypes[a] && b in h.supertypes ==>
      h.supertypes[b] <= h.supertypes[a]
  }

  /** In a well-formed hierarchy, assignability is transitive. */
  lemma AssignableTransitive(h: ClassHierarchy, a: ClassRef, b: ClassRef, c: ClassRef)
    requires WellFormed(h)
    requires IsAssignableFrom(h, b, a) && IsAssignableFrom(h, c, b)
    ensures IsAssignableFrom(h, c, a)
  {
    if a != b && b != c {
      assert h.supertypes[b] <= h.supertypes[a];
    }
  }

  /** An object handed out by the injector: its identity and its runtime class (`getClass()`). */
  datatype Instance = Instance(id: nat, runtimeClass: ClassRef)

  /** `clazz.isInstance(o)`: the runtime class of `o` is assignable to `clazz`. */
  predicate IsInstance(h: ClassHierarchy, clazz: ClassRef, o: Instance)
  {
    IsAssignableFrom(h, clazz, o.runtimeClass)
  }

  /** A Guice `TypeLiteral`: a raw class with its generic type arguments. */
  datatype TypeLiteral = TypeLiteral(rawType: ClassRef, typeArguments: seq<TypeLiteral>)

  /** A Guice `Key`: a type literal and an optional binding annotation such as `@Named("d1")`. */
  datatype Key = Key(typeLiteral: TypeLiteral, annotation: Option<string>)

  /** `Key.get(c)`: the unannotated key of a non-generic class. */
  function KeyOf(c: ClassRef): Key
  {
    Key(TypeLiteral(c, []), None)
  }

  /** The raw type of a key, `key.getTypeLiteral().getRawType()`. */
  function RawType(key: Key): ClassRef
  {
    key.typeLiteral.rawType
  }

  /** The error Guice raises when it has no binding for a key and cannot create one. */
  datatype ConfigurationException = ConfigurationException(missing: Key)

  /** What `getInstance` does: hand out an instance or raise a `ConfigurationException`. */
  datatype Resolution = Provided(instance: Instance) | Unresolvable(exception: ConfigurationException)

  /**
    The read side of an injector after configuration. `bindings` is the map
    `getAllBindings()` returns, each key with the instance its binding provides;
    `justInTime` holds the types Guice can construct on demand without an
    explicit binding (concrete classes with an injectable constructor).
   */
  datatype Injector = Injector(bindings: map<Key, Instance>, justInTime: map<TypeLiteral, Instance>)

  /**
    `injector.getInstance(key)`: an explicit binding wins; otherwise an
    unannotated key may be bound just in time; otherwise configuration fails.
   */
  function GetInstance(inj: Injector, key: Key): Resolution
  {
    if key in inj.bindings then Provided(inj.bindings[key])
    else if key.annotation.None? && key.typeLiteral in inj.justInTime then Provided(inj.justInTime[key.typeLiteral])
    else Unresolvable(ConfigurationException(key))
  }

  /**
    Guice's type safety: every binding provides an instance of its key's raw
    type, and so does every just-in-time construction.
   */
  ghost predicate Conforms(h: ClassHierarchy, inj: Injector)
  {
    && (forall k :: k in inj.bindings ==> IsInstance(h, RawType(k), inj.bindings[k]))
    && (forall t :: t in inj.justInTime ==> IsInstance(h, t.rawType, inj.justInTime[t]))
  }

  /** Under `Conforms`, whatever `getInstance(key)` hands out is an instance of the key's raw type. */
  lemma GetInstanceConforms(h: ClassHierarchy, inj: Injector, key: Key)
    requires Conforms(h, inj)
    requires GetInstance(inj, key).Provided?
    ensures IsInstance(h, RawType(key), GetInstance(inj, key).instance)
  {
    if key !in inj.bindings {
      assert key.typeLiteral in inj.justInTime;
    }
  }
}
