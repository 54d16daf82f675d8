# GuiceRegistry, modelled in Dafny

`GuiceRegistry` is the Guice-backed implementation of the lunarray model
framework's `Registry<Key<?>>`. The model-construction pipeline uses it to
look up its pluggable extensions, such as object factories, dictionaries and
converters. It offers four queries over a Guice `Injector`:

- `lookup(Class)`: the injector's instance for the class.
- `lookup(Class, Key)`: the instance bound at a key, checked against the class after resolution.
- `lookup(Key)`: the instance bound at a key, untyped.
- `lookupAll(Class)`: every binding key whose raw type is assignable to the class.

Every failure is the single `RegistryException`. A `null` argument is refused
before the injector is consulted. A Guice `ConfigurationException` becomes the
cause of the `RegistryException` and does not propagate itself.

Files:

- `wrappers.dfy`: `Option`, where `None` stands for a Java `null`.
- `guice.dfy`: the collaborators, stated abstractly. Java classes are names. The class hierarchy is a map from each class to its supertypes, and `isAssignableFrom` and `isInstance` are defined on it. The injector is the map `getAllBindings()` returns (each key with the instance it provides) plus the types Guice can build just in time. `GetInstance` is `Injector.getInstance(Key)`. `getInstance(Class)` is `GetInstance` on `Key.get(Class)`, as in Guice. `Conforms` is Guice's type safety: every binding provides an instance of its key's raw type.
- `registry.dfy`: the registry. The three `lookup` overloads are functions returning a `Result`. `lookupAll` is a method whose loop scans the bindings. The lemmas relate the operations to each other.
- `scenarios.dfy`: the configuration of the test suite (`ExtensionsModule` plus `ModelModule`), with the outcomes its tests expect, proved as lemmas. Its injector holds the keys `getAllBindings()` reports for that configuration: the bound types, the just-in-time keys of linked and provider targets, and Guice's own `Injector`, `Logger` and `Stage` bindings.

`RegistryException` carries an optional cause. It is the wrapped
`ConfigurationException` when the injector failed, and `None` when the registry
refused on its own: a `null` argument or an instance of the wrong type. The
source makes the same distinction by passing `e` as the cause at some throw
sites and not at others. In the model this makes "no container call" visible:
a refused `null` argument has no cause, and the outcome is the same for every
injector.

## Model

| member | source | states |
|---|---|---|
| `GuiceRegistry.LookupByType` | src/main/java/org/lunarray/model/descriptor/registry/guice/GuiceRegistry.java:63-73 | A `null` class is refused with no cause. Otherwise the lookup succeeds exactly when the injector resolves the class's unannotated key, and it returns that instance. A failure wraps the injector's `ConfigurationException` for that key. |
| `GuiceRegistry.LookupByTypeAndKey` | src/main/java/org/lunarray/model/descriptor/registry/guice/GuiceRegistry.java:77-93 | A `null` class or a `null` key is refused with no cause. The lookup succeeds exactly when the key resolves to an instance of the class. A failure that has a cause means the key was unresolvable, and the cause is the injector's exception. |
| `GuiceRegistry.LookupByKey` | src/main/java/org/lunarray/model/descriptor/registry/guice/GuiceRegistry.java:97-107 | A `null` key is refused with no cause. Otherwise the lookup succeeds exactly when the key resolves, with the injector's instance. A failure wraps the `ConfigurationException` for that key. |
| `GuiceRegistry.LookupAll` | src/main/java/org/lunarray/model/descriptor/registry/guice/GuiceRegistry.java:111-124 | A `null` class is refused. Otherwise the method always succeeds, and a key is in the result if and only if it is a binding key whose raw type is assignable to the class. |
| `GuiceRegistry.NullArgumentsIgnoreInjector` | src/main/java/org/lunarray/model/descriptor/registry/guice/GuiceRegistry.java:63-107 | A lookup with a `null` argument gives the same refusal for every injector and class hierarchy, so the container plays no part in it. |
| `GuiceRegistry.LookupByTypeIsKeyLookup` | src/main/java/org/lunarray/model/descriptor/registry/guice/GuiceRegistry.java:68-72 | `lookup(clazz)` has the same outcome as `lookup(Key.get(clazz))`, failures included. |
| `GuiceRegistry.LookupByTypeIsInstance` | src/main/java/org/lunarray/model/descriptor/registry/guice/GuiceRegistry.java:63-69 | If the injector is type-safe, what `lookup(clazz)` returns is an instance of `clazz`, as its generic return type promises. |
| `GuiceRegistry.TypedLookupChecksKeyLookup` | src/main/java/org/lunarray/model/descriptor/registry/guice/GuiceRegistry.java:82-92 | `lookup(clazz, name)` is `lookup(name)` followed by the type check. It gives the same instance when that instance is a `clazz`. It refuses with no cause when the instance is bound but is not a `clazz`. It fails the same way as `lookup(name)` when `name` is unbound. |
| `GuiceRegistry.AssignableKeysAreBound` | src/main/java/org/lunarray/model/descriptor/registry/guice/GuiceRegistry.java:116-122 | Every key `lookupAll` returns is a key of the injector's bindings. |
| `GuiceRegistry.AssignableKeysEmpty` | src/main/java/org/lunarray/model/descriptor/registry/guice/GuiceRegistry.java:117-123 | `lookupAll` returns the empty set, not an error, exactly when no binding's raw type is assignable to the class. |
| `GuiceRegistry.PrimaryKeyIsListed` | src/main/java/org/lunarray/model/descriptor/registry/guice/GuiceRegistry.java:119-121 | A class's own unannotated binding, when it exists, is always among the keys `lookupAll` returns for that class. |
| `GuiceRegistry.AssignableKeysMonotone` | src/main/java/org/lunarray/model/descriptor/registry/guice/GuiceRegistry.java:119-121 | Asking for a supertype returns at least the keys returned for the subtype, because the match is by assignability and not by equality. |
| `GuiceRegistry.LookupAfterLookupAll` | src/test/java/org/lunarray/model/descriptor/registry/guice/GuiceRegistryTest.java:88-92 | Every key `lookupAll` returns resolves under `lookup(key)` to the instance bound at it. |
| `GuiceRegistry.TypedLookupAfterLookupAll` | src/test/java/org/lunarray/model/descriptor/registry/guice/GuiceRegistryTest.java:205-210 | If the hierarchy is well formed and the injector is type-safe, every key `lookupAll(clazz)` returns also resolves under `lookup(clazz, key)`. |
| `RegistryScenarios.TestConfigurationIsSound` | src/test/java/org/lunarray/model/descriptor/registry/guice/modules/ExtensionsModule.java:42-46 | The test configuration's hierarchy is well formed and its injector, holding the bindings of this module and of `ModelModule`, is type-safe. |
| `RegistryScenarios.LookupAllScenario` | src/test/java/org/lunarray/model/descriptor/registry/guice/GuiceRegistryTest.java:99-113 | In the test configuration, `lookupAll(Dictionary)` returns the two keys `Dictionary` and `CompositeRegistryDictionary`, and `lookupAll(Converter)` returns the empty set. |
| `RegistryScenarios.LookupScenario` | src/test/java/org/lunarray/model/descriptor/registry/guice/GuiceRegistryTest.java:66-178 | The expected outcomes of the single lookups in the test suite. `Dictionary` is found. `Converter` fails with a wrapped cause. Every `null` argument is refused, including `lookup(null, null)`. The key named "nonexistant" fails under both keyed lookups. |
| `RegistryScenarios.LookupAfterLookupAllScenario` | src/test/java/org/lunarray/model/descriptor/registry/guice/GuiceRegistryTest.java:205-210 | A key drawn from the two returned by `lookupAll(Dictionary)` resolves under `lookup(key)` and under `lookup(Dictionary.class, key)` to the bound dictionary. |

## Left out

- Provisioning failures: not every container error is wrapped. Only `ConfigurationException` is caught (GuiceRegistry.java:70, 90, 104). A `ProvisionException`, thrown when a constructor or provider fails during `getInstance`, passes through the registry unwrapped. The model's injector never fails to provision, so this path is not modelled.
- Just-in-time bindings created by earlier lookups: Guice adds them to `getAllBindings()` as a side effect. The model treats the binding map as fixed once configured.
- The mechanics of Guice: providers, scopes, singletons and the `ConfigurationException` hierarchy. They are replaced by a map from each key to the instance it provides, so repeated lookups return the same instance.
- Java reflection: `Class` objects are names, and `isAssignableFrom` and `isInstance` are defined on an explicit supertype map. `clazz.cast` is the identity.
- Null instances: an instance from the injector is a value and never `null` in the model. In the source, a `null` instance fails `clazz.isInstance` (GuiceRegistry.java:84), and the `else` branch then calls `instance.getClass()` (GuiceRegistry.java:88), so the caller would get a `NullPointerException` and not a `RegistryException`. That path is not modelled.
- SLF4J debug logging and the exception messages built with `String.format`: only the failure kind and its cause are modelled.
- `HashSet` iteration order, and concurrent reads: the loop in `LookupAll` visits the bindings in an unspecified order, and the result does not depend on that order.
- `ModelProvider.java` is not part of this model: it is one call into the external model builder, plus a cached field with a getter and a setter. `ModelModule.java` only configures bindings; the scenario's injector holds the keys it contributes (`Registry`, `GuiceRegistry`, `Model`, `ModelProvider`), with the model's runtime class standing in for the class the external builder returns.
