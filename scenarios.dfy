/**
  The configuration the registry's test suite runs against: the bindings of
  `ExtensionsModule` and `ModelModule`, as `getAllBindings()` reports them.
  A linked binding (`bind(Dictionary.class).to(CompositeRegistryDictionary.class)`)
  contributes two keys: the bound interface and, created just in time, its
  target class; a provider binding (`toProvider(ModelProvider.class)`) brings
  in the provider class in the same way. Guice adds its own bindings for the
  `Injector`, the `Logger` and the `Stage`.
 */
module RegistryScenarios {
  import opened Wrappers
  import opened Guice
  import opened GuiceRegistry

  const Resource := ClassRef("org.lunarray.model.descriptor.resource.Resource")
  const SimpleClazzResource := ClassRef("org.lunarray.model.descriptor.resource.simpleresource.SimpleClazzResource")
  const ObjectFactory := ClassRef("org.lunarray.model.descriptor.objectfactory.ObjectFactory")
  const SimpleObjectFactory := ClassRef("org.lunarray.model.descriptor.objectfactory.simple.SimpleObjectFactory")
  const Dictionary := ClassRef("org.lunarray.model.descriptor.dictionary.Dictionary")
  const CompositeRegistryDictionary := ClassRef("org.lunarray.model.descriptor.dictionary.composite.registry.CompositeRegistryDictionary")
  const Converter := ClassRef("org.lunarray.model.descriptor.converter.Converter")
  const Registry := ClassRef("org.lunarray.model.descriptor.registry.Registry")
  const GuiceRegistryClass := ClassRef("org.lunarray.model.descriptor.registry.guice.GuiceRegistry")
  const Model := ClassRef("org.lunarray.model.descriptor.model.Model")
  /** The class of the model the external builder returns; its real name belongs to the builder. */
  const BuiltModel := ClassRef("org.lunarray.model.descriptor.model.BuiltModel")
  const ModelProvider := ClassRef("org.lunarray.model.descriptor.registry.guice.ModelProvider")
  const GuiceInjector := ClassRef("com.google.inject.Injector")
  const InjectorImpl := ClassRef("com.google.inject.internal.InjectorImpl")
  const Logger := ClassRef("java.util.logging.Logger")
  const Stage := ClassRef("com.google.inject.Stage")

  const Hierarchy := ClassHierarchy(map[
    SimpleClazzResource := {Resource},
    SimpleObjectFactory := {ObjectFactory},
    CompositeRegistryDictionary := {Dictionary},
    GuiceRegistryClass := {Registry},
    BuiltModel := {Model},
    InjectorImpl := {GuiceInjector}
  ])

  const TheResource := Instance(1, SimpleClazzResource)
  const TheObjectFactory := Instance(2, SimpleObjectFactory)
  const TheDictionary := Instance(3, CompositeRegistryDictionary)
  const TheRegistry := Instance(4, GuiceRegistryClass)
  const TheModel := Instance(5, BuiltModel)
  const TheModelProvider := Instance(6, ModelProvider)
  const TheInjector := Instance(7, InjectorImpl)
  const TheLogger := Instance(8, Logger)
  const TheStage := Instance(9, Stage)

  const TestInjector := Injector(
    map[
      KeyOf(Resource) := TheResource,
      KeyOf(ObjectFactory) := TheObjectFactory,
      KeyOf(SimpleObjectFactory) := TheObjectFactory,
      KeyOf(Dictionary) := TheDictionary,
      KeyOf(CompositeRegistryDictionary) := TheDictionary,
      KeyOf(Registry) := TheRegistry,
      KeyOf(GuiceRegistryClass) := TheRegistry,
      KeyOf(Model) := TheModel,
      KeyOf(ModelProvider) := TheModelProvider,
      KeyOf(GuiceInjector) := TheInjector,
      KeyOf(Logger) := TheLogger,
      KeyOf(Stage) := TheStage
    ],
    map[])

  /** The test configuration satisfies the assumptions the general lemmas make. */
  lemma TestConfigurationIsSound()
    ensures WellFormed(Hierarchy)
    ensures Conforms(Hierarchy, TestInjector)
  {
  }

  /** Both keys whose raw type is a `Dictionary` are found, and no `Converter` key. */
  lemma LookupAllScenario()
    ensures AssignableKeys(Hierarchy, TestInjector, Dictionary) == {KeyOf(Dictionary), KeyOf(CompositeRegistryDictionary)}
    ensures |AssignableKeys(Hierarchy, TestInjector, Dictionary)| == 2
    ensures AssignableKeys(Hierarchy, TestInjector, Converter) == {}
  {
    var found := AssignableKeys(Hierarchy, TestInjector, Dictionary);
    forall k | k in found
      ensures k == KeyOf(Dictionary) || k == KeyOf(CompositeRegistryDictionary)
    {
    }
    assert KeyOf(Dictionary) in found;
    assert KeyOf(CompositeRegistryDictionary) in found;
    assert KeyOf(Dictionary) != KeyOf(CompositeRegistryDictionary);
    AssignableKeysEmpty(Hierarchy, TestInjector, Converter);
  }

  /** The single-key lookups of the test suite, with their expected outcomes. */
  lemma LookupScenario()
    ensures LookupByType(TestInjector, Some(Dictionary)) == Ok(TheDictionary)
    ensures LookupByType(TestInjector, Some(Converter)) == Err(RegistryException(Some(ConfigurationException(KeyOf(Converter)))))
    ensures LookupByType(TestInjector, None) == Err(Refused)
    ensures LookupByTypeAndKey(Hierarchy, TestInjector, Some(Dictionary), Some(Key(TypeLiteral(Dictionary, []), Some("nonexistant")))).Err?
    ensures LookupByKey(TestInjector, Some(Key(TypeLiteral(Dictionary, []), Some("nonexistant")))).Err?
    ensures LookupByTypeAndKey(Hierarchy, TestInjector, None, None) == Err(Refused)
    ensures LookupByTypeAndKey(Hierarchy, TestInjector, Some(Converter), None) == Err(Refused)
    ensures LookupByTypeAndKey(Hierarchy, TestInjector, Some(Converter), Some(KeyOf(Dictionary))) == Err(Refused)
    ensures LookupByKey(TestInjector, None) == Err(Refused)
  {
  }

  /**
    A key taken from `lookupAll(Dictionary)` resolves under `lookup(key)` and
    under `lookup(Dictionary.class, key)`.
   */
  method LookupAfterLookupAllScenario() returns (keys: set<Key>, key: Key, o: Instance)
    ensures |keys| == 2 && key in keys
    ensures LookupByKey(TestInjector, Some(key)) == Ok(o)
    ensures LookupByTypeAndKey(Hierarchy, TestInjector, Some(Dictionary), Some(key)) == Ok(o)
    ensures o == TheDictionary
  {
    var r := LookupAll(Hierarchy, TestInjector, Some(Dictionary));
    LookupAllScenario();
    keys := r.value;
    key :| key in keys;
    TestConfigurationIsSound();
    TypedLookupAfterLookupAll(Hierarchy, TestInjector, Dictionary, key);
    var typed := LookupByTypeAndKey(Hierarchy, TestInjector, Some(Dictionary), Some(key));
    o := typed.value;
  }
}
