/** Concrete bootstrap runs. Each method drives `Bootstrap` on a small
    application and states the outcome its contract forces: registration,
    the weaving-engine call, or the abort. */
module Scenarios {
  import opened Wrappers
  import opened EnableEnhancedLoadTimeWeaving
  import opened Container
  import opened RegistryPostProcessor
  import opened ApplicationPreparedListener

  /** A configuration class without the marker. */
  const TypeX: Class := Class("com.example.TypeX", "app", None)

  /** A configuration class carrying the marker with the given mode. */
  function Marker(name: string, mode: AspectJWeaving): Class {
    Class(name, "app", Some(Declaration(Some(mode))))
  }

  /** A loader that resolves no names and finds `aop.xml` iff asked to. */
  function Loader(withAopXml: bool): ClassLoader {
    ClassLoader(map[], if withAopXml then {AspectJAopXmlResource} else {})
  }

  /** A fresh context whose bean factory is a default listable one. */
  function Fresh(loader: ClassLoader): Context {
    Context(BeanFactory(map[], DefaultListableBeanFactory(loader)), [], loader)
  }

  lemma ResolvedClassSources(a: Class, b: Class, loader: ClassLoader)
    ensures Resolved({ClassSource(a)}, loader) == {a}
    ensures Resolved({ClassSource(a), ClassSource(b)}, loader) == {a, b}
  {
  }

  lemma ResolvedClassAndName(a: Class, n: string, loader: ClassLoader)
    requires n in loader.classes
    ensures AllResolvable({ClassSource(a), NameSource(n)}, loader)
    ensures Resolved({ClassSource(a), NameSource(n)}, loader) == {a, loader.classes[n]}
  {
  }

  /** One unmarked class: no marked class, so nothing is registered and the engine
      is not called. */
  method NoMarker() returns (r: Result<Context, Failure>, effect: Option<Effect>)
    ensures r == Ok(Fresh(Loader(true)))
    ensures effect == None
  {
    ResolvedClassSources(TypeX, TypeX, Loader(true));
    assert Marked({TypeX}) == {};
    r, effect := Bootstrap({ClassSource(TypeX)}, Fresh(Loader(true)));
  }

  /** One class marked ENABLED: so the weaver is registered and
      handed to the engine with the bean class loader, even without
      `aop.xml`. */
  method MarkedEnabled() returns (r: Result<Context, Failure>, effect: Option<Effect>)
    ensures r.Ok? && r.value.beanFactory.definitions == map[LoadTimeWeaverBeanName := WeaverDefinition]
    ensures effect == Some(EnableAspectJWeaving(Instance(WeaverDefinition), Loader(false)))
  {
    var y := Marker("com.example.TypeY", Enabled);
    ResolvedClassSources(y, y, Loader(false));
    assert Marked({y}) == {y};
    r, effect := Bootstrap({ClassSource(y)}, Fresh(Loader(false)));
  }

  /** One class marked AUTODETECT: the weaver is
      registered in both cases and the engine is called iff `aop.xml` is
      present. */
  method MarkedAutodetect(withAopXml: bool) returns (r: Result<Context, Failure>, effect: Option<Effect>)
    ensures r.Ok? && r.value.beanFactory.definitions == map[LoadTimeWeaverBeanName := WeaverDefinition]
    ensures effect.Some? <==> withAopXml
    ensures effect.Some? ==> effect.value == EnableAspectJWeaving(Instance(WeaverDefinition), Loader(true))
  {
    var y := Marker("com.example.TypeY", Autodetect);
    ResolvedClassSources(y, y, Loader(withAopXml));
    assert Marked({y}) == {y};
    r, effect := Bootstrap({ClassSource(y)}, Fresh(Loader(withAopXml)));
  }

  /** Two marked classes abort startup, and the diagnostic names
      both of them; the engine is not called. */
  method TwoMarkers() returns (r: Result<Context, Failure>, effect: Option<Effect>)
    ensures r.Err? && r.error.AmbiguousMarkers?
    ensures Marker("com.example.TypeY", Enabled) in r.error.scanned
    ensures Marker("com.example.TypeZ", Disabled) in r.error.scanned
    ensures effect == None
  {
    var y := Marker("com.example.TypeY", Enabled);
    var z := Marker("com.example.TypeZ", Disabled);
    ResolvedClassSources(y, z, Loader(false));
    assert Marked({y, z}) == {y, z};
    assert |{y, z}| == 2;
    r, effect := Bootstrap({ClassSource(y), ClassSource(z)}, Fresh(Loader(false)));
  }

  /** A source name the loader cannot resolve aborts startup, reporting that
      name, even when the other sources are fine. */
  method UnknownName() returns (r: Result<Context, Failure>, effect: Option<Effect>)
    ensures r == Err(ClassNotFound("com.example.Missing"))
    ensures effect == None
  {
    var sources := {ClassSource(TypeX), NameSource("com.example.Missing")};
    assert !Resolvable(NameSource("com.example.Missing"), Loader(true));
    assert Resolvable(ClassSource(TypeX), Loader(true));
    r, effect := Bootstrap(sources, Fresh(Loader(true)));
  }

  /** The same marked class reached twice, once as a class handle defined by
      one loader and once by a name the context class loader resolves to its
      own copy: the two copies are different classes, so startup aborts as
      for any two marked classes. */
  method TwoCopiesOfOneClass() returns (r: Result<Context, Failure>, effect: Option<Effect>)
    ensures r.Err? && r.error.AmbiguousMarkers?
    ensures Class("com.example.App", "app", Some(Declaration(None))) in r.error.scanned
    ensures Class("com.example.App", "restart", Some(Declaration(None))) in r.error.scanned
    ensures effect == None
  {
    var original := Class("com.example.App", "app", Some(Declaration(None)));
    var copy := Class("com.example.App", "restart", Some(Declaration(None)));
    var loader := ClassLoader(map["com.example.App" := copy], {});
    var sources := {ClassSource(original), NameSource("com.example.App")};
    ResolvedClassAndName(original, "com.example.App", loader);
    assert Marked({original, copy}) == {original, copy};
    assert |{original, copy}| == 2;
    r, effect := Bootstrap(sources, Fresh(loader));
  }
}
