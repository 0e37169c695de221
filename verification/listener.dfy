/** `ApplicationPreparedListener`: on the application-prepared event it
    normalises the startup sources into class handles, looks for exactly one
    `@EnableEnhancedLoadTimeWeaving` marker among them and, only when one is
    found, registers the weaver bean definition and schedules the
    `LoadTimeWeavingRegistryPostProcessor`.

    `transform` streams over whatever set `getAllSources()` returns, and the
    detection streams over the set `Collectors.toSet()` built; the loops below
    fix no order, picking an arbitrary remaining element at each step, so
    their contracts hold for every iteration order. */
module ApplicationPreparedListener {
  import opened Wrappers
  import opened EnableEnhancedLoadTimeWeaving
  import opened Container
  import opened RegistryPostProcessor

  /** The two ways the listener aborts startup. A class name that does not
      resolve is reported by name; an ambiguous marker is reported with the
      whole scanned class set. */
  datatype Failure =
    | ClassNotFound(name: string)
    | AmbiguousMarkers(scanned: set<Class>)

  /** An entry of the context's bean-factory post-processor list: the one this
      listener adds, or one installed by someone else. */
  datatype PostProcessor =
    | LoadTimeWeaving(processor: LoadTimeWeavingRegistryPostProcessor)
    | ForeignPostProcessor(id: string)

  /** The part of the application context the listener touches. `classLoader`
      is the context class loader used to resolve source names. */
  datatype Context = Context(beanFactory: BeanFactory, beanFactoryPostProcessors: seq<PostProcessor>, classLoader: ClassLoader)

  // ---------------------------------------------------------------------
  // Source normalisation (`transform`)
  // ---------------------------------------------------------------------

  /** A source that can be turned into a class: anything but an unknown name. */
  predicate Resolvable(s: Source, loader: ClassLoader) {
    s.NameSource? ==> s.name in loader.classes
  }

  predicate AllResolvable(sources: set<Source>, loader: ClassLoader) {
    forall s :: s in sources ==> Resolvable(s, loader)
  }

  /** Reference definition of the normalised class set: every class source
      as it is, every resolvable name through the loader, nothing else. */
  function Resolved(sources: set<Source>, loader: ClassLoader): set<Class> {
    (set s | s in sources && s.ClassSource? :: s.cls)
    + (set s | s in sources && s.NameSource? && s.name in loader.classes :: loader.classes[s.name])
  }

  /** The reference set grows by exactly the class one more source
      contributes. */
  lemma ResolvedAddOne(done: set<Source>, s: Source, loader: ClassLoader)
    requires Resolvable(s, loader)
    ensures s.ClassSource? ==> Resolved(done + {s}, loader) == Resolved(done, loader) + {s.cls}
    ensures s.NameSource? ==> Resolved(done + {s}, loader) == Resolved(done, loader) + {loader.classes[s.name]}
    ensures s.OtherSource? ==> Resolved(done + {s}, loader) == Resolved(done, loader)
  {
  }

  /** `transform`. Class sources pass through unchanged, names are resolved
      through the context class loader, other sources are dropped. A name
      that does not resolve aborts the whole scan with no partial result. */
  method Transform(sources: set<Source>, loader: ClassLoader) returns (r: Result<set<Class>, Failure>)
    ensures r.Ok? <==> AllResolvable(sources, loader)
    ensures r.Ok? ==> r.value == Resolved(sources, loader)
    ensures r.Err? ==>
      && r.error.ClassNotFound?
      && NameSource(r.error.name) in sources
      && r.error.name !in loader.classes
  {
    var remaining := sources;
    var acc: set<Class> := {};
    while remaining != {}
      invariant remaining <= sources
      invariant AllResolvable(sources - remaining, loader)
      invariant acc == Resolved(sources - remaining, loader)
      decreases remaining
    {
      var s :| s in remaining;
      if s.NameSource? && s.name !in loader.classes {
        return Err(ClassNotFound(s.name));
      }
      ResolvedAddOne(sources - remaining, s, loader);
      match s {
        case ClassSource(c) =>
          acc := acc + {c};
        case NameSource(n) =>
          acc := acc + {loader.classes[n]};
        case OtherSource(_) =>
      }
      assert sources - (remaining - {s}) == (sources - remaining) + {s};
      remaining := remaining - {s};
    }
    assert sources - remaining == sources;
    return Ok(acc);
  }

  /** A source that is neither a class nor a name never contributes. */
  lemma OtherSourcesIgnored(sources: set<Source>, description: string, loader: ClassLoader)
    ensures Resolved(sources + {OtherSource(description)}, loader) == Resolved(sources, loader)
    ensures AllResolvable(sources + {OtherSource(description)}, loader) <==> AllResolvable(sources, loader)
  {
  }

  /** A class source is in the result, unchanged; a resolvable name source
      contributes the class the loader resolves for it. */
  lemma SourcesContribute(sources: set<Source>, loader: ClassLoader)
    ensures forall c :: ClassSource(c) in sources ==> c in Resolved(sources, loader)
    ensures forall n :: NameSource(n) in sources && n in loader.classes ==> loader.classes[n] in Resolved(sources, loader)
  {
  }

  /** Normalisation is idempotent: feeding the resolved classes back in as
      class sources gives the same set. */
  lemma ResolutionIdempotent(sources: set<Source>, loader: ClassLoader)
    ensures Resolved(set c | c in Resolved(sources, loader) :: ClassSource(c), loader) == Resolved(sources, loader)
  {
  }

  // ---------------------------------------------------------------------
  // Marker detection (`findEnhancedLoadTimeWeaverAnno`)
  // ---------------------------------------------------------------------

  /** The per-class step of the scan: the marker's attributes as run-time
      reflection reports them (defaults filled in), or `None` (Java's `null`)
      when the class carries no marker. It is total on every class, since the
      annotation is retained at run time. */
  function Introspect(c: Class): (attributes: Option<AnnotationAttributes>)
    ensures attributes.None? <==> c.annotation.None?
    ensures attributes.Some? ==> attributes.value == FromDeclaration(c.annotation.value)
    ensures c.annotation.Some? && c.annotation.value.aspectjWeaving.None? ==>
      attributes == Some(AnnotationAttributes(Autodetect))
  {
    match c.annotation
    case None => None
    case Some(d) => Some(FromDeclaration(d))
  }

  /** The classes of a set that carry the marker. */
  function Marked(classes: set<Class>): set<Class> {
    set c | c in classes && c.annotation.Some?
  }

  /** A one-element set has only one member. */
  lemma SingletonMembersEqual<T>(s: set<T>, a: T, b: T)
    requires |s| == 1 && a in s && b in s
    ensures a == b
  {
    if a != b {
      assert {a, b} <= s;
      assert |{a, b}| == 2;
      SubsetCardinality({a, b}, s);
      assert false;
    }
  }

  /** A subset is no larger than its superset. */
  lemma {:induction false} SubsetCardinality<T>(a: set<T>, b: set<T>)
    requires a <= b
    ensures |a| <= |b|
    decreases a
  {
    if a != {} {
      var x :| x in a;
      SubsetCardinality(a - {x}, b - {x});
    }
  }

  /** `findEnhancedLoadTimeWeaverAnno`. With no marked class the result is
      "none"; with exactly one it is that class's attributes; with two or more
      the scan fails, naming the whole scanned set (which contains every
      marked class). */
  method FindEnhancedLoadTimeWeaverAnno(classes: set<Class>) returns (r: Result<Option<AnnotationAttributes>, Failure>)
    ensures r.Err? <==> |Marked(classes)| > 1
    ensures r.Err? ==> r.error == AmbiguousMarkers(classes) && Marked(classes) <= r.error.scanned
    ensures r == Ok(None) <==> Marked(classes) == {}
    ensures forall c :: c in Marked(classes) && |Marked(classes)| == 1 ==> r == Ok(Introspect(c))
  {
    var remaining := classes;
    var found: seq<AnnotationAttributes> := [];
    ghost var owners: seq<Class> := [];
    while remaining != {}
      invariant remaining <= classes
      invariant |owners| == |found| == |Marked(classes - remaining)|
      invariant forall i :: 0 <= i < |owners| ==> owners[i] in Marked(classes) && Introspect(owners[i]) == Some(found[i])
      decreases remaining
    {
      var c :| c in remaining;
      var attributes := Introspect(c);
      ghost var visited := classes - remaining;
      assert classes - (remaining - {c}) == visited + {c};
      if attributes.Some? {
        assert Marked(visited + {c}) == Marked(visited) + {c};
        found := found + [attributes.value];
        owners := owners + [c];
      } else {
        assert Marked(visited + {c}) == Marked(visited);
      }
      remaining := remaining - {c};
    }
    assert classes - remaining == classes;
    if |found| > 1 {
      return Err(AmbiguousMarkers(classes));
    }
    if |found| == 0 {
      return Ok(None);
    }
    forall c | c in Marked(classes)
      ensures c == owners[0]
    {
      SingletonMembersEqual(Marked(classes), c, owners[0]);
    }
    return Ok(Some(found[0]));
  }

  // ---------------------------------------------------------------------
  // Conditional registration (`registerLoadTimeWeaverBeanDefinetion`,
  // `onApplicationEvent`)
  // ---------------------------------------------------------------------

  /** The definition the listener registers: the default context weaver,
      with infrastructure role. */
  const WeaverDefinition: BeanDefinition := BeanDefinition(DefaultLoadTimeWeaverClassName, RoleInfrastructure)

  /** `registerLoadTimeWeaverBeanDefinetion`: puts the weaver definition under
      `loadTimeWeaver`. Exactly that key is added or replaced; every other
      entry, and the kind of registry, stays as it was. */
  function RegisterLoadTimeWeaverBeanDefinition(registry: BeanFactory): (after: BeanFactory)
    ensures after.kind == registry.kind
    ensures after.definitions.Keys == registry.definitions.Keys + {LoadTimeWeaverBeanName}
    ensures after.definitions[LoadTimeWeaverBeanName].beanClassName == DefaultLoadTimeWeaverClassName
    ensures after.definitions[LoadTimeWeaverBeanName].role == RoleInfrastructure
    ensures forall k :: k in registry.definitions && k != LoadTimeWeaverBeanName ==>
      after.definitions[k] == registry.definitions[k]
  {
    registry.(definitions := registry.definitions[LoadTimeWeaverBeanName := WeaverDefinition])
  }

  /** Lines 58-63 of `onApplicationEvent`: only when attributes were found,
      register the weaver definition and append a post-processor carrying
      them. Without attributes the context is returned untouched. */
  function RegisterWhenFound(context: Context, found: Option<AnnotationAttributes>): (after: Context)
    ensures found.None? <==> after == context
    ensures found.Some? ==>
      && after.beanFactory == RegisterLoadTimeWeaverBeanDefinition(context.beanFactory)
      && after.beanFactoryPostProcessors
         == context.beanFactoryPostProcessors + [LoadTimeWeaving(LoadTimeWeavingRegistryPostProcessor(found))]
      && after.classLoader == context.classLoader
  {
    match found
    case None => context
    case Some(_) =>
      var registered := context.(beanFactory := RegisterLoadTimeWeaverBeanDefinition(context.beanFactory));
      var processor := LoadTimeWeaving(LoadTimeWeavingRegistryPostProcessor(found));
      registered.(beanFactoryPostProcessors := registered.beanFactoryPostProcessors + [processor])
  }

  /** The registry outcome does not depend on the mode that was found. */
  lemma RegistrationIgnoresMode(context: Context, a1: AnnotationAttributes, a2: AnnotationAttributes)
    ensures RegisterWhenFound(context, Some(a1)).beanFactory == RegisterWhenFound(context, Some(a2)).beanFactory
    ensures RegisterWhenFound(context, Some(a1)).beanFactory.definitions[LoadTimeWeaverBeanName] == WeaverDefinition
  {
  }

  /** Lines 55-57 of `onApplicationEvent`: normalise the sources with the
      context class loader, then look for the marker. Fails exactly when a
      source name does not resolve or more than one resolved class carries
      the marker; otherwise yields the attributes of the one marked class, or
      none when no class is marked. */
  method ScanSources(sources: set<Source>, loader: ClassLoader) returns (r: Result<Option<AnnotationAttributes>, Failure>)
    ensures r.Ok? <==> AllResolvable(sources, loader) && |Marked(Resolved(sources, loader))| <= 1
    ensures r.Err? && !AllResolvable(sources, loader) ==>
      && r.error.ClassNotFound?
      && NameSource(r.error.name) in sources
      && r.error.name !in loader.classes
    ensures r.Err? && AllResolvable(sources, loader) ==>
      r.error == AmbiguousMarkers(Resolved(sources, loader))
    ensures r == Ok(None) <==> AllResolvable(sources, loader) && Marked(Resolved(sources, loader)) == {}
    ensures r.Ok? ==> forall c :: c in Marked(Resolved(sources, loader)) ==> r.value == Introspect(c)
  {
    var scanned := Transform(sources, loader);
    if scanned.Err? {
      return Err(scanned.error);
    }
    r := FindEnhancedLoadTimeWeaverAnno(scanned.value);
  }

  /** `onApplicationEvent`. Aborts as the scan does; otherwise the context
      is unchanged when no class is marked, and when exactly one is, the
      weaver is registered and the post-processor scheduled with that
      class's attributes. */
  method OnApplicationEvent(sources: set<Source>, context: Context) returns (r: Result<Context, Failure>)
    ensures r.Ok? <==>
      AllResolvable(sources, context.classLoader) && |Marked(Resolved(sources, context.classLoader))| <= 1
    ensures r.Err? && !AllResolvable(sources, context.classLoader) ==>
      && r.error.ClassNotFound?
      && NameSource(r.error.name) in sources
      && r.error.name !in context.classLoader.classes
    ensures r.Err? && AllResolvable(sources, context.classLoader) ==>
      r.error == AmbiguousMarkers(Resolved(sources, context.classLoader))
    ensures r.Ok? && Marked(Resolved(sources, context.classLoader)) == {} ==> r.value == context
    ensures r.Ok? ==> forall c :: c in Marked(Resolved(sources, context.classLoader)) ==>
      r.value == RegisterWhenFound(context, Introspect(c))
  {
    var found := ScanSources(sources, context.classLoader);
    if found.Err? {
      return Err(found.error);
    }
    return Ok(RegisterWhenFound(context, found.value));
  }

  // ---------------------------------------------------------------------
  // Both phases together
  // ---------------------------------------------------------------------

  /** Phase 2 applied right after phase 1 on the same bean factory. The weaver
      key is then always present, so weaving is engaged iff the registry is
      the default bean factory and the mode decides true, and the engine
      receives the registered weaver definition. */
  lemma ApplyAfterRegistration(context: Context, attributes: AnnotationAttributes)
    ensures var prepared := RegisterWhenFound(context, Some(attributes));
      var effect := PostProcessBeanDefinitionRegistry(LoadTimeWeavingRegistryPostProcessor(Some(attributes)), prepared.beanFactory);
      && (effect.Some? <==>
           context.beanFactory.kind.DefaultListableBeanFactory?
           && IsWeaverEnabled(attributes, context.beanFactory.kind.beanClassLoader))
      && (effect.Some? ==> effect.value == EnableAspectJWeaving(Instance(WeaverDefinition), context.beanFactory.kind.beanClassLoader))
  {
  }

  /** One bootstrap pass: the listener reacts to the prepared event, and the
      post-processor it scheduled (if any) then runs against the same bean
      factory. Without a marker no weaver is registered and the engine is
      never called; with one marker the weaver is registered whatever the
      mode, and the engine is called iff the registry is the default bean
      factory and the mode decides true. Aborts as `OnApplicationEvent`
      does, and then the engine is not called. */
  method Bootstrap(sources: set<Source>, context: Context) returns (r: Result<Context, Failure>, effect: Option<Effect>)
    ensures r.Ok? <==>
      AllResolvable(sources, context.classLoader) && |Marked(Resolved(sources, context.classLoader))| <= 1
    ensures r.Err? && !AllResolvable(sources, context.classLoader) ==>
      && r.error.ClassNotFound?
      && NameSource(r.error.name) in sources
      && r.error.name !in context.classLoader.classes
    ensures r.Err? && AllResolvable(sources, context.classLoader) ==>
      r.error == AmbiguousMarkers(Resolved(sources, context.classLoader))
    ensures r.Err? ==> effect.None?
    ensures Marked(Resolved(sources, context.classLoader)) == {} ==> effect.None?
    ensures r.Ok? && Marked(Resolved(sources, context.classLoader)) == {} ==> r.value == context
    ensures r.Ok? ==> forall c :: c in Marked(Resolved(sources, context.classLoader)) ==>
      && r.value == RegisterWhenFound(context, Introspect(c))
      && (effect.Some? <==>
           context.beanFactory.kind.DefaultListableBeanFactory?
           && IsWeaverEnabled(Introspect(c).value, context.beanFactory.kind.beanClassLoader))
      && (effect.Some? ==> effect.value == EnableAspectJWeaving(Instance(WeaverDefinition), context.beanFactory.kind.beanClassLoader))
  {
    var found := ScanSources(sources, context.classLoader);
    if found.Err? {
      return Err(found.error), None;
    }
    var prepared := RegisterWhenFound(context, found.value);
    effect := None;
    if found.value.Some? {
      ApplyAfterRegistration(context, found.value.value);
      effect := PostProcessBeanDefinitionRegistry(LoadTimeWeavingRegistryPostProcessor(found.value), prepared.beanFactory);
    }
    return Ok(prepared), effect;
  }
}
