# Enhanced load-time weaver starter: activation protocol in Dafny

This project models the activation protocol of the Spring Boot starter that
turns on AspectJ load-time weaving from a single marker annotation,
`@EnableEnhancedLoadTimeWeaving`, and proves properties of it.

On the application-prepared event, `ApplicationPreparedListener`:

1. normalises the application's startup sources into loaded class handles
   (`transform`);
2. looks for the marker on those classes and insists on at most one
   (`findEnhancedLoadTimeWeaverAnno`);
3. only if a marker was found, registers a `DefaultContextLoadTimeWeaver` bean
   definition under `loadTimeWeaver` with infrastructure role, and adds a
   `LoadTimeWeavingRegistryPostProcessor` carrying the marker's attributes;
4. that post-processor, declared at `HIGHEST_PRECEDENCE`, later decides from
   the tri-state `aspectjWeaving` mode (DISABLED, AUTODETECT, ENABLED) whether
   to call `AspectJWeavingEnabler.enableAspectJWeaving` with the weaver bean
   and the bean class loader.

Modules and files:

| file | module | models |
|---|---|---|
| `wrappers.dfy` | `Wrappers` | `Option` (a nullable reference) and `Result` (a value or the exception that aborts startup) |
| `annotation.dfy` | `EnableEnhancedLoadTimeWeaving` | the marker annotation, its single mode attribute and its default |
| `container.dfy` | `Container` | the container's collaborators as data: class handles, sources, class loader, bean definitions, registry, recorded weaving call, well-known constants |
| `post_processor.dfy` | `RegistryPostProcessor` | the inner class `LoadTimeWeavingRegistryPostProcessor` (phase 2) |
| `listener.dfy` | `ApplicationPreparedListener` | `transform`, marker detection, registration, `onApplicationEvent`, and both phases run together |
| `scenarios.dfy` | `Scenarios` | concrete bootstrap runs whose outcomes the contracts determine |

Collaborators become parameters and data:

- The class loader (`Container.ClassLoader`) is a partial map from qualified
  names to class handles plus the set of resources it can find; `aop.xml`
  presence is membership of `META-INF/aop.xml` in that set. The context class
  loader (used to resolve source names) and the bean factory's bean class
  loader (used to probe `aop.xml`) are separate values, as in the source.
- Annotation introspection is the total function `Introspect` on a class
  handle, which carries the marker as written (`Declaration`); reading it
  fills in the AUTODETECT default.
- The registry is a map from bean name to definition, tagged with whether it
  is a `DefaultListableBeanFactory`. The bean class loader is carried by that
  variant only, because the post-processor reads it only after its
  `instanceof DefaultListableBeanFactory` test (line 142).
- A class handle is identified, as a Java `Class` is, by its name together
  with the loader that defined it, so two copies of one class defined by
  different loaders are two elements of the scanned set.
- The weaving engine is not executed; its `enableAspectJWeaving` call is
  returned as an `Effect` value. `getBean` is modelled as the instance built
  from the stored definition.
- `transform` iterates whatever set `getAllSources()` returns, and the
  detection iterates the set built by `Collectors.toSet()`; the model fixes no
  order. `Transform` and `FindEnhancedLoadTimeWeaverAnno` are loops that pick
  an arbitrary remaining element each time, so their contracts hold for every
  iteration order. On a resolution failure the reported name is therefore
  "some unresolvable source name".
- The listener's two phases are kept separate: phase 1
  (`OnApplicationEvent`) returns the updated context, phase 2
  (`PostProcessBeanDefinitionRegistry`) is a pure step over the registry
  returning the optional weaving call. `Bootstrap` runs both on the same bean
  factory.

Two details of the code the model follows:

- On two or more marked classes, the diagnostic carries the entire scanned
  class set, not only the marked classes. It therefore names every marked
  class, which `FindEnhancedLoadTimeWeaverAnno` proves.
- `isWeaverEnabled` is evaluated before the check that the weaver key is
  registered, not only when a weaver definition exists. It has no side
  effects, so the apply step's outcome is the same.

## Model

| member | source | states |
|---|---|---|
| EnableEnhancedLoadTimeWeaving.FromDeclaration | src/main/java/com/study/annotation/EnableEnhancedLoadTimeWeaving.java:16-21 | a mode written on the marker is read back as written; an omitted mode reads as AUTODETECT |
| EnableEnhancedLoadTimeWeaving.EveryModeIsDeclarable | src/main/java/com/study/annotation/EnableEnhancedLoadTimeWeaving.java:16-24 | every mode value reflection can report (DISABLED, AUTODETECT, ENABLED, the marker's only attribute) is reproduced by declaring it explicitly |
| RegistryPostProcessor.AopXmlPresent | src/main/java/com/study/listener/ApplicationPreparedListener.java:176 | the AUTODETECT probe holds exactly when `getResource("META-INF/aop.xml")` on the bean class loader is not null |
| RegistryPostProcessor.IsWeaverEnabled | src/main/java/com/study/listener/ApplicationPreparedListener.java:168-188 | DISABLED gives false and ENABLED gives true whatever the class path holds; AUTODETECT gives true iff the bean class loader finds `META-INF/aop.xml` |
| RegistryPostProcessor.DecisionIgnoresResourcesUnlessAutodetect | src/main/java/com/study/listener/ApplicationPreparedListener.java:171-186 | under DISABLED or ENABLED any two class loaders yield the same decision |
| RegistryPostProcessor.DecisionMonotoneInResources | src/main/java/com/study/listener/ApplicationPreparedListener.java:175-182 | a loader that finds more resources never turns weaving off |
| RegistryPostProcessor.OmittedModeDecidesAsAutodetect | src/main/java/com/study/annotation/EnableEnhancedLoadTimeWeaving.java:21 | a marker with no explicit mode decides exactly as AUTODETECT: weaving iff `aop.xml` is present |
| RegistryPostProcessor.PostProcessBeanDefinitionRegistry | src/main/java/com/study/listener/ApplicationPreparedListener.java:136-155 | at most one `enableAspectJWeaving` call, made iff attributes are present, the registry is the default bean factory, `loadTimeWeaver` is registered and the decision is true; it receives the bean built from the definition under that key and the bean class loader; with null attributes nothing happens |
| RegistryPostProcessor.GetOrder | src/main/java/com/study/listener/ApplicationPreparedListener.java:158-161 | the declared order is the least Java `int`: no `int` lies below it |
| RegistryPostProcessor.PrecedesEveryOrder | src/main/java/com/study/listener/ApplicationPreparedListener.java:124-125 | the processor's order is less than or equal to the order of every other ordered processor |
| RegistryPostProcessor.PostProcessBeanFactory | src/main/java/com/study/listener/ApplicationPreparedListener.java:163-166 | the bean-factory callback is a no-op |
| ApplicationPreparedListener.Transform | src/main/java/com/study/listener/ApplicationPreparedListener.java:82-95 | succeeds iff every name source resolves through the loader, and then yields exactly the class sources plus the resolved names (other sources dropped, duplicates collapsed); otherwise fails naming an unresolvable name source, with no partial result |
| ApplicationPreparedListener.OtherSourcesIgnored | src/main/java/com/study/listener/ApplicationPreparedListener.java:83-85 | adding a source that is neither a class nor a name changes neither the result nor whether the scan succeeds |
| ApplicationPreparedListener.SourcesContribute | src/main/java/com/study/listener/ApplicationPreparedListener.java:86-93 | every class source appears in the result unchanged, and every resolvable name contributes the class the loader resolves for it |
| ApplicationPreparedListener.ResolutionIdempotent | src/main/java/com/study/listener/ApplicationPreparedListener.java:82-95 | normalising the normalised classes again, as class sources, gives the same set |
| ApplicationPreparedListener.Introspect | src/main/java/com/study/listener/ApplicationPreparedListener.java:98-106 | the per-class step yields null exactly for a class without the marker, and otherwise the marker's attributes with defaults filled in (an omitted mode reads as AUTODETECT) |
| ApplicationPreparedListener.FindEnhancedLoadTimeWeaverAnno | src/main/java/com/study/listener/ApplicationPreparedListener.java:97-114 | no marked class gives none; exactly one gives that class's attributes; two or more fail with a diagnostic holding the scanned set, which contains every marked class |
| ApplicationPreparedListener.RegisterLoadTimeWeaverBeanDefinition | src/main/java/com/study/listener/ApplicationPreparedListener.java:66-80 | the key `loadTimeWeaver` is added (or replaced) with a `DefaultContextLoadTimeWeaver` definition of infrastructure role; no other key is added and no other entry changes |
| ApplicationPreparedListener.RegisterWhenFound | src/main/java/com/study/listener/ApplicationPreparedListener.java:58-63 | the context changes iff attributes were found; then the weaver is registered and one post-processor carrying those attributes is appended, with nothing else changed |
| ApplicationPreparedListener.RegistrationIgnoresMode | src/main/java/com/study/listener/ApplicationPreparedListener.java:60 | the registry after registration is the same whatever mode the marker carries |
| ApplicationPreparedListener.ScanSources | src/main/java/com/study/listener/ApplicationPreparedListener.java:55-57 | fails iff a source name does not resolve or two or more resolved classes are marked, reporting the bad name or the scanned set; otherwise yields the one marked class's attributes, or none when none is marked |
| ApplicationPreparedListener.OnApplicationEvent | src/main/java/com/study/listener/ApplicationPreparedListener.java:51-64 | aborts exactly as the scan does; with no marked class the context is unchanged; with one, the weaver is registered and the post-processor scheduled with its attributes |
| ApplicationPreparedListener.ApplyAfterRegistration | src/main/java/com/study/listener/ApplicationPreparedListener.java:142-152 | applied right after registration, the key guard always holds, so weaving is engaged iff the registry is the default bean factory and the mode decides true, and the engine receives the registered weaver |
| ApplicationPreparedListener.Bootstrap | src/main/java/com/study/listener/ApplicationPreparedListener.java:55-63 | over both phases: no marked class means no registration and no weaving call; one marked class means registration whatever the mode and a weaving call iff the default bean factory's decision is true; an abort means no weaving call |
| Scenarios.NoMarker | src/main/java/com/study/listener/ApplicationPreparedListener.java:57-58 | one unmarked class: the context is unchanged and the engine is not called |
| Scenarios.MarkedEnabled | src/main/java/com/study/listener/ApplicationPreparedListener.java:183-185 | one class marked ENABLED: exactly the weaver is registered and the engine is called with it, even without `aop.xml` |
| Scenarios.MarkedAutodetect | src/main/java/com/study/listener/ApplicationPreparedListener.java:175-182 | one class marked AUTODETECT: the weaver is registered either way, and the engine is called iff `aop.xml` is present |
| Scenarios.TwoMarkers | src/main/java/com/study/listener/ApplicationPreparedListener.java:108-111 | two marked classes abort startup with a diagnostic naming both, and the engine is not called |
| Scenarios.TwoCopiesOfOneClass | src/main/java/com/study/listener/ApplicationPreparedListener.java:86-110 | a marked class given as a handle and again by a name the context loader resolves to its own copy yields two marked classes, so startup aborts naming both copies |
| Scenarios.UnknownName | src/main/java/com/study/listener/ApplicationPreparedListener.java:86-91 | a source name the loader cannot resolve aborts startup with that name, even beside a valid class source |

## Left out

- Real class loading and reflection: `ClassUtils.forName` becomes a map lookup, so primitive and array type names and failures other than "not found" (linkage errors and the like, also caught at line 89) are not modelled separately; any such failure is a name missing from the map.
- Composed annotations: `StandardAnnotationMetadata` also finds the marker through a meta-annotation; `Class.annotation` stands for the marker as found, however it is attached.
- The `@Target(TYPE)` and `@Retention(RUNTIME)` meta-annotations are reflected only structurally (the marker is a field of a class handle and `Introspect` is total); no member states them.
- Bean definition details: `setSource(application)`, the generic definition's other fields, and aliases are not modelled.
- RegisterLoadTimeWeaverBeanDefinition: an existing `loadTimeWeaver` definition is replaced; whether Spring rejects the override instead depends on container settings that are not part of this model.
- `getBean` instantiation: the weaver bean is the instance of the stored definition; construction failures are not modelled.
- `AspectJWeavingEnabler.enableAspectJWeaving` internals and the bytecode weaving itself: the call is recorded as an effect only.
- Spring's post-processor scheduling: the model proves the processor's order is the least `int`, not the container's sorting of processors by order.
- Event dispatch: what calls `onApplicationEvent` is outside the model; `Bootstrap` runs the post-processor this listener scheduled right after the event.
- The unused constants `ASPECTJ_WEAVING_ENABLER_BEAN_NAME` and `ASPECTJ_WEAVING_ENABLER_CLASS_NAME` (lines 42-44) take part in no behaviour and are not modelled.
- SLF4J debug logging (lines 48, 103, 127, 139) has no semantic effect.
- Which unresolvable name is reported when several do not resolve depends on the iteration order of the source set; the model promises only that the reported name is one of them.
