/** The host container's collaborators, reduced to plain data.

    - A class loader is a partial map from qualified names to class handles,
      plus the set of resource names it can resolve.
    - The bean-definition registry is a map from bean name to definition,
      tagged with whether it is a `DefaultListableBeanFactory`; the bean class
      loader is carried by that variant only, because the post-processor reads
      it only after its `instanceof DefaultListableBeanFactory` test.
    - The weaving engine is not executed: the model records the
      `AspectJWeavingEnabler.enableAspectJWeaving` call as an `Effect`. */
module Container {
  import opened Wrappers
  import opened EnableEnhancedLoadTimeWeaving

  /** `ConfigurableApplicationContext.LOAD_TIME_WEAVER_BEAN_NAME`. */
  const LoadTimeWeaverBeanName: string := "loadTimeWeaver"

  /** The class of the weaver bean the listener registers. */
  const DefaultLoadTimeWeaverClassName: string := "org.springframework.context.weaving.DefaultContextLoadTimeWeaver"

  /** `AspectJWeavingEnabler.ASPECTJ_AOP_XML_RESOURCE`, probed under AUTODETECT. */
  const AspectJAopXmlResource: string := "META-INF/aop.xml"

  /** The range of Java's 32-bit `int`. */
  predicate IsInt32(x: int) {
    -0x8000_0000 <= x < 0x8000_0000
  }

  /** Java's 32-bit `int`. */
  newtype int32 = x: int | IsInt32(x)

  /** `Ordered.HIGHEST_PRECEDENCE`, that is `Integer.MIN_VALUE`. */
  const HighestPrecedence: int32 := -0x8000_0000

  /** A loaded class handle. As for a Java `Class`, identity is the name
      together with the loader that defined the class, so two copies of one
      class loaded by different loaders are different handles. The handle
      also carries the marker declaration of the class, if any. */
  datatype Class = Class(name: string, definingLoader: string, annotation: Option<Declaration>)

  /** One element of `SpringApplication.getAllSources()`: a class handle, a
      qualified class name, or any other kind of object (a package, a
      resource, ...). */
  datatype Source =
    | ClassSource(cls: Class)
    | NameSource(name: string)
    | OtherSource(description: string)

  /** A class loader: the classes it can load by name and the resources it
      can find. */
  datatype ClassLoader = ClassLoader(classes: map<string, Class>, resources: set<string>)

  /** `ClassLoader.getResource`: the resource's location when the loader finds
      it, `None` (Java's `null`) when it does not. The location is abstracted
      to the resource name. */
  function GetResource(loader: ClassLoader, name: string): (url: Option<string>)
    ensures url.Some? <==> name in loader.resources
  {
    if name in loader.resources then Some(name) else None
  }

  /** `BeanDefinition.ROLE_APPLICATION`, `ROLE_SUPPORT`, `ROLE_INFRASTRUCTURE`. */
  datatype Role = RoleApplication | RoleSupport | RoleInfrastructure

  /** A deferred-construction descriptor. */
  datatype BeanDefinition = BeanDefinition(beanClassName: string, role: Role)

  /** Whether the registry handed to a post-processor is a
      `DefaultListableBeanFactory`, and if so its bean class loader. */
  datatype RegistryKind =
    | DefaultListableBeanFactory(beanClassLoader: ClassLoader)
    | OtherRegistry

  /** The bean-definition registry of the container. */
  datatype BeanFactory = BeanFactory(definitions: map<string, BeanDefinition>, kind: RegistryKind)

  /** The bean `getBean` returns: the instance built from a definition. */
  datatype Bean = Instance(definition: BeanDefinition)

  /** The recorded call `AspectJWeavingEnabler.enableAspectJWeaving(weaver, loader)`. */
  datatype Effect = EnableAspectJWeaving(loadTimeWeaver: Bean, classLoader: ClassLoader)
}
