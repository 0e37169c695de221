/** `ApplicationPreparedListener.LoadTimeWeavingRegistryPostProcessor`: the
    highest-precedence registry post-processor that decides whether weaving is
    engaged and, if so, hands the weaver bean to the weaving engine. */
module RegistryPostProcessor {
  import opened Wrappers
  import opened EnableEnhancedLoadTimeWeaving
  import opened Container

  /** The post-processor; `enableLTW` is the marker's attributes, `None`
      standing for a null reference. */
  datatype LoadTimeWeavingRegistryPostProcessor =
    LoadTimeWeavingRegistryPostProcessor(enableLTW: Option<AnnotationAttributes>)

  /** The AUTODETECT probe: `aop.xml` counts as present exactly when
      `getResource` on the bean class loader does not return null. */
  function AopXmlPresent(beanClassLoader: ClassLoader): (present: bool)
    ensures present <==> GetResource(beanClassLoader, AspectJAopXmlResource).Some?
    ensures present <==> AspectJAopXmlResource in beanClassLoader.resources
  {
    GetResource(beanClassLoader, AspectJAopXmlResource) != None
  }

  /** The tri-state activation decision. DISABLED never engages weaving,
      ENABLED always does, and AUTODETECT engages it exactly when the bean
      class loader resolves `aop.xml`. */
  function IsWeaverEnabled(attributes: AnnotationAttributes, beanClassLoader: ClassLoader): (switchOn: bool)
    ensures attributes.aspectjWeaving == Disabled ==> !switchOn
    ensures attributes.aspectjWeaving == Enabled ==> switchOn
    ensures attributes.aspectjWeaving == Autodetect ==> (switchOn <==> AopXmlPresent(beanClassLoader))
  {
    match attributes.aspectjWeaving
    case Disabled => false
    case Autodetect => AopXmlPresent(beanClassLoader)
    case Enabled => true
  }

  /** Only AUTODETECT consults the class path: under the two explicit modes
      any two loaders give the same decision. */
  lemma DecisionIgnoresResourcesUnlessAutodetect(attributes: AnnotationAttributes, l1: ClassLoader, l2: ClassLoader)
    requires attributes.aspectjWeaving != Autodetect
    ensures IsWeaverEnabled(attributes, l1) == IsWeaverEnabled(attributes, l2)
  {
  }

  /** Adding resources to the loader can turn weaving on, never off. */
  lemma DecisionMonotoneInResources(attributes: AnnotationAttributes, l1: ClassLoader, l2: ClassLoader)
    requires l1.resources <= l2.resources
    ensures IsWeaverEnabled(attributes, l1) ==> IsWeaverEnabled(attributes, l2)
  {
  }

  /** A marker written without a mode decides exactly as one written with
      AUTODETECT: weaving is engaged iff `aop.xml` is present. */
  lemma OmittedModeDecidesAsAutodetect(beanClassLoader: ClassLoader)
    ensures IsWeaverEnabled(FromDeclaration(Declaration(None)), beanClassLoader)
         == IsWeaverEnabled(FromDeclaration(Declaration(Some(Autodetect))), beanClassLoader)
    ensures IsWeaverEnabled(FromDeclaration(Declaration(None)), beanClassLoader) <==> AopXmlPresent(beanClassLoader)
  {
  }

  /** The guards under which the apply step engages weaving: attributes are
      present, the registry is the default bean factory, the weaver key is
      registered, and the decision is true. */
  predicate WeavingEngaged(p: LoadTimeWeavingRegistryPostProcessor, registry: BeanFactory) {
    && p.enableLTW.Some?
    && registry.kind.DefaultListableBeanFactory?
    && LoadTimeWeaverBeanName in registry.definitions
    && IsWeaverEnabled(p.enableLTW.value, registry.kind.beanClassLoader)
  }

  /** `postProcessBeanDefinitionRegistry`. At most one `enableAspectJWeaving`
      call is made, exactly when every guard holds, and it receives the bean
      built from the definition stored under the weaver key together with the
      bean class loader. The registry itself is only read. */
  function PostProcessBeanDefinitionRegistry(p: LoadTimeWeavingRegistryPostProcessor, registry: BeanFactory): (effect: Option<Effect>)
    ensures effect.Some? <==> WeavingEngaged(p, registry)
    ensures effect.Some? ==>
      effect.value == EnableAspectJWeaving(Instance(registry.definitions[LoadTimeWeaverBeanName]),
                                            registry.kind.beanClassLoader)
    ensures p.enableLTW.None? ==> effect.None?
  {
    if p.enableLTW.None? then
      None
    else
      match registry.kind
      case OtherRegistry => None
      case DefaultListableBeanFactory(beanClassLoader) =>
        var switchOn := IsWeaverEnabled(p.enableLTW.value, beanClassLoader);
        if LoadTimeWeaverBeanName in registry.definitions && switchOn then
          Some(EnableAspectJWeaving(Instance(registry.definitions[LoadTimeWeaverBeanName]), beanClassLoader))
        else
          None
  }

  /** `getOrder`: the processor declares the strongest precedence a Java
      `int` can express: no Java `int` lies below it. */
  function GetOrder(p: LoadTimeWeavingRegistryPostProcessor): (order: int32)
    ensures !IsInt32(order as int - 1)
  {
    HighestPrecedence
  }

  /** Whatever orders the other post-processors declare, none is strictly
      ahead of this one. */
  lemma PrecedesEveryOrder(p: LoadTimeWeavingRegistryPostProcessor, others: seq<int32>)
    ensures forall i :: 0 <= i < |others| ==> GetOrder(p) <= others[i]
  {
  }

  /** `postProcessBeanFactory` is a no-op: the bean factory comes back as it
      went in. */
  function PostProcessBeanFactory(p: LoadTimeWeavingRegistryPostProcessor, beanFactory: BeanFactory): (after: BeanFactory)
    ensures after == beanFactory
  {
    beanFactory
  }
}
