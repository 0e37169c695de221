/** The `@EnableEnhancedLoadTimeWeaving` marker annotation.

    The annotation targets types only and is retained at run time. Both facts
    are reflected structurally: a declaration is a field of a class handle
    (see `Container.Class`), and reading it back is a total function. */
module EnableEnhancedLoadTimeWeaving {
  import opened Wrappers

  /** Spring's `EnableLoadTimeWeaving.AspectJWeaving`: exactly three modes,
      the complete, closed state space of the activation policy. */
  datatype AspectJWeaving = Disabled | Autodetect | Enabled

  /** The value an omitted `aspectjWeaving` attribute takes. */
  const DefaultAspectJWeaving: AspectJWeaving := Autodetect

  /** The annotation as written on a class: the single attribute may be given
      explicitly or left out. The marker has no other attribute. */
  datatype Declaration = Declaration(aspectjWeaving: Option<AspectJWeaving>)

  /** The annotation's attributes as reflection reports them at run time:
      every attribute carries a value, defaults filled in. */
  datatype AnnotationAttributes = AnnotationAttributes(aspectjWeaving: AspectJWeaving)

  /** Reads a declaration back as attributes. An explicitly written mode is
      reported as written; an omitted one is reported as AUTODETECT. */
  function FromDeclaration(d: Declaration): (a: AnnotationAttributes)
    ensures d.aspectjWeaving.Some? ==> a.aspectjWeaving == d.aspectjWeaving.value
    ensures d.aspectjWeaving.None? ==> a.aspectjWeaving == Autodetect
  {
    AnnotationAttributes(d.aspectjWeaving.GetOr(DefaultAspectJWeaving))
  }

  /** Every attribute value a run-time reader can observe is the read-back of
      some declaration: writing the mode explicitly reproduces it. */
  lemma EveryModeIsDeclarable(a: AnnotationAttributes)
    ensures FromDeclaration(Declaration(Some(a.aspectjWeaving))) == a
  {
  }
}
