// The tree a RichMediaAnnotation exposes (shared/include/poppler/qt6/
// poppler-annotation.h): settings with activation and deactivation conditions,
// and content made of configurations, their instances with flash parameters,
// and named assets. Every setter of the tree is private to the library, so to
// a caller the tree is a read-only value; several levels may be missing, which
// the getters report as a null pointer and the model as `None`.

module RichMedia {

  import opened QtValues

  /** RichMediaAnnotation::Params: only flash parameters are supported. */
  datatype Params = Params(flashVars: string)

  /** The media types of Instance::Type and Configuration::Type. */
  datatype MediaType = Type3D | TypeFlash | TypeSound | TypeVideo

  /** RichMediaAnnotation::Instance: one media object; its params may be missing. */
  datatype Instance = Instance(kind: MediaType, params: Option<Params>)

  /** RichMediaAnnotation::Configuration */
  datatype Configuration = Configuration(kind: MediaType, name: string, instances: seq<Instance>)

  /** RichMediaAnnotation::Asset: a name used in flash vars and the file it denotes. */
  datatype Asset = Asset(name: string, embeddedFile: Option<Handle>)

  /** RichMediaAnnotation::Content */
  datatype Content = Content(configurations: seq<Configuration>, assets: seq<Asset>)

  /** Activation::Condition */
  datatype ActivationCondition = PageOpened | PageVisible | ActivateOnUserAction

  /** Deactivation::Condition */
  datatype DeactivationCondition = PageClosed | PageInvisible | DeactivateOnUserAction

  datatype Activation = Activation(condition: ActivationCondition)

  datatype Deactivation = Deactivation(condition: DeactivationCondition)

  /** RichMediaAnnotation::Settings: each part may be missing. */
  datatype Settings = Settings(activation: Option<Activation>, deactivation: Option<Deactivation>)

  /** What a RichMediaAnnotation holds: settings and content, each may be missing. */
  datatype RichMediaTree = RichMediaTree(settings: Option<Settings>, content: Option<Content>)
}
