/** The `cmf_create` configuration schema: the tree of accepted keys, their
    defaults and the one constraint (a given image `model_class` may not be
    empty). A partially specified tree (every key optional) is normalised
    into the complete record the extension consumes, or rejected. */
module Configuration {
  import opened PhpValues

  const DefaultRestControllerClass: Scalar := Bool(false)
  const DefaultRole: Scalar := Str("ROLE_ADMIN")
  const DefaultStanbolUrl: Scalar := Str("http://dev.iks-project.eu:8081")
  const DefaultFixedToolbar: Scalar := Bool(true)
  const DefaultEditorBasePath: Scalar := Str("/bundles/cmfcreate/vendor/ckeditor/")
  const DefaultAutoMapping: Scalar := Bool(true)
  const DefaultImageControllerClass: Scalar := Str(@"Symfony\Cmf\Bundle\CreateBundle\Controller\ImageController")
  const DefaultImageBasepath: Scalar := Str("/cms/media")

  /** The configuration tree as written by the application: `None` is a key left out. */
  datatype RawImage = RawImage(
    enabled: Option<bool>,
    modelClass: Option<Scalar>,
    controllerClass: Option<Scalar>,
    basepath: Option<Scalar>)

  datatype RawPhpcr = RawPhpcr(
    enabled: Option<bool>,
    managerName: Option<Scalar>,
    image: Option<RawImage>,
    delete: Option<bool>)

  datatype RawPersistence = RawPersistence(phpcr: Option<RawPhpcr>)

  datatype RawConfig = RawConfig(
    restControllerClass: Option<Scalar>,
    mapping: Option<map<string, Scalar>>,
    role: Option<Scalar>,
    stanbolUrl: Option<Scalar>,
    fixedToolbar: Option<Scalar>,
    editorBasePath: Option<Scalar>,
    plainTextTypes: Option<seq<Scalar>>,
    rdfConfigDirs: Option<seq<Scalar>>,
    autoMapping: Option<Scalar>,
    objectMapperServiceId: Option<string>,
    persistence: Option<RawPersistence>)

  /** The normalised tree. `modelClass` has no default, so it stays absent when not given. */
  datatype Image = Image(enabled: bool, modelClass: Option<Scalar>, controllerClass: Scalar, basepath: Scalar)

  datatype Phpcr = Phpcr(enabled: bool, managerName: Scalar, image: Image, delete: bool)

  datatype Persistence = Persistence(phpcr: Phpcr)

  datatype Config = Config(
    restControllerClass: Scalar,
    mapping: map<string, Scalar>,
    role: Scalar,
    stanbolUrl: Scalar,
    fixedToolbar: Scalar,
    editorBasePath: Scalar,
    plainTextTypes: seq<Scalar>,
    rdfConfigDirs: seq<Scalar>,
    autoMapping: Scalar,
    objectMapperServiceId: Option<string>,
    persistence: Persistence)

  /** The validation error the schema can raise. */
  datatype ConfigError = EmptyModelClass

  /** The tree with no key given at all. */
  const EmptyRaw: RawConfig := RawConfig(None, None, None, None, None, None, None, None, None, None, None)

  /** What the schema accepts of an image block: a given model class must not be empty. */
  predicate ImageAcceptable(modelClass: Option<Scalar>) {
    modelClass.None? || !IsEmpty(modelClass.value)
  }

  function NormalizeImage(raw: Option<RawImage>): Result<Image, ConfigError> {
    match raw
    case None => Success(Image(false, None, DefaultImageControllerClass, DefaultImageBasepath))
    case Some(i) =>
      if !ImageAcceptable(i.modelClass) then Failure(EmptyModelClass)
      else Success(Image(
        i.enabled.GetOr(false),
        i.modelClass,
        i.controllerClass.GetOr(DefaultImageControllerClass),
        i.basepath.GetOr(DefaultImageBasepath)))
  }

  function NormalizePhpcr(raw: Option<RawPhpcr>): Result<Phpcr, ConfigError> {
    var p := raw.GetOr(RawPhpcr(None, None, None, None));
    match NormalizeImage(p.image)
    case Failure(e) => Failure(e)
    case Success(image) =>
      Success(Phpcr(p.enabled.GetOr(false), p.managerName.GetOr(Null), image, p.delete.GetOr(false)))
  }

  /** The image block a raw tree names, if any. */
  function RawImageOf(raw: RawConfig): Option<RawImage> {
    match raw.persistence
    case None => None
    case Some(persistence) =>
      match persistence.phpcr
      case None => None
      case Some(phpcr) => phpcr.image
  }

  /** Fills in every default and applies the schema's constraint. */
  function Normalize(raw: RawConfig): (r: Result<Config, ConfigError>)
    ensures r.Failure? <==> (RawImageOf(raw).Some? && !ImageAcceptable(RawImageOf(raw).value.modelClass))
    ensures r.Failure? ==> r.error == EmptyModelClass
    ensures r.Success? ==> ImageAcceptable(r.value.persistence.phpcr.image.modelClass)
  {
    var persistence := raw.persistence.GetOr(RawPersistence(None));
    match NormalizePhpcr(persistence.phpcr)
    case Failure(e) => Failure(e)
    case Success(phpcr) =>
      Success(Config(
        raw.restControllerClass.GetOr(DefaultRestControllerClass),
        raw.mapping.GetOr(map[]),
        raw.role.GetOr(DefaultRole),
        raw.stanbolUrl.GetOr(DefaultStanbolUrl),
        raw.fixedToolbar.GetOr(DefaultFixedToolbar),
        raw.editorBasePath.GetOr(DefaultEditorBasePath),
        raw.plainTextTypes.GetOr([]),
        raw.rdfConfigDirs.GetOr([]),
        raw.autoMapping.GetOr(DefaultAutoMapping),
        raw.objectMapperServiceId,
        Persistence(phpcr)))
  }

  /** Every key of a normalised tree written out explicitly: the inverse of `Normalize`. */
  function Explicit(c: Config): RawConfig {
    var image := c.persistence.phpcr.image;
    RawConfig(
      Some(c.restControllerClass), Some(c.mapping), Some(c.role), Some(c.stanbolUrl),
      Some(c.fixedToolbar), Some(c.editorBasePath), Some(c.plainTextTypes),
      Some(c.rdfConfigDirs), Some(c.autoMapping), c.objectMapperServiceId,
      Some(RawPersistence(Some(RawPhpcr(
        Some(c.persistence.phpcr.enabled),
        Some(c.persistence.phpcr.managerName),
        Some(RawImage(Some(image.enabled), image.modelClass, Some(image.controllerClass), Some(image.basepath))),
        Some(c.persistence.phpcr.delete))))))
  }

  /** A tree with no key given normalises to the documented defaults. */
  lemma EmptyConfigDefaults()
    ensures Normalize(EmptyRaw).Success?
    ensures var c := Normalize(EmptyRaw).value;
      && c.restControllerClass == Bool(false)
      && c.mapping == map[]
      && c.role == Str("ROLE_ADMIN")
      && c.stanbolUrl == Str("http://dev.iks-project.eu:8081")
      && c.fixedToolbar == Bool(true)
      && c.editorBasePath == Str("/bundles/cmfcreate/vendor/ckeditor/")
      && c.plainTextTypes == [] && c.rdfConfigDirs == []
      && c.autoMapping == Bool(true)
      && c.objectMapperServiceId == None
      && c.persistence.phpcr == Phpcr(false, Null, Image(false, None, DefaultImageControllerClass, Str("/cms/media")), false)
  {
  }

  /** Normalisation keeps every key that was given and gives each key left out its
      documented default, key by key and independently of the other keys. */
  lemma NormalizeKeepsGivenKeys(raw: RawConfig)
    requires Normalize(raw).Success?
    ensures var c := Normalize(raw).value;
      && c.restControllerClass == (if raw.restControllerClass.Some? then raw.restControllerClass.value else Bool(false))
      && c.mapping == (if raw.mapping.Some? then raw.mapping.value else map[])
      && c.role == (if raw.role.Some? then raw.role.value else Str("ROLE_ADMIN"))
      && c.stanbolUrl == (if raw.stanbolUrl.Some? then raw.stanbolUrl.value else Str("http://dev.iks-project.eu:8081"))
      && c.fixedToolbar == (if raw.fixedToolbar.Some? then raw.fixedToolbar.value else Bool(true))
      && c.editorBasePath == (if raw.editorBasePath.Some? then raw.editorBasePath.value
                              else Str("/bundles/cmfcreate/vendor/ckeditor/"))
      && c.plainTextTypes == (if raw.plainTextTypes.Some? then raw.plainTextTypes.value else [])
      && c.rdfConfigDirs == (if raw.rdfConfigDirs.Some? then raw.rdfConfigDirs.value else [])
      && c.autoMapping == (if raw.autoMapping.Some? then raw.autoMapping.value else Bool(true))
      && c.objectMapperServiceId == raw.objectMapperServiceId
  {
  }

  /** A given image block keeps its model class and every key it gives; its controller class
      and basepath default to the bundle's image controller and `/cms/media`, its flag to off. */
  lemma NormalizeImageKeys(raw: RawConfig)
    requires Normalize(raw).Success?
    requires RawImageOf(raw).Some?
    ensures var image := Normalize(raw).value.persistence.phpcr.image;
      var given := RawImageOf(raw).value;
      && image.modelClass == given.modelClass
      && (given.modelClass.Some? ==> !IsEmpty(given.modelClass.value))
      && image.enabled == (given.enabled == Some(true))
      && image.controllerClass == (if given.controllerClass.Some? then given.controllerClass.value
                                   else Str(@"Symfony\Cmf\Bundle\CreateBundle\Controller\ImageController"))
      && image.basepath == (if given.basepath.Some? then given.basepath.value else Str("/cms/media"))
  {
  }

  /** The persistence block is always present: phpcr is disabled unless enabled, image likewise,
      delete is off and the manager name is null unless given. */
  lemma PhpcrDefaults(raw: RawConfig)
    requires Normalize(raw).Success?
    ensures var p := Normalize(raw).value.persistence.phpcr;
      && (raw.persistence.None? || raw.persistence.value.phpcr.None? ==>
            p == Phpcr(false, Null, Image(false, None, DefaultImageControllerClass, DefaultImageBasepath), false))
      && (raw.persistence.Some? && raw.persistence.value.phpcr.Some? ==>
            var rp := raw.persistence.value.phpcr.value;
            && p.enabled == (rp.enabled == Some(true))
            && p.delete == (rp.delete == Some(true))
            && p.managerName == rp.managerName.GetOr(Null)
            && (rp.image.None? ==> !p.image.enabled)
            && (rp.image.Some? ==> p.image.enabled == (rp.image.value.enabled == Some(true))))
  {
  }

  /** Round trip: writing a normalised tree out in full and normalising it again gives it back,
      exactly when the tree satisfies the schema's constraint. */
  lemma NormalizeExplicit(c: Config)
    ensures Normalize(Explicit(c)) == Success(c) <==> ImageAcceptable(c.persistence.phpcr.image.modelClass)
  {
  }

  /** Normalisation is idempotent: its output, written out in full, is a fixed point. */
  lemma NormalizeIdempotent(raw: RawConfig)
    requires Normalize(raw).Success?
    ensures Normalize(Explicit(Normalize(raw).value)) == Normalize(raw)
  {
  }
}
