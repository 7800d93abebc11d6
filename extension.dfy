/** The bundle's container extension: `load` normalises the configuration and
    wires it into the dependency-injection container by setting parameters,
    aliasing the object mapper and adding a delete workflow to the REST
    handler; it fails when no object mapper can be resolved. */
module Extension {
  import opened PhpValues
  import opened Configuration

  /** The extension's alias (`getAlias()`), prefix of every parameter it sets. */
  const ExtensionAlias := "cmf_create"

  /** The container parameters the extension sets. */
  datatype Parameter =
    | MapParam
    | StanbolUrl
    | Role
    | FixedToolbar
    | EditorBasePath
    | PlainTextTypes
    | RdfConfigDirs
    | RestControllerClass
    | ImageEnabled
    | BackendTypePhpcr
    | PhpcrManagerName
    | PhpcrImageClass
    | PhpcrImageControllerClass
    | PhpcrImageBasepath

  /** The parameter's name in the container: the extension's alias, a dot and the key. */
  function Name(p: Parameter): string {
    match p
    case MapParam => ExtensionAlias + ".map"
    case StanbolUrl => ExtensionAlias + ".stanbol_url"
    case Role => ExtensionAlias + ".role"
    case FixedToolbar => ExtensionAlias + ".fixed_toolbar"
    case EditorBasePath => ExtensionAlias + ".editor_base_path"
    case PlainTextTypes => ExtensionAlias + ".plain_text_types"
    case RdfConfigDirs => ExtensionAlias + ".rdf_config_dirs"
    case RestControllerClass => ExtensionAlias + ".rest.controller.class"
    case ImageEnabled => ExtensionAlias + ".image_enabled"
    case BackendTypePhpcr => ExtensionAlias + ".backend_type_phpcr"
    case PhpcrManagerName => ExtensionAlias + ".persistence.phpcr.manager_name"
    case PhpcrImageClass => ExtensionAlias + ".persistence.phpcr.image.class"
    case PhpcrImageControllerClass => ExtensionAlias + ".persistence.phpcr.image_controller.class"
    case PhpcrImageBasepath => ExtensionAlias + ".persistence.phpcr.image_basepath"
  }

  /** Distinct parameters have distinct container names, so keying the container by
      `Parameter` loses nothing. */
  lemma NameInjective(p: Parameter, q: Parameter)
    ensures Name(p) == Name(q) ==> p == q
  {
    if Name(p) == Name(q) {
      // names of equal length differ in the first letter of the key
      assert |Name(p)| == |Name(q)| && Name(p)[11] == Name(q)[11];
    }
  }

  const DefaultPlainTextTypes: seq<Scalar> := [Str("dcterms:title"), Str("schema:headline")]
  const RdfMappingsDir := "/Resources/rdf-mappings"
  const ObjectMapperAlias := "cmf_create.object_mapper"
  const PhpcrObjectMapper := "cmf_create.persistence.phpcr.object_mapper"
  const DeleteWorkflow := "cmf_create.persistence.phpcr.delete_workflow"

  /** An installed bundle: the directory of its class file and whether
      `Resources/rdf-mappings` exists below it. */
  datatype Bundle = Bundle(path: string, hasRdfMappings: bool)

  datatype HttpVerb = Delete

  /** A method call added to the `cmf_create.rest.handler` service definition. */
  datatype MethodCall = SetWorkflow(verb: HttpVerb, workflow: string)

  datatype LoadError = InvalidConfiguration(error: ConfigError) | NoObjectMapper

  /** The mapping directory a single bundle contributes. */
  function BundleMappingDirs(b: Bundle): seq<Scalar> {
    if b.hasRdfMappings then [Str(b.path + RdfMappingsDir)] else []
  }

  /** The mapping directories discovered over the bundles, in bundle order. */
  function MappingDirs(bundles: seq<Bundle>): (dirs: seq<Scalar>)
    ensures |dirs| <= |bundles|
  {
    if bundles == [] then []
    else MappingDirs(bundles[..|bundles| - 1]) + BundleMappingDirs(bundles[|bundles| - 1])
  }

  /** Discovery distributes over a split of the bundle list, so the directories
      come out in bundle order. */
  lemma {:induction false} MappingDirsAppend(a: seq<Bundle>, b: seq<Bundle>)
    ensures MappingDirs(a + b) == MappingDirs(a) + MappingDirs(b)
    decreases |b|
  {
    if b == [] {
      assert a + b == a;
    } else {
      var last := |b| - 1;
      assert (a + b)[..|a + b| - 1] == a + b[..last];
      MappingDirsAppend(a, b[..last]);
    }
  }

  /** A single bundle contributes its `Resources/rdf-mappings` directory exactly when it has one. */
  lemma MappingDirsOne(b: Bundle)
    ensures MappingDirs([b]) == (if b.hasRdfMappings then [Str(b.path + "/Resources/rdf-mappings")] else [])
  {
    assert [b][..0] == [];
  }

  /** A directory is discovered exactly when some bundle has mappings below its path. */
  lemma {:induction false} MappingDirsMember(bundles: seq<Bundle>, d: string)
    ensures Str(d) in MappingDirs(bundles) <==>
      exists i :: 0 <= i < |bundles| && bundles[i].hasRdfMappings && d == bundles[i].path + RdfMappingsDir
  {
    if bundles != [] {
      var init := bundles[..|bundles| - 1];
      MappingDirsMember(init, d);
      if Str(d) in MappingDirs(bundles) && Str(d) !in MappingDirs(init) {
        var i := |bundles| - 1;
        assert bundles[i].hasRdfMappings && d == bundles[i].path + RdfMappingsDir;
      }
      if exists i :: 0 <= i < |bundles| && bundles[i].hasRdfMappings && d == bundles[i].path + RdfMappingsDir {
        var i :| 0 <= i < |bundles| && bundles[i].hasRdfMappings && d == bundles[i].path + RdfMappingsDir;
        if i < |init| {
          assert init[i] == bundles[i];
        }
      }
    }
  }

  /** The `rdf_config_dirs` parameter: the configured list, extended by discovery when enabled. */
  function ConfigDirsParameter(c: Config, bundles: seq<Bundle>): seq<Scalar>
  {
    if Truthy(c.autoMapping) then c.rdfConfigDirs + MappingDirs(bundles) else c.rdfConfigDirs
  }

  /** The parameters `load` copies from the configuration, before it resolves the backend. */
  function ConfigKeys(c: Config): set<Parameter> {
    {MapParam, StanbolUrl, Role, FixedToolbar, EditorBasePath, PlainTextTypes, RdfConfigDirs}
    + (if Truthy(c.restControllerClass) then {RestControllerClass} else {})
  }

  /** The container's parameters after `load` has copied the configuration on top of `base`. */
  function ConfigParameters(base: map<Parameter, Value>, c: Config, bundles: seq<Bundle>): (r: map<Parameter, Value>)
    ensures r.Keys == base.Keys + ConfigKeys(c)
    ensures forall k :: k in base && k !in ConfigKeys(c) ==> r[k] == base[k]
    ensures r[MapParam] == Dict(c.mapping)
    ensures r[StanbolUrl] == ScalarValue(c.stanbolUrl)
    ensures r[Role] == ScalarValue(c.role)
    ensures r[FixedToolbar] == ScalarValue(c.fixedToolbar)
    ensures r[EditorBasePath] == ScalarValue(c.editorBasePath)
    ensures c.plainTextTypes == [] ==> r[PlainTextTypes] == List([Str("dcterms:title"), Str("schema:headline")])
    ensures c.plainTextTypes != [] ==> r[PlainTextTypes] == List(c.plainTextTypes)
    ensures Truthy(c.autoMapping) ==> r[RdfConfigDirs] == List(c.rdfConfigDirs + MappingDirs(bundles))
    ensures !Truthy(c.autoMapping) ==> r[RdfConfigDirs] == List(c.rdfConfigDirs)
    ensures RestControllerClass in r && RestControllerClass !in base ==> Truthy(c.restControllerClass)
    ensures Truthy(c.restControllerClass) ==> r[RestControllerClass] == ScalarValue(c.restControllerClass)
  {
    var plainTextTypes := if c.plainTextTypes == [] then DefaultPlainTextTypes else c.plainTextTypes;
    var m := base[MapParam := Dict(c.mapping)]
                 [StanbolUrl := ScalarValue(c.stanbolUrl)]
                 [Role := ScalarValue(c.role)]
                 [FixedToolbar := ScalarValue(c.fixedToolbar)]
                 [EditorBasePath := ScalarValue(c.editorBasePath)]
                 [PlainTextTypes := List(plainTextTypes)]
                 [RdfConfigDirs := List(ConfigDirsParameter(c, bundles))];
    if Truthy(c.restControllerClass) then m[RestControllerClass := ScalarValue(c.restControllerClass)] else m
  }

  /** The parameters `loadPhpcr` writes. */
  function PhpcrKeys(p: Phpcr): set<Parameter> {
    {BackendTypePhpcr, PhpcrManagerName, ImageEnabled}
    + (if p.image.enabled then {PhpcrImageClass, PhpcrImageControllerClass, PhpcrImageBasepath} else {})
  }

  /** The container's parameters after `loadPhpcr` on top of `base`. */
  function PhpcrParameters(base: map<Parameter, Value>, p: Phpcr): (r: map<Parameter, Value>)
    ensures r.Keys == base.Keys + PhpcrKeys(p)
    ensures forall k :: k in base && k !in PhpcrKeys(p) ==> r[k] == base[k]
    ensures r[BackendTypePhpcr] == ScalarValue(Bool(true))
    ensures r[PhpcrManagerName] == ScalarValue(p.managerName)
    ensures r[ImageEnabled] == ScalarValue(Bool(p.image.enabled))
    ensures p.image.enabled ==>
      && r[PhpcrImageClass] == ScalarValue(p.image.modelClass.GetOr(Null))
      && r[PhpcrImageControllerClass] == ScalarValue(p.image.controllerClass)
      && r[PhpcrImageBasepath] == ScalarValue(p.image.basepath)
  {
    var m := base[BackendTypePhpcr := ScalarValue(Bool(true))][PhpcrManagerName := ScalarValue(p.managerName)];
    if p.image.enabled then
      m[ImageEnabled := ScalarValue(Bool(true))]
       [PhpcrImageClass := ScalarValue(p.image.modelClass.GetOr(Null))]
       [PhpcrImageControllerClass := ScalarValue(p.image.controllerClass)]
       [PhpcrImageBasepath := ScalarValue(p.image.basepath)]
    else m[ImageEnabled := ScalarValue(Bool(false))]
  }

  /** The parameters the backend resolution of `load` writes. */
  function BackendKeys(c: Config): set<Parameter> {
    if c.persistence.phpcr.enabled then PhpcrKeys(c.persistence.phpcr) else {ImageEnabled}
  }

  /** Backend resolution never overwrites a parameter copied from the configuration. */
  lemma BackendKeysDisjoint(c: Config)
    ensures ConfigKeys(c) !! BackendKeys(c)
  {
  }

  /** The container's parameters after `load` on top of `base`, whether or not it then fails. */
  function LoadParameters(base: map<Parameter, Value>, c: Config, bundles: seq<Bundle>): (r: map<Parameter, Value>)
    ensures r.Keys == base.Keys + ConfigKeys(c) + BackendKeys(c)
    ensures forall k :: k in base && k !in ConfigKeys(c) + BackendKeys(c) ==> r[k] == base[k]
    ensures forall k :: k in ConfigKeys(c) ==> r[k] == ConfigParameters(base, c, bundles)[k]
    ensures var p := c.persistence.phpcr;
      && r[ImageEnabled] == ScalarValue(Bool(p.enabled && p.image.enabled))
      && (BackendTypePhpcr in r - base.Keys ==> p.enabled)
      && (p.enabled ==> r[BackendTypePhpcr] == ScalarValue(Bool(true)) && r[PhpcrManagerName] == ScalarValue(p.managerName))
      && (PhpcrImageClass in r - base.Keys ==> p.enabled && p.image.enabled)
      && (p.enabled && p.image.enabled ==>
            && r[PhpcrImageClass] == ScalarValue(p.image.modelClass.GetOr(Null))
            && r[PhpcrImageControllerClass] == ScalarValue(p.image.controllerClass)
            && r[PhpcrImageBasepath] == ScalarValue(p.image.basepath))
  {
    BackendKeysDisjoint(c);
    var m := ConfigParameters(base, c, bundles);
    if c.persistence.phpcr.enabled then PhpcrParameters(m, c.persistence.phpcr)
    else m[ImageEnabled := ScalarValue(Bool(false))]
  }

  /** The aliases after `load` on top of `base`: phpcr's mapper first, then the explicit service id, which wins. */
  function LoadAliases(base: map<string, string>, c: Config): (r: map<string, string>)
    ensures r.Keys == base.Keys + (if HasMapper(c) then {ObjectMapperAlias} else {})
    ensures forall a :: a in base && a != ObjectMapperAlias ==> r[a] == base[a]
    ensures c.objectMapperServiceId.Some? ==> r[ObjectMapperAlias] == c.objectMapperServiceId.value
    ensures c.objectMapperServiceId.None? && c.persistence.phpcr.enabled ==> r[ObjectMapperAlias] == PhpcrObjectMapper
  {
    var m := if c.persistence.phpcr.enabled then base[ObjectMapperAlias := PhpcrObjectMapper] else base;
    match c.objectMapperServiceId
    case Some(id) => m[ObjectMapperAlias := id]
    case None => m
  }

  /** The calls `loadPhpcr` adds to the REST handler. */
  function PhpcrRestHandlerCalls(p: Phpcr): seq<MethodCall> {
    if p.delete then [SetWorkflow(Delete, DeleteWorkflow)] else []
  }

  /** The calls `load` adds to the REST handler: one delete workflow exactly when phpcr and delete are on. */
  function LoadRestHandlerCalls(c: Config): (r: seq<MethodCall>)
    ensures |r| == (if c.persistence.phpcr.enabled && c.persistence.phpcr.delete then 1 else 0)
    ensures forall call :: call in r ==> call == SetWorkflow(Delete, DeleteWorkflow)
  {
    if c.persistence.phpcr.enabled then PhpcrRestHandlerCalls(c.persistence.phpcr) else []
  }

  /** The service definition files, in load order, after `loadPhpcr` on top of `base`. */
  function PhpcrFiles(base: seq<string>, p: Phpcr): seq<string> {
    var m := base + ["persistence-phpcr.xml"];
    if p.image.enabled then m + ["controller-image-phpcr.xml"] else m
  }

  /** The service definition files, in load order, after `load` on top of `base`. */
  function LoadFiles(base: seq<string>, c: Config): seq<string> {
    var m := base + ["services.xml"];
    if c.persistence.phpcr.enabled then PhpcrFiles(m, c.persistence.phpcr) else m
  }

  /** Whether an object mapper resolves: the phpcr backend is on or a service id is given. */
  predicate HasMapper(c: Config) {
    c.persistence.phpcr.enabled || c.objectMapperServiceId.Some?
  }

  /** The part of the container the extension writes to. */
  class ContainerBuilder {
    var parameters: map<Parameter, Value>
    var aliases: map<string, string>
    /** The method calls of the `cmf_create.rest.handler` definition. */
    var restHandlerCalls: seq<MethodCall>
    /** The service definition files loaded so far. */
    var loadedFiles: seq<string>

    constructor ()
      ensures parameters == map[] && aliases == map[] && restHandlerCalls == [] && loadedFiles == []
    {
      parameters, aliases, restHandlerCalls, loadedFiles := map[], map[], [], [];
    }

    method SetParameter(name: Parameter, value: Value)
      modifies this`parameters
      ensures parameters == old(parameters)[name := value]
    {
      parameters := parameters[name := value];
    }

    method SetAlias(alias: string, id: string)
      modifies this`aliases
      ensures aliases == old(aliases)[alias := id]
    {
      aliases := aliases[alias := id];
    }

    method LoadFile(file: string)
      modifies this`loadedFiles
      ensures loadedFiles == old(loadedFiles) + [file]
    {
      loadedFiles := loadedFiles + [file];
    }

    /** `loadPhpcr`: wires the phpcr backend, its image support and its delete workflow. */
    method LoadPhpcr(p: Phpcr)
      modifies this
      ensures parameters == PhpcrParameters(old(parameters), p)
      ensures aliases == old(aliases)[ObjectMapperAlias := PhpcrObjectMapper]
      ensures restHandlerCalls == old(restHandlerCalls) + PhpcrRestHandlerCalls(p)
      ensures loadedFiles == PhpcrFiles(old(loadedFiles), p)
    {
      SetParameter(BackendTypePhpcr, ScalarValue(Bool(true)));
      SetAlias(ObjectMapperAlias, PhpcrObjectMapper);
      SetParameter(PhpcrManagerName, ScalarValue(p.managerName));
      LoadFile("persistence-phpcr.xml");
      if p.image.enabled {
        LoadFile("controller-image-phpcr.xml");
        SetParameter(ImageEnabled, ScalarValue(Bool(true)));
        SetParameter(PhpcrImageClass, ScalarValue(p.image.modelClass.GetOr(Null)));
        SetParameter(PhpcrImageControllerClass, ScalarValue(p.image.controllerClass));
        SetParameter(PhpcrImageBasepath, ScalarValue(p.image.basepath));
      } else {
        SetParameter(ImageEnabled, ScalarValue(Bool(false)));
      }
      if p.delete {
        restHandlerCalls := restHandlerCalls + [SetWorkflow(Delete, DeleteWorkflow)];
      }
    }

    /** The first part of `load`: copies the configuration into parameters, substituting the
        default plain-text types and appending the mapping directories discovered in `bundles`. */
    method CopyConfigParameters(config: Config, bundles: seq<Bundle>)
      modifies this`parameters
      ensures parameters == ConfigParameters(old(parameters), config, bundles)
    {
      SetParameter(MapParam, Dict(config.mapping));
      SetParameter(StanbolUrl, ScalarValue(config.stanbolUrl));
      SetParameter(Role, ScalarValue(config.role));
      SetParameter(FixedToolbar, ScalarValue(config.fixedToolbar));
      SetParameter(EditorBasePath, ScalarValue(config.editorBasePath));

      var plainTextTypes := config.plainTextTypes;
      if plainTextTypes == [] {
        plainTextTypes := DefaultPlainTextTypes;
      }
      SetParameter(PlainTextTypes, List(plainTextTypes));

      var rdfConfigDirs := config.rdfConfigDirs;
      if Truthy(config.autoMapping) {
        var i := 0;
        while i < |bundles|
          invariant 0 <= i <= |bundles|
          invariant rdfConfigDirs == config.rdfConfigDirs + MappingDirs(bundles[..i])
        {
          if bundles[i].hasRdfMappings {
            rdfConfigDirs := rdfConfigDirs + [Str(bundles[i].path + RdfMappingsDir)];
          }
          assert bundles[..i + 1][..i] == bundles[..i];
          i := i + 1;
        }
        assert bundles[..i] == bundles;
      }
      SetParameter(RdfConfigDirs, List(rdfConfigDirs));

      if Truthy(config.restControllerClass) {
        SetParameter(RestControllerClass, ScalarValue(config.restControllerClass));
      }
    }

    /** `load`: normalises `raw`, then wires it; `bundles` stands for `kernel.bundles`.
        An invalid configuration changes nothing; a missing object mapper fails
        after every parameter has been set. */
    method Load(raw: RawConfig, bundles: seq<Bundle>) returns (outcome: Option<LoadError>)
      modifies this
      ensures Normalize(raw).Failure? ==>
        outcome == Some(InvalidConfiguration(Normalize(raw).error))
        && parameters == old(parameters) && aliases == old(aliases)
        && restHandlerCalls == old(restHandlerCalls) && loadedFiles == old(loadedFiles)
      ensures Normalize(raw).Success? ==>
        var c := Normalize(raw).value;
        && outcome == (if HasMapper(c) then None else Some(NoObjectMapper))
        && parameters == LoadParameters(old(parameters), c, bundles)
        && aliases == LoadAliases(old(aliases), c)
        && restHandlerCalls == old(restHandlerCalls) + LoadRestHandlerCalls(c)
        && loadedFiles == LoadFiles(old(loadedFiles), c)
    {
      var normalized := Normalize(raw);
      if normalized.Failure? {
        return Some(InvalidConfiguration(normalized.error));
      }
      var config := normalized.value;
      LoadFile("services.xml");

      CopyConfigParameters(config, bundles);

      var hasMapper := false;
      if config.persistence.phpcr.enabled {
        LoadPhpcr(config.persistence.phpcr);
        hasMapper := true;
      } else {
        SetParameter(ImageEnabled, ScalarValue(Bool(false)));
      }
      if config.objectMapperServiceId.Some? {
        SetAlias(ObjectMapperAlias, config.objectMapperServiceId.value);
        hasMapper := true;
      }
      if !hasMapper {
        return Some(NoObjectMapper);
      }
      return None;
    }
  }
}
