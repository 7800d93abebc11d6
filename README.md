# CmfCreateBundle configuration and loader, modelled in Dafny

This project models the three parts of the CMF CreateBundle (the Symfony
bundle that wires the create.js in-browser editor into an application) that
carry behaviour of their own:

- **The configuration schema** (`Configuration`): a normaliser from a
  partially written `cmf_create` configuration tree, where every key may be
  left out, to the complete record with every default filled in. It rejects a
  given but empty image `model_class`.
- **The container extension** (`CmfCreateExtension`): a `ContainerBuilder`
  class holding the container's parameters, aliases, the method calls on the
  `cmf_create.rest.handler` definition and the service files loaded.
  - `Load` normalises the configuration and copies it into parameters. It
    substitutes the default plain-text RDFa types and appends the
    `Resources/rdf-mappings` directory of every installed bundle that has one,
    in bundle order.
  - `LoadPhpcr` wires the PHPCR backend, its image support and its delete
    workflow.
  - `Load` then resolves the object mapper. When neither the PHPCR backend
    nor an explicit mapper service id is configured, it fails, and the
    parameters it already set stay set.
- **The JS loader controller** (`JsloaderController`): the access decision
  (`performSecurityChecks`) and the response of `includeJSFilesAction`.
  The response is an empty body for a denied user. Otherwise it is the editor's
  template name and the data record the template is rendered with.

Files:
- `php_values.dfy` (module `PhpValues`): PHP scalars, PHP truthiness, `Option`/`Result` and container values.
- `configuration.dfy` (module `Configuration`): the schema.
- `extension.dfy` (module `Extension`): the container and the extension.
- `jsloader_controller.dfy` (module `JsloaderController`): the controller.

Modelling choices:
- Configuration leaves are PHP scalars (`Null`, `Bool`, `Int`, `Str`). Every
  `if ($x)` and `(boolean) $x` in the source is PHP truthiness (`Truthy`): for
  example, `rest_controller_class: "0"` does not set the REST controller
  parameter.
- The container's parameters are keyed by an enumeration of the parameters the
  extension sets. `Extension.Name` gives each one's container name
  (`cmf_create.map`, `cmf_create.image_enabled`, ...).
- `kernel.bundles`, reflection and `file_exists` are replaced by a list of
  bundles. Each bundle gives the directory of its class file and whether
  `Resources/rdf-mappings` exists below it.
- The controller's fields are set once, so it is a datatype. Its optional
  collaborators are `Option`s. The security context is a token flag and a set
  of granted roles. The browser file helper maps each editor it has a helper
  for to that helper's URL.
- `cannotBeEmpty` on `model_class` is PHP's `empty()` applied to a value that
  was given. The key has no default and is not required, so when image support
  is enabled and `model_class` is left out, the schema accepts the tree, and
  `loadPhpcr` reads the missing key as `null`. PHP also raises an `E_NOTICE`
  for the undefined index; the model has no notices
  (DependencyInjection/Configuration.php:62, DependencyInjection/CmfCreateExtension.php:96).
  The model follows the code here. A reading in which enabled image support
  requires a model class is stricter than the code.
- The code accepts both a PHPCR backend and an explicit `object_mapper_service_id`.
  The explicit alias is set second and wins. This is modelled as written, not
  as a configuration conflict.
- In the code, `load` copies the configuration and resolves the backend in one
  method. The model splits the copying into `CopyConfigParameters` to keep each
  proof small. The order of the container writes is unchanged.

## Model

| member | source | states |
|---|---|---|
| `Configuration.Normalize` | DependencyInjection/Configuration.php:18-76 | normalisation fails, with the empty-model-class error, exactly when an image block gives a `model_class` that PHP considers empty; every accepted tree satisfies that constraint |
| `Configuration.EmptyConfigDefaults` | DependencyInjection/Configuration.php:27-67 | a tree with no key normalises to the documented defaults: `rest_controller_class` false, `role` `ROLE_ADMIN`, the Stanbol URL, `fixed_toolbar` true, the ckeditor base path, empty lists, `auto_mapping` true, no mapper id, phpcr and image disabled, manager name null, the image controller class, basepath `/cms/media`, `delete` false |
| `Configuration.NormalizeKeepsGivenKeys` | DependencyInjection/Configuration.php:26-45 | in any accepted tree, each top-level key is its given value when given and its documented default when left out (`rest_controller_class` false, `map` empty, `role` `ROLE_ADMIN`, the Stanbol URL, `fixed_toolbar` true, the ckeditor base path, empty type and directory lists, `auto_mapping` true), independently of the other keys; `object_mapper_service_id` is kept as given |
| `Configuration.NormalizeImageKeys` | DependencyInjection/Configuration.php:55-66 | a given image block keeps its non-empty `model_class`; `controller_class` and `basepath` are kept when given and default to the bundle's `ImageController` and `/cms/media`; the image is enabled only when switched on |
| `Configuration.PhpcrDefaults` | DependencyInjection/Configuration.php:47-67 | `persistence.phpcr` is always present; phpcr, image and `delete` are off unless explicitly switched on; `manager_name` is null unless given |
| `Configuration.NormalizeExplicit` | DependencyInjection/Configuration.php:18-76 | round trip: a complete record written out in full normalises back to itself exactly when it satisfies the model-class constraint |
| `Configuration.NormalizeIdempotent` | DependencyInjection/Configuration.php:18-76 | normalising the written-out result of a normalisation changes nothing |
| `Extension.NameInjective` | DependencyInjection/CmfCreateExtension.php:35-98 | distinct parameters the extension sets have distinct container names |
| `Extension.MappingDirsOne` | DependencyInjection/CmfCreateExtension.php:53-55 | a single bundle contributes its path followed by `/Resources/rdf-mappings` when that directory exists, and nothing otherwise |
| `Extension.MappingDirs` | DependencyInjection/CmfCreateExtension.php:51-57 | discovery yields at most one directory per bundle |
| `Extension.MappingDirsAppend` | DependencyInjection/CmfCreateExtension.php:51-57 | discovery over a concatenation of bundle lists is the concatenation of the discoveries, so directories come out in `kernel.bundles` order |
| `Extension.MappingDirsMember` | DependencyInjection/CmfCreateExtension.php:52-55 | a directory is discovered iff some bundle has `Resources/rdf-mappings` and the directory is that bundle's path followed by `/Resources/rdf-mappings` |
| `Extension.ConfigParameters` | DependencyInjection/CmfCreateExtension.php:35-64 | `map`, `stanbol_url`, `role`, `fixed_toolbar`, `editor_base_path` are stored verbatim; `plain_text_types` is `['dcterms:title','schema:headline']` when empty and the given list otherwise; `rdf_config_dirs` is the configured list followed by the discovered directories when `auto_mapping` is truthy and the configured list otherwise; the REST controller class is set only when truthy and then equals it; no other parameter changes |
| `Extension.PhpcrParameters` | DependencyInjection/CmfCreateExtension.php:85-101 | `loadPhpcr` sets the backend flag and manager name, sets `image_enabled` to the image flag, and sets the image class, controller class and basepath to the configured values exactly when image is enabled; no other parameter changes |
| `Extension.LoadParameters` | DependencyInjection/CmfCreateExtension.php:35-101 | after `load`, whether it succeeds or fails on the mapper, `image_enabled` is always defined and true iff phpcr and image are both enabled; the image parameters are written only then and equal the configuration; the phpcr backend parameters are written only when phpcr is enabled; the copied parameters are those of `ConfigParameters`; nothing else changes |
| `Extension.LoadAliases` | DependencyInjection/CmfCreateExtension.php:67-86 | `cmf_create.object_mapper` is defined iff phpcr is enabled or a mapper id is set; it aliases the mapper id whenever one is set, even when phpcr is enabled (last alias wins), and the phpcr object mapper otherwise; no other alias changes |
| `Extension.LoadRestHandlerCalls` | DependencyInjection/CmfCreateExtension.php:103-106 | the REST handler receives exactly one `setWorkflow(DELETE, delete_workflow)` call when phpcr is enabled and `delete` is true, and none otherwise |
| `Extension.ContainerBuilder.CopyConfigParameters` | DependencyInjection/CmfCreateExtension.php:35-64 | the step-by-step parameter writes and the discovery loop over the bundles leave exactly the parameters `ConfigParameters` describes |
| `Extension.ContainerBuilder.LoadPhpcr` | DependencyInjection/CmfCreateExtension.php:83-107 | the new parameters are `PhpcrParameters` of the old ones; the object mapper aliases the phpcr mapper; the delete workflow call is added iff `delete`; the phpcr service files, and the image controller file when image is enabled, are loaded in order |
| `Extension.ContainerBuilder.Load` | DependencyInjection/CmfCreateExtension.php:25-81 | an invalid tree fails and changes nothing; otherwise the parameters, aliases, REST handler calls and loaded files are those described above, and `load` fails with the no-object-mapper error iff phpcr is disabled and no mapper id is set, keeping every parameter it set before failing |
| `JsloaderController.NewJsloader` | Controller/JsloaderController.php:89-109 | the constructor keeps every argument given and takes the PHP default for each one left out: image upload `false`, fixed toolbar `true`, no plain-text types, role `IS_AUTHENTICATED_ANONYMOUSLY`, editor base path `null` |
| `JsloaderController.PerformSecurityChecks` | Controller/JsloaderController.php:163-178 | a `false` required role always allows; with a role required, a missing security context or a context without a token denies, and an allowed user always has both |
| `JsloaderController.ConstructorDefaults` | Controller/JsloaderController.php:89-109 | the constructor's defaults: image upload off, fixed toolbar on, no plain-text types, role `IS_AUTHENTICATED_ANONYMOUSLY`, no security context, editor base path null, no browser file helper |
| `JsloaderController.SecurityDisabledAllows` | Controller/JsloaderController.php:165-168 | with the required role `false`, the check passes whatever the security context |
| `JsloaderController.RoleRequiredIff` | Controller/JsloaderController.php:170-177 | with a role required, the check passes iff a security context exists, holds a token and grants the role; a missing context or token denies |
| `JsloaderController.SecurityMonotonic` | Controller/JsloaderController.php:170-177 | granting more roles never turns an allowed user into a denied one |
| `JsloaderController.TemplateName` | Controller/JsloaderController.php:133 | the template name is `CmfCreateBundle::includejsfiles-`, the editor name, then `.html.twig` |
| `JsloaderController.TemplateEditor` | Controller/JsloaderController.php:118-120 | any editor read back from a template name by the naming convention names that very template |
| `JsloaderController.TemplateEditorOfName` | Controller/JsloaderController.php:133 | round trip: the editor is recovered from its template name, so distinct editors get distinct templates |
| `JsloaderController.BrowseUrl` | Controller/JsloaderController.php:135-140 | the browse URL is `false` without a browser file helper or without an editor helper for this editor, and otherwise that helper's URL |
| `JsloaderController.IncludeJSFilesAction` | Controller/JsloaderController.php:125-154 | a denied user gets exactly an empty plain response (the view is never rendered); an allowed user gets the template of the requested editor (default `ckeditor`) and data whose editor is that editor, whose image-upload and toolbar flags are the truthiness of the constructor values, and whose other fields are the constructor's values and the browse URL |
| `JsloaderController.DefaultControllerRendersNothing` | Controller/JsloaderController.php:89-129 | a controller built with every default renders an empty response for every editor: the default role is required and no security context can grant it |
| `JsloaderController.RenderIndependentOfContext` | Controller/JsloaderController.php:125-154 | the security context affects the response only through the access decision |

## Left out

- Service file loading (`services.xml`, `persistence-phpcr.xml`, `controller-image-phpcr.xml`): only the names of the loaded files are recorded, in order. The services and the `<parameters>` those files define are not modelled (for example the default REST controller class that `rest_controller_class` overrides at DependencyInjection/CmfCreateExtension.php:62-64). The statements that no other parameter changes hold up to those file-defined parameters.
- `Extension.ContainerBuilder.Load`: takes one configuration tree. Merging several configuration files (Symfony's `Processor`) is not modelled.
- Symfony's config-tree internals are not modelled, because they belong to the library: `fixXmlConfig` key fixing, `useAttributeAsKey`, the implicit enabling done by `canBeEnabled`, `canBeUnset`, type checks on scalar and boolean nodes, and the rejection of unknown keys. An explicit `null` for a prototyped array cannot be written in the model.
- `getXsdValidationBasePath` and `getNamespace`: constant strings with no logic.
- Reflection, `dirname` and `file_exists` over `kernel.bundles`: replaced by the supplied bundle list. A missing `kernel.bundles` parameter is not modelled.
- `getDefinition('cmf_create.rest.handler')` failing because the definition is missing is not modelled. The REST handler's method calls are a field of the container.
- `RestService::HTTP_DELETE`: its value is not visible here. It is the enumeration value `Delete`.
- `object_mapper_service_id` is null or a string. A service id given as another scalar is not modelled.
- The controller's required role is `false` or a role name. A required role given as another scalar is not modelled.
- Floating-point scalars are not modelled.
- The view handler, Twig templates and the HTTP `Response` object are external. A rendered response is the abstract value `Rendered(template, data)`.
- `JsloaderController.IncludeJSFilesAction`: `cmfCreatePlainTextTypes` carries the list given to `json_encode`, not its JSON text, so escaping is not modelled. The list is sequential in the model because `useAttributeAsKey` is left out. In PHP, a `plain_text_types` written with keys keeps them (DependencyInjection/Configuration.php:36-39), and `json_encode` then produces a JSON object, not an array (Controller/JsloaderController.php:147).
- Security component internals (token storage, role hierarchy, voters) are not modelled. A context is a token flag and the set of roles it grants.
