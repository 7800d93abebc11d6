/** The controller that renders the script tags bootstrapping create.js: it
    checks that the current user may edit, then names the editor's template
    and assembles the data the template is rendered with. Its fields are set
    once by the constructor and only read afterwards. */
module JsloaderController {
  import opened PhpValues

  /** The role a user needs; PHP's `false` switches the security check off. */
  datatype RequiredRole = SecurityDisabled | RequireRole(name: string)

  /** What the controller asks of the security context: is there a token, and which roles it grants. */
  datatype SecurityContext = SecurityContext(hasToken: bool, granted: set<string>)

  /** The browser file helper: the editors it has an editor helper for, each with that helper's URL. */
  type BrowserFileHelper = map<string, string>

  datatype Jsloader = Jsloader(
    stanbolUrl: Scalar,
    imageUploadEnabled: Scalar,
    fixedToolbar: Scalar,
    plainTextTypes: seq<Scalar>,
    requiredRole: RequiredRole,
    securityContext: Option<SecurityContext>,
    editorBasePath: Scalar,
    browserFileHelper: Option<BrowserFileHelper>)

  /** The data handed to the template. `cmfCreatePlainTextTypes` is the list given to
      `json_encode`; `cmfCreateBrowseUrl` is the helper's URL or `false`. */
  datatype RenderData = RenderData(
    cmfCreateEditor: string,
    cmfCreateStanbolUrl: Scalar,
    cmfCreateImageUploadEnabled: bool,
    cmfCreateFixedToolbar: bool,
    cmfCreatePlainTextTypes: seq<Scalar>,
    cmfCreateEditorBasePath: Scalar,
    cmfCreateBrowseUrl: Scalar)

  /** A plain response with a body, or what the view handler renders from a template and data. */
  datatype Response = Plain(body: string) | Rendered(template: string, data: RenderData)

  const DefaultEditor := "ckeditor"
  const DefaultRequiredRole := RequireRole("IS_AUTHENTICATED_ANONYMOUSLY")
  const TemplatePrefix := "CmfCreateBundle::includejsfiles-"
  const TemplateSuffix := ".html.twig"

  /** The constructor: each optional argument left out (`None`) takes its PHP default. */
  function NewJsloader(
    stanbolUrl: Scalar,
    imageUploadEnabled: Option<Scalar>,
    fixedToolbar: Option<Scalar>,
    plainTextTypes: Option<seq<Scalar>>,
    requiredRole: Option<RequiredRole>,
    securityContext: Option<SecurityContext>,
    editorBasePath: Option<Scalar>,
    browserFileHelper: Option<BrowserFileHelper>): (c: Jsloader)
    ensures c.stanbolUrl == stanbolUrl
    ensures c.imageUploadEnabled == (if imageUploadEnabled.Some? then imageUploadEnabled.value else Bool(false))
    ensures c.fixedToolbar == (if fixedToolbar.Some? then fixedToolbar.value else Bool(true))
    ensures c.plainTextTypes == (if plainTextTypes.Some? then plainTextTypes.value else [])
    ensures c.requiredRole == (if requiredRole.Some? then requiredRole.value else RequireRole("IS_AUTHENTICATED_ANONYMOUSLY"))
    ensures c.securityContext == securityContext
    ensures c.editorBasePath == (if editorBasePath.Some? then editorBasePath.value else Null)
    ensures c.browserFileHelper == browserFileHelper
  {
    Jsloader(
      stanbolUrl,
      imageUploadEnabled.GetOr(Bool(false)),
      fixedToolbar.GetOr(Bool(true)),
      plainTextTypes.GetOr([]),
      requiredRole.GetOr(DefaultRequiredRole),
      securityContext,
      editorBasePath.GetOr(Null),
      browserFileHelper)
  }

  /** The constructor's defaults, for a controller built from the Stanbol URL alone. */
  lemma ConstructorDefaults(stanbolUrl: Scalar)
    ensures var c := NewJsloader(stanbolUrl, None, None, None, None, None, None, None);
      && c.stanbolUrl == stanbolUrl
      && c.imageUploadEnabled == Bool(false)
      && c.fixedToolbar == Bool(true)
      && c.plainTextTypes == []
      && c.requiredRole == RequireRole("IS_AUTHENTICATED_ANONYMOUSLY")
      && c.securityContext.None?
      && c.editorBasePath == Null
      && c.browserFileHelper.None?
  {
  }

  /** `performSecurityChecks`: allowed when the check is off, or when a security context
      exists, holds a token and grants the required role. */
  function PerformSecurityChecks(c: Jsloader): (allowed: bool)
    ensures c.requiredRole == SecurityDisabled ==> allowed
    ensures c.securityContext.None? ==> (allowed <==> c.requiredRole == SecurityDisabled)
    ensures allowed && c.requiredRole.RequireRole? ==>
      c.securityContext.Some? && c.securityContext.value.hasToken
    ensures c.securityContext.Some? && !c.securityContext.value.hasToken ==>
      (allowed <==> c.requiredRole == SecurityDisabled)
  {
    match c.requiredRole
    case SecurityDisabled => true
    case RequireRole(role) =>
      match c.securityContext
      case None => false
      case Some(context) => context.hasToken && role in context.granted
  }

  /** With the check off, every user is allowed, whatever the security context. */
  lemma SecurityDisabledAllows(c: Jsloader)
    requires c.requiredRole == SecurityDisabled
    ensures PerformSecurityChecks(c)
  {
  }

  /** With a role required, access needs a context, a token and the role granted; missing any denies. */
  lemma RoleRequiredIff(c: Jsloader)
    requires c.requiredRole.RequireRole?
    ensures PerformSecurityChecks(c) <==>
      c.securityContext.Some? && c.securityContext.value.hasToken
      && c.requiredRole.name in c.securityContext.value.granted
  {
  }

  /** Granting more roles never revokes access. */
  lemma SecurityMonotonic(c: Jsloader, more: set<string>)
    requires PerformSecurityChecks(c)
    requires c.securityContext.Some?
    ensures PerformSecurityChecks(c.(securityContext := Some(c.securityContext.value.(granted := c.securityContext.value.granted + more))))
  {
  }

  /** The template the view renders for an editor. */
  function TemplateName(editor: string): (t: string)
    ensures |t| == |TemplatePrefix| + |editor| + |TemplateSuffix|
    ensures t[..|TemplatePrefix|] == TemplatePrefix
    ensures t[|TemplatePrefix|..|TemplatePrefix| + |editor|] == editor
    ensures t[|TemplatePrefix| + |editor|..] == TemplateSuffix
  {
    TemplatePrefix + editor + TemplateSuffix
  }

  /** The editor a template name belongs to, if it follows the naming convention. */
  function TemplateEditor(t: string): (r: Option<string>)
    ensures r.Some? ==> TemplateName(r.value) == t
  {
    if |t| >= |TemplatePrefix| + |TemplateSuffix|
       && t[..|TemplatePrefix|] == TemplatePrefix
       && t[|t| - |TemplateSuffix|..] == TemplateSuffix
    then
      var editor := t[|TemplatePrefix|..|t| - |TemplateSuffix|];
      assert t == TemplatePrefix + editor + TemplateSuffix by {
        assert t == t[..|TemplatePrefix|] + editor + t[|t| - |TemplateSuffix|..];
      }
      Some(editor)
    else None
  }

  /** Round trip: the editor is recovered from its template name, so distinct editors get distinct templates. */
  lemma TemplateEditorOfName(editor: string)
    ensures TemplateEditor(TemplateName(editor)) == Some(editor)
  {
  }

  /** The browse URL: the editor helper's URL, or `false` without a helper for this editor. */
  function BrowseUrl(c: Jsloader, editor: string): (r: Scalar)
    ensures r == Bool(false) || r.Str?
    ensures r.Str? <==> c.browserFileHelper.Some? && editor in c.browserFileHelper.value
    ensures r.Str? ==> r.s == c.browserFileHelper.value[editor]
  {
    match c.browserFileHelper
    case None => Bool(false)
    case Some(helper) => if editor in helper then Str(helper[editor]) else Bool(false)
  }

  /** `includeJSFilesAction`: `editor` is the route argument, `ckeditor` when not given.
      A denied user gets an empty response and the view handler is not involved. */
  function IncludeJSFilesAction(c: Jsloader, editor: Option<string>): (r: Response)
    ensures !PerformSecurityChecks(c) <==> r == Plain("")
    ensures r.Rendered? <==> PerformSecurityChecks(c)
    ensures r.Rendered? ==>
      var name := editor.GetOr("ckeditor");
      && TemplateEditor(r.template) == Some(name)
      && r.data.cmfCreateEditor == name
      && r.data.cmfCreateStanbolUrl == c.stanbolUrl
      && r.data.cmfCreateImageUploadEnabled == Truthy(c.imageUploadEnabled)
      && r.data.cmfCreateFixedToolbar == Truthy(c.fixedToolbar)
      && r.data.cmfCreatePlainTextTypes == c.plainTextTypes
      && r.data.cmfCreateEditorBasePath == c.editorBasePath
      && r.data.cmfCreateBrowseUrl == BrowseUrl(c, name)
  {
    if !PerformSecurityChecks(c) then Plain("")
    else
      var name := editor.GetOr(DefaultEditor);
      TemplateEditorOfName(name);
      Rendered(TemplateName(name), RenderData(
        name,
        c.stanbolUrl,
        Truthy(c.imageUploadEnabled),
        Truthy(c.fixedToolbar),
        c.plainTextTypes,
        c.editorBasePath,
        BrowseUrl(c, name)))
  }

  /** A controller built with the constructor's defaults renders nothing for anyone:
      the default role is required and there is no security context to grant it. */
  lemma DefaultControllerRendersNothing(stanbolUrl: Scalar, editor: Option<string>)
    ensures IncludeJSFilesAction(NewJsloader(stanbolUrl, None, None, None, None, None, None, None), editor) == Plain("")
  {
  }

  /** The response depends on the security context only through the access decision:
      two controllers that differ only in their context render the same when both are allowed. */
  lemma RenderIndependentOfContext(c: Jsloader, context: Option<SecurityContext>, editor: Option<string>)
    requires PerformSecurityChecks(c)
    requires PerformSecurityChecks(c.(securityContext := context))
    ensures IncludeJSFilesAction(c, editor) == IncludeJSFilesAction(c.(securityContext := context), editor)
  {
  }
}
