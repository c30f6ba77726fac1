/**
 The `SwaggerView.show` page: a rendered template that loads the spec of one
 version from the `OpenApi` endpoint. Only the template name and the spec URI
 handed to the template are modelled.
 */
module SwaggerView {
  import opened Wrappers
  import opened AppConfig
  import opened Routes

  /** The setting that overrides the page template. */
  const TemplateKey := "FAB_API_SWAGGER_TEMPLATE"
  const DefaultTemplate := "appbuilder/swagger/swagger.html"

  datatype Page = Page(template: string, openapiUri: string)

  /**
   The page for `version`: the configured template (or the default one) and
   a spec URI that the `OpenApi.get` route serves for that same version.
   */
  function Show(config: Config, version: string): (page: Page)
    ensures TemplateKey in config.settings ==> page.template == config.settings[TemplateKey]
    ensures TemplateKey !in config.settings ==> page.template == DefaultTemplate
    ensures IsSegment(version) ==> MatchOpenApiRoute(page.openapiUri) == Some(version)
  {
    Page(Setting(config, TemplateKey, DefaultTemplate), OpenApiUri(version))
  }

  /**
   Whatever path reaches the page, the spec it loads is the one `OpenApi.get`
   builds for the version bound in that path.
   */
  lemma ShowLoadsSpecOfRequestedVersion(config: Config, path: string)
    requires MatchSwaggerRoute(path).Some?
    ensures MatchOpenApiRoute(Show(config, MatchSwaggerRoute(path).value).openapiUri) == MatchSwaggerRoute(path)
  {
  }
}
