/**
 `OpenApiManager.register_views`: at application start-up, decide from two
 configuration flags which documentation views join the application, and so
 which routes its route table gains.
 */
module OpenApiManager {
  import opened AppConfig
  import opened Routes

  /** Turns all documentation views off when false; defaults to true. */
  const AddOpenApiViewsKey := "FAB_ADD_OPENAPI_VIEWS"
  /** Registers the documentation views when true; defaults to false. */
  const SwaggerUiKey := "FAB_API_SWAGGER_UI"

  /** The two documentation views: the `OpenApi` spec endpoint and the `SwaggerView` page. */
  datatype Endpoint = OpenApiEndpoint | SwaggerPage

  /** The route rule a view adds to the route table. */
  function RuleOf(e: Endpoint): string {
    match e
    case OpenApiEndpoint => ApiRouteBase + OpenApiRule
    case SwaggerPage => SwaggerRouteBase + SwaggerRule
  }

  /** Whether the flags, with their defaults, enable the documentation views. */
  predicate DocsEnabled(config: Config) {
    Flag(config, AddOpenApiViewsKey, true) && Flag(config, SwaggerUiKey, false)
  }

  /**
   The views `register_views` adds, in order: both documentation views or
   none, both exactly when the views are not turned off and the UI is on.
   */
  function RegisterViews(config: Config): (added: seq<Endpoint>)
    ensures added == [] || added == [OpenApiEndpoint, SwaggerPage]
    ensures OpenApiEndpoint in added <==> DocsEnabled(config)
    ensures SwaggerPage in added <==> DocsEnabled(config)
    ensures !Flag(config, AddOpenApiViewsKey, true) ==> added == []
  {
    if !Flag(config, AddOpenApiViewsKey, true) then
      []
    else if Flag(config, SwaggerUiKey, false) then
      [OpenApiEndpoint, SwaggerPage]
    else
      []
  }

  /**
   The route table after registration: it keeps every route it had, gains
   only documentation routes, gains both of them when the views are enabled,
   and is unchanged when they are not.
   */
  function Install(config: Config, table: set<string>): (table': set<string>)
    ensures table <= table'
    ensures table' - table <= {RuleOf(OpenApiEndpoint), RuleOf(SwaggerPage)}
    ensures DocsEnabled(config) ==> RuleOf(OpenApiEndpoint) in table' && RuleOf(SwaggerPage) in table'
    ensures !DocsEnabled(config) ==> table' == table
  {
    table + set e | e in RegisterViews(config) :: RuleOf(e)
  }

  /** With nothing configured the UI flag's default (false) wins: nothing is registered. */
  lemma DefaultsRegisterNothing()
    ensures RegisterViews(EmptyConfig) == []
  {
  }

  /** Setting only the UI flag is enough to register both views. */
  lemma SwaggerUiAloneRegistersBoth(config: Config)
    requires config.flags == map[SwaggerUiKey := true]
    ensures RegisterViews(config) == [OpenApiEndpoint, SwaggerPage]
  {
  }

  /** Turning the views off wins over the UI flag. */
  lemma DisabledViewsWinOverSwaggerUi(config: Config)
    requires AddOpenApiViewsKey in config.flags && !config.flags[AddOpenApiViewsKey]
    requires SwaggerUiKey in config.flags && config.flags[SwaggerUiKey]
    ensures RegisterViews(config) == []
  {
  }
}
