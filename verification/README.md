# OpenAPI documentation views of Flask-AppBuilder, modelled in Dafny

This project models `flask_appbuilder/api/manager.py`. That file serves OpenAPI (Swagger) documentation for the API views an application registers. It has four parts, and the model covers each one:

- **The schema name resolver** (`SchemaResolver`). It maps a schema class to the name used in spec references. A trailing `Schema` is stripped from the class name. A class named exactly `Schema` keeps its name. The generated `MetaSchema` wrapper gets the composed name `parent.Model` when it carries `Meta`.
- **The `OpenApi.get` endpoint** (`OpenApiView`). It builds a spec for the requested version. Every registered API view of that version adds its part, in registry order. The answer is 200 with the spec when at least one view contributed, and 404 otherwise. `Contributors` is a recursive reference definition. The `Get` method follows the source's loop and is proved equal to it.
- **The URLs** (`Routes`, `SwaggerView`). These are the server URL `/api/<version>` written into each spec, and the spec URI `/api/<version>/_openapi` that the Swagger page loads. The two routes are `/api/<version>/_openapi` and `/swagger/<version>`. The model proves that the page for a version loads the spec that `OpenApi.get` serves for that same version.
- **`OpenApiManager.register_views`** (`OpenApiManager`). It registers both documentation views or neither, based on two configuration flags and their defaults. The model also shows the effect of registration on the application's route table.

Supporting modules: `Wrappers` (Option), `Strings` (prefix and suffix tests) and `AppConfig`. `AppConfig` holds the configuration: boolean flags plus string settings, each read like `dict.get(key, default)`.

The name `FAB_API_SWAGGER_UI` suggests the flag controls only the Swagger UI page. In the code, it also gates the JSON spec endpoint: `OpenApi` is registered only together with `SwaggerView`. The model follows the code (`RegisterViews`, `Install`).

## Model

| member | source | states |
|---|---|---|
| SchemaResolver.Resolve | flask_appbuilder/api/manager.py:12-22 | outside the composed `MetaSchema` case, the reference name is the class name or the class name minus exactly one trailing "Schema"; a `MetaSchema` with `Meta` gets `parent.model`; a non-empty class name never resolves to the empty string |
| SchemaResolver.ResolveStripsSuffix | flask_appbuilder/api/manager.py:15-21 | for every non-empty base, `base + "Schema"` resolves back to `base`, whatever `Meta` it carries, except `MetaSchema` carrying `Meta` |
| SchemaResolver.ResolveBareSchema | flask_appbuilder/api/manager.py:21 | the class named exactly "Schema" resolves to "Schema", not to "" |
| SchemaResolver.ResolveKeepsOtherNames | flask_appbuilder/api/manager.py:20-22 | a name not ending in "Schema" is returned unchanged |
| SchemaResolver.ResolveMetaSchema | flask_appbuilder/api/manager.py:15-19 | `MetaSchema` with `Meta(parent, model)` resolves to `parent + "." + model` |
| SchemaResolver.ResolveMetaSchemaWithoutMeta | flask_appbuilder/api/manager.py:15-21 | `MetaSchema` without `Meta` falls through to suffix stripping and resolves to "Meta" |
| SchemaResolver.ResolveFixedPoint | flask_appbuilder/api/manager.py:15-22 | the resolver keeps a name unchanged if and only if the name does not end in "Schema" or is "Schema" itself |
| Routes.ServerUrl | flask_appbuilder/api/manager.py:75 | the spec's server URL is "/api/" followed by exactly the requested version |
| Routes.OpenApiUri | flask_appbuilder/api/manager.py:83 | the Swagger page's spec URI is the server URL of the version followed by "/_openapi" |
| Routes.MatchOpenApiRoute | flask_appbuilder/api/manager.py:26-29 | a path that matches the `OpenApi.get` route is "/api/" + a single-segment version + "/_openapi" |
| Routes.MatchSwaggerRoute | flask_appbuilder/api/manager.py:81-85 | a path that matches the Swagger page route is "/swagger/" + a single-segment version |
| Routes.SwaggerPathMatchesRoute | flask_appbuilder/api/manager.py:81-85 | every `/swagger/` path followed by a single-segment version reaches the Swagger page with that version, and any other version reaches nothing |
| Routes.OpenApiUriMatchesRoute | flask_appbuilder/api/manager.py:83 | the spec URI built for a version is routed to `OpenApi.get` with that same version when the version is one path segment, and to nothing otherwise |
| Routes.OpenApiUriInjective | flask_appbuilder/api/manager.py:83 | different versions get different spec URIs |
| OpenApiView.Contributors | flask_appbuilder/api/manager.py:58-61 | the contributors are drawn from the registry, every one is an API of the requested version, and every API view of that version is among them |
| OpenApiView.ContributorsAppend | flask_appbuilder/api/manager.py:58-60 | contributions follow registry order: the contributors of `a + b` are those of `a` followed by those of `b` |
| OpenApiView.ContributorsEmpty | flask_appbuilder/api/manager.py:58-61 | no view contributes if and only if no registered view is an API with the requested version |
| OpenApiView.Get | flask_appbuilder/api/manager.py:56-76 | the status is 200 if and only if some registered view is an API of the requested version, and 404 otherwise; a 200 spec carries that version, the server URL, the application name as title and description, and openapi version 3.0.2, and its body holds exactly the contributing views, in registry order |
| SwaggerView.Show | flask_appbuilder/api/manager.py:85-93 | the page uses the configured template or the default one, and its spec URI is routed to `OpenApi.get` for the same version |
| SwaggerView.ShowLoadsSpecOfRequestedVersion | flask_appbuilder/api/manager.py:85-92 | whatever path reaches the Swagger page, the spec it loads is the one served for the version bound in that path |
| OpenApiManager.RegisterViews | flask_appbuilder/api/manager.py:97-102 | both documentation views or none are registered; both exactly when FAB_ADD_OPENAPI_VIEWS (default true) and FAB_API_SWAGGER_UI (default false) hold; none when the first is false |
| OpenApiManager.Install | flask_appbuilder/api/manager.py:97-102 | registration keeps every existing route and adds only documentation routes; it adds both when the views are enabled and nothing when they are not |
| OpenApiManager.DefaultsRegisterNothing | flask_appbuilder/api/manager.py:98-100 | with no configuration, nothing is registered |
| OpenApiManager.SwaggerUiAloneRegistersBoth | flask_appbuilder/api/manager.py:98-102 | setting only FAB_API_SWAGGER_UI to true registers both views |
| OpenApiManager.DisabledViewsWinOverSwaggerUi | flask_appbuilder/api/manager.py:98-99 | FAB_ADD_OPENAPI_VIEWS set to false registers nothing, even when the UI flag is true |

## Left out

- `resolve_schema_cls`: the conversion of a schema instance, class or name to its class is library code. The resolver takes the resulting class directly, reduced to its name and optional `Meta`.
- `Meta` attribute lookups: a `Meta` is modelled as a record that always has `parent_schema_name` and `model`. The case where `Meta` exists but lacks these attributes, which raises in Python, is not modelled.
- `APISpec`, `MarshmallowPlugin`, `add_api_spec` and `to_dict`: the spec is an opaque record. It holds the header fields `_create_api_spec` sets, plus the list of views that contributed. What each view writes into the spec is not modelled.
- `current_app`, the application name and the view registry are external state. They become parameters of `OpenApiView.Get`.
- The `@expose`, `@protect`, `@safe` and `@has_access` decorators cover authentication, permission checks and turning exceptions into 500 responses. They are framework plumbing. Only the route rules and the 200/404 outcome are modelled.
- HTTP response construction and template rendering: a response is a status plus the spec, and a page is a template name plus the spec URI it receives.
- `SwaggerView.default_view`: it only matters for menu links, and the page is registered without a menu.
- `app.config` and `get_app.config` are treated as the same configuration. Flag values are booleans and template settings are strings. Python truthiness of other value types is not modelled.
- Flask route matching is modelled only for the default `string` converter: `<version>` binds one non-empty segment without '/'.
