/**
 The URLs of the documentation views: the server URL written into each spec,
 the spec URI the Swagger page points at, and the two routes the views are
 exposed under (a route base followed by a rule with one `<version>` part).
 */
module Routes {
  import opened Wrappers
  import opened Strings

  /** `OpenApi.route_base`. */
  const ApiRouteBase := "/api"
  /** The rule of `OpenApi.get`. */
  const OpenApiRule := "/<version>/_openapi"
  /** `SwaggerView.route_base`. */
  const SwaggerRouteBase := "/swagger"
  /** The rule of `SwaggerView.show`. */
  const SwaggerRule := "/<version>"

  /** The literal text around `{}` in the server URL and spec URI format strings. */
  const ServerUrlPrefix := "/api/"
  const OpenApiTail := "/_openapi"

  /**
   A value Flask's default `string` converter binds to `<version>`: one
   non-empty path segment, so no '/'.
   */
  predicate IsSegment(v: string) {
    v != "" && '/' !in v
  }

  /** `"/api/{}".format(version)`, the single entry of the spec's `servers`. */
  function ServerUrl(version: string): (url: string)
    ensures StartsWith(url, ServerUrlPrefix) && url[|ServerUrlPrefix|..] == version
  {
    ServerUrlPrefix + version
  }

  /** `"/api/{}/_openapi".format(version)`, the spec URI the Swagger page loads. */
  function OpenApiUri(version: string): (uri: string)
    ensures uri == ServerUrl(version) + OpenApiTail
  {
    ServerUrlPrefix + version + OpenApiTail
  }

  /**
   The version a request path binds when it matches the route of
   `OpenApi.get` (route base, then `/<version>/_openapi`), or None.
   */
  function MatchOpenApiRoute(path: string): (r: Option<string>)
    ensures r.Some? ==> IsSegment(r.value) && path == ApiRouteBase + "/" + r.value + OpenApiTail
  {
    var prefix := ApiRouteBase + "/";
    if |prefix| + |OpenApiTail| <= |path| && StartsWith(path, prefix) && EndsWith(path, OpenApiTail) then
      var v := path[|prefix|..|path| - |OpenApiTail|];
      if IsSegment(v) then Some(v) else None
    else
      None
  }

  /** The version a request path binds when it matches `/swagger/<version>`, or None. */
  function MatchSwaggerRoute(path: string): (r: Option<string>)
    ensures r.Some? ==> IsSegment(r.value) && path == SwaggerRouteBase + "/" + r.value
  {
    var prefix := SwaggerRouteBase + "/";
    if StartsWith(path, prefix) then
      var v := path[|prefix|..];
      if IsSegment(v) then Some(v) else None
    else
      None
  }

  /**
   Every `/swagger/<version>` path reaches the Swagger page with that version
   when the version is one path segment, and nothing otherwise.
   */
  lemma SwaggerPathMatchesRoute(version: string)
    ensures MatchSwaggerRoute(SwaggerRouteBase + "/" + version) == if IsSegment(version) then Some(version) else None
  {
  }

  /**
   The spec URI built for a version is served by `OpenApi.get` with that same
   version, and by nothing when the version is not a single path segment.
   */
  lemma OpenApiUriMatchesRoute(version: string)
    ensures MatchOpenApiRoute(OpenApiUri(version)) == if IsSegment(version) then Some(version) else None
  {
  }

  /** Different versions get different spec URIs. */
  lemma OpenApiUriInjective(v1: string, v2: string)
    requires OpenApiUri(v1) == OpenApiUri(v2)
    ensures v1 == v2
  {
    assert ServerUrl(v1) == OpenApiUri(v1)[..|OpenApiUri(v1)| - |OpenApiTail|];
    assert ServerUrl(v2) == OpenApiUri(v2)[..|OpenApiUri(v2)| - |OpenApiTail|];
  }
}
