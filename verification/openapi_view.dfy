/**
 The `OpenApi.get` endpoint: build a spec for the requested version, let
 every registered API view of that version contribute to it, and answer 200
 with the spec when at least one did, 404 otherwise.

 The spec-building library is opaque here: a spec records its header fields
 and, as its body, the views that contributed to it, in the order they did.
 */
module OpenApiView {
  import opened Routes

  /** A registered view: an API (a `BaseApi`, which has a version) or any other view. */
  datatype View = Api(name: string, version: string) | Plain(name: string)

  /** `isinstance(view, BaseApi) and view.version == version`. */
  predicate Contributes(view: View, version: string) {
    view.Api? && view.version == version
  }

  /** The `openapi_version` every spec declares. */
  const OpenApiVersion := "3.0.2"

  datatype Spec = Spec(
    title: string,
    version: string,
    openapiVersion: string,
    description: string,
    servers: seq<string>,
    contributions: seq<View>)

  datatype Response = Ok(spec: Spec) | NotFound {
    /** The HTTP status code of the response. */
    function Status(): int {
      if Ok? then 200 else 404
    }
  }

  /** `_create_api_spec`: a spec for one version that nothing has contributed to yet. */
  function CreateApiSpec(appName: string, version: string): Spec {
    Spec(appName, version, OpenApiVersion, appName, [ServerUrl(version)], [])
  }

  /** `view.add_api_spec(spec)`: the view adds its part after those already there. */
  function AddApiSpec(spec: Spec, view: View): Spec {
    spec.(contributions := spec.contributions + [view])
  }

  /**
   The reference definition of who contributes: the views of the registry
   that are APIs of the version, in registry order.
   */
  function Contributors(views: seq<View>, version: string): (r: seq<View>)
    ensures |r| <= |views|
    ensures forall v :: v in r ==> v in views && Contributes(v, version)
    ensures forall i :: 0 <= i < |views| && Contributes(views[i], version) ==> views[i] in r
  {
    if views == [] then
      []
    else
      var init := views[..|views| - 1];
      var last := views[|views| - 1];
      Contributors(init, version) + (if Contributes(last, version) then [last] else [])
  }

  /**
   Contributors of a registry split in two are those of the first part
   followed by those of the second: views contribute in registry order.
   */
  lemma {:induction false} ContributorsAppend(a: seq<View>, b: seq<View>, version: string)
    ensures Contributors(a + b, version) == Contributors(a, version) + Contributors(b, version)
    decreases |b|
  {
    if b == [] {
      assert a + b == a;
    } else {
      var init := b[..|b| - 1];
      var last := b[|b| - 1];
      assert (a + b)[..|a + b| - 1] == a + init;
      ContributorsAppend(a, init, version);
    }
  }

  /** The registry has no contributor exactly when no view is an API of the version. */
  lemma ContributorsEmpty(views: seq<View>, version: string)
    ensures Contributors(views, version) == [] <==>
            forall i :: 0 <= i < |views| ==> !Contributes(views[i], version)
  {
  }

  /**
   `OpenApi.get(version)` over the registered views `views` of an
   application named `appName`.
   */
  method Get(views: seq<View>, appName: string, version: string) returns (resp: Response)
    ensures resp.Status() == 200 <==> exists i :: 0 <= i < |views| && Contributes(views[i], version)
    ensures resp.Status() == 404 <==> forall i :: 0 <= i < |views| ==> !Contributes(views[i], version)
    ensures resp.Ok? ==> resp.spec.contributions == Contributors(views, version)
    ensures resp.Ok? ==> resp.spec.version == version && resp.spec.servers == [ServerUrl(version)]
    ensures resp.Ok? ==> resp.spec.title == appName && resp.spec.openapiVersion == OpenApiVersion
    ensures resp.Ok? ==> resp.spec.description == appName
  {
    var versionFound := false;
    var spec := CreateApiSpec(appName, version);
    var i := 0;
    while i < |views|
      invariant 0 <= i <= |views|
      invariant spec == CreateApiSpec(appName, version).(contributions := Contributors(views[..i], version))
      invariant versionFound <==> exists j :: 0 <= j < i && Contributes(views[j], version)
    {
      assert views[..i + 1] == views[..i] + [views[i]];
      ContributorsAppend(views[..i], [views[i]], version);
      if views[i].Api? && views[i].version == version {
        spec := AddApiSpec(spec, views[i]);
        versionFound := true;
      }
      i := i + 1;
    }
    assert views[..i] == views;
    if versionFound {
      resp := Ok(spec);
    } else {
      resp := NotFound;
    }
  }
}
