/** `src/utils/config.js`: the API address and the image-URL normaliser. */
module Config {
  import opened Wrappers
  import opened Text

  const BaseUrl := "http://localhost:8080"
  const ApiVersion := "v1"

  const LoginEndpoint := "/login"
  const HealthEndpoint := "/health"
  const CategoriesListEndpoint := "/categorias"
  const CategoriesCreateEndpoint := "/categorias"
  const CategoriesUpdateEndpoint := "/categorias"
  const CategoriesDeleteEndpoint := "/categorias"

  /** Every API URL starts with this. */
  const ApiRoot := "http://localhost:8080/api/v1"

  /** `buildApiUrl(endpoint)`: the API root followed by the endpoint. */
  function BuildApiUrl(endpoint: string): (r: string)
    ensures |r| == |ApiRoot| + |endpoint|
    ensures StartsWith(r, ApiRoot)
    ensures r[|ApiRoot|..] == endpoint
  {
    BaseUrl + "/api/" + ApiVersion + endpoint
  }

  /** Distinct endpoints give distinct URLs. */
  lemma BuildApiUrlInjective(a: string, b: string)
    requires BuildApiUrl(a) == BuildApiUrl(b)
    ensures a == b
  {
    assert a == BuildApiUrl(a)[|ApiRoot|..];
  }

  const Http := "http://"
  const Https := "https://"

  predicate HasScheme(url: string)
  {
    StartsWith(url, Http) || StartsWith(url, Https)
  }

  /** `getImageUrl`: nothing for a missing or empty reference; a URL that
      already names http or https is kept; anything else gets `http://`. */
  function GetImageUrl(imageUrl: Option<string>): (r: Option<string>)
    ensures r.None? <==> imageUrl.None? || imageUrl.value == ""
    ensures r.Some? ==> HasScheme(r.value)
    ensures r.Some? && HasScheme(imageUrl.value) ==> r == imageUrl
    ensures r.Some? && !HasScheme(imageUrl.value) ==>
              StartsWith(r.value, Http) && r.value[|Http|..] == imageUrl.value
  {
    if imageUrl.None? || imageUrl.value == "" then None
    else if HasScheme(imageUrl.value) then imageUrl
    else Some(Http + imageUrl.value)
  }

  /** Normalising an already normalised image URL changes nothing. */
  lemma GetImageUrlIdempotent(imageUrl: Option<string>)
    ensures GetImageUrl(GetImageUrl(imageUrl)) == GetImageUrl(imageUrl)
  {
  }
}
