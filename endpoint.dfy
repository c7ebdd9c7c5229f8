/** `get_endpoint_data`: one GET of a uri, its response validated, its `results` handed back. */
module Endpoint {
  import opened Results
  import opened Text
  import opened Errors

  /** What the server answers to a GET: the status code, the `content-type` header and
      the `results` field of the decoded JSON body, one record per element. */
  datatype Response<T> = Response(status: int, contentType: string, results: seq<T>)

  const JsonMediaType := "application/json"

  /** The statuses for which `raise_for_status` raises HTTPError: client and server errors. */
  predicate RaisesForStatus(status: int)
    ensures RaisesForStatus(status) <==> status / 100 == 4 || status / 100 == 5
    ensures status < 400 ==> !RaisesForStatus(status)
  {
    400 <= status < 600
  }

  /** `get(uri)` is the server's answer to a GET of uri; the network itself is not modelled. */
  function GetEndpointData<T>(get: string -> Response<T>, uri: string): (r: Result<seq<T>, ApiError>)
    ensures RaisesForStatus(get(uri).status) ==> r == Failure(InvalidUri(get(uri).status, uri))
    ensures !RaisesForStatus(get(uri).status) && !Contains(get(uri).contentType, JsonMediaType) ==> r == Failure(NotJson(uri))
    ensures r.Success? <==> !RaisesForStatus(get(uri).status) && Contains(get(uri).contentType, JsonMediaType)
    ensures r.Success? ==> r.value == get(uri).results
  {
    var response := get(uri);
    if RaisesForStatus(response.status) then
      Failure(InvalidUri(response.status, uri))
    else if !Contains(response.contentType, JsonMediaType) then
      Failure(NotJson(uri))
    else
      Success(response.results)
  }

  /** A bad status wins over a bad content type, a JSON response with a status outside 400..599
      (a redirect, say) passes, and the fatal error's message is exactly "Invalid URI " + uri. */
  lemma ClassificationExamples<T>(uri: string, results: seq<T>)
    ensures GetEndpointData(_ => Response(404, "text/html", results), uri) == Failure(InvalidUri(404, uri))
    ensures Message(InvalidUri(404, uri)) == "Invalid URI " + uri
    ensures GetEndpointData(_ => Response(200, "text/html", results), uri) == Failure(NotJson(uri))
    ensures GetEndpointData(_ => Response(302, "application/json; charset=utf-8", results), uri) == Success(results)
  {
    var json := "application/json; charset=utf-8";
    assert OccursAt(json, JsonMediaType, 0);
  }
}
