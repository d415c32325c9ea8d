/**
 * HTTP exchanges as values. A response is reduced to its status code, its
 * `Location` header (absent = null) and its `Link` values; a request the
 * member-resource fixture issues is recorded by an `HttpClient` instead of
 * being sent.
 */
module Http {
  import opened Wrappers
  import opened Links
  import opened Rdf

  const StatusOk: int := 200
  const StatusCreated: int := 201

  datatype Response = Response(status: int, location: Option<string>, links: seq<Link>)

  datatype Request =
    | Post(target: string, contentType: string, body: Graph)
    | Delete(target: string)

  /**
   * The base request specification every test builds its requests from.
   * `sent` lists, in order, the requests it has issued to the server under test.
   */
  class HttpClient {
    var sent: seq<Request>

    constructor ()
      ensures sent == []
    {
      sent := [];
    }

    method IssuePost(target: string, contentType: string, body: Graph)
      modifies this
      ensures sent == old(sent) + [Post(target, contentType, body)]
    {
      sent := sent + [Post(target, contentType, body)];
    }

    method IssueDelete(target: string)
      modifies this
      ensures sent == old(sent) + [Delete(target)]
    {
      sent := sent + [Delete(target)];
    }
  }
}
