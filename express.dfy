/** The part of an Express request the gateway middleware reads and writes. */
module Express {
  import opened Wrappers
  import opened Jwt

  /** `req.headers[name]` over a header map: the header's value, or None when the client did not send it. */
  function HeaderValue(headers: map<string, string>, name: string): (h: Option<string>)
    ensures h.Some? <==> name in headers
    ensures h.Some? ==> h.value == headers[name]
  {
    if name in headers then Some(headers[name]) else None
  }

  /**
   * An incoming request: method (`verb`), path (without the query), query string (with its leading `?`,
   * or empty), headers keyed by lower-case name as Node stores them, and `req.user`, which only
   * the authentication middleware writes.
   */
  class Request {
    const verb: string
    const path: string
    const query: string
    const headers: map<string, string>
    var user: Option<Claims>

    constructor (verb: string, path: string, query: string, headers: map<string, string>)
      ensures this.verb == verb && this.path == path && this.query == query
      ensures this.headers == headers && user == None
    {
      this.verb := verb;
      this.path := path;
      this.query := query;
      this.headers := headers;
      user := None;
    }

    /** `req.headers[name]` of this request. */
    function Header(name: string): (h: Option<string>)
      ensures h == HeaderValue(headers, name)
    {
      HeaderValue(headers, name)
    }
  }
}
