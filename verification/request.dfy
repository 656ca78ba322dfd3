/** The outgoing request built from the draft at the moment Send is pressed. */
module Requests {
  import opened Wrappers
  import opened Methods
  import Headers

  /** What is handed to the network: method, URL, header map and an optional
      raw-text body. */
  datatype Request = Request(
    httpMethod: Method,
    url: string,
    headers: map<string, string>,
    body: Option<string>)

  /** The body travels only with a method other than GET and only when the
      text is non-empty; it is then passed through unchanged. */
  function AttachedBody(httpMethod: Method, body: string): (r: Option<string>)
    ensures r.Some? <==> httpMethod != GET && body != ""
    ensures r.Some? ==> r.value == body
  {
    if httpMethod != GET && body != "" then Some(body) else None
  }

  /** The request for a draft. The URL is not validated here: a malformed one
      only shows up as a failed send. */
  function BuildRequest(httpMethod: Method, url: string, headers: seq<Headers.Header>, body: string): (r: Request)
    ensures r.httpMethod == httpMethod && r.url == url
    ensures r.headers == Headers.EffectiveHeaders(headers)
    ensures httpMethod == GET ==> r.body == None
    ensures httpMethod != GET && body != "" ==> r.body == Some(body)
    ensures body == "" ==> r.body == None
  {
    Request(httpMethod, url, Headers.EffectiveHeaders(headers), AttachedBody(httpMethod, body))
  }
}
