/**
 * The shared HTTP client (src/axios_config/axios-config.ts): a fixed base URL and a
 * request interceptor that, at the moment each request passes through it, reads the
 * selected store id and, when that id is positive, writes it into the request's
 * `X-Store-Id` header. Transport and the server are outside the model.
 */
module AxiosConfig {
  import opened Seqs
  import opened Http
  import opened StoreAtoms

  const BaseUrl: string := "http://localhost:8001/api/"
  const StoreIdHeader: string := "X-Store-Id"

  /** A header value: the interceptor writes the id as a number, callers may set text headers. */
  datatype HeaderValue = HeaderNumber(n: int) | HeaderText(text: string)

  type Headers = map<string, HeaderValue>

  /** The headers after the interceptor ran with selected id `storeId`. */
  function ScopeHeaders(headers: Headers, storeId: int): (r: Headers)
    ensures storeId > 0 ==> StoreIdHeader in r && r[StoreIdHeader] == HeaderNumber(storeId)
    ensures storeId <= 0 ==> r == headers
    ensures forall k :: k != StoreIdHeader ==> (k in r <==> k in headers)
    ensures forall k :: k in r && k != StoreIdHeader ==> r[k] == headers[k]
  {
    if storeId > 0 then headers[StoreIdHeader := HeaderNumber(storeId)] else headers
  }

  /** `baseURL.replace(/\/?\/$/, '')`: drop one or two trailing slashes, and nothing else. */
  function DropTrailingSlashes(base: string): (r: string)
    ensures StartsWith(base, r)
    ensures |base| - 2 <= |r| && forall i :: |r| <= i < |base| ==> base[i] == '/'
    ensures |r| > |base| - 2 ==> r == [] || r[|r| - 1] != '/'
  {
    var keep :=
      if |base| >= 2 && base[|base| - 2] == '/' && base[|base| - 1] == '/' then |base| - 2
      else if |base| >= 1 && base[|base| - 1] == '/' then |base| - 1
      else |base|;
    base[..keep]
  }

  /** `relativeURL.replace(/^\/+/, '')`: drop every leading slash, and nothing else. */
  function DropLeadingSlashes(relative: string): (r: string)
    ensures |r| <= |relative| && r == relative[|relative| - |r|..]
    ensures r == [] || r[0] != '/'
    ensures forall i :: 0 <= i < |relative| - |r| ==> relative[i] == '/'
  {
    if relative != [] && relative[0] == '/' then DropLeadingSlashes(relative[1..]) else relative
  }

  predicate IsAsciiLetter(c: char) {
    'a' <= c <= 'z' || 'A' <= c <= 'Z'
  }

  /** A character allowed after the first letter of a URL scheme: a letter, a digit, '+', '-' or '.'. */
  predicate IsSchemeChar(c: char) {
    IsAsciiLetter(c) || '0' <= c <= '9' || c == '+' || c == '-' || c == '.'
  }

  /** `t` is the rest of a scheme followed by "://": scheme characters, then a colon and two slashes. */
  predicate SchemeTail(t: string) {
    (|t| >= 3 && t[0] == ':' && t[1] == '/' && t[2] == '/')
    || (|t| >= 1 && IsSchemeChar(t[0]) && SchemeTail(t[1..]))
  }

  /** The client's absolute-URL test, `/^([a-z][a-z\d+\-.]*:)?\/\//i`: a scheme and "//", or "//" alone. */
  predicate IsAbsoluteRequestUrl(url: string) {
    (|url| >= 2 && url[0] == '/' && url[1] == '/')
    || (|url| >= 1 && IsAsciiLetter(url[0]) && SchemeTail(url[1..]))
  }

  /** Joining a base URL and a relative one: one slash between them, or the base alone when there is nothing to add. */
  function CombineUrl(base: string, relative: string): (r: string)
    ensures relative == [] ==> r == base
    ensures relative != [] ==> StartsWith(r, DropTrailingSlashes(base) + "/")
    ensures relative != [] ==> r == DropTrailingSlashes(base) + "/" + DropLeadingSlashes(relative)
  {
    if relative == [] then base else DropTrailingSlashes(base) + "/" + DropLeadingSlashes(relative)
  }

  /** How the client resolves a request path: with no base or an absolute path, the path as it is; otherwise the two joined. */
  function BuildFullPath(base: string, requested: string): (r: string)
    ensures base == [] || IsAbsoluteRequestUrl(requested) ==> r == requested
    ensures base != [] && !IsAbsoluteRequestUrl(requested) ==> r == CombineUrl(base, requested)
  {
    if base != [] && !IsAbsoluteRequestUrl(requested) then CombineUrl(base, requested) else requested
  }

  /** The absolute URL of a request path. */
  function Url(path: Path): string {
    BuildFullPath(BaseUrl, Render(path))
  }

  /**
   * A rendered path starts with '/', so it counts as absolute exactly when its second
   * character is another '/' (an empty first literal segment). Otherwise the URL is the
   * base followed by the path without its leading slash; an absolute one is used alone.
   */
  lemma UrlUnderBase(path: Path)
    ensures IsAbsoluteRequestUrl(Render(path)) <==> |Render(path)| >= 2 && Render(path)[1] == '/'
    ensures !IsAbsoluteRequestUrl(Render(path)) ==> StartsWith(Url(path), BaseUrl)
    ensures path != [] && !IsAbsoluteRequestUrl(Render(path)) ==> Url(path) == BaseUrl + DropLeadingSlashes(Render(path))
    ensures IsAbsoluteRequestUrl(Render(path)) ==> Url(path) == Render(path)
  {
    var rendered := Render(path);
    assert rendered != [] ==> !IsAsciiLetter(rendered[0]);
    assert BaseUrl[|BaseUrl| - 2] == 'i' && BaseUrl[|BaseUrl| - 1] == '/';
    assert DropTrailingSlashes(BaseUrl) + "/" == BaseUrl;
    if path != [] && !IsAbsoluteRequestUrl(rendered) {
      StartsWithConcat(BaseUrl, DropLeadingSlashes(rendered));
    }
  }

  /** A path whose first segment is a non-empty name not starting with '/' (every path the services build) resolves under the base. */
  lemma NamedPathUnderBase(path: Path)
    requires path != [] && path[0].Lit? && path[0].name != [] && path[0].name[0] != '/'
    ensures Url(path) == BaseUrl + DropLeadingSlashes(Render(path))
    ensures StartsWith(Url(path), BaseUrl)
  {
    var rendered := Render(path);
    assert rendered == "/" + path[0].name + Render(path[1..]);
    assert rendered[1] == path[0].name[0];
    UrlUnderBase(path);
  }

  /** A request as it leaves the client. */
  datatype Outbound = Outbound(verb: Verb, url: string, headers: Headers, body: Body)

  /** What the client sends for `req` with caller headers `headers` while the selected id is `storeId`. */
  function Prepare(req: Request, headers: Headers, storeId: int): Outbound {
    Outbound(req.verb, Url(req.path), ScopeHeaders(headers, storeId), req.body)
  }

  /** The mutable request configuration the interceptor receives. */
  class RequestConfig {
    const verb: Verb
    const url: string
    const body: Body
    var headers: Headers

    constructor (verb: Verb, url: string, body: Body, headers: Headers)
      ensures this.verb == verb && this.url == url && this.body == body && this.headers == headers
    {
      this.verb, this.url, this.body, this.headers := verb, url, body, headers;
    }
  }

  /**
   * The interceptor: reads the selected id when the request passes, writes `X-Store-Id`
   * in place when it is positive, and returns the same config.
   */
  method Intercept(config: RequestConfig, selection: StoreSelection) returns (r: RequestConfig)
    modifies config
    ensures r == config
    ensures config.headers == ScopeHeaders(old(config.headers), selection.id)
  {
    var storeId := selection.id;
    if storeId > 0 {
      config.headers := config.headers[StoreIdHeader := HeaderNumber(storeId)];
    }
    r := config;
  }

  /** The client instance: every request is built on the base URL and passed through the interceptor. */
  class ApiClient {
    const selection: StoreSelection
    var sent: seq<Outbound>

    constructor (selection: StoreSelection)
      ensures this.selection == selection && sent == []
    {
      this.selection := selection;
      sent := [];
    }

    /** Issue `req`: the header reflects the selection as it is at this call. */
    method Dispatch(req: Request, headers: Headers) returns (out: Outbound)
      modifies this`sent
      ensures out == Prepare(req, headers, selection.id)
      ensures sent == old(sent) + [out]
    {
      var config := new RequestConfig(req.verb, Url(req.path), req.body, headers);
      config := Intercept(config, selection);
      out := Outbound(config.verb, config.url, config.headers, config.body);
      sent := sent + [out];
    }
  }
}
