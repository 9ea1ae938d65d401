/** The API service (src/services/api.ts): the base URL with its default, the
    join of base and path that `API.get` requests, and the error a non-ok
    response raises. The response is an input. */
module Api {
  import opened Wrappers
  import opened Strings

  const DefaultBaseUrl: string := "http://localhost:8000/api"
  const RequestFailedPrefix: string := "Request failed: "

  /** `import.meta.env.VITE_API_URL || 'http://localhost:8000/api'` */
  function BaseUrl(env: Option<string>): (base: string)
    ensures env.None? || env == Some("") ==> base == DefaultBaseUrl
    ensures env.Some? && env.value != "" ==> base == env.value
  {
    if env.Some? && env.value != "" then env.value else DefaultBaseUrl
  }

  predicate EndsWithSlash(s: string) { |s| > 0 && s[|s| - 1] == '/' }
  predicate StartsWithSlash(s: string) { |s| > 0 && s[0] == '/' }

  /** `s.replace(/\/$/, '')`: one trailing slash removed, if there is one. */
  function StripTrailingSlash(s: string): (r: string)
    ensures EndsWithSlash(s) ==> s == r + "/"
    ensures !EndsWithSlash(s) ==> r == s
  {
    if EndsWithSlash(s) then s[..|s| - 1] else s
  }

  /** `s.replace(/^\//, '')`: one leading slash removed, if there is one. */
  function StripLeadingSlash(s: string): (r: string)
    ensures StartsWithSlash(s) ==> s == "/" + r
    ensures !StartsWithSlash(s) ==> r == s
  {
    if StartsWithSlash(s) then s[1..] else s
  }

  /** The URL `API.get(path)` requests. */
  function JoinUrl(base: string, path: string): string {
    StripTrailingSlash(base) + "/" + StripLeadingSlash(path)
  }

  /** For a base and a path without slashes at the seam, all four ways of
      writing them (with or without the trailing slash on the base, with or
      without the leading slash on the path) request the same URL: base,
      one slash, path. */
  lemma SeamSlashIrrelevant(base: string, path: string)
    requires !EndsWithSlash(base) && !StartsWithSlash(path)
    ensures JoinUrl(base, path) == base + "/" + path
    ensures JoinUrl(base + "/", path) == base + "/" + path
    ensures JoinUrl(base, "/" + path) == base + "/" + path
    ensures JoinUrl(base + "/", "/" + path) == base + "/" + path
  {
    assert (base + "/")[..|base|] == base;
    assert ("/" + path)[1..] == path;
  }

  /** Only one slash is removed: a base ending in two keeps one of them, so
      the URL holds a double slash at the seam. */
  lemma DoubleSlashKept(base: string, path: string)
    requires |base| >= 2 && base[|base| - 2..] == "//"
    ensures JoinUrl(base, path) == base + StripLeadingSlash(path)
  {
    assert base[|base| - 1] == '/';
    assert StripTrailingSlash(base) + "/" == base;
  }

  /** What `fetch` answered: the `ok` flag, the status and the parsed body. */
  datatype Response = Response(ok: bool, status: nat, body: string)

  /** `API.get`: the body of an ok response; otherwise an error whose message
      is "Request failed: " followed by the status. */
  function Get(baseUrl: string, path: string, fetch: string -> Response): (r: Result<string, string>)
    ensures r.Success? <==> fetch(JoinUrl(baseUrl, path)).ok
    ensures r.Success? ==> r.value == fetch(JoinUrl(baseUrl, path)).body
    ensures r.Failure? ==>
      && |r.error| > |RequestFailedPrefix|
      && r.error[..|RequestFailedPrefix|] == RequestFailedPrefix
      && r.error[|RequestFailedPrefix|..] == NatToString(fetch(JoinUrl(baseUrl, path)).status)
  {
    var res := fetch(JoinUrl(baseUrl, path));
    if !res.ok then Failure(RequestFailedPrefix + NatToString(res.status)) else Success(res.body)
  }
}
