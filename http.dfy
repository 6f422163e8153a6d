/**
 * HTTP responses as the tap sees them, the status ranges it tests, and the path
 * component of a URL as Python's `urllib.parse.urlparse` computes it.
 */
module Http {
  import opened Wrappers
  import opened Text
  import opened PyJson

  const BadRequest: nat := 400
  const TooManyRequests: nat := 429
  const InternalServerError: nat := 500
  /** The largest member of Python's `HTTPStatus` (511, Network Authentication Required). */
  const MaxStatus: nat := 511

  /** A response: status code, reason phrase, final URL and body (None when it is not JSON). */
  datatype HttpResponse = HttpResponse(status: nat, reason: string, url: string, body: Option<Json>)

  /** Rate limited or a server error: 429 or 500 to 511. */
  predicate IsRetriableStatus(status: nat) {
    status == TooManyRequests || InternalServerError <= status <= MaxStatus
  }

  /** A client error: 400 to 499. */
  predicate IsClientStatus(status: nat) {
    BadRequest <= status < InternalServerError
  }

  predicate IsSchemeChar(c: char) {
    IsAsciiAlpha(c) || IsDigit(c) || c == '+' || c == '-' || c == '.'
  }

  /** `urlsplit`'s scheme: the text before the first ':' when it is a valid scheme, lower-cased. */
  function SplitScheme(url: string): (string, string) {
    var i := IndexOfChar(url, ':');
    if 0 < i < |url| && IsAsciiAlpha(url[0]) && forall j :: 0 <= j < i ==> IsSchemeChar(url[j])
    then (Lower(url[..i]), url[i + 1..])
    else ("", url)
  }

  predicate IsNetlocDelimiter(c: char) {
    c == '/' || c == '?' || c == '#'
  }

  /** Where the network location ends: the first '/', '?' or '#', else the end. */
  function NetlocEnd(s: string): (k: nat)
    ensures k <= |s|
    ensures forall j :: 0 <= j < k ==> !IsNetlocDelimiter(s[j])
    ensures k < |s| ==> IsNetlocDelimiter(s[k])
  {
    if s == [] then 0 else if IsNetlocDelimiter(s[0]) then 0 else 1 + NetlocEnd(s[1..])
  }

  lemma {:induction false} NetlocEndAppend(a: string, b: string)
    requires forall j :: 0 <= j < |a| ==> !IsNetlocDelimiter(a[j])
    ensures NetlocEnd(a + b) == |a| + NetlocEnd(b)
    decreases |a|
  {
    if a == [] {
      assert a + b == b;
    } else {
      assert (a + b)[0] == a[0];
      assert (a + b)[1..] == a[1..] + b;
      NetlocEndAppend(a[1..], b);
    }
  }

  /** What is left after `urlsplit` removes a "//"-introduced network location. */
  function StripNetloc(rest: string): string {
    if |rest| >= 2 && rest[..2] == "//" then rest[2..][NetlocEnd(rest[2..])..] else rest
  }

  /** The schemes whose last path segment `urlparse` splits ";params" from. */
  const UsesParams: seq<string> :=
    ["", "ftp", "hdl", "prospero", "http", "imap", "https", "shttp", "rtsp", "rtsps", "rtspu",
     "sip", "sips", "mms", "sftp", "tel"]

  /** The path part of `_splitparams`: cut at the first ';' of the last segment. */
  function SplitParams(p: string): (r: string)
    requires ';' in p
    ensures |r| <= |p| && r == p[..|r|]
  {
    if '/' in p then
      var start := LastIndexOfChar(p, '/');
      var i := start + IndexOfChar(p[start..], ';');
      p[..i]
    else
      p[..IndexOfChar(p, ';')]
  }

  /** `urlparse(url).path`. */
  function UrlPath(url: string): (path: string)
    ensures '?' !in path && '#' !in path
  {
    var (scheme, rest) := SplitScheme(url);
    var p := CutAt(CutAt(StripNetloc(rest), '#'), '?');
    if scheme in UsesParams && ';' in p then SplitParams(p) else p
  }

  /** The path an error message reports: the URL's path, or the stream's own when that is empty. */
  function ReportedPath(url: string, streamPath: string): (r: string)
    ensures UrlPath(url) != "" ==> r == UrlPath(url)
    ensures UrlPath(url) == "" ==> r == streamPath
    ensures r == "" ==> streamPath == ""
    ensures r != streamPath ==> r == UrlPath(url) && '?' !in r && '#' !in r
  {
    var p := UrlPath(url);
    if p != "" then p else streamPath
  }

  /** "https:" introduces the scheme "https". */
  lemma SchemeOfHttps(after: string)
    ensures SplitScheme("https:" + after) == ("https", after)
  {
    var url := "https:" + after;
    assert url == "https" + (":" + after);
    IndexOfCharAppend("https", ":" + after, ':');
    assert IndexOfChar(url, ':') == 5;
    assert url[..5] == "https";
    assert forall j :: 0 <= j < 5 ==> IsSchemeChar(url[j]);
    assert Lower("https") == "https";
    assert url[5 + 1..] == after;
  }

  /** After "//" and a host without delimiters, what remains is the rest. */
  lemma StripHost(host: string, rest: string)
    requires forall j :: 0 <= j < |host| ==> !IsNetlocDelimiter(host[j])
    requires rest == [] || IsNetlocDelimiter(rest[0])
    ensures StripNetloc("//" + host + rest) == rest
  {
    var s := "//" + host + rest;
    assert s[..2] == "//";
    assert s[2..] == host + rest;
    NetlocEndAppend(host, rest);
    assert (host + rest)[|host|..] == rest;
  }

  /**
   * For an https URL, the reported path is exactly the path: the query string
   * (and with it any filter in it) is dropped.
   */
  lemma PathOfHttpsUrl(host: string, path: string, tail: string)
    requires forall j :: 0 <= j < |host| ==> !IsNetlocDelimiter(host[j])
    requires |path| > 0 && path[0] == '/'
    requires '?' !in path && '#' !in path && ';' !in path
    requires tail == [] || tail[0] == '?'
    ensures UrlPath("https://" + host + path + tail) == path
  {
    var url := "https://" + host + path + tail;
    HttpsPrefix(host, path + tail);
    assert url == "https://" + host + (path + tail);
    CutQuery(path, tail);
  }

  /** Scheme and network location of an https URL are stripped, leaving what follows the host. */
  lemma HttpsPrefix(host: string, rest: string)
    requires forall j :: 0 <= j < |host| ==> !IsNetlocDelimiter(host[j])
    requires rest == [] || IsNetlocDelimiter(rest[0])
    ensures var (scheme, after) := SplitScheme("https://" + host + rest);
            scheme == "https" && StripNetloc(after) == rest
  {
    var after := "//" + host + rest;
    assert "https://" + host + rest == "https:" + after;
    SchemeOfHttps(after);
    StripHost(host, rest);
  }

  /** A query string, and any fragment inside it, is cut off a path that has neither. */
  lemma CutQuery(path: string, tail: string)
    requires '?' !in path && '#' !in path
    requires tail == [] || tail[0] == '?'
    ensures CutAt(CutAt(path + tail, '#'), '?') == path
  {
    IndexOfCharAppend(path, tail, '#');
    var q := CutAt(tail, '#');
    assert CutAt(path + tail, '#') == path + q;
    assert q == [] || q[0] == '?';
    IndexOfCharAppend(path, q, '?');
  }

  /** A URL without a path reports the stream's path. */
  lemma EmptyPathFallsBack(host: string, streamPath: string)
    requires forall j :: 0 <= j < |host| ==> !IsNetlocDelimiter(host[j])
    ensures ReportedPath("https://" + host, streamPath) == streamPath
  {
    var after := "//" + host + "";
    assert "https://" + host == "https:" + after;
    SchemeOfHttps(after);
    StripHost(host, "");
  }
}
