/** utils/http_request.py: the response check and the two catalogue request builders,
    with the shapes of HTTP replies the model works with. */
module HttpRequest {
  import opened Common

  /** A JSON value as far as the model needs it: strings, null, and everything else. */
  datatype JsonValue = JString(s: string) | JNull | JOther

  /** A reply body: not JSON at all, a JSON object, or some other JSON value. */
  datatype Body = Malformed | JsonObject(fields: map<string, JsonValue>) | JsonNonObject

  /** What an HTTP call gives back: a network-level fault, or a status with a body. */
  datatype Reply = NetworkFault | Response(status: int, body: Body)

  /** `validate(res)`: success means status 200 and nothing else. */
  predicate Validate(status: int)
    ensures Validate(status) <==> status == 200
  {
    status == 200
  }

  /** A `Request` object. The base constructor sets `data` (None by default); the two
      builders below do not call it, so for them `data` is never assigned. */
  datatype Request = Request(
    url: string, headers: map<string, string>, cookies: Option<map<string, string>>,
    data: Slot<Option<map<string, string>>>, params: Option<map<string, string>>)

  const ApiHost: string := "https://api.mercadolibre.com"
  const DomainDiscoveryPath: string := ApiHost + "/sites/MLA/domain_discovery/search"
  const DomainDiscoveryPrefix: string := DomainDiscoveryPath + "?q="
  const CategoriesPrefix: string := ApiHost + "/categories/"
  const AttributesSuffix: string := "/attributes"

  /** `CategoryPredictor(key, credentials)`: the key goes verbatim after `?q=`, without
      escaping; the credentials become the headers; cookies and params are None and the
      base constructor is not called, so `data` stays unset. */
  function CategoryPredictor(key: string, credentials: map<string, string>): (r: Request)
    ensures |r.url| == |DomainDiscoveryPrefix| + |key|
    ensures r.url[..|DomainDiscoveryPrefix|] == DomainDiscoveryPrefix && r.url[|DomainDiscoveryPrefix|..] == key
    ensures r.headers == credentials && r.cookies == None && r.params == None && r.data.Unbound?
  {
    Request(DomainDiscoveryPrefix + key, credentials, None, Unbound, None)
  }

  /** `CategoryAttributes(category, credentials)`: `.../categories/<category>/attributes`. */
  function CategoryAttributes(category: string, credentials: map<string, string>): (r: Request)
    ensures |r.url| == |CategoriesPrefix| + |category| + |AttributesSuffix|
    ensures r.url[..|CategoriesPrefix|] == CategoriesPrefix
    ensures r.url[|CategoriesPrefix|..|CategoriesPrefix| + |category|] == category
    ensures r.url[|CategoriesPrefix| + |category|..] == AttributesSuffix
    ensures r.headers == credentials && r.cookies == None && r.params == None && r.data.Unbound?
  {
    Request(CategoriesPrefix + category + AttributesSuffix, credentials, None, Unbound, None)
  }

  /** The number of occurrences of `c` in `s`. */
  function Occurrences(s: string, c: char): (n: nat)
    ensures n <= |s|
  {
    if s == [] then 0 else (if s[0] == c then 1 else 0) + Occurrences(s[1..], c)
  }

  lemma {:induction false} OccurrencesAppend(a: string, b: string, c: char)
    ensures Occurrences(a + b, c) == Occurrences(a, c) + Occurrences(b, c)
  {
    if a != [] {
      assert (a + b)[1..] == a[1..] + b;
      OccurrencesAppend(a[1..], b, c);
    } else {
      assert a + b == b;
    }
  }

  /** The query string of a URL: what follows its first `?`, or nothing without one. */
  function QueryString(url: string): (q: string)
    ensures |q| < |url| || q == []
  {
    if url == [] then [] else if url[0] == '?' then url[1..] else QueryString(url[1..])
  }

  lemma {:induction false} QueryStringAfter(a: string, b: string)
    requires '?' !in a
    ensures QueryString(a + b) == QueryString(b)
  {
    if a != [] {
      assert (a + b)[1..] == a[1..] + b;
      assert a == [a[0]] + a[1..];
      QueryStringAfter(a[1..], b);
    } else {
      assert a + b == b;
    }
  }

  /** The parameters of a query string, as a server splits it at each `&`. */
  function ParameterCount(query: string): nat
  {
    1 + Occurrences(query, '&')
  }

  /** Since the key is not escaped, the query string of the predictor URL is `q=` followed
      by the key itself, and every `&` in the key starts a parameter of its own. */
  lemma PredictorKeyNotEscaped(key: string, credentials: map<string, string>)
    ensures QueryString(CategoryPredictor(key, credentials).url) == "q=" + key
    ensures ParameterCount(QueryString(CategoryPredictor(key, credentials).url)) == 1 + Occurrences(key, '&')
  {
    NoQueryInPath();
    QueryAfterPath(DomainDiscoveryPath, key);
  }

  /** The query string of `path?q=key`, for a path without `?`, and its parameters. */
  lemma QueryAfterPath(path: string, key: string)
    requires '?' !in path
    ensures QueryString(path + "?q=" + key) == "q=" + key
    ensures Occurrences("q=" + key, '&') == Occurrences(key, '&')
  {
    assert path + "?q=" + key == path + (['?'] + ("q=" + key));
    QueryStringAfter(path, ['?'] + ("q=" + key));
    QueryStringAtMark("q=" + key);
    OccurrencesAppend("q=", key, '&');
  }

  lemma QueryStringAtMark(rest: string)
    ensures QueryString(['?'] + rest) == rest
  {
    assert (['?'] + rest)[1..] == rest;
  }

  lemma NoQueryInPath()
    ensures '?' !in DomainDiscoveryPath
  {
    assert '?' !in ApiHost;
    assert '?' !in "/sites/MLA/domain_discovery/search";
  }
}
