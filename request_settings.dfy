/** request/meli/request_settings.py: the Bearer authorization header (section 2.1 of
    RFC 6750) and the settings of a search request. */
module Settings {

  const BearerPrefix: string := "Bearer "

  /** The MLA search endpoint every search request starts from. */
  const SearchUrl: string := "https://api.mercadolibre.com/sites/MLA/search"

  /** A `Credential`: the access token `_connection` returned. */
  datatype Credential = Credential(accessToken: string)

  /** `Credential.generate()`: a header dictionary whose only entry is `Authorization`,
      holding `Bearer ` followed by the token exactly as given. */
  function Generate(c: Credential): (h: map<string, string>)
    ensures h.Keys == {"Authorization"}
    ensures |h["Authorization"]| == |BearerPrefix| + |c.accessToken|
    ensures h["Authorization"][..|BearerPrefix|] == BearerPrefix
    ensures h["Authorization"][|BearerPrefix|..] == c.accessToken
  {
    map["Authorization" := BearerPrefix + c.accessToken]
  }

  /** The token can be read back from the header: different tokens give different headers. */
  lemma GenerateInjective(c: Credential, d: Credential)
    requires Generate(c) == Generate(d)
    ensures c == d
  {
    assert c.accessToken == Generate(c)["Authorization"][|BearerPrefix|..];
  }

  /** A `RequestSettings` object: the header dictionary and the URL, which the console
      control extends in place. */
  class RequestSettings {
    var credential: map<string, string>
    var url: string

    /** `RequestSettings(credential)`: the generated header and the fixed search URL. */
    constructor (c: Credential)
      ensures credential == Generate(c)
      ensures url == SearchUrl
    {
      credential := Generate(c);
      url := SearchUrl;
    }
  }
}
