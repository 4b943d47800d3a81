/** The request URL prefix of the AskGeo web API: scheme, API host and
    version, account id, API key and wire format, ending in `?` so that the
    query string can be appended (`buildRequestUrl` in src/AskGeoAPI.php,
    `buildURL` in AskGeoAPI.php). */
module Endpoint {
  import opened ByteStrings

  /** The API's host and version path (`API_URI`, `URL_PREFIX`). */
  const ApiUri: Bytes := "api.askgeo.com/v1"

  /** `https://` for a secure connection, `http://` otherwise. */
  function Scheme(secure: bool): (scheme: Bytes)
    ensures |scheme| == 8 <==> secure
    ensures |scheme| >= 7 && scheme[..4] == "http" && scheme[|scheme| - 3..] == "://"
  {
    if secure then "https://" else "http://"
  }

  /** The format named in the URL: the result format `obj` (a decoded
      object) is fetched as `json`; every other format goes in unchanged. */
  function WireFormat(format: Bytes): (wire: Bytes)
    ensures wire != "obj"
    ensures wire == format <==> format != "obj"
  {
    assert "json" != "obj" by {
      assert "json"[0] != "obj"[0];
    }
    if format == "obj" then "json" else format
  }

  /** The URL prefix, in the order the source appends its pieces. */
  function RequestUrl(accountId: Bytes, apiKey: Bytes, format: Bytes, secure: bool): (url: Bytes)
    ensures |url| > |Scheme(secure)| && url[..|Scheme(secure)|] == Scheme(secure)
    ensures url[|url| - 1] == '?'
  {
    var scheme := Scheme(secure);
    var rest := ApiUri + "/" + accountId + "/" + apiKey + "/query." + format + "?";
    SchemeThenRest(scheme, ApiUri, accountId, apiKey, format);
    assert (scheme + rest)[..|scheme|] == scheme;
    Scheme(secure) + ApiUri + "/" + accountId + "/" + apiKey + "/query." + format + "?"
  }

  /** Mapping twice is mapping once, and both default result formats,
      `obj` (current) and `json` (earlier), are fetched as `json`. */
  lemma WireFormatNeverObj(format: Bytes)
    ensures WireFormat(WireFormat(format)) == WireFormat(format)
    ensures WireFormat("obj") == "json" == WireFormat("json") && "json" != "obj"
  {
  }

  /** The prefix begins with `https://` exactly for a secure connection
      (and with `http://` otherwise), and it always ends with `?`. */
  lemma RequestUrlEnds(accountId: Bytes, apiKey: Bytes, format: Bytes, secure: bool)
    ensures var url := RequestUrl(accountId, apiKey, format, secure);
      |url| >= 8 && url[|url| - 1] == '?'
      && (url[..8] == "https://" <==> secure)
      && (!secure ==> url[..7] == "http://")
  {
    var url := RequestUrl(accountId, apiKey, format, secure);
    var more := "/" + accountId + "/" + apiKey + "/query." + format + "?";
    var rest := ApiUri + more;
    assert url == Scheme(secure) + rest by {
      SchemeThenRest(Scheme(secure), ApiUri, accountId, apiKey, format);
    }
    assert rest[0] == 'a';
    if !secure {
      assert url[..7] == "http://";
      assert url[7] == 'a';
    }
  }

  /** Regrouping the prefix as the scheme followed by everything else. */
  lemma SchemeThenRest(scheme: Bytes, uri: Bytes, accountId: Bytes, apiKey: Bytes, format: Bytes)
    ensures scheme + uri + "/" + accountId + "/" + apiKey + "/query." + format + "?"
      == scheme + (uri + ("/" + accountId + "/" + apiKey + "/query." + format + "?"))
  {
  }

  /** The literal pieces of the prefix around its slashes. */
  lemma SlashedPieces(secure: bool)
    ensures Scheme(secure) == (if secure then "https:" else "http:") + ['/'] + ['/']
    ensures ApiUri == "api.askgeo.com" + ['/'] + "v1"
    ensures "/query." == ['/'] + "query."
  {
  }

  /** A prefix laid out from its pieces, nested to the right at each `/`. */
  lemma NestAtSlashes(sc: Bytes, host: Bytes, version: Bytes, accountId: Bytes, apiKey: Bytes, q: Bytes, format: Bytes)
    ensures (sc + ['/'] + ['/']) + (host + ['/'] + version) + ['/'] + accountId + ['/'] + apiKey + (['/'] + q) + format + ['?']
      == sc + ['/'] + ([] + ['/'] + (host + ['/'] + (version + ['/'] + (accountId + ['/'] + (apiKey + ['/'] + (q + format + ['?']))))))
  {
  }

  /** Splitting seven separator-free parts joined to the right. */
  lemma SplitSeven(p1: Bytes, p2: Bytes, p3: Bytes, p4: Bytes, p5: Bytes, p6: Bytes, p7: Bytes, sep: Octet)
    requires sep !in p1 && sep !in p2 && sep !in p3 && sep !in p4 && sep !in p5 && sep !in p6 && sep !in p7
    ensures Split(p1 + [sep] + (p2 + [sep] + (p3 + [sep] + (p4 + [sep] + (p5 + [sep] + (p6 + [sep] + p7))))), sep)
      == [p1, p2, p3, p4, p5, p6, p7]
  {
    var r5 := p6 + [sep] + p7;
    var r4 := p5 + [sep] + r5;
    var r3 := p4 + [sep] + r4;
    var r2 := p3 + [sep] + r3;
    var r1 := p2 + [sep] + r2;
    SplitNoSeparator(p7, sep);
    SplitAfterPrefix(p6, sep, p7);
    SplitAfterPrefix(p5, sep, r5);
    SplitAfterPrefix(p4, sep, r4);
    SplitAfterPrefix(p3, sep, r3);
    SplitAfterPrefix(p2, sep, r2);
    SplitAfterPrefix(p1, sep, r1);
  }

  lemma LiteralPiecesPlain(secure: bool)
    ensures '/' !in (if secure then "https:" else "http:")
    ensures '/' !in "api.askgeo.com" && '/' !in "v1" && '/' !in "query."
  {
  }

  /** When no id contains `/`, splitting the prefix on `/` gives back the
      scheme, an empty piece, the host, the version, the account id, the
      API key and the `query.{format}?` piece, in that order. */
  lemma RequestUrlFields(accountId: Bytes, apiKey: Bytes, format: Bytes, secure: bool)
    requires '/' !in accountId && '/' !in apiKey && '/' !in format
    ensures Split(RequestUrl(accountId, apiKey, format, secure), '/')
      == [if secure then "https:" else "http:", [], "api.askgeo.com", "v1", accountId, apiKey, "query." + format + "?"]
  {
    var sc: Bytes := if secure then "https:" else "http:";
    var host: Bytes, version: Bytes, q: Bytes := "api.askgeo.com", "v1", "query.";
    var tail := q + format + ['?'];
    SlashedPieces(secure);
    NestAtSlashes(sc, host, version, accountId, apiKey, q, format);
    LiteralPiecesPlain(secure);
    assert '/' !in tail;
    SplitSeven(sc, [], host, version, accountId, apiKey, tail, '/');
  }

  /** The prefix ends with `query.{format}?`. */
  lemma RequestUrlSuffix(accountId: Bytes, apiKey: Bytes, format: Bytes, secure: bool)
    ensures var url := RequestUrl(accountId, apiKey, format, secure);
      var tail := "query." + format + "?";
      |url| > |tail| && url[|url| - |tail|..] == tail
  {
    var head := Scheme(secure) + ApiUri + "/" + accountId + "/" + apiKey + ['/'];
    SlashedPieces(secure);
    SuffixRegroup(Scheme(secure) + ApiUri + "/" + accountId + "/" + apiKey, "query.", format);
    var url := head + ("query." + format + "?");
    assert url[|head|..] == "query." + format + "?";
  }

  lemma SuffixRegroup(head: Bytes, q: Bytes, format: Bytes)
    ensures head + (['/'] + q) + format + ['?'] == (head + ['/']) + (q + format + ['?'])
  {
  }

  /** A secure prefix for result format `obj` begins with `https://` and
      ends with `query.json?`; a plain one for `xml` begins with `http://`
      and ends with `query.xml?`. */
  lemma BaseUrlScenarios(accountId: Bytes, apiKey: Bytes)
    ensures var url := RequestUrl(accountId, apiKey, WireFormat("obj"), true);
      url[..8] == "https://" && |url| >= 11 && url[|url| - 11..] == "query.json?"
    ensures var url := RequestUrl(accountId, apiKey, WireFormat("xml"), false);
      url[..7] == "http://" && url[..8] != "https://" && |url| >= 10 && url[|url| - 10..] == "query.xml?"
  {
    WireFormatNeverObj("xml");
    RequestUrlEnds(accountId, apiKey, "json", true);
    RequestUrlSuffix(accountId, apiKey, "json", true);
    RequestUrlEnds(accountId, apiKey, "xml", false);
    RequestUrlSuffix(accountId, apiKey, "xml", false);
    QueryPieces();
  }

  lemma QueryPieces()
    ensures "query." + "json" + "?" == "query.json?"
    ensures "query." + "xml" + "?" == "query.xml?"
  {
  }
}
