/** The earlier client class of AskGeoAPI.php: the same request building as
    src/AskGeoAPI.php under other names (`URL`, `format`, `buildURL`,
    `buildQuery`), with `json` as the default format, no `changeUser` and a
    single shortcut. */
module LegacyClient {
  import opened ByteStrings
  import opened FormEncoding
  import opened QuerySpec
  import opened Endpoint
  import opened Client

  class LegacyAskGeoApi {
    var url: Bytes
    var curlOptions: CurlOptions
    var format: Bytes

    /** Stores the format as given and builds the URL prefix with `obj`
        replaced by `json`. */
    constructor (accountId: Bytes, apiKey: Bytes, format: Bytes := "json",
                 secure: bool := true, curlOptions: CurlOptions := map[])
      ensures this.format == format
      ensures url == RequestUrl(accountId, apiKey, WireFormat(format), secure)
      ensures this.curlOptions == curlOptions
    {
      this.format := format;
      var wire := format;
      if wire == "obj" {
        wire := "json";
      }
      new;
      BuildUrl(accountId, apiKey, wire, secure);
      this.curlOptions := curlOptions;
    }

    method BuildUrl(accountId: Bytes, apiKey: Bytes, format: Bytes := "json", secure: bool := true)
      modifies this`url
      ensures url == RequestUrl(accountId, apiKey, format, secure)
    {
      url := if secure then "https://" else "http://";
      url := url + ApiUri + "/" + accountId + "/";
      url := url + apiKey + "/query." + format + "?";
    }

    /** The query, assembled step by step; it is the `&`-joined list of
        encoded fields. */
    method BuildQuery(databases: Databases, points: seq<Elem>,
                      callback: Option<Bytes> := None, datetime: Option<Bytes> := None)
      returns (query: Bytes)
      requires WellFormedPoints(points)
      ensures query == QueryString(databases, points, callback, datetime)
    {
      var names: seq<Bytes>;
      match databases {
        case Name(name) => names := [name];
        case Names(list) => names := list;
      }
      var list: seq<seq<Bytes>>;
      if !points[0].Array? {
        list := [Texts(points)];
      } else {
        list := Items(points);
      }
      var joined := Join(names, ',');

      var pointsValue := JoinPoints(list);
      assert joined == DatabasesValue(databases);

      query := DatabasesKey + UrlEncode(joined);
      query := query + PointsKey + UrlEncode(pointsValue);
      ghost var required := query;
      ghost var c: Bytes := [];
      if callback.Some? {
        c := CallbackKey + UrlEncode(callback.value);
        Associative(query, CallbackKey, UrlEncode(callback.value));
        query := query + CallbackKey + UrlEncode(callback.value);
      } else {
        assert query == required + c;
      }
      ghost var withCallback := query;
      ghost var t: Bytes := [];
      if datetime.Some? {
        t := DateTimeKey + UrlEncode(datetime.value);
        Associative(query, DateTimeKey, UrlEncode(datetime.value));
        query := query + DateTimeKey + UrlEncode(datetime.value);
      } else {
        assert query == withCallback + t;
      }
      QueryFromParts(databases, points, callback, datetime, required, c, t);
    }

    /** A general request: the URL prefix followed by the query; the
        response is decoded exactly when the format is `obj`. */
    method Get(databases: Databases, points: seq<Elem>,
               callback: Option<Bytes> := None, datetime: Option<Bytes> := None)
      returns (r: Request)
      requires WellFormedPoints(points)
      ensures r.url == url + QueryString(databases, points, callback, datetime)
      ensures ParseQuery(r.url[|url|..]) == Fields(databases, points, callback, datetime)
      ensures r.decodeJson <==> format == "obj"
    {
      var query := BuildQuery(databases, points, callback, datetime);
      var full := url + query;
      assert full[|url|..] == query;
      ParseBuiltQuery(databases, points, callback, datetime);
      r := Request(full, format == "obj");
    }

    method GetTimeZone(points: seq<Elem>, callback: Option<Bytes> := None, datetime: Option<Bytes> := None)
      returns (r: Request)
      requires WellFormedPoints(points)
      ensures r.url == url + QueryString(Name("TimeZone"), points, callback, datetime)
      ensures r.decodeJson <==> format == "obj"
    {
      r := Get(Name("TimeZone"), points, callback, datetime);
    }
  }

  /** Both versions build the same query string for every input. */
  method QueryBuildersAgree(current: AskGeoApi, legacy: LegacyAskGeoApi, databases: Databases, points: seq<Elem>,
                            callback: Option<Bytes>, datetime: Option<Bytes>)
    returns (queryString: Bytes, query: Bytes)
    requires WellFormedPoints(points)
    ensures queryString == query
  {
    queryString := current.BuildQueryString(databases, points, callback, datetime);
    query := legacy.BuildQuery(databases, points, callback, datetime);
  }

  /** Given the same arguments, both versions store the same URL prefix and
      the same format, and therefore send the same requests. */
  method SameArgumentsSameState(accountId: Bytes, apiKey: Bytes, format: Bytes, secure: bool, options: CurlOptions)
    returns (requestUrl: Bytes, url: Bytes, resultFormat: Bytes, storedFormat: Bytes)
    ensures requestUrl == url && resultFormat == storedFormat == format
  {
    var current := new AskGeoApi(accountId, apiKey, format, secure, options);
    var legacy := new LegacyAskGeoApi(accountId, apiKey, format, secure, options);
    requestUrl, url := current.requestUrl, legacy.url;
    resultFormat, storedFormat := current.resultFormat, legacy.format;
  }

  /** With the format left at its default the two versions differ only in
      decoding: both fetch `query.json?`, but only the current one decodes
      the response (its default is `obj`, the earlier one's is `json`). */
  method DefaultFormats(accountId: Bytes, apiKey: Bytes, points: seq<Elem>)
    returns (r: Request, r': Request)
    requires WellFormedPoints(points)
    ensures r.url == r'.url
    ensures r.decodeJson && !r'.decodeJson
  {
    var current := new AskGeoApi(accountId, apiKey);
    var legacy := new LegacyAskGeoApi(accountId, apiKey);
    WireFormatNeverObj("json");
    r := current.GetTimeZone(points);
    r' := legacy.GetTimeZone(points);
  }
}
