/** The client class of src/AskGeoAPI.php. An object holds the request URL
    prefix, the curl options and the result format; `ChangeUser` (also run
    by the constructor) overwrites all three. A request is the prefix
    followed by the query string `BuildQueryString` assembles. */
module Client {
  import opened ByteStrings
  import opened FormEncoding
  import opened QuerySpec
  import opened Endpoint

  /** curl options by option number, handed to curl as they are. */
  type CurlOptions = map<int, Bytes>

  /** What a call sends: the full URL, and whether the response body is
      then passed through `json_decode`. */
  datatype Request = Request(url: Bytes, decodeJson: bool)

  /** The points loop shared by both query builders: each point is
      appended as `lat,lon;`, then `substr(…, 0, -1)` cuts the last byte off
      (and leaves an empty buffer empty). The result is the rendered points
      joined by `;`. */
  method JoinPoints(list: seq<seq<Bytes>>) returns (value: Bytes)
    requires AllPairs(list)
    ensures value == PointsValue(list)
  {
    var pointsTemp: Bytes := [];
    for i := 0 to |list|
      invariant i == 0 ==> pointsTemp == []
      invariant i > 0 ==> pointsTemp == PointsValue(list[..i]) + [';']
    {
      AccumulatePoint(list, i);
      var point := list[i];
      pointsTemp := pointsTemp + point[0] + [','] + point[1] + [';'];
    }
    if |pointsTemp| == 0 {
      value := [];
      assert list == [];
    } else {
      value := pointsTemp[..|pointsTemp| - 1];
      assert list[..|list|] == list;
    }
  }

  class AskGeoApi {
    var requestUrl: Bytes
    var curlOptions: CurlOptions
    var resultFormat: Bytes

    constructor (accountId: Bytes, apiKey: Bytes, resultFormat: Bytes := "obj",
                 isSecureConnection: bool := true, curlOptions: CurlOptions := map[])
      ensures this.resultFormat == resultFormat
      ensures requestUrl == RequestUrl(accountId, apiKey, WireFormat(resultFormat), isSecureConnection)
      ensures this.curlOptions == curlOptions
    {
      new;
      ChangeUser(accountId, apiKey, resultFormat, isSecureConnection, curlOptions);
    }

    /** Stores the result format as given, builds the prefix with `obj`
        replaced by `json`, and replaces the curl options: the new state
        depends on the arguments alone. */
    method ChangeUser(accountId: Bytes, apiKey: Bytes, resultFormat: Bytes := "obj",
                      isSecureConnection: bool := true, curlOptions: CurlOptions := map[])
      modifies this
      ensures this.resultFormat == resultFormat
      ensures requestUrl == RequestUrl(accountId, apiKey, WireFormat(resultFormat), isSecureConnection)
      ensures this.curlOptions == curlOptions
    {
      this.resultFormat := resultFormat;
      var format := resultFormat;
      if format == "obj" {
        format := "json";
      }
      BuildRequestUrl(accountId, apiKey, format, isSecureConnection);
      this.curlOptions := curlOptions;
    }

    method BuildRequestUrl(accountId: Bytes, apiKey: Bytes, resultFormat: Bytes := "json",
                           isSecureConnection: bool := true)
      modifies this`requestUrl
      ensures requestUrl == RequestUrl(accountId, apiKey, resultFormat, isSecureConnection)
    {
      requestUrl := if isSecureConnection then "https://" else "http://";
      requestUrl := requestUrl + ApiUri + "/" + accountId + "/";
      requestUrl := requestUrl + apiKey + "/query." + resultFormat + "?";
    }

    /** The query string, assembled step by step as the source does; it is
        the `&`-joined list of encoded fields. */
    method BuildQueryString(databases: Databases, points: seq<Elem>,
                            callback: Option<Bytes> := None, datetime: Option<Bytes> := None)
      returns (queryString: Bytes)
      requires WellFormedPoints(points)
      ensures queryString == QueryString(databases, points, callback, datetime)
    {
      var names: seq<Bytes>;
      match databases {
        case Name(name) => names := [name];
        case Names(list) => names := list;
      }
      var list: seq<seq<Bytes>>;
      if !points[0].Array? {
        list := [Texts(points)];
      } else {
        list := Items(points);
      }
      var joined := Join(names, ',');

      var pointsValue := JoinPoints(list);
      assert joined == DatabasesValue(databases);

      queryString := DatabasesKey + UrlEncode(joined);
      queryString := queryString + PointsKey + UrlEncode(pointsValue);
      ghost var required := queryString;
      ghost var c: Bytes := [];
      if callback.Some? {
        c := CallbackKey + UrlEncode(callback.value);
        Associative(queryString, CallbackKey, UrlEncode(callback.value));
        queryString := queryString + CallbackKey + UrlEncode(callback.value);
      } else {
        assert queryString == required + c;
      }
      ghost var withCallback := queryString;
      ghost var t: Bytes := [];
      if datetime.Some? {
        t := DateTimeKey + UrlEncode(datetime.value);
        Associative(queryString, DateTimeKey, UrlEncode(datetime.value));
        queryString := queryString + DateTimeKey + UrlEncode(datetime.value);
      } else {
        assert queryString == withCallback + t;
      }
      QueryFromParts(databases, points, callback, datetime, required, c, t);
    }

    /** A general request: the prefix followed by the query string, whose
        fields a server reads back unchanged; the response is decoded
        exactly when the result format is `obj`. */
    method Get(databases: Databases, points: seq<Elem>,
               callback: Option<Bytes> := None, datetime: Option<Bytes> := None)
      returns (r: Request)
      requires WellFormedPoints(points)
      ensures r.url == requestUrl + QueryString(databases, points, callback, datetime)
      ensures ParseQuery(r.url[|requestUrl|..]) == Fields(databases, points, callback, datetime)
      ensures r.decodeJson <==> resultFormat == "obj"
    {
      var queryString := BuildQueryString(databases, points, callback, datetime);
      var url := requestUrl + queryString;
      assert url[|requestUrl|..] == queryString;
      ParseBuiltQuery(databases, points, callback, datetime);
      r := Request(url, resultFormat == "obj");
    }

    /** The shortcuts: `Get` with a fixed database. Those that take no
        datetime never send a `dateTime` field. */
    method GetPoint(point: seq<Elem>, callback: Option<Bytes> := None) returns (r: Request)
      requires WellFormedPoints(point)
      ensures r.url == requestUrl + QueryString(Name("Point"), point, callback, None)
      ensures r.decodeJson <==> resultFormat == "obj"
      ensures !Contains(QueryString(Name("Point"), point, callback, None), DateTimeKey)
    {
      r := GetWithoutDateTime(Name("Point"), point, callback);
    }

    method GetTimeZone(points: seq<Elem>, callback: Option<Bytes> := None, datetime: Option<Bytes> := None)
      returns (r: Request)
      requires WellFormedPoints(points)
      ensures r.url == requestUrl + QueryString(Name("TimeZone"), points, callback, datetime)
      ensures r.decodeJson <==> resultFormat == "obj"
    {
      r := Get(Name("TimeZone"), points, callback, datetime);
    }

    method GetNaturalEarthCountry(points: seq<Elem>, callback: Option<Bytes> := None) returns (r: Request)
      requires WellFormedPoints(points)
      ensures r.url == requestUrl + QueryString(Name("NaturalEarthCountry"), points, callback, None)
      ensures r.decodeJson <==> resultFormat == "obj"
      ensures !Contains(QueryString(Name("NaturalEarthCountry"), points, callback, None), DateTimeKey)
    {
      r := GetWithoutDateTime(Name("NaturalEarthCountry"), points, callback);
    }

    method GetAstronomy(points: seq<Elem>, callback: Option<Bytes> := None, datetime: Option<Bytes> := None)
      returns (r: Request)
      requires WellFormedPoints(points)
      ensures r.url == requestUrl + QueryString(Name("Astronomy"), points, callback, datetime)
      ensures r.decodeJson <==> resultFormat == "obj"
    {
      r := Get(Name("Astronomy"), points, callback, datetime);
    }

    method GetUsState2010(points: seq<Elem>, callback: Option<Bytes> := None) returns (r: Request)
      requires WellFormedPoints(points)
      ensures r.url == requestUrl + QueryString(Name("UsState2010"), points, callback, None)
      ensures r.decodeJson <==> resultFormat == "obj"
      ensures !Contains(QueryString(Name("UsState2010"), points, callback, None), DateTimeKey)
    {
      r := GetWithoutDateTime(Name("UsState2010"), points, callback);
    }

    method GetUsCounty2010(points: seq<Elem>, callback: Option<Bytes> := None) returns (r: Request)
      requires WellFormedPoints(points)
      ensures r.url == requestUrl + QueryString(Name("UsCounty2010"), points, callback, None)
      ensures r.decodeJson <==> resultFormat == "obj"
      ensures !Contains(QueryString(Name("UsCounty2010"), points, callback, None), DateTimeKey)
    {
      r := GetWithoutDateTime(Name("UsCounty2010"), points, callback);
    }

    method GetUsCountySubdivision2010(points: seq<Elem>, callback: Option<Bytes> := None) returns (r: Request)
      requires WellFormedPoints(points)
      ensures r.url == requestUrl + QueryString(Name("UsCountySubdivision2010"), points, callback, None)
      ensures r.decodeJson <==> resultFormat == "obj"
      ensures !Contains(QueryString(Name("UsCountySubdivision2010"), points, callback, None), DateTimeKey)
    {
      r := GetWithoutDateTime(Name("UsCountySubdivision2010"), points, callback);
    }

    method GetUsTract2010(points: seq<Elem>, callback: Option<Bytes> := None) returns (r: Request)
      requires WellFormedPoints(points)
      ensures r.url == requestUrl + QueryString(Name("UsTract2010"), points, callback, None)
      ensures r.decodeJson <==> resultFormat == "obj"
      ensures !Contains(QueryString(Name("UsTract2010"), points, callback, None), DateTimeKey)
    {
      r := GetWithoutDateTime(Name("UsTract2010"), points, callback);
    }

    method GetUsBlockGroup2010(points: seq<Elem>, callback: Option<Bytes> := None) returns (r: Request)
      requires WellFormedPoints(points)
      ensures r.url == requestUrl + QueryString(Name("UsBlockGroup2010"), points, callback, None)
      ensures r.decodeJson <==> resultFormat == "obj"
      ensures !Contains(QueryString(Name("UsBlockGroup2010"), points, callback, None), DateTimeKey)
    {
      r := GetWithoutDateTime(Name("UsBlockGroup2010"), points, callback);
    }

    method GetUsPlace2010(points: seq<Elem>, callback: Option<Bytes> := None) returns (r: Request)
      requires WellFormedPoints(points)
      ensures r.url == requestUrl + QueryString(Name("UsPlace2010"), points, callback, None)
      ensures r.decodeJson <==> resultFormat == "obj"
      ensures !Contains(QueryString(Name("UsPlace2010"), points, callback, None), DateTimeKey)
    {
      r := GetWithoutDateTime(Name("UsPlace2010"), points, callback);
    }

    method GetUsZcta2010(points: seq<Elem>, callback: Option<Bytes> := None) returns (r: Request)
      requires WellFormedPoints(points)
      ensures r.url == requestUrl + QueryString(Name("UsZcta2010"), points, callback, None)
      ensures r.decodeJson <==> resultFormat == "obj"
      ensures !Contains(QueryString(Name("UsZcta2010"), points, callback, None), DateTimeKey)
    {
      r := GetWithoutDateTime(Name("UsZcta2010"), points, callback);
    }

    /** A request sent without a datetime: its query part holds no
        `dateTime` field. */
    method GetWithoutDateTime(databases: Databases, points: seq<Elem>, callback: Option<Bytes>)
      returns (r: Request)
      requires WellFormedPoints(points)
      ensures r.url == requestUrl + QueryString(databases, points, callback, None)
      ensures r.decodeJson <==> resultFormat == "obj"
      ensures !Contains(QueryString(databases, points, callback, None), DateTimeKey)
    {
      r := Get(databases, points, callback);
      NoDateTimeField(databases, points, callback);
    }
  }
}
