# AskGeo API client — a Dafny model

The AskGeo client is a small PHP class that sends geographic lookups
(time zone, country, US census areas, astronomy, ...) to the AskGeo web API.
An object keeps three things:

- a request URL prefix, `{http|https}://api.askgeo.com/v1/{account}/{key}/query.{format}?`;
- the curl options;
- the result format.

Each call appends a form-encoded query string to the prefix:

- `databases=` with the database names joined by `,`;
- `&points=` with the points rendered as `lat,lon` and joined by `;`;
- optionally `&callback=` and `&dateTime=`.

The response is passed through `json_decode` when the result format is `obj`.
The repository holds two versions of the class:

- the current one, `src/AskGeoAPI.php`, with `changeUser` and one shortcut per database;
- an earlier one, `AskGeoAPI.php`, with different names, `json` as the default format, and a single shortcut.

The model is organised in modules:

- `ByteStrings` (`byte_strings.dfy`): byte strings, PHP `implode`, and the splitting used to read results back.
- `FormEncoding` (`form_encoding.dfy`): PHP `urlencode`/`urldecode`, with the round trip proved.
- `QuerySpec` (`query.dfy`): the query string as a pure specification.
  - It is the list of fields, each encoded as `key=value`, joined by `&`.
  - It comes with a parser that reads the fields back.
  - The properties of the query string are proved here.
- `Endpoint` (`endpoint.dfy`): the URL prefix as a function, and its shape.
- `Client` (`client.dfy`): the current class `AskGeoApi`.
  - Its fields are updated in place by `ChangeUser` and `BuildRequestUrl`.
  - `BuildQueryString` is an imperative method whose loop accumulates the points as the source does.
  - Each method is proved equal to the specification functions above.
- `LegacyClient` (`legacy_client.dfy`): the earlier class `LegacyAskGeoApi`, modelled the same way, plus three methods comparing the two versions.

How PHP's dynamic values are represented:

- `databases` is `Name(name)` or `Names(list)`, standing for `(array) $databases`.
- `points` is a sequence of `Scalar(text)` or `Array(coordinates)` elements.
  - The source's test `is_array($points[0])` decides whether the argument is one flat point or a list of points.
- `callback` and `datetime` are `Option`s: `Some` exactly when the PHP value `is_string`.
  - An empty string therefore still produces its segment.
- A request is `Request(url, decodeJson)`: the URL handed to curl, and whether `json_decode` runs on the reply.

## Model

| member | source | states |
|---|---|---|
| ByteStrings.Join | src/AskGeoAPI.php:253 | PHP `implode`: n parts give at least n - 1 bytes, room for the separator between each two parts |
| ByteStrings.JoinCount | src/AskGeoAPI.php:253 | n parts none of which holds the separator `implode` into a string with exactly n - 1 separators |
| FormEncoding.UrlDecode | src/AskGeoAPI.php:262-270 | PHP `urldecode`, which the source does not call: it is the reader of the encoded values used for the round trip; decoding never lengthens a string and leaves a string of unreserved bytes unchanged |
| FormEncoding.UrlEncode | src/AskGeoAPI.php:262-270 | the encoding uses only unreserved bytes, `+` and `%`, so no query delimiter (`&`, `=`, `,`, `;`) survives it, and it is one to three times the input's length |
| FormEncoding.DecodeEncode | src/AskGeoAPI.php:262-270 | `urldecode(urlencode(s)) == s` for every byte string |
| FormEncoding.EncodeConcat | src/AskGeoAPI.php:262-270 | `urlencode` distributes over concatenation |
| FormEncoding.EncodeIdentity | src/AskGeoAPI.php:262-270 | encoding leaves a string unchanged exactly when all its bytes are letters, digits, `-`, `_` or `.` |
| ByteStrings.SplitJoin | src/AskGeoAPI.php:253 | splitting an `implode`d list on its separator gives the list back when no part holds the separator |
| ByteStrings.SplitCount | src/AskGeoAPI.php:253 | a string with n separators splits into n + 1 parts |
| ByteStrings.JoinSnoc | src/AskGeoAPI.php:255-259 | joining one more part appends the separator and that part |
| ByteStrings.JoinLacksField | src/AskGeoAPI.php:262-271 | `&key=` never occurs in an `&`-joined list of `&`-free segments none of which starts with `key=` |
| QuerySpec.DatabaseList | src/AskGeoAPI.php:243-245 | `(array)` turns a single name into a one-name list that `implode`s back to that name, and leaves an array of names as it is |
| QuerySpec.DatabasesValue | src/AskGeoAPI.php:243-253 | a single database name goes out as the name itself |
| QuerySpec.PointList | src/AskGeoAPI.php:248-250 | a list of arrays keeps one point per element and a flat argument becomes a single wrapped point; every point has the two coordinates that get rendered |
| QuerySpec.Items | src/AskGeoAPI.php:247-250 | a list of point arrays keeps one coordinate list per element |
| QuerySpec.Texts | src/AskGeoAPI.php:248-257 | a flat point keeps one coordinate per element, each scalar as its own text (an element that is an array converts to `Array`, as PHP's string conversion does) |
| QuerySpec.RenderPoint | src/AskGeoAPI.php:257 | a point renders as its latitude, then `,` right after it, then its longitude, and nothing else |
| QuerySpec.PointsValue | src/AskGeoAPI.php:255-259 | when no coordinate holds `,` or `;`, the points value has exactly one `;` fewer than there are points |
| QuerySpec.AccumulatePoint | src/AskGeoAPI.php:255-258 | appending `lat,lon;` to the buffer of the first i points gives the buffer of the first i + 1 points |
| QuerySpec.PointsValueSnoc | src/AskGeoAPI.php:255-259 | the points value of i + 1 points is that of i points, `;` and the next rendered point |
| QuerySpec.Fields | src/AskGeoAPI.php:262-273 | the query carries the two required fields plus one for each of callback and datetime that is a string |
| QuerySpec.QueryString | src/AskGeoAPI.php:262-273 | the query has exactly one `&` per field after the first |
| QuerySpec.ParseQuery | src/AskGeoAPI.php:262-270 | the source has no such reader: it is the server's view of the query (split on `&`, key up to `=`, `urldecode` the value), the partner of `QueryString`; it reads one field per `&`, plus one |
| QuerySpec.ParseBuiltQuery | src/AskGeoAPI.php:236-274 | reading the query back (split on `&`, key up to `=`, `urldecode` the value) gives exactly the fields in wire order, with the joined names and the raw points string as values |
| QuerySpec.ParseSegments | src/AskGeoAPI.php:262-271 | any `&`-joined list of encoded `key=value` segments with plain keys splits back into its segments and parses back into its fields |
| QuerySpec.SegmentCount | src/AskGeoAPI.php:262-271 | the query has 2, 3 or 4 segments, one per field present, and one `&` fewer |
| QuerySpec.QueryLayout | src/AskGeoAPI.php:262-271 | the query is `databases=`, the encoded names, `&points=`, the encoded points, then `&callback=` and `&dateTime=` segments exactly when those arguments are strings |
| QuerySpec.QueryFromParts | src/AskGeoAPI.php:262-273 | the required part followed by the optional callback and datetime segments is the query string |
| QuerySpec.RequiredPart | src/AskGeoAPI.php:262-263 | the two required fields join into `databases=`, the encoded names, `&points=` and the encoded points |
| QuerySpec.OptionalField | src/AskGeoAPI.php:265-271 | an optional field adds its `&key=` and encoded value to the query when it is a string, and nothing otherwise |
| QuerySpec.AppendField | src/AskGeoAPI.php:265-271 | appending a field to the list appends `&key=` and the encoded value to the query |
| QuerySpec.NoDateTimeField | src/AskGeoAPI.php:269-271 | without a datetime the query contains no `&dateTime=` anywhere |
| QuerySpec.OtherSegment | src/AskGeoAPI.php:262-267 | a databases, points or callback segment holds no `&` and does not begin with `dateTime=` |
| QuerySpec.DatabasesRoundTrip | src/AskGeoAPI.php:243-253 | the `databases` value splits on `,` back into the names, in input order, when no name contains a comma |
| QuerySpec.PointsRoundTrip | src/AskGeoAPI.php:255-259 | the `points` value splits on `;` into the rendered points, and each of those splits on `,` into its latitude and longitude |
| QuerySpec.PointsSeparators | src/AskGeoAPI.php:255-259 | the points value has one `;` fewer than there are points, and the trailing `;` is gone |
| QuerySpec.RenderedPointEnd | src/AskGeoAPI.php:257 | a rendered point never ends with `;` |
| QuerySpec.ExtraCoordinatesIgnored | src/AskGeoAPI.php:256-257 | in a list of point arrays, coordinates after the second of any point (an altitude, say) do not change the query |
| QuerySpec.FlatExtraCoordinatesIgnored | src/AskGeoAPI.php:248-257 | elements after the second of a flat point, whatever they are, do not change the query |
| QuerySpec.EncodeSeparators | src/AskGeoAPI.php:262-263 | `,` goes on the wire as `%2C` and `;` as `%3B` |
| QuerySpec.EncodePoint | src/AskGeoAPI.php:257-263 | a point with plain coordinates is encoded as `{lat}%2C{lon}` |
| QuerySpec.OnePointValue | src/AskGeoAPI.php:248-263 | a flat point with plain coordinates goes out as `{lat}%2C{lon}` |
| QuerySpec.TwoPointsValue | src/AskGeoAPI.php:255-263 | two plain points go out as `{p0}%2C{p1}%3B{q0}%2C{q1}` |
| QuerySpec.OneDatabaseOnePoint | src/AskGeoAPI.php:236-274 | one plain database name and one flat plain point give `databases={name}&points={lat}%2C{lon}` followed by the optional segments |
| QuerySpec.TwoDatabasesTwoPoints | src/AskGeoAPI.php:236-274 | two names and two points give `databases={a}%2C{b}&points={p0}%2C{p1}%3B{q0}%2C{q1}` |
| QuerySpec.PlainCallbackAndDatetime | src/AskGeoAPI.php:265-271 | plain callback and datetime strings are appended verbatim, callback first |
| QuerySpec.ScenarioOneDatabaseOnePoint | tests/AskGeoAPITest.php:39-46 | `TimeZone` with the point `(0.5, 1)` gives `databases=TimeZone&points=0.5%2C1` |
| QuerySpec.ScenarioManyDatabasesManyPoints | tests/AskGeoAPITest.php:48-55 | `Point`, `TimeZone` with two points gives `databases=Point%2CTimeZone&points=0.5%2C1%3B2%2C1.5` |
| QuerySpec.ScenarioCallbackAndDatetime | tests/AskGeoAPITest.php:57-66 | with a callback and a datetime the query ends `&callback=myCallback&dateTime=myDatetime` |
| Endpoint.WireFormat | src/AskGeoAPI.php:84-86 | the format in the URL is never `obj`, and it equals the given format exactly when that is not `obj` |
| Endpoint.Scheme | src/AskGeoAPI.php:214 | the scheme is the 8-byte `https://` exactly for a secure connection and otherwise `http://`; both begin with `http` and end with `://` |
| Endpoint.RequestUrl | src/AskGeoAPI.php:214-216 | the prefix begins with the scheme and ends with `?` |
| Endpoint.WireFormatNeverObj | src/AskGeoAPI.php:82-86 | `obj` never reaches the URL, any other format is kept unchanged, and the mapping is idempotent |
| Endpoint.RequestUrlEnds | src/AskGeoAPI.php:214-216 | the prefix starts with `https://` exactly for a secure connection (else `http://`) and ends with `?` |
| Endpoint.RequestUrlFields | src/AskGeoAPI.php:214-216 | splitting the prefix on `/` gives the scheme, an empty piece, the host, `v1`, the account id, the API key and `query.{format}?` |
| Endpoint.RequestUrlSuffix | src/AskGeoAPI.php:216 | the prefix ends with `query.{format}?` |
| Endpoint.BaseUrlScenarios | src/AskGeoAPI.php:82-93 | a secure `obj` client fetches `https://...query.json?`; a plain `xml` client fetches `http://...query.xml?` |
| Client.AskGeoApi.constructor | src/AskGeoAPI.php:49-63 | the new object holds the result format as given, the prefix for its wire format and the curl options |
| Client.AskGeoApi.ChangeUser | src/AskGeoAPI.php:75-95 | all three fields are replaced: the format as given, the prefix built with `obj` read as `json`, the curl options |
| Client.AskGeoApi.BuildRequestUrl | src/AskGeoAPI.php:208-217 | the three appends build exactly the prefix `RequestUrl` describes |
| Client.JoinPoints | src/AskGeoAPI.php:255-259 | the loop appending `lat,lon;` per point, followed by dropping the last byte (an empty buffer stays empty), yields the points value |
| Client.AskGeoApi.BuildQueryString | src/AskGeoAPI.php:236-274 | the step-by-step build (wrap, implode, point loop, trailing `;` removed, appends) yields the specified query string |
| Client.AskGeoApi.Get | src/AskGeoAPI.php:114-130 | the request URL is the prefix followed by the query, whose fields read back unchanged; the reply is decoded exactly when the result format is `obj` |
| Client.AskGeoApi.GetPoint | src/AskGeoAPI.php:141-144 | a `Point` request with no `dateTime` field |
| Client.AskGeoApi.GetTimeZone | src/AskGeoAPI.php:146-149 | a `TimeZone` request passing the callback and datetime through |
| Client.AskGeoApi.GetNaturalEarthCountry | src/AskGeoAPI.php:151-154 | a `NaturalEarthCountry` request with no `dateTime` field |
| Client.AskGeoApi.GetAstronomy | src/AskGeoAPI.php:156-159 | an `Astronomy` request passing the callback and datetime through |
| Client.AskGeoApi.GetUsState2010 | src/AskGeoAPI.php:164-167 | a `UsState2010` request with no `dateTime` field |
| Client.AskGeoApi.GetUsCounty2010 | src/AskGeoAPI.php:169-172 | a `UsCounty2010` request with no `dateTime` field |
| Client.AskGeoApi.GetUsCountySubdivision2010 | src/AskGeoAPI.php:174-177 | a `UsCountySubdivision2010` request with no `dateTime` field |
| Client.AskGeoApi.GetUsTract2010 | src/AskGeoAPI.php:179-182 | a `UsTract2010` request with no `dateTime` field |
| Client.AskGeoApi.GetUsBlockGroup2010 | src/AskGeoAPI.php:184-187 | a `UsBlockGroup2010` request with no `dateTime` field |
| Client.AskGeoApi.GetUsPlace2010 | src/AskGeoAPI.php:189-192 | a `UsPlace2010` request with no `dateTime` field |
| Client.AskGeoApi.GetUsZcta2010 | src/AskGeoAPI.php:194-197 | a `UsZcta2010` request with no `dateTime` field |
| Client.AskGeoApi.GetWithoutDateTime | src/AskGeoAPI.php:141-197 | a request sent without a datetime carries no `dateTime` field |
| LegacyClient.LegacyAskGeoApi.constructor | AskGeoAPI.php:50-65 | the new object holds the format as given, the prefix for its wire format and the curl options |
| LegacyClient.LegacyAskGeoApi.BuildUrl | AskGeoAPI.php:121-131 | the appends build exactly the prefix `RequestUrl` describes |
| LegacyClient.LegacyAskGeoApi.BuildQuery | AskGeoAPI.php:146-183 | the step-by-step build yields the specified query string |
| LegacyClient.LegacyAskGeoApi.Get | AskGeoAPI.php:80-91 | the URL is the prefix followed by the query, whose fields read back unchanged; decoded exactly when the format is `obj` |
| LegacyClient.LegacyAskGeoApi.GetTimeZone | AskGeoAPI.php:107-110 | a `TimeZone` request passing the callback and datetime through |
| LegacyClient.QueryBuildersAgree | AskGeoAPI.php:146-183 | the earlier `buildQuery` and the current `buildQueryString` return the same string for every input |
| LegacyClient.SameArgumentsSameState | AskGeoAPI.php:50-65 | given the same arguments both versions store the same prefix and the same format |
| LegacyClient.DefaultFormats | AskGeoAPI.php:53 | with the default format both versions fetch the same URL, but only the current one (default `obj`) decodes the reply; the earlier one (default `json`) does not |

## Left out

- Transport: `request` (src/AskGeoAPI.php:282-296) and `callAPI` (AskGeoAPI.php:191-205) call curl. The model stops at the `Request` value: the URL `curl_setopt` receives and whether `json_decode` runs.
- The reply body, the effect of the curl options on the transfer, and `json_decode` itself are outside the model. The curl options are kept as an uninterpreted map.
- Point coordinates are PHP floats rendered by string concatenation. The model takes them as the text PHP renders; float formatting is not modelled.
- `QuerySpec.PointsValue` (its count of `;`), `QuerySpec.PointsRoundTrip` and `QuerySpec.PointsSeparators` assume `PlainCoordinates`: no coordinate text holds `,` or `;`. That holds for floats rendered with a `.` decimal separator, but not under a locale with a `,` separator (before PHP 8), nor for strings holding those bytes.
- Malformed `points` arguments are excluded by the precondition `WellFormedPoints`. On them PHP emits notices or warnings and still sends a request:
  - an empty argument: `$points[0]` reads as null, the argument is wrapped, and the points value is `,`;
  - a flat point with a single element `x`: the missing longitude renders empty, giving `x,`;
  - in a list whose first element is an array, a later array with fewer than two coordinates: each missing coordinate renders empty;
  - in such a list, a scalar element: a string renders its first two characters (PHP string offsets), and a number renders both coordinates empty.
- Within a flat point, an element that is itself an array is modelled: PHP converts it to the text `Array` (`QuerySpec.ElemText`). Only the notice is left out.
- Non-string, non-array `databases` values (numbers, objects) are not modelled; PHP would cast them with `(array)`.
- The initial placeholder value `'joe'` of `$request_url` (src/AskGeoAPI.php:27) is always overwritten by the constructor, so it is not modelled.
- The reflection helper of the test class, which only makes the protected method callable, is not modelled.
- The doc comments of both classes call the URL format `json` or `xml`. The code places any format other than `obj` in the URL unchanged, and the model follows the code (`Endpoint.WireFormat`).
- Endpoint.BaseUrlScenarios: states how the prefix begins and ends, not the full literal URL, because the account id and key are arbitrary.
