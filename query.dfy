/** The query string of an AskGeo request: what `buildQueryString`
    (src/AskGeoAPI.php) and `buildQuery` (AskGeoAPI.php) produce, stated as
    the list of `key=value` fields it carries, joined by `&`, together with
    the parser that reads the fields back. */
module QuerySpec {
  import opened ByteStrings
  import opened FormEncoding

  /** The field names, and the pieces the source writes in front of each
      encoded value. */
  const DatabasesName: Bytes := "databases"
  const PointsName: Bytes := "points"
  const CallbackName: Bytes := "callback"
  const DateTimeName: Bytes := "dateTime"

  const DatabasesKey: Bytes := "databases="
  const PointsKey: Bytes := "&points="
  const CallbackKey: Bytes := "&callback="
  const DateTimeKey: Bytes := "&dateTime="

  /** A PHP argument that is a string (`Some`) or anything else, such as
      `null` (`None`); `is_string` decides which. */
  datatype Option<T> = None | Some(value: T)

  /** The `databases` argument: a single name, or an array of names. */
  datatype Databases = Name(name: Bytes) | Names(names: seq<Bytes>)

  /** An element of the `points` argument: a coordinate (a float, taken here
      as the text PHP renders for it), or an array of coordinates. */
  datatype Elem = Scalar(text: Bytes) | Array(items: seq<Bytes>)

  /** `(array) $databases` when `$databases` is not already an array: a
      single name becomes a one-name list that joins back to the name, and an
      array is used as it is. */
  function DatabaseList(databases: Databases): (names: seq<Bytes>)
    ensures databases.Name? ==> |names| == 1 && Join(names, ',') == databases.name
    ensures databases.Names? ==> names == databases.names
  {
    match databases
    case Name(name) => [name]
    case Names(names) => names
  }

  /** The shapes of `points` for which every rendered coordinate is one the
      caller gave: either one point given flat (its first element is not an
      array, and it has at least two elements), or a non-empty array of
      points with at least two coordinates each. */
  predicate WellFormedPoints(points: seq<Elem>)
  {
    |points| > 0 &&
    if points[0].Array? then
      forall i :: 0 <= i < |points| ==> points[i].Array? && |points[i].items| >= 2
    else
      |points| >= 2
  }

  /** The points as a list of coordinate lists: when `points[0]` is not an
      array the whole argument is one point and is wrapped. */
  function PointList(points: seq<Elem>): (list: seq<seq<Bytes>>)
    requires WellFormedPoints(points)
    ensures AllPairs(list)
    ensures |list| == if points[0].Array? then |points| else 1
  {
    if points[0].Array? then Items(points) else [Texts(points)]
  }

  /** The coordinate lists of an argument made of arrays. */
  function Items(points: seq<Elem>): (list: seq<seq<Bytes>>)
    requires forall i :: 0 <= i < |points| ==> points[i].Array?
    ensures |list| == |points|
  {
    seq(|points|, i requires 0 <= i < |points| => points[i].items)
  }

  /** The text PHP's string conversion gives an element: an array converts
      to `Array` (with a notice). */
  function ElemText(e: Elem): Bytes
  {
    if e.Scalar? then e.text else "Array"
  }

  /** The coordinates of a point given flat: one per element, a scalar as
      its own text. */
  function Texts(points: seq<Elem>): (coordinates: seq<Bytes>)
    ensures |coordinates| == |points|
    ensures forall i :: 0 <= i < |points| && points[i].Scalar? ==> coordinates[i] == points[i].text
  {
    seq(|points|, i requires 0 <= i < |points| => ElemText(points[i]))
  }

  /** Every point has the two coordinates that get rendered. */
  predicate AllPairs(list: seq<seq<Bytes>>)
  {
    forall i :: 0 <= i < |list| ==> |list[i]| >= 2
  }

  /** One point as `lat,lon`; further coordinates are not rendered. */
  function RenderPoint(point: seq<Bytes>): (rendered: Bytes)
    requires |point| >= 2
    ensures |rendered| == |point[0]| + 1 + |point[1]|
    ensures rendered[..|point[0]|] == point[0] && rendered[|point[0]|] == ',' && rendered[|point[0]| + 1..] == point[1]
  {
    point[0] + [','] + point[1]
  }

  function RenderedPoints(list: seq<seq<Bytes>>): (rendered: seq<Bytes>)
    requires AllPairs(list)
    ensures |rendered| == |list|
  {
    seq(|list|, i requires 0 <= i < |list| => RenderPoint(list[i]))
  }

  /** The raw `points` value: rendered points joined by `;`. */
  function PointsValue(list: seq<seq<Bytes>>): (value: Bytes)
    requires AllPairs(list)
    ensures |list| >= 1 && PlainCoordinates(list) ==> Count(value, ';') == |list| - 1
  {
    var rendered := RenderedPoints(list);
    if |list| >= 1 && PlainCoordinates(list) then
      assert forall i :: 0 <= i < |rendered| ==> ';' !in rendered[i];
      JoinCount(rendered, ';');
      Join(rendered, ';')
    else
      Join(rendered, ';')
  }

  /** The raw `databases` value: names joined by `,` in input order. */
  function DatabasesValue(databases: Databases): (value: Bytes)
    ensures databases.Name? ==> value == databases.name
  {
    Join(DatabaseList(databases), ',')
  }

  /** The fields a request carries, in wire order, with their raw (unencoded)
      values: `databases` and `points` always, then `callback` and `dateTime`
      exactly when they are strings (the empty string included). */
  function Fields(databases: Databases, points: seq<Elem>, callback: Option<Bytes>, datetime: Option<Bytes>): (fields: seq<(Bytes, Bytes)>)
    requires WellFormedPoints(points)
    ensures |fields| == 2 + (if callback.Some? then 1 else 0) + (if datetime.Some? then 1 else 0)
  {
    [(DatabasesName, DatabasesValue(databases)), (PointsName, PointsValue(PointList(points)))]
    + (if callback.Some? then [(CallbackName, callback.value)] else [])
    + (if datetime.Some? then [(DateTimeName, datetime.value)] else [])
  }

  /** The raw points value of a list grows by `;` and the next rendered
      point: the accumulation the source performs point by point. */
  lemma PointsValueSnoc(list: seq<seq<Bytes>>, i: nat)
    requires AllPairs(list) && 1 <= i < |list|
    ensures PointsValue(list[..i + 1]) == PointsValue(list[..i]) + [';'] + RenderPoint(list[i])
  {
    assert RenderedPoints(list[..i + 1]) == RenderedPoints(list[..i]) + [RenderPoint(list[i])];
    JoinSnoc(RenderedPoints(list[..i]), RenderPoint(list[i]), ';');
  }

  /** One turn of the source's accumulation: the buffer holding the first
      `i` points, each followed by `;`, grows by the next point and `;`. */
  lemma AccumulatePoint(list: seq<seq<Bytes>>, i: nat)
    requires AllPairs(list) && i < |list|
    ensures (if i == 0 then [] else PointsValue(list[..i]) + [';']) + list[i][0] + [','] + list[i][1] + [';']
      == PointsValue(list[..i + 1]) + [';']
  {
    if i == 0 {
      PointsValueFirst(list);
    } else {
      PointsValueSnoc(list, i);
    }
  }

  /** The raw points value of the first point alone is that point rendered. */
  lemma PointsValueFirst(list: seq<seq<Bytes>>)
    requires AllPairs(list) && |list| >= 1
    ensures PointsValue(list[..1]) == RenderPoint(list[0])
  {
    assert RenderedPoints(list[..1]) == [RenderPoint(list[0])];
  }

  /** One `key=value` segment with the value form-encoded. */
  function Segment(field: (Bytes, Bytes)): Bytes
  {
    field.0 + ['='] + UrlEncode(field.1)
  }

  function Segments(fields: seq<(Bytes, Bytes)>): (segments: seq<Bytes>)
    ensures |segments| == |fields|
  {
    seq(|fields|, i requires 0 <= i < |fields| => Segment(fields[i]))
  }

  /** The query string: the encoded fields joined by `&`. */
  function QueryString(databases: Databases, points: seq<Elem>, callback: Option<Bytes>, datetime: Option<Bytes>): (query: Bytes)
    requires WellFormedPoints(points)
    ensures Count(query, '&') == |Fields(databases, points, callback, datetime)| - 1
  {
    var fields := Fields(databases, points, callback, datetime);
    var segments := Segments(fields);
    FieldKeysArePlain(databases, points, callback, datetime);
    assert forall i :: 0 <= i < |segments| ==> '&' !in segments[i] by {
      forall i | 0 <= i < |segments| ensures '&' !in segments[i] {
        assert segments[i] == fields[i].0 + ['='] + UrlEncode(fields[i].1);
      }
    }
    JoinCount(segments, '&');
    Join(segments, '&')
  }

  /** How a server reads one segment: the key up to the first `=`, and the
      form-decoded rest as the value (empty when there is no `=`). */
  function ParseField(segment: Bytes): (Bytes, Bytes)
  {
    var parts := Split(segment, '=');
    (parts[0], UrlDecode(Join(parts[1..], '=')))
  }

  /** How a server reads a query string: split on `&`, then each segment. */
  function ParseQuery(query: Bytes): (fields: seq<(Bytes, Bytes)>)
    ensures |fields| == Count(query, '&') + 1
  {
    SplitCount(query, '&');
    var segments := Split(query, '&');
    seq(|segments|, i requires 0 <= i < |segments| => ParseField(segments[i]))
  }

  /** A key that can be read back: it holds no delimiter. */
  predicate PlainKey(key: Bytes)
  {
    '&' !in key && '=' !in key
  }

  /** Every key the client sends can be read back. */
  lemma FieldKeysArePlain(databases: Databases, points: seq<Elem>, callback: Option<Bytes>, datetime: Option<Bytes>)
    requires WellFormedPoints(points)
    ensures forall i :: 0 <= i < |Fields(databases, points, callback, datetime)| ==>
      PlainKey(Fields(databases, points, callback, datetime)[i].0)
  {
    var fields := Fields(databases, points, callback, datetime);
    KeysArePlain();
    forall i | 0 <= i < |fields| ensures PlainKey(fields[i].0) {
      if i >= 2 {
        assert fields[i].0 == if i == 2 && callback.Some? then CallbackName else DateTimeName;
      }
    }
  }

  lemma KeysArePlain()
    ensures PlainKey(DatabasesName) && PlainKey(PointsName) && PlainKey(CallbackName) && PlainKey(DateTimeName)
  {
  }

  /** Reading a segment back gives its key and its raw value. */
  lemma {:induction false} ParseSegment(field: (Bytes, Bytes))
    requires PlainKey(field.0)
    ensures ParseField(Segment(field)) == field
  {
    var encoded := UrlEncode(field.1);
    SplitNoSeparator(encoded, '=');
    SplitAfterPrefix(field.0, '=', encoded);
    var parts := Split(Segment(field), '=');
    assert parts == [field.0, encoded];
    assert Join(parts[1..], '=') == encoded;
    DecodeEncode(field.1);
  }

  /** Reading a joined list of segments back gives the fields in order. */
  lemma {:induction false} ParseSegments(fields: seq<(Bytes, Bytes)>)
    requires |fields| >= 1
    requires forall i :: 0 <= i < |fields| ==> PlainKey(fields[i].0)
    ensures Split(Join(Segments(fields), '&'), '&') == Segments(fields)
    ensures ParseQuery(Join(Segments(fields), '&')) == fields
  {
    var segments := Segments(fields);
    forall i | 0 <= i < |segments| ensures '&' !in segments[i] {
      assert segments[i] == fields[i].0 + ['='] + UrlEncode(fields[i].1);
    }
    SplitJoin(segments, '&');
    forall i | 0 <= i < |fields| ensures ParseField(segments[i]) == fields[i] {
      ParseSegment(fields[i]);
    }
  }

  /** The round trip: a server that splits the query string on `&` and `=`
      and form-decodes the values reads back exactly the fields, in order;
      in particular the joined database names and the raw points string. */
  lemma ParseBuiltQuery(databases: Databases, points: seq<Elem>, callback: Option<Bytes>, datetime: Option<Bytes>)
    requires WellFormedPoints(points)
    ensures ParseQuery(QueryString(databases, points, callback, datetime)) == Fields(databases, points, callback, datetime)
  {
    FieldKeysArePlain(databases, points, callback, datetime);
    ParseSegments(Fields(databases, points, callback, datetime));
  }

  /** The query splits on `&` into exactly 2, 3 or 4 segments: one per
      field, with one `&` fewer. */
  lemma SegmentCount(databases: Databases, points: seq<Elem>, callback: Option<Bytes>, datetime: Option<Bytes>)
    requires WellFormedPoints(points)
    ensures var n := 2 + (if callback.Some? then 1 else 0) + (if datetime.Some? then 1 else 0);
      |Split(QueryString(databases, points, callback, datetime), '&')| == n
      && Count(QueryString(databases, points, callback, datetime), '&') == n - 1
  {
    var query := QueryString(databases, points, callback, datetime);
    FieldKeysArePlain(databases, points, callback, datetime);
    ParseSegments(Fields(databases, points, callback, datetime));
    SplitCount(query, '&');
  }

  /** The query written out in the order the source appends it. */
  lemma QueryLayout(databases: Databases, points: seq<Elem>, callback: Option<Bytes>, datetime: Option<Bytes>)
    requires WellFormedPoints(points)
    ensures QueryString(databases, points, callback, datetime) ==
      DatabasesKey + UrlEncode(DatabasesValue(databases))
      + PointsKey + UrlEncode(PointsValue(PointList(points)))
      + (if callback.Some? then CallbackKey + UrlEncode(callback.value) else [])
      + (if datetime.Some? then DateTimeKey + UrlEncode(datetime.value) else [])
  {
    var required := DatabasesKey + UrlEncode(DatabasesValue(databases)) + PointsKey + UrlEncode(PointsValue(PointList(points)));
    var c := if callback.Some? then CallbackKey + UrlEncode(callback.value) else [];
    var t := if datetime.Some? then DateTimeKey + UrlEncode(datetime.value) else [];
    QueryFromParts(databases, points, callback, datetime, required, c, t);
  }

  /** The query string from its required part and its optional segments:
      each optional field present adds its `&key=` and encoded value. */
  lemma QueryFromParts(databases: Databases, points: seq<Elem>, callback: Option<Bytes>, datetime: Option<Bytes>,
                       required: Bytes, c: Bytes, t: Bytes)
    requires WellFormedPoints(points)
    requires required == DatabasesKey + UrlEncode(DatabasesValue(databases)) + PointsKey + UrlEncode(PointsValue(PointList(points)))
    requires c == if callback.Some? then CallbackKey + UrlEncode(callback.value) else []
    requires t == if datetime.Some? then DateTimeKey + UrlEncode(datetime.value) else []
    ensures required + c + t == QueryString(databases, points, callback, datetime)
  {
    var base := [(DatabasesName, DatabasesValue(databases)), (PointsName, PointsValue(PointList(points)))];
    var withCallback := base + (if callback.Some? then [(CallbackName, callback.value)] else []);
    RequiredPart(DatabasesValue(databases), PointsValue(PointList(points)));
    KeyPieces();
    OptionalField(base, required, CallbackName, callback, CallbackKey, c);
    OptionalField(withCallback, required + c, DateTimeName, datetime, DateTimeKey, t);
  }

  /** An optional field adds its `&key=` and encoded value when present and
      nothing when absent. */
  lemma OptionalField(fields: seq<(Bytes, Bytes)>, joined: Bytes, key: Bytes, value: Option<Bytes>, piece: Bytes, added: Bytes)
    requires |fields| >= 1 && Join(Segments(fields), '&') == joined
    requires piece == ['&'] + key + ['=']
    requires added == if value.Some? then piece + UrlEncode(value.value) else []
    ensures Join(Segments(fields + (if value.Some? then [(key, value.value)] else [])), '&') == joined + added
  {
    if value.Some? {
      AppendField(fields, key, value.value, piece);
    } else {
      assert fields + [] == fields;
      assert joined + [] == joined;
    }
  }

  /** The pieces written before each value are `&`, the field name and `=`
      (without the `&` for the first). */
  lemma KeyPieces()
    ensures DatabasesKey == DatabasesName + ['=']
    ensures PointsKey == ['&'] + PointsName + ['=']
    ensures CallbackKey == ['&'] + CallbackName + ['=']
    ensures DateTimeKey == ['&'] + DateTimeName + ['=']
  {
  }

  /** The two fields every query carries. */
  lemma RequiredPart(databases: Bytes, points: Bytes)
    ensures Join(Segments([(DatabasesName, databases), (PointsName, points)]), '&')
      == DatabasesKey + UrlEncode(databases) + PointsKey + UrlEncode(points)
  {
    var d, p := Segment((DatabasesName, databases)), Segment((PointsName, points));
    assert Segments([(DatabasesName, databases), (PointsName, points)]) == [d, p];
    JoinTwo(d, p, '&');
    KeyPieces();
  }

  /** Appending a field to a non-empty list appends `&key=` and the encoded
      value to the query. */
  lemma AppendField(fields: seq<(Bytes, Bytes)>, key: Bytes, value: Bytes, piece: Bytes)
    requires |fields| >= 1
    requires piece == ['&'] + key + ['=']
    ensures Join(Segments(fields + [(key, value)]), '&') == Join(Segments(fields), '&') + (piece + UrlEncode(value))
  {
    SegmentsSnoc(fields, (key, value));
    JoinSnoc(Segments(fields), Segment((key, value)), '&');
    AppendPiece(Join(Segments(fields), '&'), key, UrlEncode(value), piece);
  }

  lemma SegmentsSnoc(fields: seq<(Bytes, Bytes)>, field: (Bytes, Bytes))
    ensures Segments(fields + [field]) == Segments(fields) + [Segment(field)]
  {
  }

  lemma AppendPiece(joined: Bytes, key: Bytes, encoded: Bytes, piece: Bytes)
    requires piece == ['&'] + key + ['=']
    ensures joined + ['&'] + (key + ['='] + encoded) == joined + (piece + encoded)
  {
  }

  /** Without a datetime string the query never carries a `dateTime` field:
      `&dateTime=` does not occur in it at all. */
  lemma NoDateTimeField(databases: Databases, points: seq<Elem>, callback: Option<Bytes>)
    requires WellFormedPoints(points)
    ensures !Contains(QueryString(databases, points, callback, None), DateTimeKey)
  {
    var fields := Fields(databases, points, callback, None);
    var segments := Segments(fields);
    var key: Bytes := DateTimeName;
    forall i | 0 <= i < |segments|
      ensures '&' !in segments[i]
      ensures !(|segments[i]| > |key| && segments[i][..|key| + 1] == key + ['='])
    {
      OtherSegment(fields[i].0, fields[i].1);
    }
    assert ['&'] + key + ['='] == DateTimeKey;
    JoinLacksField(segments, key);
  }

  /** A `databases`, `points` or `callback` segment holds no `&` and does not
      begin with `dateTime=`. */
  lemma OtherSegment(key: Bytes, value: Bytes)
    requires key == DatabasesName || key == PointsName || key == CallbackName
    ensures '&' !in Segment((key, value))
    ensures var s := Segment((key, value)); !(|s| > 8 && s[..9] == "dateTime=")
  {
    var s := Segment((key, value));
    assert s == key + ['='] + UrlEncode(value);
    if |s| > 8 {
      if key == DatabasesName {
        assert s[..9][3] == s[3] == 'a' != 'e';
      } else {
        assert s[..9][0] == s[0] != 'd';
      }
    }
  }

  /** Splitting the raw `databases` value on `,` gives the names back, in
      input order, when no name contains a comma. */
  lemma DatabasesRoundTrip(databases: Databases)
    requires |DatabaseList(databases)| >= 1
    requires forall i :: 0 <= i < |DatabaseList(databases)| ==> ',' !in DatabaseList(databases)[i]
    ensures Split(DatabasesValue(databases), ',') == DatabaseList(databases)
  {
    SplitJoin(DatabaseList(databases), ',');
  }

  /** Coordinates holding no `,` and no `;`. This is an assumption of the
      lemmas that take it, not a guarantee: PHP renders floats this way
      when the decimal separator is `.`, but before PHP 8 a locale could
      make it `,`, and a caller may pass strings holding either byte. */
  predicate PlainCoordinates(list: seq<seq<Bytes>>)
    requires AllPairs(list)
  {
    forall i :: 0 <= i < |list| ==>
      ',' !in list[i][0] && ';' !in list[i][0] && ',' !in list[i][1] && ';' !in list[i][1]
  }

  /** The raw points value splits on `;` into the points, in order, and
      each of those splits on `,` into its two coordinates. */
  lemma PointsRoundTrip(list: seq<seq<Bytes>>)
    requires |list| >= 1 && AllPairs(list) && PlainCoordinates(list)
    ensures Split(PointsValue(list), ';') == RenderedPoints(list)
    ensures forall i :: 0 <= i < |list| ==> Split(RenderedPoints(list)[i], ',') == [list[i][0], list[i][1]]
  {
    var rendered := RenderedPoints(list);
    forall i | 0 <= i < |list| ensures ';' !in rendered[i] && Split(rendered[i], ',') == [list[i][0], list[i][1]] {
      SplitNoSeparator(list[i][1], ',');
      SplitAfterPrefix(list[i][0], ',', list[i][1]);
    }
    SplitJoin(rendered, ';');
  }

  /** For n points the raw points value holds exactly n - 1 semicolons and
      does not end with one. */
  lemma PointsSeparators(list: seq<seq<Bytes>>)
    requires |list| >= 1 && AllPairs(list) && PlainCoordinates(list)
    ensures Count(PointsValue(list), ';') == |list| - 1
    ensures |PointsValue(list)| > 0 && PointsValue(list)[|PointsValue(list)| - 1] != ';'
  {
    PointsRoundTrip(list);
    SplitCount(PointsValue(list), ';');
    var rendered := RenderedPoints(list);
    var last := rendered[|rendered| - 1];
    JoinEndsWithLast(rendered, ';');
    RenderedPointEnd(list[|list| - 1]);
    var value := PointsValue(list);
    assert value[|value| - |last|..] == last;
    assert value[|value| - 1] == last[|last| - 1];
  }

  /** A rendered point ends with its longitude, or with the comma when the
      longitude is empty: never with `;`. */
  lemma RenderedPointEnd(point: seq<Bytes>)
    requires |point| >= 2 && ';' !in point[1]
    ensures |RenderPoint(point)| > 0 && RenderPoint(point)[|RenderPoint(point)| - 1] != ';'
  {
    var r := RenderPoint(point);
    if |point[1]| > 0 {
      assert r[|r| - 1] == point[1][|point[1]| - 1];
    } else {
      assert r[|r| - 1] == ',';
    }
  }

  /** A flat point contributes only its first two coordinates: further
      elements (an altitude, say, or anything else) change nothing on the
      wire. */
  lemma FlatExtraCoordinatesIgnored(databases: Databases, lat: Bytes, lon: Bytes, extra: seq<Elem>, callback: Option<Bytes>, datetime: Option<Bytes>)
    ensures var flat := [Scalar(lat), Scalar(lon)];
      WellFormedPoints(flat) && WellFormedPoints(flat + extra) &&
      QueryString(databases, flat + extra, callback, datetime) == QueryString(databases, flat, callback, datetime)
  {
    var flat := [Scalar(lat), Scalar(lon)];
    var longer := flat + extra;
    assert longer[0] == Scalar(lat) && longer[1] == Scalar(lon);
    assert RenderedPoints(PointList(longer)) == RenderedPoints(PointList(flat)) == [lat + [','] + lon];
  }

  /** In a list of points, each point contributes only its first two
      coordinates: two lists that agree on those send the same query, however
      many further coordinates their points carry. */
  lemma ExtraCoordinatesIgnored(databases: Databases, points: seq<Elem>, longer: seq<Elem>, callback: Option<Bytes>, datetime: Option<Bytes>)
    requires WellFormedPoints(points) && WellFormedPoints(longer)
    requires points[0].Array? && longer[0].Array? && |longer| == |points|
    requires forall i :: 0 <= i < |points| ==> longer[i].items[..2] == points[i].items[..2]
    ensures QueryString(databases, longer, callback, datetime) == QueryString(databases, points, callback, datetime)
  {
    var list, list' := PointList(points), PointList(longer);
    forall i | 0 <= i < |points| ensures RenderPoint(list'[i]) == RenderPoint(list[i]) {
      assert list'[i][..2] == list[i][..2];
      assert list'[i][0] == list[i][0] && list'[i][1] == list[i][1];
    }
    assert RenderedPoints(list') == RenderedPoints(list);
  }

  /** The comma and the semicolon go on the wire as `%2C` and `%3B`. */
  lemma EncodeSeparators()
    ensures UrlEncode(",") == "%2C" && UrlEncode(";") == "%3B"
  {
    assert [','][1..] == [] && [';'][1..] == [];
    assert EncodeOctet(',') == "%2C";
    assert EncodeOctet(';') == "%3B";
  }

  /** The encoding of `lat,lon` when both coordinates are made of unreserved bytes. */
  lemma EncodePoint(lat: Bytes, lon: Bytes)
    requires AllUnreserved(lat) && AllUnreserved(lon)
    ensures UrlEncode(lat + [','] + lon) == lat + "%2C" + lon
  {
    EncodeConcat(lat + [','], lon);
    EncodeConcat(lat, [',']);
    EncodeIdentity(lat);
    EncodeIdentity(lon);
    EncodeSeparators();
  }

  /** A flat point `[lat, lon]` whose texts need no escaping goes out as `{lat}%2C{lon}`. */
  lemma OnePointValue(lat: Bytes, lon: Bytes)
    requires AllUnreserved(lat) && AllUnreserved(lon)
    ensures WellFormedPoints([Scalar(lat), Scalar(lon)])
    ensures UrlEncode(PointsValue(PointList([Scalar(lat), Scalar(lon)]))) == lat + "%2C" + lon
  {
    var list := PointList([Scalar(lat), Scalar(lon)]);
    assert |list| == 1 && |list[0]| == 2 && list[0][0] == lat && list[0][1] == lon;
    assert list[0] == [lat, lon];
    assert RenderedPoints(list) == [lat + [','] + lon];
    EncodePoint(lat, lon);
  }

  /** Two points `p`, `q` whose texts need no escaping go out as
      `{p0}%2C{p1}%3B{q0}%2C{q1}`. */
  lemma TwoPointsValue(p: seq<Bytes>, q: seq<Bytes>)
    requires |p| == 2 && |q| == 2
    requires AllUnreserved(p[0]) && AllUnreserved(p[1]) && AllUnreserved(q[0]) && AllUnreserved(q[1])
    ensures WellFormedPoints([Array(p), Array(q)])
    ensures UrlEncode(PointsValue(PointList([Array(p), Array(q)]))) == p[0] + "%2C" + p[1] + "%3B" + q[0] + "%2C" + q[1]
  {
    var list := PointList([Array(p), Array(q)]);
    assert list == [p, q];
    var rp, rq := p[0] + [','] + p[1], q[0] + [','] + q[1];
    assert RenderedPoints(list) == [rp, rq];
    JoinTwo(rp, rq, ';');
    EncodePoint(p[0], p[1]);
    EncodePoint(q[0], q[1]);
    EncodeConcat(rp + [';'], rq);
    EncodeConcat(rp, [';']);
    EncodeSeparators();
    Associative(p[0] + "%2C" + p[1] + "%3B", q[0] + "%2C", q[1]);
    Associative(p[0] + "%2C" + p[1] + "%3B", q[0], "%2C");
  }

  /** For one database and one point whose texts need no escaping, the query
      is `databases={name}&points={lat}%2C{lon}`, followed by the optional
      segments. */
  lemma OneDatabaseOnePoint(name: Bytes, lat: Bytes, lon: Bytes, callback: Option<Bytes>, datetime: Option<Bytes>)
    requires AllUnreserved(name) && AllUnreserved(lat) && AllUnreserved(lon)
    ensures WellFormedPoints([Scalar(lat), Scalar(lon)])
    ensures QueryString(Name(name), [Scalar(lat), Scalar(lon)], callback, datetime)
      == DatabasesKey + name + PointsKey + lat + "%2C" + lon
      + (if callback.Some? then CallbackKey + UrlEncode(callback.value) else [])
      + (if datetime.Some? then DateTimeKey + UrlEncode(datetime.value) else [])
  {
    var points := [Scalar(lat), Scalar(lon)];
    var c: Bytes := if callback.Some? then CallbackKey + UrlEncode(callback.value) else [];
    var t: Bytes := if datetime.Some? then DateTimeKey + UrlEncode(datetime.value) else [];
    OnePointValue(lat, lon);
    assert UrlEncode(DatabasesValue(Name(name))) == name by {
      EncodeIdentity(name);
    }
    QueryLayout(Name(name), points, callback, datetime);
    assert QueryString(Name(name), points, callback, datetime)
      == DatabasesKey + name + PointsKey + (lat + "%2C" + lon) + c + t;
    SpliceThree(DatabasesKey + name + PointsKey, lat, "%2C", lon, c, t);
  }

  /** For two databases and two points whose texts need no escaping, the
      comma between names and within points goes out as `%2C` and the
      semicolon between points as `%3B`. */
  lemma TwoDatabasesTwoPoints(first: Bytes, second: Bytes, p: seq<Bytes>, q: seq<Bytes>)
    requires AllUnreserved(first) && AllUnreserved(second)
    requires |p| == 2 && |q| == 2
    requires AllUnreserved(p[0]) && AllUnreserved(p[1]) && AllUnreserved(q[0]) && AllUnreserved(q[1])
    ensures WellFormedPoints([Array(p), Array(q)])
    ensures QueryString(Names([first, second]), [Array(p), Array(q)], None, None)
      == DatabasesKey + first + "%2C" + second + PointsKey + p[0] + "%2C" + p[1] + "%3B" + q[0] + "%2C" + q[1]
  {
    TwoPointsValue(p, q);
    JoinTwo(first, second, ',');
    EncodePoint(first, second);
    QueryLayout(Names([first, second]), [Array(p), Array(q)], None, None);
    SpliceTwoPieces(DatabasesKey, first, "%2C", second, PointsKey, p[0], "%2C", p[1], "%3B", q[0], "%2C", q[1]);
  }

  /** The three query strings the project's tests expect. */
  lemma ScenarioOneDatabaseOnePoint()
    ensures QueryString(Name("TimeZone"), [Scalar("0.5"), Scalar("1")], None, None)
      == "databases=TimeZone&points=0.5%2C1"
  {
    OneDatabaseOnePoint("TimeZone", "0.5", "1", None, None);
    ExpectedOneBare();
  }

  lemma ScenarioManyDatabasesManyPoints()
    ensures QueryString(Names(["Point", "TimeZone"]), [Array(["0.5", "1"]), Array(["2", "1.5"])], None, None)
      == "databases=Point%2CTimeZone&points=0.5%2C1%3B2%2C1.5"
  {
    TwoDatabasesTwoPoints("Point", "TimeZone", ["0.5", "1"], ["2", "1.5"]);
    ExpectedMany();
  }

  lemma ExpectedMany()
    ensures DatabasesKey + "Point" + "%2C" + "TimeZone" + PointsKey + "0.5" + "%2C" + "1" + "%3B" + "2" + "%2C" + "1.5"
      == "databases=Point%2CTimeZone&points=0.5%2C1%3B2%2C1.5"
  {
    ExpectedManyDatabases();
    ExpectedManyPoints();
  }

  lemma ExpectedManyDatabases()
    ensures DatabasesKey + "Point" + "%2C" + "TimeZone" + PointsKey + "0.5" == "databases=Point%2CTimeZone&points=0.5"
  {
  }

  lemma ExpectedManyPoints()
    ensures "databases=Point%2CTimeZone&points=0.5" + "%2C" + "1" + "%3B" + "2" + "%2C" + "1.5"
      == "databases=Point%2CTimeZone&points=0.5%2C1%3B2%2C1.5"
  {
  }

  lemma ScenarioCallbackAndDatetime()
    ensures QueryString(Name("TimeZone"), [Scalar("0.5"), Scalar("1")], Some("myCallback"), Some("myDatetime"))
      == "databases=TimeZone&points=0.5%2C1" + "&callback=myCallback" + "&dateTime=myDatetime"
  {
    TestTextsArePlain();
    PlainCallbackAndDatetime("TimeZone", "0.5", "1", "myCallback", "myDatetime");
    ExpectedWithSegments();
  }

  /** With a callback and a datetime that need no escaping, both segments
      are appended verbatim, callback first. */
  lemma PlainCallbackAndDatetime(name: Bytes, lat: Bytes, lon: Bytes, callback: Bytes, datetime: Bytes)
    requires AllUnreserved(name) && AllUnreserved(lat) && AllUnreserved(lon)
    requires AllUnreserved(callback) && AllUnreserved(datetime)
    ensures WellFormedPoints([Scalar(lat), Scalar(lon)])
    ensures QueryString(Name(name), [Scalar(lat), Scalar(lon)], Some(callback), Some(datetime))
      == DatabasesKey + name + PointsKey + lat + "%2C" + lon + (CallbackKey + callback) + (DateTimeKey + datetime)
  {
    OneDatabaseOnePoint(name, lat, lon, Some(callback), Some(datetime));
    EncodeIdentity(callback);
    EncodeIdentity(datetime);
  }

  lemma TestTextsArePlain()
    ensures AllUnreserved("TimeZone") && AllUnreserved("0.5") && AllUnreserved("1")
    ensures AllUnreserved("myCallback") && AllUnreserved("myDatetime")
  {
  }

  lemma ExpectedWithSegments()
    ensures DatabasesKey + "TimeZone" + PointsKey + "0.5" + "%2C" + "1" + (CallbackKey + "myCallback") + (DateTimeKey + "myDatetime")
      == "databases=TimeZone&points=0.5%2C1" + "&callback=myCallback" + "&dateTime=myDatetime"
  {
    ExpectedOneBare();
    ExpectedOptionalSegments();
  }

  lemma ExpectedOneBare()
    ensures DatabasesKey + "TimeZone" + PointsKey + "0.5" + "%2C" + "1" == "databases=TimeZone&points=0.5%2C1"
  {
  }

  lemma ExpectedOptionalSegments()
    ensures CallbackKey + "myCallback" == "&callback=myCallback"
    ensures DateTimeKey + "myDatetime" == "&dateTime=myDatetime"
  {
  }
}
