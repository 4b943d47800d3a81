/** PHP's `urlencode` and `urldecode`: the `application/x-www-form-urlencoded`
    encoding of section 17.13.4.1 of HTML 4.01 as PHP implements it. ASCII
    letters, digits and `-`, `_`, `.` pass through; a space becomes `+`; every
    other byte becomes `%` followed by two upper-case hexadecimal digits. */
module FormEncoding {
  import opened ByteStrings

  /** The bytes `urlencode` leaves as they are. */
  predicate IsUnreserved(c: Octet)
  {
    ('a' <= c <= 'z') || ('A' <= c <= 'Z') || ('0' <= c <= '9') || c == '-' || c == '_' || c == '.'
  }

  /** A string made of unreserved bytes only. */
  predicate AllUnreserved(s: Bytes)
  {
    forall i :: 0 <= i < |s| ==> IsUnreserved(s[i])
  }

  /** The bytes that can appear in an encoded value. */
  predicate IsEncodedChar(c: Octet)
  {
    IsUnreserved(c) || c == '+' || c == '%'
  }

  /** Upper-case hexadecimal digit for a value below 16. */
  function HexDigit(n: nat): (c: Octet)
    requires n < 16
    ensures IsUnreserved(c)
  {
    if n < 10 then ('0' as int + n) as char else ('A' as int + n - 10) as char
  }

  /** The hexadecimal digits `urldecode` accepts, in either case. */
  predicate IsHexDigit(c: Octet)
  {
    ('0' <= c <= '9') || ('A' <= c <= 'F') || ('a' <= c <= 'f')
  }

  function HexValue(c: Octet): (n: nat)
    requires IsHexDigit(c)
    ensures n < 16
  {
    if '0' <= c <= '9' then c as int - '0' as int
    else if 'A' <= c <= 'F' then c as int - 'A' as int + 10
    else c as int - 'a' as int + 10
  }

  /** The encoding of one byte. */
  function EncodeOctet(c: Octet): (r: Bytes)
    ensures 1 <= |r| <= 3
    ensures forall i :: 0 <= i < |r| ==> IsEncodedChar(r[i])
  {
    if IsUnreserved(c) then [c]
    else if c == ' ' then ['+']
    else ['%', HexDigit(c as int / 16), HexDigit(c as int % 16)]
  }

  /** PHP `urlencode`, byte by byte. The result uses only unreserved bytes,
      `+` and `%`, so none of the query delimiters `&`, `=`, `,`, `;` appears in
      it, and it is between one and three times as long as the input. */
  function UrlEncode(s: Bytes): (r: Bytes)
    ensures forall i :: 0 <= i < |r| ==> IsEncodedChar(r[i])
    ensures '&' !in r && '=' !in r && ',' !in r && ';' !in r
    ensures |s| <= |r| <= 3 * |s|
  {
    if |s| == 0 then [] else EncodeOctet(s[0]) + UrlEncode(s[1..])
  }

  /** PHP `urldecode`: `+` gives a space, `%` with two hexadecimal digits gives
      the byte they denote, and every other byte (a `%` not followed by two
      hexadecimal digits included) stands for itself. */
  function UrlDecode(s: Bytes): (r: Bytes)
    ensures |r| <= |s|
    ensures AllUnreserved(s) ==> r == s
  {
    if |s| == 0 then []
    else if s[0] == '+' then [' '] + UrlDecode(s[1..])
    else if s[0] == '%' && |s| >= 3 && IsHexDigit(s[1]) && IsHexDigit(s[2]) then
      [(HexValue(s[1]) * 16 + HexValue(s[2])) as char] + UrlDecode(s[3..])
    else [s[0]] + UrlDecode(s[1..])
  }

  lemma HexRoundTrip(n: nat)
    requires n < 16
    ensures IsHexDigit(HexDigit(n)) && HexValue(HexDigit(n)) == n
  {
  }

  /** Decoding the encoding of one byte followed by anything gives that byte back first. */
  lemma DecodeEncodedOctet(c: Octet, rest: Bytes)
    ensures UrlDecode(EncodeOctet(c) + rest) == [c] + UrlDecode(rest)
  {
    var e := EncodeOctet(c) + rest;
    if IsUnreserved(c) {
      assert e[1..] == rest;
    } else if c == ' ' {
      assert e[1..] == rest;
    } else {
      var hi, lo := c as int / 16, c as int % 16;
      HexRoundTrip(hi);
      HexRoundTrip(lo);
      assert e[3..] == rest;
      assert (hi * 16 + lo) as char == c;
    }
  }

  /** `urldecode(urlencode(s)) == s` for every byte string. */
  lemma {:induction false} DecodeEncode(s: Bytes)
    ensures UrlDecode(UrlEncode(s)) == s
  {
    if |s| > 0 {
      DecodeEncode(s[1..]);
      DecodeEncodedOctet(s[0], UrlEncode(s[1..]));
      assert [s[0]] + s[1..] == s;
    }
  }

  /** Encoding works byte by byte, so it distributes over concatenation. */
  lemma {:induction false} EncodeConcat(a: Bytes, b: Bytes)
    ensures UrlEncode(a + b) == UrlEncode(a) + UrlEncode(b)
  {
    if |a| > 0 {
      EncodeConcat(a[1..], b);
      assert (a + b)[0] == a[0] && (a + b)[1..] == a[1..] + b;
      assert UrlEncode(a + b) == EncodeOctet(a[0]) + UrlEncode(a[1..] + b);
      assert UrlEncode(a) == EncodeOctet(a[0]) + UrlEncode(a[1..]);
      Associative(EncodeOctet(a[0]), UrlEncode(a[1..]), UrlEncode(b));
    } else {
      assert a + b == b;
    }
  }

  /** Encoding is the identity exactly on strings made of unreserved bytes
      (so `TimeZone` and `myCallback` go on the wire unchanged, while
      `0.5,1` does not). */
  lemma {:induction false} EncodeIdentity(s: Bytes)
    ensures UrlEncode(s) == s <==> AllUnreserved(s)
  {
    if |s| > 0 {
      EncodeIdentity(s[1..]);
      var r := UrlEncode(s);
      assert r == EncodeOctet(s[0]) + UrlEncode(s[1..]);
      if IsUnreserved(s[0]) {
        assert r == [s[0]] + UrlEncode(s[1..]);
        assert UrlEncode(s) == s <==> UrlEncode(s[1..]) == s[1..] by {
          assert s == [s[0]] + s[1..];
        }
        assert AllUnreserved(s) <==> AllUnreserved(s[1..]) by {
          forall i | 0 < i < |s| ensures s[i] == s[1..][i - 1] { }
        }
      } else if s[0] == ' ' {
        assert r[0] == '+';
      } else {
        assert |r| == 3 + |UrlEncode(s[1..])| >= 3 + |s| - 1;
      }
    }
  }
}
