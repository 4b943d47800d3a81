/** PHP strings are byte strings. A byte is modelled as a character whose code
    is below 256, so that string literals can be used directly. This module
    holds the joining (PHP `implode`) and splitting helpers the rest of the
    model is stated with. */
module ByteStrings {

  type Octet = c: char | c as int < 256
  type Bytes = seq<Octet>

  /** `implode(sep, parts)`: the parts in order with one `sep` between
      neighbours; the empty list gives the empty string. */
  function Join(parts: seq<Bytes>, sep: Octet): (joined: Bytes)
    ensures |joined| >= |parts| - 1
  {
    if |parts| == 0 then []
    else if |parts| == 1 then parts[0]
    else parts[0] + [sep] + Join(parts[1..], sep)
  }

  /** With no separator inside the parts, the separators of the joined
      string are exactly the ones between neighbours. */
  lemma {:induction false} JoinCount(parts: seq<Bytes>, sep: Octet)
    requires |parts| >= 1
    requires forall i :: 0 <= i < |parts| ==> sep !in parts[i]
    ensures Count(Join(parts, sep), sep) == |parts| - 1
  {
    CountWhenAbsent(parts[0], sep);
    if |parts| > 1 {
      JoinCount(parts[1..], sep);
      CountConcat(parts[0] + [sep], Join(parts[1..], sep), sep);
      CountConcat(parts[0], [sep], sep);
    }
  }

  /** Splitting at every occurrence of `sep`: always at least one part. */
  function Split(s: Bytes, sep: Octet): (parts: seq<Bytes>)
    ensures |parts| >= 1
  {
    if |s| == 0 then [[]]
    else
      var rest := Split(s[1..], sep);
      if s[0] == sep then [[]] + rest
      else [[s[0]] + rest[0]] + rest[1..]
  }

  /** Number of occurrences of `c` in `s`. */
  function Count(s: Bytes, c: Octet): nat
  {
    if |s| == 0 then 0
    else (if s[0] == c then 1 else 0) + Count(s[1..], c)
  }

  /** Counting is additive over concatenation. */
  lemma {:induction false} CountConcat(a: Bytes, b: Bytes, c: Octet)
    ensures Count(a + b, c) == Count(a, c) + Count(b, c)
  {
    if |a| == 0 {
      assert a + b == b;
    } else {
      assert (a + b)[1..] == a[1..] + b;
      CountConcat(a[1..], b, c);
    }
  }

  /** A byte that does not occur is counted zero times. */
  lemma {:induction false} CountWhenAbsent(s: Bytes, c: Octet)
    ensures c !in s ==> Count(s, c) == 0
  {
    if |s| > 0 {
      CountWhenAbsent(s[1..], c);
      assert c !in s ==> c !in s[1..];
    }
  }

  /** `needle` occurs in `s` starting at index `k`. */
  ghost predicate OccursAt(s: Bytes, needle: Bytes, k: int)
  {
    0 <= k && k + |needle| <= |s| && s[k..k + |needle|] == needle
  }

  /** `needle` occurs somewhere in `s`. */
  ghost predicate Contains(s: Bytes, needle: Bytes)
  {
    exists k :: OccursAt(s, needle, k)
  }

  /** Joining two and three parts written out. */
  lemma JoinTwo(a: Bytes, b: Bytes, sep: Octet)
    ensures Join([a, b], sep) == a + [sep] + b
  {
    assert [a, b][1..] == [b];
  }

  lemma JoinThree(a: Bytes, b: Bytes, c: Bytes, sep: Octet)
    ensures Join([a, b, c], sep) == a + [sep] + b + [sep] + c
  {
    assert [a, b, c][1..] == [b, c];
    JoinTwo(b, c, sep);
  }

  lemma Associative(a: Bytes, b: Bytes, c: Bytes)
    ensures a + b + c == a + (b + c)
  {
  }

  /** Regrouping a string with a three-piece middle and a two-piece tail. */
  lemma SpliceThree(x: Bytes, y1: Bytes, y2: Bytes, y3: Bytes, c: Bytes, t: Bytes)
    ensures x + (y1 + y2 + y3) + c + t == x + y1 + y2 + y3 + c + t
  {
  }

  /** Regrouping a string in which two spliced-in pieces are themselves concatenations. */
  lemma SpliceTwoPieces(a: Bytes, x1: Bytes, x2: Bytes, x3: Bytes, b: Bytes,
                        y1: Bytes, y2: Bytes, y3: Bytes, y4: Bytes, y5: Bytes, y6: Bytes, y7: Bytes)
    ensures a + (x1 + x2 + x3) + b + (y1 + y2 + y3 + y4 + y5 + y6 + y7)
      == a + x1 + x2 + x3 + b + y1 + y2 + y3 + y4 + y5 + y6 + y7
  {
    Associative(a + (x1 + x2 + x3) + b, y1 + y2 + y3 + y4 + y5 + y6, y7);
  }

  /** A string without the separator splits into itself alone. */
  lemma {:induction false} SplitNoSeparator(s: Bytes, sep: Octet)
    requires sep !in s
    ensures Split(s, sep) == [s]
  {
    if |s| > 0 {
      SplitNoSeparator(s[1..], sep);
      assert [s[0]] + s[1..] == s;
    }
  }

  /** Splitting peels off a separator-free prefix ending at the first separator. */
  lemma {:induction false} SplitAfterPrefix(a: Bytes, sep: Octet, b: Bytes)
    requires sep !in a
    ensures Split(a + [sep] + b, sep) == [a] + Split(b, sep)
  {
    var s := a + [sep] + b;
    if |a| == 0 {
      assert s[1..] == b;
    } else {
      assert s[1..] == a[1..] + [sep] + b;
      SplitAfterPrefix(a[1..], sep, b);
      assert [a[0]] + a[1..] == a;
    }
  }

  /** Splitting undoes joining when no part contains the separator. */
  lemma {:induction false} SplitJoin(parts: seq<Bytes>, sep: Octet)
    requires |parts| >= 1
    requires forall i :: 0 <= i < |parts| ==> sep !in parts[i]
    ensures Split(Join(parts, sep), sep) == parts
  {
    if |parts| == 1 {
      SplitNoSeparator(parts[0], sep);
    } else {
      SplitJoin(parts[1..], sep);
      SplitAfterPrefix(parts[0], sep, Join(parts[1..], sep));
      assert [parts[0]] + parts[1..] == parts;
    }
  }

  /** A string with n separators splits into n + 1 parts. */
  lemma {:induction false} SplitCount(s: Bytes, sep: Octet)
    ensures |Split(s, sep)| == Count(s, sep) + 1
  {
    if |s| > 0 {
      SplitCount(s[1..], sep);
    }
  }

  /** The joined string begins with the first part, followed by the separator
      when more parts come. */
  lemma {:induction false} JoinStartsWithFirst(parts: seq<Bytes>, sep: Octet)
    requires |parts| >= 1
    ensures |Join(parts, sep)| >= |parts[0]|
    ensures Join(parts, sep)[..|parts[0]|] == parts[0]
    ensures |parts| > 1 ==> |Join(parts, sep)| > |parts[0]| && Join(parts, sep)[|parts[0]|] == sep
  {
    if |parts| > 1 {
      var j := Join(parts, sep);
      assert j == parts[0] + [sep] + Join(parts[1..], sep);
      assert j[..|parts[0]|] == parts[0];
    }
  }

  /** The joined string ends with the last part. */
  lemma {:induction false} JoinEndsWithLast(parts: seq<Bytes>, sep: Octet)
    requires |parts| >= 1
    ensures |Join(parts, sep)| >= |parts[|parts| - 1]|
    ensures Join(parts, sep)[|Join(parts, sep)| - |parts[|parts| - 1]|..] == parts[|parts| - 1]
  {
    if |parts| > 1 {
      JoinEndsWithLast(parts[1..], sep);
      var tail := Join(parts[1..], sep);
      var j := Join(parts, sep);
      assert j == parts[0] + [sep] + tail;
      assert j[|j| - |tail|..] == tail;
    }
  }

  /** Joining one more part at the end appends the separator and that part. */
  lemma {:induction false} JoinSnoc(parts: seq<Bytes>, last: Bytes, sep: Octet)
    requires |parts| >= 1
    ensures Join(parts + [last], sep) == Join(parts, sep) + [sep] + last
  {
    var all := parts + [last];
    if |parts| == 1 {
      assert all == [parts[0], last];
      JoinTwo(parts[0], last, sep);
    } else {
      assert all[1..] == parts[1..] + [last];
      JoinSnoc(parts[1..], last, sep);
      assert Join(all, sep) == parts[0] + [sep] + (Join(parts[1..], sep) + [sep] + last);
    }
  }

  /** `"&" + key + "="` never occurs in a '&'-joined string whose parts carry
      no '&' and none of which begins with `key + "="`. */
  lemma {:induction false} JoinLacksField(parts: seq<Bytes>, key: Bytes)
    requires |parts| >= 1
    requires '&' !in key
    requires forall i :: 0 <= i < |parts| ==> '&' !in parts[i]
    requires forall i :: 0 <= i < |parts| ==> !(|parts[i]| > |key| && parts[i][..|key| + 1] == key + ['='])
    ensures !Contains(Join(parts, '&'), ['&'] + key + ['='])
  {
    var needle: Bytes := ['&'] + key + ['='];
    var j := Join(parts, '&');
    if |parts| == 1 {
      forall k | 0 <= k && k + |needle| <= |j| ensures !OccursAt(j, needle, k) {
        assert j[k..k + |needle|][0] == j[k] != needle[0];
      }
    } else {
      var p := parts[0];
      var rest := Join(parts[1..], '&');
      assert j == p + ['&'] + rest;
      JoinLacksField(parts[1..], key);
      JoinStartsWithFirst(parts[1..], '&');
      assert |parts[1..]| == 1 ==> rest == parts[1];
      forall k | 0 <= k && k + |needle| <= |j| ensures !OccursAt(j, needle, k) {
        if k < |p| {
          assert j[k..k + |needle|][0] == p[k] != needle[0];
        } else if k == |p| {
          NotAtBoundary(p, rest, parts[1], key, |parts[1..]| > 1);
        } else {
          var k' := k - |p| - 1;
          SliceAfterPrefix(p + ['&'], rest, k', |needle|);
          assert !OccursAt(rest, needle, k');
        }
      }
    }
  }

  /** A slice taken after a prefix is the same slice of what follows it. */
  lemma SliceAfterPrefix(prefix: Bytes, rest: Bytes, k: nat, n: nat)
    requires k + n <= |rest|
    ensures (prefix + rest)[|prefix| + k..|prefix| + k + n] == rest[k..k + n]
  {
    var whole := prefix + rest;
    assert whole[|prefix|..] == rest;
    assert whole[|prefix| + k..|prefix| + k + n] == whole[|prefix|..][k..k + n];
  }

  /** Right after the separator that follows `p`, a string starting with the
      part `q` (then, if more parts follow, with `&`) does not begin with
      `key + "="` when `q` does not. */
  lemma NotAtBoundary(p: Bytes, rest: Bytes, q: Bytes, key: Bytes, more: bool)
    requires '&' !in key && '&' !in q
    requires |rest| >= |q| && rest[..|q|] == q
    requires more ==> |rest| > |q| && rest[|q|] == '&'
    requires !more ==> rest == q
    requires !(|q| > |key| && q[..|key| + 1] == key + ['='])
    ensures !OccursAt(p + ['&'] + rest, ['&'] + key + ['='], |p|)
  {
    var j := p + ['&'] + rest;
    var needle: Bytes := ['&'] + key + ['='];
    var want := key + ['='];
    if |p| + |needle| <= |j| {
      var window := j[|p|..|p| + |needle|];
      assert window[1..] == rest[..|want|];
      assert needle[1..] == want;
      if |q| >= |want| {
        assert rest[..|want|] == q[..|want|];
        assert window[1..] != needle[1..];
      } else {
        assert more;
        assert want[|q|] != '&';
        assert window[1 + |q|] == rest[|q|] == '&';
        assert window[1 + |q|] != needle[1 + |q|];
      }
    }
  }
}
