/**
  Strings as the page code sees them: one whitespace class shared by
  String.prototype.trim and the regular-expression class \s, trimming, and
  the length that String.prototype.length reports (UTF-16 code units).
*/
module Text {

  /** ECMAScript WhiteSpace and LineTerminator code points: exactly the
      characters that trim strips and that \s matches (tab, line feed,
      vertical tab, form feed, carriage return, space, no-break space, the
      Unicode space separators, line and paragraph separator, and the byte
      order mark). */
  predicate IsSpace(c: char) {
    var n := c as int;
    || 0x9 <= n <= 0xD || n == 0x20 || n == 0xA0 || n == 0x1680
    || 0x2000 <= n <= 0x200A || n == 0x2028 || n == 0x2029 || n == 0x202F
    || n == 0x205F || n == 0x3000 || n == 0xFEFF
  }

  predicate AllSpace(s: string) {
    forall k :: 0 <= k < |s| ==> IsSpace(s[k])
  }

  /** Neither end of s is whitespace: the shape of every trimmed string. */
  predicate Trimmed(s: string) {
    s == [] || (!IsSpace(s[0]) && !IsSpace(s[|s| - 1]))
  }

  /** Drops the leading whitespace: what remains is a suffix of s that does
      not start with whitespace. */
  function TrimStart(s: string): (r: string)
    ensures |r| <= |s|
    ensures r != [] ==> !IsSpace(r[0])
  {
    if s != [] && IsSpace(s[0]) then TrimStart(s[1..]) else s
  }

  lemma {:induction false} TrimStartIsSuffix(s: string)
    ensures TrimStart(s) == s[|s| - |TrimStart(s)|..]
  {
    if s != [] && IsSpace(s[0]) {
      TrimStartIsSuffix(s[1..]);
    }
  }

  /** What TrimStart drops is whitespace. */
  lemma {:induction false} TrimStartDropsSpace(s: string)
    ensures AllSpace(s[..|s| - |TrimStart(s)|])
  {
    if s != [] && IsSpace(s[0]) {
      TrimStartDropsSpace(s[1..]);
      var r := TrimStart(s[1..]);
      assert s[..|s| - |r|] == [s[0]] + s[1..][..|s| - 1 - |r|];
    }
  }

  /** Drops the trailing whitespace: what remains is a prefix of s that does
      not end with whitespace. */
  function TrimEnd(s: string): (r: string)
    ensures |r| <= |s|
    ensures r != [] ==> r[0] == s[0] && !IsSpace(r[|r| - 1])
  {
    if s != [] && IsSpace(s[|s| - 1]) then TrimEnd(s[..|s| - 1]) else s
  }

  lemma {:induction false} TrimEndIsPrefix(s: string)
    ensures TrimEnd(s) == s[..|TrimEnd(s)|]
  {
    if s != [] && IsSpace(s[|s| - 1]) {
      TrimEndIsPrefix(s[..|s| - 1]);
    }
  }

  /** What TrimEnd drops is whitespace. */
  lemma {:induction false} TrimEndDropsSpace(s: string)
    ensures AllSpace(s[|TrimEnd(s)|..])
  {
    if s != [] && IsSpace(s[|s| - 1]) {
      TrimEndDropsSpace(s[..|s| - 1]);
      var r := TrimEnd(s[..|s| - 1]);
      assert s[|r|..] == s[..|s| - 1][|r|..] + [s[|s| - 1]];
    }
  }

  /** String.prototype.trim: the result has no whitespace at either end;
      TrimIsSlice and TrimDropsOnlySpace say where in s it comes from. */
  function Trim(s: string): (r: string)
    ensures Trimmed(r)
  {
    TrimEnd(TrimStart(s))
  }

  /** How many whitespace characters lead s. */
  function TrimOffset(s: string): (i: nat)
    ensures i <= |s|
  {
    |s| - |TrimStart(s)|
  }

  /** The trimmed string is the piece of s that starts after the leading
      whitespace. */
  lemma TrimIsSlice(s: string)
    ensures TrimOffset(s) + |Trim(s)| <= |s|
    ensures Trim(s) == s[TrimOffset(s)..TrimOffset(s) + |Trim(s)|]
  {
    TrimStartIsSuffix(s);
    TrimEndIsPrefix(TrimStart(s));
  }

  /** Only whitespace surrounds the trimmed piece. */
  lemma TrimDropsOnlySpace(s: string)
    ensures TrimOffset(s) + |Trim(s)| <= |s|
    ensures AllSpace(s[..TrimOffset(s)]) && AllSpace(s[TrimOffset(s) + |Trim(s)|..])
  {
    var t := TrimStart(s);
    TrimStartIsSuffix(s);
    TrimStartDropsSpace(s);
    TrimEndDropsSpace(t);
    assert s[TrimOffset(s) + |Trim(s)|..] == t[|Trim(s)|..];
  }


  /** Leading whitespace is dropped whatever follows it. */
  lemma {:induction false} TrimStartDropsPrefix(a: string, x: string)
    requires AllSpace(a)
    ensures TrimStart(a + x) == TrimStart(x)
  {
    if a == [] {
      assert a + x == x;
    } else {
      assert (a + x)[1..] == a[1..] + x;
      TrimStartDropsPrefix(a[1..], x);
    }
  }

  /** TrimStart stops inside x unless x is all whitespace, so trailing
      whitespace survives it. */
  lemma {:induction false} TrimStartKeepsSuffix(x: string, b: string)
    requires AllSpace(b)
    ensures TrimStart(x + b) == if AllSpace(x) then TrimStart(b) else TrimStart(x) + b
  {
    if x == [] {
      assert x + b == b;
    } else {
      assert (x + b)[0] == x[0];
      assert (x + b)[1..] == x[1..] + b;
      if IsSpace(x[0]) {
        TrimStartKeepsSuffix(x[1..], b);
        assert AllSpace(x) <==> AllSpace(x[1..]) by {
          if AllSpace(x[1..]) {
            forall k | 0 <= k < |x| ensures IsSpace(x[k]) {
              if k > 0 { assert x[k] == x[1..][k - 1]; }
            }
          }
        }
      }
    }
  }

  /** Trailing whitespace is dropped whatever precedes it. */
  lemma {:induction false} TrimEndDropsSuffix(x: string, b: string)
    requires AllSpace(b)
    ensures TrimEnd(x + b) == TrimEnd(x)
  {
    if b == [] {
      assert x + b == x;
    } else {
      assert (x + b)[..|x + b| - 1] == x + b[..|b| - 1];
      TrimEndDropsSuffix(x, b[..|b| - 1]);
    }
  }

  /** A string made of whitespace trims to the empty string from either end. */
  lemma {:induction false} TrimAllSpace(b: string)
    requires AllSpace(b)
    ensures TrimStart(b) == [] && TrimEnd(b) == []
  {
    if b != [] {
      TrimAllSpace(b[1..]);
      TrimAllSpace(b[..|b| - 1]);
    }
  }

  /** Whitespace around a string does not change what trim returns. */
  lemma TrimIgnoresPadding(a: string, s: string, b: string)
    requires AllSpace(a) && AllSpace(b)
    ensures Trim(a + s + b) == Trim(s)
  {
    assert a + s + b == a + (s + b);
    TrimStartDropsPrefix(a, s + b);
    TrimStartKeepsSuffix(s, b);
    if AllSpace(s) {
      TrimAllSpace(b);
      TrimAllSpace(s);
    } else {
      TrimEndDropsSuffix(TrimStart(s), b);
    }
  }

  /** A string with no whitespace at either end is its own trim. */
  lemma TrimOfTrimmed(v: string)
    requires Trimmed(v)
    ensures Trim(v) == v
  {
  }

  /** The decomposition around a trimmed core is unique, so Trim is the only
      function with Trim's contract. */
  lemma TrimUnique(s: string, a: string, m: string, b: string)
    requires s == a + m + b && AllSpace(a) && AllSpace(b) && Trimmed(m)
    ensures Trim(s) == m
  {
    TrimIgnoresPadding(a, m, b);
    TrimOfTrimmed(m);
  }

  /** Trimming twice is trimming once. */
  lemma TrimIdempotent(s: string)
    ensures Trim(Trim(s)) == Trim(s)
  {
    TrimOfTrimmed(Trim(s));
  }

  /** The number of UTF-16 code units of c: two outside the Basic
      Multilingual Plane, one inside it. */
  function CodeUnits(c: char): (u: nat)
    ensures 1 <= u <= 2
    ensures u == 1 <==> c as int <= 0xFFFF
  {
    if c as int > 0xFFFF then 2 else 1
  }

  /** The number of UTF-16 code units of s, which is what .length counts. */
  function Utf16Length(s: string): (n: nat)
    ensures |s| <= n <= 2 * |s|
  {
    if s == [] then 0 else CodeUnits(s[0]) + Utf16Length(s[1..])
  }

  /** Within the Basic Multilingual Plane .length is the number of characters. */
  lemma {:induction false} BmpLength(s: string)
    requires forall k :: 0 <= k < |s| ==> s[k] as int <= 0xFFFF
    ensures Utf16Length(s) == |s|
  {
    if s != [] {
      assert forall k :: 0 <= k < |s[1..]| ==> s[1..][k] == s[k + 1];
      BmpLength(s[1..]);
    }
  }
}
