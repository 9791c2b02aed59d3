/**
 * Values and string operations the service relies on from Python itself:
 * optional values, `str.strip()`, `str.upper()`, `str.replace(p, '')`,
 * `str.split(c)` / `c.join(...)`, `str(int)` and `secrets.token_hex(n).upper()`.
 */
module Common {

  datatype Option<+T> = None | Some(value: T) {
    /** Python's `d.get(key, default)` on a value that may be absent. */
    function GetOr(default: T): T {
      match this
      case Some(v) => v
      case None => default
    }
  }

  newtype byte = x: int | 0 <= x < 256

  // ---------------------------------------------------------------------
  // str.strip()

  /** The characters for which Python's `str.isspace()` holds. */
  predicate IsSpace(c: char) {
    || ('\t' <= c <= '\r')
    || ('\U{1C}' <= c <= ' ')
    || c == '\U{85}' || c == '\U{A0}' || c == '\U{1680}'
    || ('\U{2000}' <= c <= '\U{200A}')
    || c == '\U{2028}' || c == '\U{2029}' || c == '\U{202F}' || c == '\U{205F}' || c == '\U{3000}'
  }

  predicate AllSpace(s: string) {
    forall k :: 0 <= k < |s| ==> IsSpace(s[k])
  }

  /** Neither end of `s` is whitespace: what `strip()` always produces. */
  predicate Unpadded(s: string) {
    s == [] || (!IsSpace(s[0]) && !IsSpace(s[|s| - 1]))
  }

  /** The length of the whitespace run that starts `s`. */
  function LeadingSpaces(s: string): (n: nat)
    ensures n <= |s|
    ensures forall k :: 0 <= k < n ==> IsSpace(s[k])
    ensures n == |s| || !IsSpace(s[n])
  {
    if |s| == 0 || !IsSpace(s[0]) then 0 else 1 + LeadingSpaces(s[1..])
  }

  /** The length of the whitespace run that ends `s`. */
  function TrailingSpaces(s: string): (n: nat)
    ensures n <= |s|
    ensures forall k :: |s| - n <= k < |s| ==> IsSpace(s[k])
    ensures n == |s| || !IsSpace(s[|s| - 1 - n])
  {
    if |s| == 0 || !IsSpace(s[|s| - 1]) then 0 else 1 + TrailingSpaces(s[..|s| - 1])
  }

  /** Python's `s.strip()`: the slice of `s` between its leading and trailing whitespace. */
  function Strip(s: string): (r: string)
    ensures Unpadded(r)
    ensures |r| <= |s|
    ensures forall c :: c in r ==> c in s
  {
    var t := s[LeadingSpaces(s)..];
    t[..|t| - TrailingSpaces(t)]
  }

  /** `strip()` removes exactly the surrounding whitespace and nothing of the text inside it. */
  lemma StripPadded(pre: string, t: string, post: string)
    requires AllSpace(pre) && AllSpace(post) && Unpadded(t)
    ensures Strip(pre + t + post) == t
  {
    var s := pre + t + post;
    var n := LeadingSpaces(s);
    if t == [] {
      assert s == pre + post;
      assert AllSpace(s);
      assert n == |s|;
    } else {
      assert s[|pre|] == t[0];
      assert n == |pre|;
      var u := s[n..];
      assert u == t + post;
      var m := TrailingSpaces(u);
      assert u[|t| - 1] == t[|t| - 1];
      assert m == |post|;
      assert u[..|u| - m] == t;
    }
  }

  lemma StripIdempotent(s: string)
    ensures Strip(Strip(s)) == Strip(s)
  {
    StripPadded([], Strip(s), []);
    assert [] + Strip(s) + [] == Strip(s);
  }

  // ---------------------------------------------------------------------
  // str.upper() on ASCII letters

  function UpperChar(c: char): char {
    if 'a' <= c <= 'z' then (c as int - 32) as char else c
  }

  /** Python's `s.upper()`, restricted to ASCII letters. */
  function Upper(s: string): (r: string)
    ensures |r| == |s|
    ensures forall i :: 0 <= i < |s| ==> r[i] == UpperChar(s[i])
  {
    if s == [] then [] else [UpperChar(s[0])] + Upper(s[1..])
  }

  predicate NoLowerAscii(s: string) {
    forall i :: 0 <= i < |s| ==> !('a' <= s[i] <= 'z')
  }

  /** A string without lower-case ASCII letters is its own upper-case form. */
  lemma UpperFixed(s: string)
    requires NoLowerAscii(s)
    ensures Upper(s) == s
  {
    var r := Upper(s);
    assert forall i :: 0 <= i < |s| ==> r[i] == s[i];
  }

  // ---------------------------------------------------------------------
  // Substrings and str.replace(p, '')

  /** `p` occurs in `s` (the `LIKE '%p%'` test, case-sensitive). */
  predicate Contains(s: string, p: string)
    decreases |s|
  {
    p <= s || (|s| > 0 && Contains(s[1..], p))
  }

  /** Python's `s.replace(p, '')`: every left-to-right, non-overlapping occurrence of `p` removed. */
  function RemoveAll(s: string, p: string): (r: string)
    requires p != []
    ensures |r| <= |s|
    decreases |s|
  {
    if |s| < |p| then s
    else if s[..|p|] == p then RemoveAll(s[|p|..], p)
    else [s[0]] + RemoveAll(s[1..], p)
  }

  /** Removing a pattern that does not occur leaves the string as it is. */
  lemma {:induction false} RemoveAllAbsent(s: string, p: string)
    requires p != [] && !Contains(s, p)
    ensures RemoveAll(s, p) == s
    decreases |s|
  {
    if |s| >= |p| {
      assert s[..|p|] != p by { assert !(p <= s); }
      RemoveAllAbsent(s[1..], p);
      assert [s[0]] + s[1..] == s;
    }
  }

  /** A pattern whose first character never appears in `s` does not occur in `s`. */
  lemma {:induction false} AbsentFirstChar(s: string, p: string)
    requires p != [] && p[0] !in s
    ensures !Contains(s, p)
    decreases |s|
  {
    if |s| > 0 {
      assert s[0] in s;
      assert forall c :: c in s[1..] ==> c in s;
      AbsentFirstChar(s[1..], p);
    }
  }

  /** A leading occurrence is removed and the rest is processed on its own. */
  lemma RemoveAllLeading(p: string, s: string)
    requires p != []
    ensures RemoveAll(p + s, p) == RemoveAll(s, p)
  {
    assert (p + s)[..|p|] == p;
    assert (p + s)[|p|..] == s;
  }

  /** `p` occurs in `s` starting at index `i`. */
  predicate OccursAt(s: string, p: string, i: nat) {
    i + |p| <= |s| && s[i..i + |p|] == p
  }

  lemma OccursAtShift(c: char, u: string, p: string, i: nat)
    ensures OccursAt([c] + u, p, i + 1) == OccursAt(u, p, i)
  {
    if i + |p| <= |u| {
      assert ([c] + u)[i + 1..i + 1 + |p|] == u[i..i + |p|];
    }
  }

  /** No occurrence of `p` starts inside `q`, so removal passes over `q` untouched. */
  lemma {:induction false} RemoveAllKeepsPrefix(q: string, s: string, p: string)
    requires p != []
    requires forall i :: 0 <= i < |q| ==> !OccursAt(q + s, p, i)
    ensures RemoveAll(q + s, p) == q + RemoveAll(s, p)
    decreases |q|
  {
    if q == [] {
      assert q + s == s;
    } else {
      var u := q[1..] + s;
      assert q + s == [q[0]] + u;
      forall i | 0 <= i < |q[1..]| ensures !OccursAt(u, p, i) {
        OccursAtShift(q[0], u, p, i);
        assert !OccursAt(q + s, p, i + 1);
      }
      RemoveAllKeepsPrefix(q[1..], s, p);
      if |q + s| >= |p| {
        assert !OccursAt(q + s, p, 0);
        assert (q + s)[..|p|] != p;
        assert (q + s)[1..] == u;
        assert RemoveAll(q + s, p) == [q[0]] + RemoveAll(u, p);
        assert [q[0]] + (q[1..] + RemoveAll(s, p)) == q + RemoveAll(s, p);
      } else {
        assert RemoveAll(q + s, p) == q + s;
        assert RemoveAll(s, p) == s;
      }
    }
  }

  // ---------------------------------------------------------------------
  // str.split(c) and c.join(parts)

  /** Python's `s.split(sep)` for a one-character separator. */
  function Split(s: string, sep: char): (parts: seq<string>)
    ensures |parts| >= 1
    ensures forall i :: 0 <= i < |parts| ==> sep !in parts[i]
  {
    if s == [] then [[]]
    else
      var rest := Split(s[1..], sep);
      if s[0] == sep then [[]] + rest
      else [[s[0]] + rest[0]] + rest[1..]
  }

  /** Python's `sep.join(parts)`. */
  function Join(parts: seq<string>, sep: char): string {
    if |parts| == 0 then []
    else if |parts| == 1 then parts[0]
    else parts[0] + [sep] + Join(parts[1..], sep)
  }

  lemma {:induction false} SplitCons(p: string, sep: char, rest: string)
    requires sep !in p
    ensures Split(p + [sep] + rest, sep) == [p] + Split(rest, sep)
    decreases |p|
  {
    var s := p + [sep] + rest;
    if p == [] {
      assert s[0] == sep && s[1..] == rest;
    } else {
      assert s[0] == p[0];
      assert s[1..] == p[1..] + [sep] + rest;
      SplitCons(p[1..], sep, rest);
      assert [p[0]] + p[1..] == p;
    }
  }

  lemma {:induction false} SplitSingle(p: string, sep: char)
    requires sep !in p
    ensures Split(p, sep) == [p]
    decreases |p|
  {
    if p != [] {
      SplitSingle(p[1..], sep);
      assert [p[0]] + p[1..] == p;
    }
  }

  /** Splitting what was joined gives back the parts, when no part holds the separator. */
  lemma {:induction false} SplitJoin(parts: seq<string>, sep: char)
    requires |parts| >= 1
    requires forall i :: 0 <= i < |parts| ==> sep !in parts[i]
    ensures Split(Join(parts, sep), sep) == parts
    decreases |parts|
  {
    if |parts| == 1 {
      SplitSingle(parts[0], sep);
    } else {
      SplitJoin(parts[1..], sep);
      SplitCons(parts[0], sep, Join(parts[1..], sep));
      assert [parts[0]] + parts[1..] == parts;
    }
  }

  /** Joining what was split gives back the string. */
  lemma {:induction false} JoinSplit(s: string, sep: char)
    ensures Join(Split(s, sep), sep) == s
    decreases |s|
  {
    if s != [] {
      var rest := Split(s[1..], sep);
      JoinSplit(s[1..], sep);
      if s[0] == sep {
        assert Split(s, sep) == [[]] + rest;
        assert s == [] + [sep] + s[1..];
      } else {
        var parts := Split(s, sep);
        assert parts == [[s[0]] + rest[0]] + rest[1..];
        assert parts[1..] == rest[1..];
        if |rest| == 1 {
          assert Join(rest, sep) == rest[0];
        } else {
          assert Join(rest, sep) == rest[0] + [sep] + Join(rest[1..], sep);
        }
      }
    }
  }

  // ---------------------------------------------------------------------
  // str(int)

  function DigitChar(d: nat): char
    requires d < 10
  {
    ('0' as int + d) as char
  }

  /** Decimal digits of `n`, most significant first, with no leading zero. */
  function NatToString(n: nat): (r: string)
    ensures |r| >= 1
    ensures forall i :: 0 <= i < |r| ==> '0' <= r[i] <= '9'
    decreases n
  {
    if n < 10 then [DigitChar(n)] else NatToString(n / 10) + [DigitChar(n % 10)]
  }

  /** Python's `str(n)` for an integer. */
  function IntToString(n: int): (r: string)
    ensures r != []
    ensures (r[0] == '-') == (n < 0)
  {
    if n < 0 then "-" + NatToString(-n) else NatToString(n)
  }

  /** The value of a string of decimal digits (the inverse of `NatToString`). */
  function DecimalValue(s: string): nat
    requires forall i :: 0 <= i < |s| ==> '0' <= s[i] <= '9'
  {
    if s == [] then 0 else 10 * DecimalValue(s[..|s| - 1]) + (s[|s| - 1] as int - '0' as int)
  }

  lemma {:induction false} DecimalRoundTrip(n: nat)
    ensures DecimalValue(NatToString(n)) == n
    decreases n
  {
    if n >= 10 {
      var r := NatToString(n);
      assert r[..|r| - 1] == NatToString(n / 10);
      DecimalRoundTrip(n / 10);
    }
  }

  /** Different natural numbers have different decimal texts. */
  lemma NatToStringInjective(a: nat, b: nat)
    requires NatToString(a) == NatToString(b)
    ensures a == b
  {
    DecimalRoundTrip(a);
    DecimalRoundTrip(b);
  }

  /** `str` gives different integers different strings. */
  lemma IntToStringInjective(a: int, b: int)
    requires IntToString(a) == IntToString(b)
    ensures a == b
  {
    var s := IntToString(a);
    if a < 0 {
      assert b < 0 by { assert s[0] == '-'; }
      assert NatToString(-a) == s[1..] == NatToString(-b);
      NatToStringInjective(-a, -b);
    } else {
      assert b >= 0 by { assert s[0] != '-'; }
      NatToStringInjective(a, b);
    }
  }

  // ---------------------------------------------------------------------
  // secrets.token_hex(n).upper()

  predicate IsUpperHexChar(c: char) {
    ('0' <= c <= '9') || ('A' <= c <= 'F')
  }

  function HexChar(d: nat): (c: char)
    requires d < 16
    ensures IsUpperHexChar(c)
  {
    if d < 10 then ('0' as int + d) as char else ('A' as int + d - 10) as char
  }

  function HexCharValue(c: char): nat
    requires IsUpperHexChar(c)
  {
    if c <= '9' then c as int - '0' as int else c as int - 'A' as int + 10
  }

  /** `bytes.hex().upper()`: two upper-case hexadecimal characters per byte, high nibble first. */
  function HexUpper(bytes: seq<byte>): (r: string)
    ensures |r| == 2 * |bytes|
    ensures forall i :: 0 <= i < |r| ==> IsUpperHexChar(r[i])
  {
    if bytes == [] then []
    else [HexChar(bytes[0] as nat / 16), HexChar(bytes[0] as nat % 16)] + HexUpper(bytes[1..])
  }

  /** Reads back a string of upper-case hexadecimal pairs. */
  function ParseHex(s: string): seq<byte>
    requires |s| % 2 == 0
    requires forall i :: 0 <= i < |s| ==> IsUpperHexChar(s[i])
  {
    if s == [] then []
    else [(16 * HexCharValue(s[0]) + HexCharValue(s[1])) as byte] + ParseHex(s[2..])
  }

  /** The hexadecimal form loses nothing: it reads back to the same bytes. */
  lemma {:induction false} HexRoundTrip(bytes: seq<byte>)
    ensures ParseHex(HexUpper(bytes)) == bytes
  {
    if bytes != [] {
      var r := HexUpper(bytes);
      assert r[2..] == HexUpper(bytes[1..]);
      HexRoundTrip(bytes[1..]);
      assert [bytes[0]] + bytes[1..] == bytes;
    }
  }

  /** An upper-case hexadecimal string is unchanged by `upper()`. */
  lemma HexUpperIsUpper(bytes: seq<byte>)
    ensures Upper(HexUpper(bytes)) == HexUpper(bytes)
  {
    UpperFixed(HexUpper(bytes));
  }
}
